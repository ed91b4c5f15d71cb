/**
 * The entry points of the secure-storage trusted application, step by
 * step as the C handlers run them: each handler keeps its handles in
 * locals, leaves through the labelled `out` block on the first failure,
 * and releases what it holds after it. Each is proved to do exactly what
 * SecureStorageSpec says, so every property proved there holds of it.
 */
module SecureStorageEntry {
  import opened Wrappers
  import opened TeeTypes
  import opened TeeModel
  import opened TeeProvider
  import Spec = SecureStorageSpec

  method GenerateKeyPair(tee: Tee, paramTypes: bv32, params: array<TeeParam>) returns (res: Status)
    requires tee.Valid() && params.Length == 4
    modifies tee, params
    ensures tee.Valid()
    ensures var o := Spec.GenerateKeyPair(tee.env, old(tee.world), paramTypes, old(params[..]));
      res == o.res && tee.world == o.world && params[..] == o.params && tee.log == old(tee.log) + o.trace
  {
    var tObject := NullHandle;
    label out: {
      if paramTypes != Spec.GenerateKeyPairTypes {
        res := BadParameters;
        break out;
      }
      res, tObject := GenerateBody(tee, params);
    }
    ghost var p := if paramTypes != Spec.GenerateKeyPairTypes then Spec.Rejected(old(tee.world), old(params[..]))
                   else Spec.GenerateBody(tee.env, old(tee.world), old(params[..]));
    assert p == Spec.Progress(tee.world, res, NullHandle, tObject, NullHandle, params[..], tee.log[|old(tee.log)|..]);
    ghost var c := Spec.Cleanup(tee.world, NullHandle, tObject, NullHandle);
    ghost var slots := params[..];
    if tObject != NullHandle {
      tee.FreeTransientObject(tObject);
    }
    assert tee.world == c.world && tee.log == old(tee.log) + p.trace + c.calls;
    Regroup(old(tee.log), p.trace, c.calls);
    assert params[..] == slots;
  }

  /**
   * TA_GenerateKeyPair from the allocation of the transient object to the
   * `out` label: a return here is a jump to that label, and the handle it
   * returns is the one the caller frees.
   */
  method GenerateBody(tee: Tee, params: array<TeeParam>) returns (res: Status, tObject: Handle)
    requires tee.Valid() && params.Length == 4
    modifies tee, params
    ensures tee.Valid()
    ensures var p := Spec.GenerateBody(tee.env, old(tee.world), old(params[..]));
      res == p.res && tObject == p.tObject && tee.world == p.world && params[..] == p.params
      && tee.log == old(tee.log) + p.trace
  {
    res, tObject := tee.AllocateTransientObject(Spec.RsaKeyPair, Spec.KeyBits);
    if res != Success {
      return;
    }
    res := tee.GenerateKey(tObject, Spec.KeyBits);
    if res != Success {
      return;
    }
    res := tee.CreatePersistentObject(Spec.StoragePrivate, Spec.GeneratedId, AccessWrite | AccessRead, tObject);
    if res != Success {
      return;
    }
    params[0] := params[0].(a := Spec.GeneratedId);
  }

  method DecryptData(tee: Tee, paramTypes: bv32, params: array<TeeParam>) returns (res: Status)
    requires tee.Valid() && params.Length == 4
    modifies tee, params
    ensures tee.Valid()
    ensures var o := Spec.DecryptData(tee.env, old(tee.world), paramTypes, old(params[..]));
      res == o.res && tee.world == o.world && params[..] == o.params && tee.log == old(tee.log) + o.trace
  {
    var pObject, tObject, operation := NullHandle, NullHandle, NullHandle;
    // `trace` follows the calls made since entry, as the spec lists them.
    ghost var trace: seq<Call> := [];
    label out: {
      if paramTypes != Spec.DecryptDataTypes {
        res := BadParameters;
        break out;
      }
      var objId := params[0].a;
      ghost var w0 := tee.world;
      res, pObject := tee.OpenPersistentObject(Spec.StoragePrivate, objId, AccessRead | ShareRead);
      trace := [TeeModel.OpenPersistentObject(tee.env, w0, Spec.StoragePrivate, objId, AccessRead | ShareRead).call];
      if res != Success {
        break out;
      }
      ghost var q := Spec.DecryptOpened(tee.env, tee.world, params[..], pObject);
      res, tObject, operation := DecryptOpened(tee, params, pObject);
      Regroup(old(tee.log), trace, q.trace);
      trace := trace + q.trace;
    }
    ghost var p := if paramTypes != Spec.DecryptDataTypes then Spec.Rejected(old(tee.world), old(params[..]))
                   else Spec.DecryptBody(tee.env, old(tee.world), old(params[..]));
    assert p == Spec.Progress(tee.world, res, pObject, tObject, operation, params[..], trace);
    assert tee.log == old(tee.log) + p.trace;
    ghost var c := Spec.Cleanup(tee.world, pObject, tObject, operation);
    Cleanup(tee, pObject, tObject, operation);
    Regroup(old(tee.log), p.trace, c.calls);
  }

  /**
   * The part of TA_DecryptData that runs with the persistent object open,
   * up to the `out` label: a return here is a jump to that label, and the
   * handles it returns are the ones the caller's cleanup releases.
   */
  method DecryptOpened(tee: Tee, params: array<TeeParam>, pObject: Handle)
    returns (res: Status, tObject: Handle, operation: Handle)
    requires tee.Valid() && params.Length == 4 && pObject in tee.world.persistents && pObject != NullHandle
    modifies tee, params
    ensures tee.Valid()
    ensures var p := Spec.DecryptOpened(tee.env, old(tee.world), old(params[..]), pObject);
      res == p.res && tObject == p.tObject && operation == p.operation && tee.world == p.world
      && params[..] == p.params && tee.log == old(tee.log) + p.trace
  {
    tObject, operation := NullHandle, NullHandle;
    var objectInfo;
    ghost var w0 := tee.world;
    res, objectInfo := tee.GetObjectInfo1(pObject);
    if res != Success {
      return;
    }
    if params[2].buffer == Null {
      params[2] := params[2].(size := objectInfo.objectSize);
      return;
    }
    ghost var q := Spec.DecryptCopyKey(tee.env, tee.world, params[..], pObject, objectInfo);
    res, tObject, operation := DecryptCopyKey(tee, params, pObject, objectInfo);
    Regroup(old(tee.log), [TeeModel.GetObjectInfo1(tee.env, w0, pObject).call], q.trace);
  }

  /** The key-copy part of TA_DecryptData: a transient object like the stored one, holding the stored key. */
  method DecryptCopyKey(tee: Tee, params: array<TeeParam>, pObject: Handle, objectInfo: ObjectInfo)
    returns (res: Status, tObject: Handle, operation: Handle)
    requires tee.Valid() && params.Length == 4 && pObject in tee.world.persistents && pObject != NullHandle
    modifies tee, params
    ensures tee.Valid()
    ensures var p := Spec.DecryptCopyKey(tee.env, old(tee.world), old(params[..]), pObject, objectInfo);
      res == p.res && tObject == p.tObject && operation == p.operation && tee.world == p.world
      && params[..] == p.params && tee.log == old(tee.log) + p.trace
  {
    operation := NullHandle;
    ghost var w0 := tee.world;
    res, tObject := tee.AllocateTransientObject(objectInfo.objectType, objectInfo.objectSize);
    if res != Success {
      return;
    }
    ghost var w1 := tee.world;
    res := tee.CopyObjectAttributes1(tObject, pObject);
    if res != Success {
      return;
    }
    ghost var calls := [TeeModel.AllocateTransientObject(tee.env, w0, objectInfo.objectType, objectInfo.objectSize).call,
                        TeeModel.CopyObjectAttributes1(tee.env, w1, tObject, pObject).call];
    assert tee.log == old(tee.log) + calls;
    ghost var q := Spec.DecryptRun(tee.env, tee.world, params[..], pObject, tObject, objectInfo);
    res, operation := DecryptRun(tee, params, pObject, tObject, objectInfo);
    Regroup(old(tee.log), calls, q.trace);
  }

  /** The operation part of TA_DecryptData, from the allocation of the operation to the `out` label. */
  method DecryptRun(tee: Tee, params: array<TeeParam>, pObject: Handle, tObject: Handle, objectInfo: ObjectInfo)
    returns (res: Status, operation: Handle)
    requires tee.Valid() && params.Length == 4
    requires pObject in tee.world.persistents && pObject != NullHandle
    requires tObject in tee.world.transients && tObject != NullHandle
    modifies tee, params
    ensures tee.Valid()
    ensures var p := Spec.DecryptRun(tee.env, old(tee.world), old(params[..]), pObject, tObject, objectInfo);
      res == p.res && operation == p.operation && tee.world == p.world
      && params[..] == p.params && tee.log == old(tee.log) + p.trace
  {
    res, operation := tee.AllocateOperation(Spec.RsaNoPad, Spec.ModeDecrypt, objectInfo.objectSize);
    if res != Success {
      return;
    }
    res := tee.SetOperationKey(operation, tObject);
    if res != Success {
      return;
    }
    var outLen;
    res, outLen := tee.AsymmetricDecrypt(operation, params[1].buffer, params[1].size, params[2].buffer, params[2].size);
    params[2] := params[2].(size := outLen);
  }

  /** The `out:` cleanup of TA_DecryptData: release every handle the handler holds, in its order. */
  method Cleanup(tee: Tee, pObject: Handle, tObject: Handle, operation: Handle)
    requires tee.Valid()
    requires pObject != NullHandle ==> pObject in tee.world.persistents
    requires tObject != NullHandle ==> tObject in tee.world.transients
    requires operation != NullHandle ==> operation in tee.world.operations
    modifies tee
    ensures tee.Valid()
    ensures var c := Spec.Cleanup(old(tee.world), pObject, tObject, operation);
      tee.world == c.world && tee.log == old(tee.log) + c.calls
  {
    ghost var t1, t2, t3 := [], [], [];
    if pObject != NullHandle {
      ghost var w := tee.world;
      tee.CloseObject(pObject);
      t1 := [TeeModel.CloseObject(w, pObject).call];
    }
    if tObject != NullHandle {
      ghost var w := tee.world;
      tee.FreeTransientObject(tObject);
      t2 := [TeeModel.FreeTransientObject(w, tObject).call];
    }
    if operation != NullHandle {
      ghost var w := tee.world;
      tee.FreeOperation(operation);
      t3 := [TeeModel.FreeOperation(w, operation).call];
    }
    Extend(old(tee.log), t1, t2, t3);
  }

  /** Concatenation is associative, for the four pieces of a log after a cleanup. */
  lemma Extend(log0: seq<Call>, t1: seq<Call>, t2: seq<Call>, t3: seq<Call>)
    ensures log0 + t1 + t2 + t3 == log0 + (t1 + t2 + t3)
  {
  }

  /** Concatenation is associative, for the three pieces of a log. */
  lemma Regroup(log0: seq<Call>, s: seq<Call>, t: seq<Call>)
    ensures log0 + s + t == log0 + (s + t)
  {
  }

  method InvokeCommand(tee: Tee, cmdId: uint32, paramTypes: bv32, params: array<TeeParam>) returns (res: Status)
    requires tee.Valid() && params.Length == 4
    modifies tee, params
    ensures tee.Valid()
    ensures var o := Spec.InvokeCommand(tee.env, old(tee.world), cmdId, paramTypes, old(params[..]));
      res == o.res && tee.world == o.world && params[..] == o.params && tee.log == old(tee.log) + o.trace
  {
    match Spec.Route(cmdId)
    case Some(DecryptDataCommand) =>
      res := DecryptData(tee, paramTypes, params);
    case Some(GenerateKeyPairCommand) =>
      res := GenerateKeyPair(tee, paramTypes, params);
    case None =>
      res := BadParameters;
  }
}
