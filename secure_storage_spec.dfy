/**
 * What the secure-storage trusted application does, as functions of the
 * provider's state, the environment's answers, the declared parameter
 * types and the four parameter slots.
 *
 * Each handler is split as the C code is: a body that runs until the
 * first failure (or to the end) and leaves behind the handles it holds,
 * and the shared `out:` cleanup, `Finish`, which releases them.
 */
module SecureStorageSpec {
  import opened Wrappers
  import opened TeeTypes
  import opened TeeModel

  /** Command identifiers of the trusted application. */
  const GenerateKeyPairId: uint32 := 0x1
  const DecryptDataId: uint32 := 0x2

  /** TEE_TYPE_RSA_KEYPAIR */
  const RsaKeyPair: uint32 := 0xA100_0030
  /** TEE_ALG_RSA_NOPAD */
  const RsaNoPad: uint32 := 0x6000_0030
  /** TEE_MODE_DECRYPT */
  const ModeDecrypt: uint32 := 1
  /** TEE_STORAGE_PRIVATE */
  const StoragePrivate: uint32 := 1
  /** The key size GenerateKeyPair asks for, in bits. */
  const KeyBits: uint32 := 2048
  /** The handler's own `obj_id`: the identifier every generated key is stored under. */
  const GeneratedId: ObjectId := 0

  const OpenSessionTypes: bv32 := Pack(TypeVector(Absent, Absent, Absent, Absent))
  const GenerateKeyPairTypes: bv32 := Pack(TypeVector(ValueOutput, Absent, Absent, Absent))
  const DecryptDataTypes: bv32 := Pack(TypeVector(ValueInput, MemrefInput, MemrefOutput, Absent))

  /** Where a handler stands when it reaches its cleanup label. */
  datatype Progress = Progress(
    world: World,
    res: Status,
    pObject: Handle,
    tObject: Handle,
    operation: Handle,
    params: seq<TeeParam>,
    trace: seq<Call>)

  /** What a handler leaves behind: its result, the provider's state, the slots and the calls it made. */
  datatype Outcome = Outcome(res: Status, world: World, params: seq<TeeParam>, trace: seq<Call>)

  /** Every non-null handle of the progress is live in its world. */
  ghost predicate Holds(p: Progress) {
    && Valid(p.world)
    && |p.params| == 4
    && (p.pObject != NullHandle ==> p.pObject in p.world.persistents)
    && (p.tObject != NullHandle ==> p.tObject in p.world.transients)
    && (p.operation != NullHandle ==> p.operation in p.world.operations)
  }

  /** The resources three handles stand for; the null handle stands for none. */
  function HeldOf(pObject: Handle, tObject: Handle, operation: Handle): multiset<Resource> {
    (if pObject != NullHandle then multiset{PersistentRes(pObject)} else multiset{})
    + (if tObject != NullHandle then multiset{TransientRes(tObject)} else multiset{})
    + (if operation != NullHandle then multiset{OperationRes(operation)} else multiset{})
  }

  /** The resources a progress holds. */
  function Held(p: Progress): multiset<Resource> {
    HeldOf(p.pObject, p.tObject, p.operation)
  }

  /** Nothing called, nothing held: where a handler stands at its cleanup label after a bad type word. */
  function Rejected(w: World, params: seq<TeeParam>): Progress {
    Progress(w, BadParameters, NullHandle, NullHandle, NullHandle, params, [])
  }

  /** The provider's state after a cleanup and the release calls the cleanup made. */
  datatype Teardown = Teardown(world: World, calls: seq<Call>)

  /**
   * The `out:` cleanup: close the persistent object, then free the
   * transient object, then free the operation, each only when held.
   */
  function Cleanup(w: World, pObject: Handle, tObject: Handle, operation: Handle): (c: Teardown)
    requires Valid(w)
    requires pObject != NullHandle ==> pObject in w.persistents
    requires tObject != NullHandle ==> tObject in w.transients
    requires operation != NullHandle ==> operation in w.operations
    ensures Valid(c.world)
  {
    var (w1, t1) :=
      if pObject != NullHandle then var s := CloseObject(w, pObject); (s.world, [s.call])
      else (w, []);
    var (w2, t2) :=
      if tObject != NullHandle then var s := FreeTransientObject(w1, tObject); (s.world, [s.call])
      else (w1, []);
    var (w3, t3) :=
      if operation != NullHandle then var s := FreeOperation(w2, operation); (s.world, [s.call])
      else (w2, []);
    Teardown(w3, t1 + t2 + t3)
  }

  /** A handler's outcome: where it stood at the `out:` label, followed by the cleanup. */
  function Finish(p: Progress): (o: Outcome)
    requires Holds(p)
    ensures Valid(o.world) && o.res == p.res && o.params == p.params
  {
    var c := Cleanup(p.world, p.pObject, p.tObject, p.operation);
    Outcome(p.res, c.world, p.params, p.trace + c.calls)
  }

  // ---------------------------------------------------------------------
  // TA_GenerateKeyPair

  /** From the transient allocation to the `out:` label. */
  function GenerateBody(env: Env, w: World, params: seq<TeeParam>): (p: Progress)
    requires Valid(w) && |params| == 4
    ensures Holds(p)
  {
    var alloc := AllocateTransientObject(env, w, RsaKeyPair, KeyBits);
    var tObject := alloc.call.h;
    if alloc.call.res != Success then
      Progress(alloc.world, alloc.call.res, NullHandle, tObject, NullHandle, params, [alloc.call])
    else
      var gen := GenerateKey(env, alloc.world, tObject, KeyBits);
      if gen.call.res != Success then
        Progress(gen.world, gen.call.res, NullHandle, tObject, NullHandle, params, [alloc.call, gen.call])
      else
        var create := CreatePersistentObject(env, gen.world, StoragePrivate, GeneratedId, AccessWrite | AccessRead, tObject);
        var params' := if create.call.res == Success then params[0 := params[0].(a := GeneratedId)] else params;
        Progress(create.world, create.call.res, NullHandle, tObject, NullHandle, params', [alloc.call, gen.call, create.call])
  }

  /** TA_GenerateKeyPair: check the declared types, generate and persist an RSA key pair, report its identifier. */
  function GenerateKeyPair(env: Env, w: World, paramTypes: bv32, params: seq<TeeParam>): (o: Outcome)
    requires Valid(w) && |params| == 4
    ensures Valid(o.world) && |o.params| == 4
  {
    Finish(if paramTypes != GenerateKeyPairTypes then Rejected(w, params) else GenerateBody(env, w, params))
  }

  // ---------------------------------------------------------------------
  // TA_DecryptData

  /** From the open of the persistent object to the `out:` label. */
  function DecryptBody(env: Env, w: World, params: seq<TeeParam>): (p: Progress)
    requires Valid(w) && |params| == 4
    ensures Holds(p)
  {
    var open := OpenPersistentObject(env, w, StoragePrivate, params[0].a, AccessRead | ShareRead);
    if open.call.res != Success then
      Progress(open.world, open.call.res, open.call.h, NullHandle, NullHandle, params, [open.call])
    else
      var q := DecryptOpened(env, open.world, params, open.call.h);
      q.(trace := [open.call] + q.trace)
  }

  /**
   * With the persistent object open: read its info, answer a size probe,
   * or go on to decrypt. The trace holds the calls of this stage onward.
   */
  function DecryptOpened(env: Env, w: World, params: seq<TeeParam>, pObject: Handle): (p: Progress)
    requires Valid(w) && |params| == 4 && pObject in w.persistents && pObject != NullHandle
    ensures Holds(p) && p.pObject == pObject
  {
    var get := GetObjectInfo1(env, w, pObject);
    var objectInfo := get.call.info;
    if get.call.res != Success then
      Progress(get.world, get.call.res, pObject, NullHandle, NullHandle, params, [get.call])
    else if params[2].buffer == Null then
      Progress(get.world, Success, pObject, NullHandle, NullHandle,
               params[2 := params[2].(size := objectInfo.objectSize)], [get.call])
    else
      var q := DecryptCopyKey(env, get.world, params, pObject, objectInfo);
      q.(trace := [get.call] + q.trace)
  }

  /**
   * An allocation DecryptData makes for a stored object described by `info`:
   * a transient object of the object's type and size, or an RSA_NOPAD
   * decrypt operation of the object's size. Other calls allocate nothing.
   */
  predicate AllocatesFor(c: Call, info: ObjectInfo) {
    && (c.AllocTransient? ==> c.objectType == info.objectType && c.maxObjectSize == info.objectSize)
    && (c.AllocOperation? ==> c.algorithm == RsaNoPad && c.mode == ModeDecrypt && c.maxKeySize == info.objectSize)
  }

  /** Allocate a transient object like the stored one and copy the stored key into it. */
  function DecryptCopyKey(env: Env, w: World, params: seq<TeeParam>, pObject: Handle, objectInfo: ObjectInfo): (p: Progress)
    requires Valid(w) && |params| == 4 && pObject in w.persistents && pObject != NullHandle
    ensures Holds(p) && p.pObject == pObject
    ensures forall i | 0 <= i < |p.trace| :: AllocatesFor(p.trace[i], objectInfo)
  {
    var alloc := AllocateTransientObject(env, w, objectInfo.objectType, objectInfo.objectSize);
    var tObject := alloc.call.h;
    if alloc.call.res != Success then
      Progress(alloc.world, alloc.call.res, pObject, tObject, NullHandle, params, [alloc.call])
    else
      var copy := CopyObjectAttributes1(env, alloc.world, tObject, pObject);
      if copy.call.res != Success then
        Progress(copy.world, copy.call.res, pObject, tObject, NullHandle, params, [alloc.call, copy.call])
      else
        var q := DecryptRun(env, copy.world, params, pObject, tObject, objectInfo);
        q.(trace := [alloc.call, copy.call] + q.trace)
  }

  /** Allocate an RSA_NOPAD decrypt operation, set the key into it and decrypt slot 1 into slot 2. */
  function DecryptRun(env: Env, w: World, params: seq<TeeParam>, pObject: Handle, tObject: Handle,
                      objectInfo: ObjectInfo): (p: Progress)
    requires Valid(w) && |params| == 4
    requires pObject in w.persistents && pObject != NullHandle && tObject in w.transients && tObject != NullHandle
    ensures Holds(p) && p.pObject == pObject && p.tObject == tObject
    ensures forall i | 0 <= i < |p.trace| :: AllocatesFor(p.trace[i], objectInfo)
  {
    var alloc := AllocateOperation(env, w, RsaNoPad, ModeDecrypt, objectInfo.objectSize);
    var operation := alloc.call.h;
    if alloc.call.res != Success then
      Progress(alloc.world, alloc.call.res, pObject, tObject, operation, params, [alloc.call])
    else
      var setKey := SetOperationKey(env, alloc.world, operation, tObject);
      if setKey.call.res != Success then
        Progress(setKey.world, setKey.call.res, pObject, tObject, operation, params, [alloc.call, setKey.call])
      else
        var dec := AsymmetricDecrypt(env, setKey.world, operation, params[1].buffer, params[1].size,
                                     params[2].buffer, params[2].size);
        Progress(dec.world, dec.call.res, pObject, tObject, operation,
                 params[2 := params[2].(size := dec.call.outLen)], [alloc.call, setKey.call, dec.call])
  }

  /**
   * TA_DecryptData: check the declared types, open the key named by slot 0,
   * then either report its size (NULL output buffer) or decrypt slot 1 into slot 2.
   */
  function DecryptData(env: Env, w: World, paramTypes: bv32, params: seq<TeeParam>): (o: Outcome)
    requires Valid(w) && |params| == 4
    ensures Valid(o.world) && |o.params| == 4
  {
    Finish(if paramTypes != DecryptDataTypes then Rejected(w, params) else DecryptBody(env, w, params))
  }

  // ---------------------------------------------------------------------
  // Entry points

  /** The two commands the application serves. */
  datatype Command = GenerateKeyPairCommand | DecryptDataCommand

  /** The `switch` of TA_InvokeCommandEntryPoint: command 2 decrypts, command 1 generates, nothing else is served. */
  function Route(cmdId: uint32): (r: Option<Command>)
    ensures r == Some(DecryptDataCommand) <==> cmdId == 2
    ensures r == Some(GenerateKeyPairCommand) <==> cmdId == 1
  {
    if cmdId == DecryptDataId then Some(DecryptDataCommand)
    else if cmdId == GenerateKeyPairId then Some(GenerateKeyPairCommand)
    else None
  }

  /** TA_InvokeCommandEntryPoint: run the routed handler, or fail with TEE_ERROR_BAD_PARAMETERS. */
  function InvokeCommand(env: Env, w: World, cmdId: uint32, paramTypes: bv32, params: seq<TeeParam>): (o: Outcome)
    requires Valid(w) && |params| == 4
    ensures Valid(o.world) && |o.params| == 4
    ensures cmdId != 1 && cmdId != 2 ==> o == Outcome(BadParameters, w, params, [])
  {
    match Route(cmdId)
    case Some(DecryptDataCommand) => DecryptData(env, w, paramTypes, params)
    case Some(GenerateKeyPairCommand) => GenerateKeyPair(env, w, paramTypes, params)
    case None => Outcome(BadParameters, w, params, [])
  }

  /**
   * TA_OpenSessionEntryPoint: a session opens exactly when every slot of
   * the type word is TEE_PARAM_TYPE_NONE and no bit above the four slots is
   * set; any other word is answered with TEE_ERROR_BAD_PARAMETERS.
   */
  function OpenSession(paramTypes: bv32): (r: Status)
    ensures r == Success <==> (forall i | 0 <= i < 4 :: Slot(paramTypes, i) == Code(Absent)) && paramTypes >> 16 == 0
    ensures r == Success || r == BadParameters
  {
    var v := TypeVector(Absent, Absent, Absent, Absent);
    MatchesSlotwise(paramTypes, v);
    assert forall i | 0 <= i < 4 :: v.At(i) == Absent;
    if paramTypes != OpenSessionTypes then BadParameters else Success
  }
}
