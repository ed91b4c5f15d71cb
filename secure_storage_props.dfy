/**
 * What the two handlers of the secure-storage trusted application
 * guarantee, proved of SecureStorageSpec (and so, through the proofs in
 * SecureStorageEntry, of the handlers themselves).
 */
module SecureStorageProps {
  import opened Wrappers
  import opened TeeTypes
  import opened TeeModel
  import opened SecureStorageSpec

  // ---------------------------------------------------------------------
  // The calls a handler makes before its cleanup label

  /**
   * A stretch of calls up to the `out:` label: nothing is released, only
   * the last call may have failed, and the status is the first failure's.
   */
  ghost predicate Segment(t: seq<Call>, res: Status) {
    && (forall i | 0 <= i < |t| :: !t[i].IsRelease())
    && (forall i | 0 <= i < |t| - 1 :: !t[i].Failed())
    && Releases(t) == multiset{}
    && res == Verdict(t)
  }

  /**
   * Calls none of which is a release, none but the last of which failed,
   * form a segment whose status is the last call's.
   */
  lemma {:induction false} SegmentOf(t: seq<Call>)
    requires |t| > 0
    requires forall i | 0 <= i < |t| :: !t[i].IsRelease()
    requires forall i | 0 <= i < |t| - 1 :: !t[i].Failed()
    ensures !t[|t| - 1].IsRelease() && Segment(t, t[|t| - 1].res)
  {
    if |t| > 1 {
      SegmentOf(t[1..]);
      assert t[1..][|t| - 2] == t[|t| - 1];
    }
  }

  /** Calls none of which failed have no verdict of their own. */
  lemma {:induction false} NoFailure(s: seq<Call>)
    requires forall i | 0 <= i < |s| :: !s[i].Failed()
    ensures Verdict(s) == Success
  {
    if s != [] {
      assert !s[0].Failed();
      NoFailure(s[1..]);
    }
  }

  /** Calls that neither release nor fail can be put in front of a segment. */
  lemma SegmentPrefix(s: seq<Call>, t: seq<Call>, res: Status)
    requires forall i | 0 <= i < |s| :: !s[i].IsRelease() && !s[i].Failed()
    requires Segment(t, res)
    ensures Segment(s + t, res)
  {
    var u := s + t;
    assert forall k | 0 <= k < |s| :: u[k] == s[k];
    assert forall k | |s| <= k < |u| :: u[k] == t[k - |s|];
    NoFailure(s);
    VerdictAppend(s, t);
    ReleasesAppend(s, t);
    OnlyAcquires(s);
  }

  /** Calls none of which is a release release nothing. */
  lemma {:induction false} OnlyAcquires(s: seq<Call>)
    requires forall i | 0 <= i < |s| :: !s[i].IsRelease()
    ensures Releases(s) == multiset{}
  {
    if s != [] {
      assert !s[0].IsRelease();
      OnlyAcquires(s[1..]);
    }
  }

  /** What one call acquired and released. */
  lemma OneCall(a: Call)
    ensures Acquisitions([a]) == Acquired(a) && Releases([a]) == Released(a)
  {
    assert [a][1..] == [];
  }

  /** What two calls acquired. */
  lemma TwoCalls(a: Call, b: Call)
    ensures Acquisitions([a, b]) == Acquired(a) + Acquired(b)
  {
    assert [a, b][1..] == [b];
    OneCall(b);
  }

  /** What three calls acquired. */
  lemma ThreeCalls(a: Call, b: Call, c: Call)
    ensures Acquisitions([a, b, c]) == Acquired(a) + Acquired(b) + Acquired(c)
  {
    assert [a, b, c][1..] == [b, c];
    TwoCalls(b, c);
  }

  // ---------------------------------------------------------------------
  // The cleanup

  /** Nothing live is ever under the null handle. */
  lemma NullNeverLive(w: World)
    requires Valid(w)
    ensures w.transients - {NullHandle} == w.transients
    ensures w.persistents - {NullHandle} == w.persistents
    ensures w.operations - {NullHandle} == w.operations
  {
  }

  /** The release calls a cleanup of these handles makes, in order. */
  function ReleaseCalls(pObject: Handle, tObject: Handle, operation: Handle): seq<Call> {
    (if pObject != NullHandle then [Close(pObject)] else [])
    + (if tObject != NullHandle then [FreeTransient(tObject)] else [])
    + (if operation != NullHandle then [FreeOp(operation)] else [])
  }

  /** Calls that only release acquire nothing and never fail. */
  lemma {:induction false} OnlyReleases(t: seq<Call>)
    requires forall i | 0 <= i < |t| :: t[i].IsRelease()
    ensures Acquisitions(t) == multiset{} && Verdict(t) == Success
  {
    if t != [] {
      assert t[0].IsRelease();
      OnlyReleases(t[1..]);
    }
  }

  /** Those calls are all releases, one of each kind at most, in rank order. */
  lemma ReleaseCallsOrdered(pObject: Handle, tObject: Handle, operation: Handle)
    ensures var t := ReleaseCalls(pObject, tObject, operation);
      && (forall i | 0 <= i < |t| :: t[i].IsRelease())
      && (forall i, j | 0 <= i < j < |t| :: ReleaseRank(t[i]) < ReleaseRank(t[j]))
  {
    var t := ReleaseCalls(pObject, tObject, operation);
    forall i, j | 0 <= i < j < |t| ensures ReleaseRank(t[i]) < ReleaseRank(t[j]) {
      if pObject != NullHandle && i == 0 {
        assert t[i].Close?;
        assert !t[j].Close?;
      } else {
        assert t[i].FreeTransient?;
        assert t[j].FreeOp?;
      }
    }
  }

  /** Releases distribute over three pieces of a trace. */
  lemma ReleasesOfPieces(t1: seq<Call>, t2: seq<Call>, t3: seq<Call>)
    ensures Releases(t1 + t2 + t3) == Releases(t1) + Releases(t2) + Releases(t3)
  {
    ReleasesAppend(t1 + t2, t3);
    ReleasesAppend(t1, t2);
  }

  /** What the close of the cleanup releases. */
  lemma ClosePiece(pObject: Handle)
    ensures Releases(if pObject != NullHandle then [Close(pObject)] else [])
         == if pObject != NullHandle then multiset{PersistentRes(pObject)} else multiset{}
  {
    assert [Close(pObject)][1..] == [];
  }

  /** What the transient free of the cleanup releases. */
  lemma FreeTransientPiece(tObject: Handle)
    ensures Releases(if tObject != NullHandle then [FreeTransient(tObject)] else [])
         == if tObject != NullHandle then multiset{TransientRes(tObject)} else multiset{}
  {
    assert [FreeTransient(tObject)][1..] == [];
  }

  /** What the operation free of the cleanup releases. */
  lemma FreeOperationPiece(operation: Handle)
    ensures Releases(if operation != NullHandle then [FreeOp(operation)] else [])
         == if operation != NullHandle then multiset{OperationRes(operation)} else multiset{}
  {
    assert [FreeOp(operation)][1..] == [];
  }

  /** Those calls release exactly the resources the handles stand for. */
  lemma ReleaseCallsReleases(pObject: Handle, tObject: Handle, operation: Handle)
    ensures Releases(ReleaseCalls(pObject, tObject, operation)) == HeldOf(pObject, tObject, operation)
  {
    ClosePiece(pObject);
    FreeTransientPiece(tObject);
    FreeOperationPiece(operation);
    ReleasesOfPieces(if pObject != NullHandle then [Close(pObject)] else [],
                     if tObject != NullHandle then [FreeTransient(tObject)] else [],
                     if operation != NullHandle then [FreeOp(operation)] else []);
  }

  /**
   * The cleanup makes exactly those calls, and the live maps lose the
   * handles it is given and nothing more.
   */
  lemma CleanupReleases(w: World, pObject: Handle, tObject: Handle, operation: Handle)
    requires Valid(w)
    requires pObject != NullHandle ==> pObject in w.persistents
    requires tObject != NullHandle ==> tObject in w.transients
    requires operation != NullHandle ==> operation in w.operations
    ensures var c := Cleanup(w, pObject, tObject, operation);
      && c.calls == ReleaseCalls(pObject, tObject, operation)
      && c.world.transients == w.transients - {tObject}
      && c.world.persistents == w.persistents - {pObject}
      && c.world.operations == w.operations - {operation}
      && c.world.store == w.store
      && c.world.calls == w.calls + |c.calls|
  {
    NullNeverLive(w);
  }

  /** Each of the three handles stands for a different kind of resource, so none is held twice. */
  lemma HeldOnce(pObject: Handle, tObject: Handle, operation: Handle)
    ensures forall r :: HeldOf(pObject, tObject, operation)[r] <= 1
  {
  }

  /**
   * A segment followed by a block of releases in rank order: the first
   * failure, if any, is the segment's last call and only releases follow
   * it, and the releases come last and in order.
   */
  lemma SegmentThenReleases(s: seq<Call>, res: Status, r: seq<Call>)
    requires Segment(s, res)
    requires forall i | 0 <= i < |r| :: r[i].IsRelease()
    requires forall i, j | 0 <= i < j < |r| :: ReleaseRank(r[i]) < ReleaseRank(r[j])
    ensures FailFast(s + r) && CleanupLast(s + r)
    ensures Verdict(s + r) == res
  {
    var t := s + r;
    assert forall k | 0 <= k < |s| :: t[k] == s[k];
    assert forall k | |s| <= k < |t| :: t[k] == r[k - |s|];
    OnlyReleases(r);
    VerdictAppend(s, r);
  }

  /**
   * The calls a handler's body makes up to the `out:` label, when it started
   * from `w` holding nothing: a segment of calls that acquired exactly what
   * is held.
   */
  ghost predicate BodyCalls(w: World, p: Progress) {
    && Segment(p.trace, p.res)
    && Acquisitions(p.trace) == Held(p)
    && p.world.calls == w.calls + |p.trace|
  }

  /** The live maps at the `out:` label: those of `w` plus the held handles. */
  ghost predicate BodyFrame(w: World, p: Progress) {
    && p.world.transients - {p.tObject} == w.transients
    && p.world.persistents - {p.pObject} == w.persistents
    && p.world.operations - {p.operation} == w.operations
  }

  /** After the cleanup every resource the handler acquired has been released exactly once. */
  lemma FinishBalanced(p: Progress)
    requires Holds(p) && Releases(p.trace) == multiset{} && Acquisitions(p.trace) == Held(p)
    ensures Balanced(Finish(p).trace)
  {
    var c := Cleanup(p.world, p.pObject, p.tObject, p.operation);
    CleanupReleases(p.world, p.pObject, p.tObject, p.operation);
    ReleaseCallsOrdered(p.pObject, p.tObject, p.operation);
    ReleaseCallsReleases(p.pObject, p.tObject, p.operation);
    OnlyReleases(c.calls);
    AcquisitionsAppend(p.trace, c.calls);
    ReleasesAppend(p.trace, c.calls);
    HeldOnce(p.pObject, p.tObject, p.operation);
  }

  /**
   * After the cleanup the handler's status is that of its first failed
   * call, only releases follow a failure, and the releases come last, in
   * the cleanup order.
   */
  lemma FinishOrdered(p: Progress)
    requires Holds(p) && Segment(p.trace, p.res)
    ensures var o := Finish(p); o.res == Verdict(o.trace) && FailFast(o.trace) && CleanupLast(o.trace)
  {
    var c := Cleanup(p.world, p.pObject, p.tObject, p.operation);
    CleanupReleases(p.world, p.pObject, p.tObject, p.operation);
    ReleaseCallsOrdered(p.pObject, p.tObject, p.operation);
    SegmentThenReleases(p.trace, p.res, c.calls);
  }

  /** After the cleanup the live maps are back to what they were before the handler ran. */
  lemma FinishRestores(w: World, p: Progress)
    requires Holds(p) && BodyFrame(w, p) && p.world.calls == w.calls + |p.trace|
    ensures var o := Finish(p);
      && o.world.transients == w.transients
      && o.world.persistents == w.persistents
      && o.world.operations == w.operations
      && o.world.store == p.world.store
      && o.world.calls == w.calls + |o.trace|
  {
    CleanupReleases(p.world, p.pObject, p.tObject, p.operation);
  }

  // ---------------------------------------------------------------------
  // TA_GenerateKeyPair

  /** Adding a fresh key to a map and taking it away again gives the map back. */
  lemma AddRemove<K, V>(m: map<K, V>, k: K, v: V)
    requires k !in m
    ensures m[k := v] - {k} == m
  {
  }

  /** The generation body is a segment that acquired only the transient object it holds. */
  lemma GenerateBodyCalls(env: Env, w: World, params: seq<TeeParam>)
    requires Valid(w) && |params| == 4
    ensures var p := GenerateBody(env, w, params);
      BodyCalls(w, p) && p.pObject == NullHandle && p.operation == NullHandle
  {
    GenerateBodySegment(env, w, params);
    GenerateBodyAcquires(env, w, params);
  }

  /** The calls of the generation body form a segment. */
  lemma GenerateBodySegment(env: Env, w: World, params: seq<TeeParam>)
    requires Valid(w) && |params| == 4
    ensures var p := GenerateBody(env, w, params);
      Segment(p.trace, p.res) && p.world.calls == w.calls + |p.trace|
  {
    var alloc := AllocateTransientObject(env, w, RsaKeyPair, KeyBits);
    if alloc.call.res != Success {
      SegmentOf([alloc.call]);
    } else {
      var gen := GenerateKey(env, alloc.world, alloc.call.h, KeyBits);
      if gen.call.res != Success {
        SegmentOf([alloc.call, gen.call]);
      } else {
        var create := CreatePersistentObject(env, gen.world, StoragePrivate, GeneratedId, AccessWrite | AccessRead, alloc.call.h);
        SegmentOf([alloc.call, gen.call, create.call]);
      }
    }
  }

  /** The generation body acquired only the transient object it holds. */
  lemma GenerateBodyAcquires(env: Env, w: World, params: seq<TeeParam>)
    requires Valid(w) && |params| == 4
    ensures var p := GenerateBody(env, w, params);
      Acquisitions(p.trace) == Held(p) && p.pObject == NullHandle && p.operation == NullHandle
  {
    var alloc := AllocateTransientObject(env, w, RsaKeyPair, KeyBits);
    if alloc.call.res != Success {
      OneCall(alloc.call);
    } else {
      var gen := GenerateKey(env, alloc.world, alloc.call.h, KeyBits);
      if gen.call.res != Success {
        TwoCalls(alloc.call, gen.call);
      } else {
        var create := CreatePersistentObject(env, gen.world, StoragePrivate, GeneratedId, AccessWrite | AccessRead, alloc.call.h);
        ThreeCalls(alloc.call, gen.call, create.call);
      }
    }
  }

  /** The generation body adds its transient object to the live maps and nothing else. */
  lemma GenerateBodyFrame(env: Env, w: World, params: seq<TeeParam>)
    requires Valid(w) && |params| == 4
    ensures BodyFrame(w, GenerateBody(env, w, params))
  {
    var p := GenerateBody(env, w, params);
    var alloc := AllocateTransientObject(env, w, RsaKeyPair, KeyBits);
    NullNeverLive(w);
    if alloc.call.res == Success {
      var h := alloc.call.h;
      assert p.world.transients == w.transients[h := p.world.transients[h]];
      AddRemove(w.transients, h, p.world.transients[h]);
    }
  }

  /**
   * The generation body succeeds exactly when the provider grants all three
   * of its calls; it then stores a fresh RSA key pair of KeyBits bits under
   * GeneratedId and reports that identifier in slot 0, and otherwise leaves
   * the store and the slots alone.
   */
  lemma GenerateBodyStores(env: Env, w: World, params: seq<TeeParam>)
    requires Valid(w) && |params| == 4
    ensures var p := GenerateBody(env, w, params); var k := w.calls;
      && (p.res == Success <==>
            env.answer(k) == Success && env.answer(k + 1) == Success && env.answer(k + 2) == Success)
      && (p.res == Success ==>
            && p.world.store == w.store[GeneratedId := Key(RsaKeyPair, KeyBits, k + 1)]
            && p.params == params[0 := params[0].(a := GeneratedId)])
      && (p.res != Success ==> p.world.store == w.store && p.params == params)
  {
  }

  /** A declared type word other than the expected one is refused before any provider call. */
  lemma GenerateKeyPairRejects(env: Env, w: World, paramTypes: bv32, params: seq<TeeParam>)
    requires Valid(w) && |params| == 4
    ensures var o := GenerateKeyPair(env, w, paramTypes, params);
      && (o.trace == [] <==> paramTypes != GenerateKeyPairTypes)
      && (paramTypes != GenerateKeyPairTypes ==> o == Outcome(BadParameters, w, params, []))
  {
    if paramTypes == GenerateKeyPairTypes {
      var p := GenerateBody(env, w, params);
      GenerateBodyCalls(env, w, params);
      CleanupReleases(p.world, p.pObject, p.tObject, p.operation);
    } else {
      CleanupReleases(w, NullHandle, NullHandle, NullHandle);
    }
  }

  /**
   * On every path GenerateKeyPair releases each resource it acquired exactly
   * once, and the live transient, persistent and operation maps are as on entry.
   */
  lemma GenerateKeyPairReleases(env: Env, w: World, paramTypes: bv32, params: seq<TeeParam>)
    requires Valid(w) && |params| == 4
    ensures var o := GenerateKeyPair(env, w, paramTypes, params);
      && Balanced(o.trace)
      && o.world.transients == w.transients
      && o.world.persistents == w.persistents
      && o.world.operations == w.operations
  {
    var p := if paramTypes != GenerateKeyPairTypes then Rejected(w, params) else GenerateBody(env, w, params);
    if paramTypes == GenerateKeyPairTypes {
      GenerateBodyCalls(env, w, params);
      GenerateBodyFrame(env, w, params);
    } else {
      NullNeverLive(w);
    }
    FinishBalanced(p);
    FinishRestores(w, p);
  }

  /**
   * Once the type word matches, GenerateKeyPair returns the status of its
   * first failed call, makes no call after a failure but the cleanup, and
   * ends with that cleanup.
   */
  lemma GenerateKeyPairPropagates(env: Env, w: World, paramTypes: bv32, params: seq<TeeParam>)
    requires Valid(w) && |params| == 4
    ensures var o := GenerateKeyPair(env, w, paramTypes, params);
      && (paramTypes == GenerateKeyPairTypes ==> o.res == Verdict(o.trace))
      && FailFast(o.trace) && CleanupLast(o.trace)
  {
    if paramTypes == GenerateKeyPairTypes {
      GenerateBodyCalls(env, w, params);
      FinishOrdered(GenerateBody(env, w, params));
    } else {
      GenerateKeyPairRejects(env, w, paramTypes, params);
    }
  }

  /**
   * GenerateKeyPair succeeds exactly when the type word matches and the
   * provider grants its three calls; it then has stored an RSA key pair of
   * KeyBits bits under GeneratedId and reported that identifier in slot 0.
   * When it fails the store and the slots are as they were.
   */
  lemma GenerateKeyPairStores(env: Env, w: World, paramTypes: bv32, params: seq<TeeParam>)
    requires Valid(w) && |params| == 4
    ensures var o := GenerateKeyPair(env, w, paramTypes, params); var k := w.calls;
      && (o.res == Success <==>
            && paramTypes == GenerateKeyPairTypes
            && env.answer(k) == Success && env.answer(k + 1) == Success && env.answer(k + 2) == Success)
      && (o.res == Success ==>
            && o.world.store == w.store[GeneratedId := Key(RsaKeyPair, KeyBits, k + 1)]
            && o.params == params[0 := params[0].(a := GeneratedId)])
      && (o.res != Success ==> o.world.store == w.store && o.params == params)
  {
    var p := if paramTypes != GenerateKeyPairTypes then Rejected(w, params) else GenerateBody(env, w, params);
    if paramTypes == GenerateKeyPairTypes {
      GenerateBodyStores(env, w, params);
      GenerateBodyCalls(env, w, params);
      GenerateBodyFrame(env, w, params);
    } else {
      NullNeverLive(w);
    }
    FinishRestores(w, p);
  }

  // ---------------------------------------------------------------------
  // TA_DecryptData

  /** Every decryption in `t` uses `key`, reads slot 1 and writes slot 2. */
  ghost predicate DecryptsWith(t: seq<Call>, key: Option<Key>, params: seq<TeeParam>)
    requires |params| == 4
  {
    forall i | 0 <= i < |t| && t[i].Decrypt? ::
      && t[i].key == key
      && t[i].src == params[1].buffer && t[i].srcLen == params[1].size
      && t[i].dst == params[2].buffer && t[i].dstLen == params[2].size
  }

  /** Calls that decrypt nothing can be put in front of such a trace. */
  lemma DecryptsWithPrefix(s: seq<Call>, t: seq<Call>, key: Option<Key>, params: seq<TeeParam>)
    requires |params| == 4
    requires forall i | 0 <= i < |s| :: !s[i].Decrypt?
    requires DecryptsWith(t, key, params)
    ensures DecryptsWith(s + t, key, params)
  {
    var u := s + t;
    assert forall k | 0 <= k < |s| :: u[k] == s[k];
    assert forall k | |s| <= k < |u| :: u[k] == t[k - |s|];
  }

  /** Only the slot-2 size differs between two slot vectors. */
  ghost predicate SizeOnly(params': seq<TeeParam>, params: seq<TeeParam>)
    requires |params| == 4
  {
    |params'| == 4 && params' == params[2 := params[2].(size := params'[2].size)]
  }

  /** The calls of the operation stage form a segment, one provider call each. */
  lemma DecryptRunCalls(env: Env, w: World, params: seq<TeeParam>, pObject: Handle, tObject: Handle,
                        objectInfo: ObjectInfo)
    requires Valid(w) && |params| == 4
    requires pObject in w.persistents && pObject != NullHandle && tObject in w.transients && tObject != NullHandle
    ensures var p := DecryptRun(env, w, params, pObject, tObject, objectInfo);
      && Segment(p.trace, p.res)
      && p.world.calls == w.calls + |p.trace|
  {
    var p := DecryptRun(env, w, params, pObject, tObject, objectInfo);
    var alloc := AllocateOperation(env, w, RsaNoPad, ModeDecrypt, objectInfo.objectSize);
    if alloc.call.res != Success {
      SegmentOf([alloc.call]);
      OneCall(alloc.call);
    } else {
      var setKey := SetOperationKey(env, alloc.world, alloc.call.h, tObject);
      if setKey.call.res != Success {
        SegmentOf([alloc.call, setKey.call]);
        TwoCalls(alloc.call, setKey.call);
      } else {
        var dec := AsymmetricDecrypt(env, setKey.world, alloc.call.h, params[1].buffer, params[1].size,
                                     params[2].buffer, params[2].size);
        SegmentOf([alloc.call, setKey.call, dec.call]);
        ThreeCalls(alloc.call, setKey.call, dec.call);
      }
    }
  }

  /** The operation stage adds only its operation to the live maps and changes at most the slot-2 size. */
  lemma DecryptRunFrame(env: Env, w: World, params: seq<TeeParam>, pObject: Handle, tObject: Handle,
                        objectInfo: ObjectInfo)
    requires Valid(w) && |params| == 4
    requires pObject in w.persistents && pObject != NullHandle && tObject in w.transients && tObject != NullHandle
    ensures var p := DecryptRun(env, w, params, pObject, tObject, objectInfo);
      && p.world.store == w.store
      && p.world.transients == w.transients
      && p.world.persistents == w.persistents
      && p.world.operations - {p.operation} == w.operations
      && SizeOnly(p.params, params)
  {
    var p := DecryptRun(env, w, params, pObject, tObject, objectInfo);
    var alloc := AllocateOperation(env, w, RsaNoPad, ModeDecrypt, objectInfo.objectSize);
    NullNeverLive(w);
    if alloc.call.res == Success {
      var h := alloc.call.h;
      assert p.world.operations == w.operations[h := p.world.operations[h]];
      AddRemove(w.operations, h, p.world.operations[h]);
    }
  }

  /** The operation stage decrypts only with the transient object's key, from slot 1 into slot 2. */
  lemma DecryptRunKey(env: Env, w: World, params: seq<TeeParam>, pObject: Handle, tObject: Handle,
                      objectInfo: ObjectInfo)
    requires Valid(w) && |params| == 4
    requires pObject in w.persistents && pObject != NullHandle && tObject in w.transients && tObject != NullHandle
    ensures DecryptsWith(DecryptRun(env, w, params, pObject, tObject, objectInfo).trace, w.transients[tObject].key, params)
  {
  }

  /** The operation stage acquires only the operation it holds. */
  lemma DecryptRunAcquires(env: Env, w: World, params: seq<TeeParam>, pObject: Handle, tObject: Handle,
                           objectInfo: ObjectInfo)
    requires Valid(w) && |params| == 4
    requires pObject in w.persistents && pObject != NullHandle && tObject in w.transients && tObject != NullHandle
    ensures var p := DecryptRun(env, w, params, pObject, tObject, objectInfo);
      Acquisitions(p.trace) == HeldOf(NullHandle, NullHandle, p.operation)
  {
    var p := DecryptRun(env, w, params, pObject, tObject, objectInfo);
    var alloc := AllocateOperation(env, w, RsaNoPad, ModeDecrypt, objectInfo.objectSize);
    var held := HeldOf(NullHandle, NullHandle, p.operation);
    assert Acquired(alloc.call) == held;
    if alloc.call.res != Success {
      OneCall(alloc.call);
    } else {
      var setKey := SetOperationKey(env, alloc.world, alloc.call.h, tObject);
      assert Acquired(setKey.call) == multiset{};
      if setKey.call.res != Success {
        TwoCalls(alloc.call, setKey.call);
      } else {
        var dec := AsymmetricDecrypt(env, setKey.world, alloc.call.h, params[1].buffer, params[1].size,
                                     params[2].buffer, params[2].size);
        assert Acquired(dec.call) == multiset{};
        ThreeCalls(alloc.call, setKey.call, dec.call);
      }
    }
  }

  /** The key-copy stage: a segment of calls, one per call counted. */
  lemma DecryptCopyKeyCalls(env: Env, w: World, params: seq<TeeParam>, pObject: Handle, objectInfo: ObjectInfo)
    requires Valid(w) && |params| == 4 && pObject in w.persistents && pObject != NullHandle
    ensures var p := DecryptCopyKey(env, w, params, pObject, objectInfo);
      Segment(p.trace, p.res) && p.world.calls == w.calls + |p.trace|
  {
    var alloc := AllocateTransientObject(env, w, objectInfo.objectType, objectInfo.objectSize);
    if alloc.call.res != Success {
      SegmentOf([alloc.call]);
    } else {
      var copy := CopyObjectAttributes1(env, alloc.world, alloc.call.h, pObject);
      if copy.call.res != Success {
        SegmentOf([alloc.call, copy.call]);
      } else {
        DecryptRunCalls(env, copy.world, params, pObject, alloc.call.h, objectInfo);
        var q := DecryptRun(env, copy.world, params, pObject, alloc.call.h, objectInfo);
        SegmentPrefix([alloc.call, copy.call], q.trace, q.res);
      }
    }
  }

  /** The key-copy stage acquires only the transient object and the operation it holds. */
  lemma DecryptCopyKeyAcquires(env: Env, w: World, params: seq<TeeParam>, pObject: Handle, objectInfo: ObjectInfo)
    requires Valid(w) && |params| == 4 && pObject in w.persistents && pObject != NullHandle
    ensures var p := DecryptCopyKey(env, w, params, pObject, objectInfo);
      Acquisitions(p.trace) == HeldOf(NullHandle, p.tObject, p.operation)
  {
    var alloc := AllocateTransientObject(env, w, objectInfo.objectType, objectInfo.objectSize);
    var mine := HeldOf(NullHandle, alloc.call.h, NullHandle);
    assert Acquired(alloc.call) == mine;
    if alloc.call.res != Success {
      OneCall(alloc.call);
    } else {
      var copy := CopyObjectAttributes1(env, alloc.world, alloc.call.h, pObject);
      assert Acquired(copy.call) == multiset{};
      TwoCalls(alloc.call, copy.call);
      if copy.call.res == Success {
        DecryptRunAcquires(env, copy.world, params, pObject, alloc.call.h, objectInfo);
        var q := DecryptRun(env, copy.world, params, pObject, alloc.call.h, objectInfo);
        AcquisitionsAppend([alloc.call, copy.call], q.trace);
        assert HeldOf(NullHandle, q.tObject, q.operation) == mine + HeldOf(NullHandle, NullHandle, q.operation);
      }
    }
  }

  /** The key-copy stage adds only the handles it holds to the live maps and changes at most the slot-2 size. */
  lemma DecryptCopyKeyFrame(env: Env, w: World, params: seq<TeeParam>, pObject: Handle, objectInfo: ObjectInfo)
    requires Valid(w) && |params| == 4 && pObject in w.persistents && pObject != NullHandle
    ensures var p := DecryptCopyKey(env, w, params, pObject, objectInfo);
      && p.world.store == w.store
      && p.world.transients - {p.tObject} == w.transients
      && p.world.persistents == w.persistents
      && p.world.operations - {p.operation} == w.operations
      && SizeOnly(p.params, params)
  {
    var p := DecryptCopyKey(env, w, params, pObject, objectInfo);
    var alloc := AllocateTransientObject(env, w, objectInfo.objectType, objectInfo.objectSize);
    NullNeverLive(w);
    if alloc.call.res == Success {
      var h := alloc.call.h;
      var copy := CopyObjectAttributes1(env, alloc.world, h, pObject);
      assert copy.world.transients == w.transients[h := copy.world.transients[h]];
      AddRemove(w.transients, h, copy.world.transients[h]);
      NullNeverLive(copy.world);
      if copy.call.res == Success {
        DecryptRunFrame(env, copy.world, params, pObject, h, objectInfo);
      }
    }
  }

  /** The key-copy stage decrypts only with the key stored under the open object, from slot 1 into slot 2. */
  lemma DecryptCopyKeyKey(env: Env, w: World, params: seq<TeeParam>, pObject: Handle, objectInfo: ObjectInfo)
    requires Valid(w) && |params| == 4 && pObject in w.persistents && pObject != NullHandle
    ensures var p := DecryptCopyKey(env, w, params, pObject, objectInfo);
      DecryptsWith(p.trace, Some(w.store[w.persistents[pObject]]), params)
  {
    var alloc := AllocateTransientObject(env, w, objectInfo.objectType, objectInfo.objectSize);
    if alloc.call.res == Success {
      var copy := CopyObjectAttributes1(env, alloc.world, alloc.call.h, pObject);
      if copy.call.res == Success {
        DecryptRunKey(env, copy.world, params, pObject, alloc.call.h, objectInfo);
        var q := DecryptRun(env, copy.world, params, pObject, alloc.call.h, objectInfo);
        DecryptsWithPrefix([alloc.call, copy.call], q.trace, Some(w.store[w.persistents[pObject]]), params);
      }
    }
  }

  /** The stage after the open: a segment of calls, one per call counted. */
  lemma DecryptOpenedCalls(env: Env, w: World, params: seq<TeeParam>, pObject: Handle)
    requires Valid(w) && |params| == 4 && pObject in w.persistents && pObject != NullHandle
    ensures var p := DecryptOpened(env, w, params, pObject);
      Segment(p.trace, p.res) && p.world.calls == w.calls + |p.trace|
  {
    var get := GetObjectInfo1(env, w, pObject);
    if get.call.res != Success || params[2].buffer == Null {
      SegmentOf([get.call]);
    } else {
      DecryptCopyKeyCalls(env, get.world, params, pObject, get.call.info);
      var q := DecryptCopyKey(env, get.world, params, pObject, get.call.info);
      SegmentPrefix([get.call], q.trace, q.res);
    }
  }

  /** The stage after the open acquires only the transient object and the operation it holds. */
  lemma DecryptOpenedAcquires(env: Env, w: World, params: seq<TeeParam>, pObject: Handle)
    requires Valid(w) && |params| == 4 && pObject in w.persistents && pObject != NullHandle
    ensures var p := DecryptOpened(env, w, params, pObject);
      Acquisitions(p.trace) == HeldOf(NullHandle, p.tObject, p.operation)
  {
    var get := GetObjectInfo1(env, w, pObject);
    OneCall(get.call);
    if get.call.res == Success && params[2].buffer != Null {
      DecryptCopyKeyAcquires(env, get.world, params, pObject, get.call.info);
      var q := DecryptCopyKey(env, get.world, params, pObject, get.call.info);
      AcquisitionsAppend([get.call], q.trace);
    }
  }

  /** The stage after the open adds only the handles it holds to the live maps and changes at most the slot-2 size. */
  lemma DecryptOpenedFrame(env: Env, w: World, params: seq<TeeParam>, pObject: Handle)
    requires Valid(w) && |params| == 4 && pObject in w.persistents && pObject != NullHandle
    ensures var p := DecryptOpened(env, w, params, pObject);
      && p.world.store == w.store
      && p.world.transients - {p.tObject} == w.transients
      && p.world.persistents == w.persistents
      && p.world.operations - {p.operation} == w.operations
      && SizeOnly(p.params, params)
  {
    var get := GetObjectInfo1(env, w, pObject);
    NullNeverLive(w);
    if get.call.res == Success && params[2].buffer != Null {
      DecryptCopyKeyFrame(env, get.world, params, pObject, get.call.info);
    }
  }

  /**
   * The stage after the open decrypts only with the key stored under the
   * open object, from slot 1 into slot 2, and only when slot 2 has a buffer.
   * With a NULL buffer it makes one call, to read the object's info, and
   * on success reports the key size in slot 2.
   */
  lemma DecryptOpenedKey(env: Env, w: World, params: seq<TeeParam>, pObject: Handle)
    requires Valid(w) && |params| == 4 && pObject in w.persistents && pObject != NullHandle
    ensures var p := DecryptOpened(env, w, params, pObject);
      && DecryptsWith(p.trace, Some(w.store[w.persistents[pObject]]), params)
      && (params[2].buffer == Null ==>
            && p.trace == [GetInfo(pObject, env.answer(w.calls), ObjectInfo(w.store[w.persistents[pObject]].keyType,
                                                                            w.store[w.persistents[pObject]].keySize))]
            && p.tObject == NullHandle && p.operation == NullHandle && p.res == env.answer(w.calls)
            && p.params == if p.res == Success
                           then params[2 := params[2].(size := w.store[w.persistents[pObject]].keySize)]
                           else params)
  {
    var get := GetObjectInfo1(env, w, pObject);
    if get.call.res == Success && params[2].buffer != Null {
      DecryptCopyKeyKey(env, get.world, params, pObject, get.call.info);
      var q := DecryptCopyKey(env, get.world, params, pObject, get.call.info);
      DecryptsWithPrefix([get.call], q.trace, Some(w.store[w.persistents[pObject]]), params);
    }
  }

  /** The decryption body is a segment that acquired exactly what it holds. */
  lemma DecryptBodyCalls(env: Env, w: World, params: seq<TeeParam>)
    requires Valid(w) && |params| == 4
    ensures BodyCalls(w, DecryptBody(env, w, params))
  {
    DecryptBodySegment(env, w, params);
    DecryptBodyAcquires(env, w, params);
  }

  /** The calls of the decryption body form a segment. */
  lemma DecryptBodySegment(env: Env, w: World, params: seq<TeeParam>)
    requires Valid(w) && |params| == 4
    ensures var p := DecryptBody(env, w, params);
      Segment(p.trace, p.res) && p.world.calls == w.calls + |p.trace|
  {
    var open := OpenPersistentObject(env, w, StoragePrivate, params[0].a, AccessRead | ShareRead);
    if open.call.res != Success {
      SegmentOf([open.call]);
    } else {
      DecryptOpenedCalls(env, open.world, params, open.call.h);
      var q := DecryptOpened(env, open.world, params, open.call.h);
      SegmentPrefix([open.call], q.trace, q.res);
    }
  }

  /** The decryption body acquired exactly what it holds. */
  lemma DecryptBodyAcquires(env: Env, w: World, params: seq<TeeParam>)
    requires Valid(w) && |params| == 4
    ensures var p := DecryptBody(env, w, params); Acquisitions(p.trace) == Held(p)
  {
    var p := DecryptBody(env, w, params);
    var open := OpenPersistentObject(env, w, StoragePrivate, params[0].a, AccessRead | ShareRead);
    var mine := HeldOf(open.call.h, NullHandle, NullHandle);
    assert Acquired(open.call) == mine;
    OneCall(open.call);
    if open.call.res == Success {
      DecryptOpenedAcquires(env, open.world, params, open.call.h);
      var q := DecryptOpened(env, open.world, params, open.call.h);
      AcquisitionsAppend([open.call], q.trace);
      assert Held(p) == mine + HeldOf(NullHandle, q.tObject, q.operation);
    }
  }

  /** The decryption body adds only the handles it holds to the live maps and changes at most the slot-2 size. */
  lemma DecryptBodyFrame(env: Env, w: World, params: seq<TeeParam>)
    requires Valid(w) && |params| == 4
    ensures var p := DecryptBody(env, w, params);
      BodyFrame(w, p) && p.world.store == w.store && SizeOnly(p.params, params)
  {
    var p := DecryptBody(env, w, params);
    var open := OpenPersistentObject(env, w, StoragePrivate, params[0].a, AccessRead | ShareRead);
    NullNeverLive(w);
    if open.call.res == Success {
      var h := open.call.h;
      AddRemove(w.persistents, h, params[0].a);
      DecryptOpenedFrame(env, open.world, params, h);
    }
  }

  /**
   * An identifier with nothing stored under it makes the open fail with
   * TEE_ERROR_ITEM_NOT_FOUND and ends the body there; otherwise every
   * decryption uses the key stored under that identifier.
   */
  lemma DecryptBodyKey(env: Env, w: World, params: seq<TeeParam>)
    requires Valid(w) && |params| == 4
    ensures var p := DecryptBody(env, w, params); var id := params[0].a;
      && (id !in w.store ==>
            p == Progress(w.(calls := w.calls + 1), ItemNotFound, NullHandle, NullHandle, NullHandle, params,
                          [OpenPersistent(StoragePrivate, id, AccessRead | ShareRead, ItemNotFound, NullHandle)]))
      && (id in w.store ==> DecryptsWith(p.trace, Some(w.store[id]), params))
  {
    var open := OpenPersistentObject(env, w, StoragePrivate, params[0].a, AccessRead | ShareRead);
    if open.call.res == Success {
      DecryptOpenedKey(env, open.world, params, open.call.h);
      var q := DecryptOpened(env, open.world, params, open.call.h);
      DecryptsWithPrefix([open.call], q.trace, Some(w.store[params[0].a]), params);
    }
  }

  /**
   * With a NULL output buffer the body allocates nothing and decrypts
   * nothing; when the key exists and the provider grants the open and the
   * info read, it succeeds and reports the key size in slot 2.
   */
  lemma DecryptBodyProbe(env: Env, w: World, params: seq<TeeParam>)
    requires Valid(w) && |params| == 4 && params[2].buffer == Null
    ensures var p := DecryptBody(env, w, params); var id := params[0].a;
      && (forall i | 0 <= i < |p.trace| :: ProbeCall(p.trace[i]))
      && p.tObject == NullHandle && p.operation == NullHandle
      && (id in w.store && env.answer(w.calls) == Success && env.answer(w.calls + 1) == Success ==>
            p.res == Success && p.params == params[2 := params[2].(size := w.store[id].keySize)])
  {
    var open := OpenPersistentObject(env, w, StoragePrivate, params[0].a, AccessRead | ShareRead);
    if open.call.res == Success {
      DecryptOpenedKey(env, open.world, params, open.call.h);
    }
  }

  /** The provider granted the n calls numbered k onward. */
  function Grants(env: Env, k: nat, n: nat): bool
    decreases n
  {
    n == 0 || (env.answer(k) == Success && Grants(env, k + 1, n - 1))
  }

  /** The statuses on which TEE_AsymmetricDecrypt writes back an output length. */
  predicate ReportsLength(res: Status) {
    res == Success || res == ShortBuffer
  }

  /**
   * The slots after a run of calls numbered k onward whose n-th (counting
   * from 0) is the decryption: its output length lands in slot 2 when the
   * n calls before it were granted and it answered success or a short buffer.
   */
  function Decrypted(env: Env, k: nat, n: nat, params: seq<TeeParam>): seq<TeeParam>
    requires |params| == 4
    decreases n
  {
    if n == 0 then
      if ReportsLength(env.answer(k)) then params[2 := params[2].(size := env.outLen(k))] else params
    else if env.answer(k) == Success then Decrypted(env, k + 1, n - 1, params)
    else params
  }

  /**
   * The operation stage succeeds exactly when its three calls are granted,
   * and writes the decryption's output length into slot 2 exactly when the
   * decryption ran and answered success or a short buffer.
   */
  lemma DecryptRunOutcome(env: Env, w: World, params: seq<TeeParam>, pObject: Handle, tObject: Handle,
                          objectInfo: ObjectInfo)
    requires Valid(w) && |params| == 4
    requires pObject in w.persistents && pObject != NullHandle && tObject in w.transients && tObject != NullHandle
    ensures var p := DecryptRun(env, w, params, pObject, tObject, objectInfo);
      && (p.res == Success <==> Grants(env, w.calls, 3))
      && p.params == Decrypted(env, w.calls, 2, params)
  {
  }

  /** The key-copy stage succeeds exactly when its five calls are granted. */
  lemma DecryptCopyKeyOutcome(env: Env, w: World, params: seq<TeeParam>, pObject: Handle, objectInfo: ObjectInfo)
    requires Valid(w) && |params| == 4 && pObject in w.persistents && pObject != NullHandle
    ensures var p := DecryptCopyKey(env, w, params, pObject, objectInfo);
      && (p.res == Success <==> Grants(env, w.calls, 5))
      && p.params == Decrypted(env, w.calls, 4, params)
  {
    var alloc := AllocateTransientObject(env, w, objectInfo.objectType, objectInfo.objectSize);
    if alloc.call.res == Success {
      var copy := CopyObjectAttributes1(env, alloc.world, alloc.call.h, pObject);
      if copy.call.res == Success {
        DecryptRunOutcome(env, copy.world, params, pObject, alloc.call.h, objectInfo);
      }
    }
  }

  /** With an output buffer, the stage after the open succeeds exactly when its six calls are granted. */
  lemma DecryptOpenedOutcome(env: Env, w: World, params: seq<TeeParam>, pObject: Handle)
    requires Valid(w) && |params| == 4 && pObject in w.persistents && pObject != NullHandle
    requires params[2].buffer != Null
    ensures var p := DecryptOpened(env, w, params, pObject);
      && (p.res == Success <==> Grants(env, w.calls, 6))
      && p.params == Decrypted(env, w.calls, 5, params)
  {
    var get := GetObjectInfo1(env, w, pObject);
    if get.call.res == Success {
      DecryptCopyKeyOutcome(env, get.world, params, pObject, get.call.info);
    }
  }

  /**
   * With a stored key and an output buffer, the decryption body succeeds
   * exactly when its seven calls are granted.
   */
  lemma DecryptBodyOutcome(env: Env, w: World, params: seq<TeeParam>)
    requires Valid(w) && |params| == 4 && params[0].a in w.store && params[2].buffer != Null
    ensures var p := DecryptBody(env, w, params);
      && (p.res == Success <==> Grants(env, w.calls, 7))
      && p.params == Decrypted(env, w.calls, 6, params)
  {
    var open := OpenPersistentObject(env, w, StoragePrivate, params[0].a, AccessRead | ShareRead);
    if open.call.res == Success {
      DecryptOpenedOutcome(env, open.world, params, open.call.h);
    }
  }

  /** The cleanup only appends releases to what the body did. */
  lemma FinishAppendsReleases(p: Progress)
    requires Holds(p)
    ensures var o := Finish(p);
      && |p.trace| <= |o.trace|
      && (forall i | 0 <= i < |p.trace| :: o.trace[i] == p.trace[i])
      && (forall i | |p.trace| <= i < |o.trace| :: o.trace[i].IsRelease())
  {
    var c := Cleanup(p.world, p.pObject, p.tObject, p.operation);
    CleanupReleases(p.world, p.pObject, p.tObject, p.operation);
    ReleaseCallsOrdered(p.pObject, p.tObject, p.operation);
    var t := p.trace + c.calls;
    assert forall k | |p.trace| <= k < |t| :: t[k] == c.calls[k - |p.trace|];
  }

  /**
   * A type word other than (VALUE_INPUT, MEMREF_INPUT, MEMREF_OUTPUT, NONE)
   * is answered with TEE_ERROR_BAD_PARAMETERS before any call: nothing is
   * opened, allocated or released and the slots are untouched. With the
   * right word at least the open is attempted.
   */
  lemma DecryptDataRejects(env: Env, w: World, paramTypes: bv32, params: seq<TeeParam>)
    requires Valid(w) && |params| == 4
    ensures var o := DecryptData(env, w, paramTypes, params);
      && (o.trace == [] <==> paramTypes != DecryptDataTypes)
      && (paramTypes != DecryptDataTypes ==> o == Outcome(BadParameters, w, params, []))
  {
    if paramTypes == DecryptDataTypes {
      var p := DecryptBody(env, w, params);
      FinishAppendsReleases(p);
    } else {
      CleanupReleases(w, NullHandle, NullHandle, NullHandle);
    }
  }

  /**
   * On every path each resource DecryptData acquired is released exactly
   * once and nothing else is released, so the provider's live handles are
   * as they were on entry; the store is never changed.
   */
  lemma DecryptDataReleases(env: Env, w: World, paramTypes: bv32, params: seq<TeeParam>)
    requires Valid(w) && |params| == 4
    ensures var o := DecryptData(env, w, paramTypes, params);
      && Balanced(o.trace)
      && o.world.transients == w.transients
      && o.world.persistents == w.persistents
      && o.world.operations == w.operations
      && o.world.store == w.store
  {
    var p := if paramTypes != DecryptDataTypes then Rejected(w, params) else DecryptBody(env, w, params);
    if paramTypes == DecryptDataTypes {
      DecryptBodyCalls(env, w, params);
      DecryptBodyFrame(env, w, params);
    } else {
      NullNeverLive(w);
    }
    FinishBalanced(p);
    FinishRestores(w, p);
  }

  /**
   * Once the type word matches, DecryptData returns the status of its
   * first failed call, makes no call after a failure but the cleanup, and
   * ends with the cleanup: close, then free the transient object, then
   * free the operation.
   */
  lemma DecryptDataPropagates(env: Env, w: World, paramTypes: bv32, params: seq<TeeParam>)
    requires Valid(w) && |params| == 4
    ensures var o := DecryptData(env, w, paramTypes, params);
      && (paramTypes == DecryptDataTypes ==> o.res == Verdict(o.trace))
      && FailFast(o.trace) && CleanupLast(o.trace)
  {
    if paramTypes == DecryptDataTypes {
      DecryptBodyCalls(env, w, params);
      FinishOrdered(DecryptBody(env, w, params));
    } else {
      DecryptDataRejects(env, w, paramTypes, params);
    }
  }

  /** DecryptData writes nothing but the size of slot 2. */
  lemma DecryptDataSlots(env: Env, w: World, paramTypes: bv32, params: seq<TeeParam>)
    requires Valid(w) && |params| == 4
    ensures SizeOnly(DecryptData(env, w, paramTypes, params).params, params)
  {
    if paramTypes == DecryptDataTypes {
      DecryptBodyFrame(env, w, params);
    }
  }

  /**
   * When the open fails (TEE_ERROR_ITEM_NOT_FOUND for an identifier with
   * nothing stored under it, otherwise whatever the provider answered)
   * DecryptData returns that status unchanged after that one call, with
   * nothing to release and the slots untouched.
   */
  lemma DecryptDataOpenFails(env: Env, w: World, paramTypes: bv32, params: seq<TeeParam>)
    requires Valid(w) && |params| == 4
    ensures var o := DecryptData(env, w, paramTypes, params); var k := w.calls; var id := params[0].a;
      paramTypes == DecryptDataTypes && (id !in w.store || env.answer(k) != Success) ==>
        var res := if id in w.store then env.answer(k) else ItemNotFound;
        o == Outcome(res, w.(calls := k + 1), params, [OpenPersistent(StoragePrivate, id, AccessRead | ShareRead, res, NullHandle)])
  {
    var open := OpenPersistentObject(env, w, StoragePrivate, params[0].a, AccessRead | ShareRead);
    CleanupReleases(open.world, NullHandle, NullHandle, NullHandle);
  }

  /** A call a size probe may make: it allocates no transient object and no operation and decrypts nothing. */
  predicate ProbeCall(c: Call) {
    !c.AllocTransient? && !c.AllocOperation? && !c.Decrypt?
  }

  /** The cleanup makes only releases, which a size probe may make. */
  lemma FinishKeepsProbing(p: Progress)
    requires Holds(p)
    requires forall i | 0 <= i < |p.trace| :: ProbeCall(p.trace[i])
    ensures var o := Finish(p); forall i | 0 <= i < |o.trace| :: ProbeCall(o.trace[i])
  {
    FinishAppendsReleases(p);
  }

  /**
   * The size probe: with a NULL output buffer DecryptData allocates no
   * transient object and no operation and decrypts nothing. When the key
   * exists and the open and the info read are granted, it makes exactly
   * those two calls and the close, succeeds, and reports the key's
   * objectSize, in bits, as the size of slot 2.
   */
  lemma DecryptDataSizeProbe(env: Env, w: World, paramTypes: bv32, params: seq<TeeParam>)
    requires Valid(w) && |params| == 4
    ensures var o := DecryptData(env, w, paramTypes, params); var k := w.calls; var id := params[0].a;
      paramTypes == DecryptDataTypes && params[2].buffer == Null ==>
        && (forall i | 0 <= i < |o.trace| :: ProbeCall(o.trace[i]))
        && (id in w.store && env.answer(k) == Success && env.answer(k + 1) == Success ==>
              && o.res == Success
              && o.params == params[2 := params[2].(size := w.store[id].keySize)]
              && o.trace == [OpenPersistent(StoragePrivate, id, AccessRead | ShareRead, Success, k + 1),
                             GetInfo(k + 1, Success, ObjectInfo(w.store[id].keyType, w.store[id].keySize)),
                             Close(k + 1)])
  {
    if paramTypes == DecryptDataTypes && params[2].buffer == Null {
      var p := DecryptBody(env, w, params);
      DecryptBodyProbe(env, w, params);
      FinishKeepsProbing(p);
      var open := OpenPersistentObject(env, w, StoragePrivate, params[0].a, AccessRead | ShareRead);
      if open.call.res == Success {
        DecryptOpenedKey(env, open.world, params, open.call.h);
        CleanupReleases(p.world, p.pObject, NullHandle, NullHandle);
      }
    }
  }

  /**
   * A decryption made with an output buffer and the key stored under the
   * identifier in slot 0, from the slot-1 buffer into the slot-2 buffer.
   */
  ghost predicate StoredKeyDecrypt(c: Call, w: World, params: seq<TeeParam>)
    requires |params| == 4
  {
    && c.Decrypt?
    && params[0].a in w.store && params[2].buffer != Null
    && c.key == Some(w.store[params[0].a])
    && c.src == params[1].buffer && c.srcLen == params[1].size
    && c.dst == params[2].buffer && c.dstLen == params[2].size
  }

  /** Every decryption of the body happens with a stored key and an output buffer, with that key. */
  lemma DecryptBodyUsesStoredKey(env: Env, w: World, params: seq<TeeParam>)
    requires Valid(w) && |params| == 4
    ensures var p := DecryptBody(env, w, params);
      forall i | 0 <= i < |p.trace| && p.trace[i].Decrypt? :: StoredKeyDecrypt(p.trace[i], w, params)
  {
    DecryptBodyKey(env, w, params);
    if params[2].buffer == Null {
      DecryptBodyProbe(env, w, params);
    }
  }

  /** The cleanup decrypts nothing, so the decryptions after it are the body's. */
  lemma FinishKeepsDecryptions(p: Progress, w: World, params: seq<TeeParam>)
    requires Holds(p) && |params| == 4
    requires forall i | 0 <= i < |p.trace| && p.trace[i].Decrypt? :: StoredKeyDecrypt(p.trace[i], w, params)
    ensures var o := Finish(p);
      forall i | 0 <= i < |o.trace| && o.trace[i].Decrypt? :: StoredKeyDecrypt(o.trace[i], w, params)
  {
    var o := Finish(p);
    FinishAppendsReleases(p);
    forall i | 0 <= i < |o.trace| && o.trace[i].Decrypt?
      ensures StoredKeyDecrypt(o.trace[i], w, params)
    {
      assert i < |p.trace|;
    }
  }

  /**
   * Every decryption DecryptData asks for happens after the type check,
   * with an output buffer, with the key stored under the identifier in
   * slot 0, from the slot-1 buffer into the slot-2 buffer.
   */
  lemma DecryptDataUsesStoredKey(env: Env, w: World, paramTypes: bv32, params: seq<TeeParam>)
    requires Valid(w) && |params| == 4
    ensures var o := DecryptData(env, w, paramTypes, params);
      forall i | 0 <= i < |o.trace| && o.trace[i].Decrypt? ::
        paramTypes == DecryptDataTypes && StoredKeyDecrypt(o.trace[i], w, params)
  {
    if paramTypes != DecryptDataTypes {
      DecryptDataRejects(env, w, paramTypes, params);
    } else {
      DecryptBodyUsesStoredKey(env, w, params);
      FinishKeepsDecryptions(DecryptBody(env, w, params), w, params);
    }
  }

  /** The type and size TEE_GetObjectInfo1 reports for a stored key. */
  function InfoOf(key: Key): ObjectInfo {
    ObjectInfo(key.keyType, key.keySize)
  }

  /** Calls that allocate nothing can be put in front of a trace whose allocations fit `info`. */
  lemma AllocatesForPrefix(s: seq<Call>, t: seq<Call>, info: ObjectInfo)
    requires forall i | 0 <= i < |s| :: !s[i].AllocTransient? && !s[i].AllocOperation?
    requires forall i | 0 <= i < |t| :: AllocatesFor(t[i], info)
    ensures forall i | 0 <= i < |s + t| :: AllocatesFor((s + t)[i], info)
  {
    var u := s + t;
    assert forall k | |s| <= k < |u| :: u[k] == t[k - |s|];
  }

  /**
   * After the open, every allocation is sized by the stored object's info:
   * the transient copy has the stored key's type and size, and the
   * operation is an RSA_NOPAD decryption of that size.
   */
  lemma DecryptOpenedAllocates(env: Env, w: World, params: seq<TeeParam>, pObject: Handle)
    requires Valid(w) && |params| == 4 && pObject in w.persistents && pObject != NullHandle
    ensures var p := DecryptOpened(env, w, params, pObject);
      forall i | 0 <= i < |p.trace| :: AllocatesFor(p.trace[i], InfoOf(w.store[w.persistents[pObject]]))
  {
    var get := GetObjectInfo1(env, w, pObject);
    if get.call.res == Success && params[2].buffer != Null {
      var q := DecryptCopyKey(env, get.world, params, pObject, get.call.info);
      AllocatesForPrefix([get.call], q.trace, get.call.info);
    }
  }

  /** The body allocates for the object stored under slot 0's identifier, if there is one. */
  lemma DecryptBodyAllocates(env: Env, w: World, params: seq<TeeParam>)
    requires Valid(w) && |params| == 4 && params[0].a in w.store
    ensures var p := DecryptBody(env, w, params);
      forall i | 0 <= i < |p.trace| :: AllocatesFor(p.trace[i], InfoOf(w.store[params[0].a]))
  {
    var open := OpenPersistentObject(env, w, StoragePrivate, params[0].a, AccessRead | ShareRead);
    if open.call.res == Success {
      DecryptOpenedAllocates(env, open.world, params, open.call.h);
      var q := DecryptOpened(env, open.world, params, open.call.h);
      AllocatesForPrefix([open.call], q.trace, InfoOf(w.store[params[0].a]));
    }
  }

  /** The cleanup allocates nothing, so the allocations after it are the body's. */
  lemma FinishKeepsAllocations(p: Progress, info: ObjectInfo)
    requires Holds(p)
    requires forall i | 0 <= i < |p.trace| :: AllocatesFor(p.trace[i], info)
    ensures var o := Finish(p); forall i | 0 <= i < |o.trace| :: AllocatesFor(o.trace[i], info)
  {
    var o := Finish(p);
    FinishAppendsReleases(p);
    forall i | 0 <= i < |o.trace|
      ensures AllocatesFor(o.trace[i], info)
    {
      if i < |p.trace| {
        assert o.trace[i] == p.trace[i];
      }
    }
  }

  /**
   * How DecryptData sets up the decryption: every transient object it
   * allocates has the type and size of the key stored under slot 0's
   * identifier, and every operation it allocates is TEE_ALG_RSA_NOPAD
   * (0x60000030) in TEE_MODE_DECRYPT (1) with that key's size.
   */
  lemma DecryptDataConfigures(env: Env, w: World, paramTypes: bv32, params: seq<TeeParam>)
    requires Valid(w) && |params| == 4
    ensures var o := DecryptData(env, w, paramTypes, params); var id := params[0].a;
      id in w.store ==>
        forall i | 0 <= i < |o.trace| ::
          && (o.trace[i].AllocTransient? ==>
                o.trace[i].objectType == w.store[id].keyType && o.trace[i].maxObjectSize == w.store[id].keySize)
          && (o.trace[i].AllocOperation? ==>
                && o.trace[i].algorithm == RsaNoPad == 0x6000_0030
                && o.trace[i].mode == ModeDecrypt == 1
                && o.trace[i].maxKeySize == w.store[id].keySize)
  {
    var id := params[0].a;
    if paramTypes != DecryptDataTypes {
      DecryptDataRejects(env, w, paramTypes, params);
    } else if id in w.store {
      DecryptBodyAllocates(env, w, params);
      FinishKeepsAllocations(DecryptBody(env, w, params), InfoOf(w.store[id]));
    }
  }

  /**
   * With a stored key and an output buffer, DecryptData succeeds exactly
   * when the type word matches and the provider grants its seven calls; the
   * decryption's output length reaches slot 2 when it answered success or
   * a short buffer, and otherwise the slots are untouched.
   */
  lemma DecryptDataDecrypts(env: Env, w: World, paramTypes: bv32, params: seq<TeeParam>)
    requires Valid(w) && |params| == 4
    ensures var o := DecryptData(env, w, paramTypes, params); var k := w.calls;
      paramTypes == DecryptDataTypes && params[0].a in w.store && params[2].buffer != Null ==>
        && (o.res == Success <==> Grants(env, k, 7))
        && o.params == Decrypted(env, k, 6, params)
  {
    if paramTypes == DecryptDataTypes && params[0].a in w.store && params[2].buffer != Null {
      DecryptBodyOutcome(env, w, params);
    }
  }

  // ---------------------------------------------------------------------
  // The two handlers together

  /**
   * A key pair GenerateKeyPair made can be probed at once: DecryptData
   * with the identifier it reported in slot 0 and a NULL output buffer,
   * granted its open and its info read, succeeds and reports KeyBits, the
   * size in bits the key was generated with.
   */
  lemma GenerateThenProbe(env: Env, w: World, params: seq<TeeParam>, probe: seq<TeeParam>)
    requires Valid(w) && |params| == 4 && |probe| == 4
    requires GenerateKeyPair(env, w, GenerateKeyPairTypes, params).res == Success
    ensures var g := GenerateKeyPair(env, w, GenerateKeyPairTypes, params); var k := g.world.calls;
      probe[0].a == g.params[0].a && probe[2].buffer == Null && env.answer(k) == Success && env.answer(k + 1) == Success ==>
        var o := DecryptData(env, g.world, DecryptDataTypes, probe);
        o.res == Success && o.params == probe[2 := probe[2].(size := KeyBits)]
  {
    var g := GenerateKeyPair(env, w, GenerateKeyPairTypes, params);
    GenerateKeyPairStores(env, w, GenerateKeyPairTypes, params);
    DecryptDataSizeProbe(env, g.world, DecryptDataTypes, probe);
  }

  // ---------------------------------------------------------------------
  // Entry points

  /**
   * Command 2 runs DecryptData and only it, command 1 runs GenerateKeyPair
   * and only it, and any other command is answered with
   * TEE_ERROR_BAD_PARAMETERS without a call. Whatever the command, every
   * resource acquired is released exactly once and the live handles are
   * as they were.
   */
  lemma InvokeCommandDispatches(env: Env, w: World, cmdId: uint32, paramTypes: bv32, params: seq<TeeParam>)
    requires Valid(w) && |params| == 4
    ensures var o := InvokeCommand(env, w, cmdId, paramTypes, params);
      && (cmdId == 2 ==> o == DecryptData(env, w, paramTypes, params))
      && (cmdId == 1 ==> o == GenerateKeyPair(env, w, paramTypes, params))
      && (cmdId != 1 && cmdId != 2 ==> o == Outcome(BadParameters, w, params, []))
      && Balanced(o.trace)
      && o.world.transients == w.transients
      && o.world.persistents == w.persistents
      && o.world.operations == w.operations
  {
    if cmdId == DecryptDataId {
      DecryptDataReleases(env, w, paramTypes, params);
    } else if cmdId == GenerateKeyPairId {
      GenerateKeyPairReleases(env, w, paramTypes, params);
    } else {
      assert Acquisitions([]) == multiset{} && Releases([]) == multiset{};
    }
  }

  /** The three expected type words, as numbers. */
  lemma TypeWords()
    ensures OpenSessionTypes == 0x0
    ensures GenerateKeyPairTypes == 0x2
    ensures DecryptDataTypes == 0x651
  {
  }
}
