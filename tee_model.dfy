/**
 * The part of the TEE Internal Core API that the trusted application calls,
 * modelled as pure state transitions over a `World` value.
 *
 * Whatever the real provider decides (out of memory, storage failures,
 * a short buffer, the length of a plaintext) is chosen by an environment
 * `Env`, indexed by how many provider calls were made before; the one
 * exception is opening an identifier with nothing stored under it, which
 * always gives TEE_ERROR_ITEM_NOT_FOUND. Every call is
 * recorded as a `Call`, with what it was given and what it answered.
 */
module TeeModel {
  import opened Wrappers
  import opened TeeTypes

  /** An object or operation handle; 0 is TEE_HANDLE_NULL. */
  type Handle = nat
  const NullHandle: Handle := 0

  /** The identifier a persistent object is stored under (a 4-byte ID buffer). */
  type ObjectId = uint32

  /** TEE_DATA_FLAG_* access and share flags. */
  type Flags = bv32
  const AccessRead: Flags := 0x1
  const AccessWrite: Flags := 0x2
  const ShareRead: Flags := 0x10

  /**
   * Key material, opaque: its object type, its size in bits and a token
   * standing for the secret itself.
   */
  datatype Key = Key(keyType: uint32, keySize: uint32, material: nat)

  /** The part of TEE_ObjectInfo the application reads. */
  datatype ObjectInfo = ObjectInfo(objectType: uint32, objectSize: uint32)

  /** A transient object: allocated for a type and a maximum size, initialised once it holds a key. */
  datatype TransientObject = TransientObject(objectType: uint32, maxObjectSize: uint32, key: Option<Key>)

  /** An operation: its algorithm, mode, maximum key size and the key set into it. */
  datatype Operation = Operation(algorithm: uint32, mode: uint32, maxKeySize: uint32, key: Option<Key>)

  /**
   * The provider's state: how many calls it has answered, the persistent
   * store, and the live transient objects, open persistent-object handles
   * and live operations, each by handle.
   */
  datatype World = World(
    calls: nat,
    store: map<ObjectId, Key>,
    transients: map<Handle, TransientObject>,
    persistents: map<Handle, ObjectId>,
    operations: map<Handle, Operation>)

  /** What the environment answers to the k-th provider call. */
  datatype Env = Env(answer: nat -> Status, outLen: nat -> uint32)

  /** One provider call as it was made and answered. */
  datatype Call =
    | AllocTransient(objectType: uint32, maxObjectSize: uint32, res: Status, h: Handle)
    | Generate(h: Handle, keySize: uint32, res: Status)
    | CreatePersistent(storage: uint32, id: ObjectId, flags: Flags, h: Handle, res: Status)
    | OpenPersistent(storage: uint32, id: ObjectId, flags: Flags, res: Status, h: Handle)
    | GetInfo(h: Handle, res: Status, info: ObjectInfo)
    | CopyAttributes(dst: Handle, h: Handle, res: Status)
    | AllocOperation(algorithm: uint32, mode: uint32, maxKeySize: uint32, res: Status, h: Handle)
    | SetKey(h: Handle, keyObject: Handle, res: Status)
    | Decrypt(h: Handle, key: Option<Key>, src: Address, srcLen: uint32, dst: Address, dstLen: uint32,
              res: Status, outLen: uint32)
    | Close(h: Handle)
    | FreeTransient(h: Handle)
    | FreeOp(h: Handle)
  {
    /** Calls that give a resource back; they cannot fail. */
    predicate IsRelease() {
      Close? || FreeTransient? || FreeOp?
    }

    /** A call that can fail and did. */
    predicate Failed() {
      !IsRelease() && res != Success
    }
  }

  /** The new state of the provider and the call that produced it. */
  datatype Step = Step(world: World, call: Call)

  /**
   * Every live handle was handed out by an earlier call (so the next
   * handle, calls + 1, is fresh) and every open persistent handle names
   * a stored object.
   */
  ghost predicate Valid(w: World) {
    && (forall h :: h in w.transients ==> 0 < h <= w.calls)
    && (forall h :: h in w.persistents ==> 0 < h <= w.calls)
    && (forall h :: h in w.operations ==> 0 < h <= w.calls)
    && (forall h :: h in w.persistents ==> w.persistents[h] in w.store)
  }

  /** TEE_AllocateTransientObject: on failure the handle is TEE_HANDLE_NULL. */
  function AllocateTransientObject(env: Env, w: World, objectType: uint32, maxObjectSize: uint32): (s: Step)
    requires Valid(w)
    ensures Valid(s.world)
    ensures s.call.AllocTransient?
    ensures s.call.res == Success <==> s.call.h != NullHandle
    ensures s.call.h != NullHandle ==> s.call.h !in w.transients
  {
    var k := w.calls;
    var res := env.answer(k);
    var h := if res == Success then k + 1 else NullHandle;
    var transients := if res == Success then w.transients[h := TransientObject(objectType, maxObjectSize, None)]
                      else w.transients;
    Step(w.(calls := k + 1, transients := transients), AllocTransient(objectType, maxObjectSize, res, h))
  }

  /** TEE_GenerateKey: on success the object holds a new key of the requested size. */
  function GenerateKey(env: Env, w: World, h: Handle, keySize: uint32): (s: Step)
    requires Valid(w) && h in w.transients
    ensures Valid(s.world)
  {
    var k := w.calls;
    var res := env.answer(k);
    var t := w.transients[h];
    var transients := if res == Success then w.transients[h := t.(key := Some(Key(t.objectType, keySize, k)))]
                      else w.transients;
    Step(w.(calls := k + 1, transients := transients), Generate(h, keySize, res))
  }

  /**
   * TEE_CreatePersistentObject with no initial data and no handle asked
   * back: on success the transient object's key is stored under id.
   */
  function CreatePersistentObject(env: Env, w: World, storage: uint32, id: ObjectId, flags: Flags, h: Handle): (s: Step)
    requires Valid(w) && h in w.transients && w.transients[h].key.Some?
    ensures Valid(s.world)
  {
    var k := w.calls;
    var res := env.answer(k);
    var store := if res == Success then w.store[id := w.transients[h].key.value] else w.store;
    Step(w.(calls := k + 1, store := store), CreatePersistent(storage, id, flags, h, res))
  }

  /**
   * TEE_OpenPersistentObject: an identifier that names no stored object
   * gives TEE_ERROR_ITEM_NOT_FOUND; otherwise the environment decides.
   */
  function OpenPersistentObject(env: Env, w: World, storage: uint32, id: ObjectId, flags: Flags): (s: Step)
    requires Valid(w)
    ensures Valid(s.world)
    ensures s.call.OpenPersistent?
    ensures s.call.res == Success <==> s.call.h != NullHandle
    ensures s.call.h != NullHandle ==> s.call.h !in w.persistents
    ensures id !in w.store ==> s.call.res == ItemNotFound && s.world.persistents == w.persistents
  {
    var k := w.calls;
    var res := if id in w.store then env.answer(k) else ItemNotFound;
    var h := if res == Success then k + 1 else NullHandle;
    var persistents := if res == Success then w.persistents[h := id] else w.persistents;
    Step(w.(calls := k + 1, persistents := persistents), OpenPersistent(storage, id, flags, res, h))
  }

  /** TEE_GetObjectInfo1: the type and size of the stored key. */
  function GetObjectInfo1(env: Env, w: World, h: Handle): (s: Step)
    requires Valid(w) && h in w.persistents
    ensures Valid(s.world)
  {
    var k := w.calls;
    var key := w.store[w.persistents[h]];
    Step(w.(calls := k + 1), GetInfo(h, env.answer(k), ObjectInfo(key.keyType, key.keySize)))
  }

  /** TEE_CopyObjectAttributes1: on success the transient object holds the stored key. */
  function CopyObjectAttributes1(env: Env, w: World, dst: Handle, src: Handle): (s: Step)
    requires Valid(w) && dst in w.transients && src in w.persistents
    ensures Valid(s.world)
  {
    var k := w.calls;
    var res := env.answer(k);
    var key := w.store[w.persistents[src]];
    var transients := if res == Success then w.transients[dst := w.transients[dst].(key := Some(key))]
                      else w.transients;
    Step(w.(calls := k + 1, transients := transients), CopyAttributes(dst, src, res))
  }

  /** TEE_AllocateOperation: on failure the handle is TEE_HANDLE_NULL. */
  function AllocateOperation(env: Env, w: World, algorithm: uint32, mode: uint32, maxKeySize: uint32): (s: Step)
    requires Valid(w)
    ensures Valid(s.world)
    ensures s.call.AllocOperation?
    ensures s.call.res == Success <==> s.call.h != NullHandle
    ensures s.call.h != NullHandle ==> s.call.h !in w.operations
  {
    var k := w.calls;
    var res := env.answer(k);
    var h := if res == Success then k + 1 else NullHandle;
    var operations := if res == Success then w.operations[h := Operation(algorithm, mode, maxKeySize, None)]
                      else w.operations;
    Step(w.(calls := k + 1, operations := operations), AllocOperation(algorithm, mode, maxKeySize, res, h))
  }

  /** TEE_SetOperationKey: on success the operation uses the transient object's key. */
  function SetOperationKey(env: Env, w: World, op: Handle, keyObject: Handle): (s: Step)
    requires Valid(w) && op in w.operations && keyObject in w.transients
    ensures Valid(s.world)
  {
    var k := w.calls;
    var res := env.answer(k);
    var operations := if res == Success then w.operations[op := w.operations[op].(key := w.transients[keyObject].key)]
                      else w.operations;
    Step(w.(calls := k + 1, operations := operations), SetKey(op, keyObject, res))
  }

  /**
   * TEE_AsymmetricDecrypt with no extra parameters. The output length is
   * rewritten on success and on TEE_ERROR_SHORT_BUFFER, and left alone
   * otherwise; its new value comes from the environment.
   */
  function AsymmetricDecrypt(env: Env, w: World, op: Handle, src: Address, srcLen: uint32, dst: Address, dstLen: uint32): (s: Step)
    requires Valid(w) && op in w.operations
    ensures Valid(s.world)
  {
    var k := w.calls;
    var res := env.answer(k);
    var outLen := if res == Success || res == ShortBuffer then env.outLen(k) else dstLen;
    Step(w.(calls := k + 1), Decrypt(op, w.operations[op].key, src, srcLen, dst, dstLen, res, outLen))
  }

  /** TEE_CloseObject on an open persistent handle. */
  function CloseObject(w: World, h: Handle): (s: Step)
    requires Valid(w) && h in w.persistents
    ensures Valid(s.world)
  {
    Step(w.(calls := w.calls + 1, persistents := w.persistents - {h}), Close(h))
  }

  /** TEE_FreeTransientObject on a live transient object. */
  function FreeTransientObject(w: World, h: Handle): (s: Step)
    requires Valid(w) && h in w.transients
    ensures Valid(s.world)
  {
    Step(w.(calls := w.calls + 1, transients := w.transients - {h}), FreeTransient(h))
  }

  /** TEE_FreeOperation on a live operation. */
  function FreeOperation(w: World, h: Handle): (s: Step)
    requires Valid(w) && h in w.operations
    ensures Valid(s.world)
  {
    Step(w.(calls := w.calls + 1, operations := w.operations - {h}), FreeOp(h))
  }

  // ---------------------------------------------------------------------
  // Properties of a sequence of calls

  /** A resource the application can hold: a transient object, an open persistent object or an operation. */
  datatype Resource = TransientRes(h: Handle) | PersistentRes(h: Handle) | OperationRes(h: Handle)

  /** The resource a call acquired, if it acquired one. */
  function Acquired(c: Call): multiset<Resource> {
    match c
    case AllocTransient(_, _, res, h) => if res == Success then multiset{TransientRes(h)} else multiset{}
    case OpenPersistent(_, _, _, res, h) => if res == Success then multiset{PersistentRes(h)} else multiset{}
    case AllocOperation(_, _, _, res, h) => if res == Success then multiset{OperationRes(h)} else multiset{}
    case _ => multiset{}
  }

  /** The resource a call gave back, if it gave one back. */
  function Released(c: Call): multiset<Resource> {
    match c
    case Close(h) => multiset{PersistentRes(h)}
    case FreeTransient(h) => multiset{TransientRes(h)}
    case FreeOp(h) => multiset{OperationRes(h)}
    case _ => multiset{}
  }

  /** Everything a sequence of calls acquired, with multiplicity. */
  function Acquisitions(t: seq<Call>): multiset<Resource> {
    if t == [] then multiset{} else Acquired(t[0]) + Acquisitions(t[1..])
  }

  /** Everything a sequence of calls released, with multiplicity. */
  function Releases(t: seq<Call>): multiset<Resource> {
    if t == [] then multiset{} else Released(t[0]) + Releases(t[1..])
  }

  lemma {:induction false} AcquisitionsAppend(s: seq<Call>, t: seq<Call>)
    ensures Acquisitions(s + t) == Acquisitions(s) + Acquisitions(t)
  {
    if s == [] {
      assert s + t == t;
    } else {
      assert (s + t)[1..] == s[1..] + t;
      AcquisitionsAppend(s[1..], t);
    }
  }

  lemma {:induction false} ReleasesAppend(s: seq<Call>, t: seq<Call>)
    ensures Releases(s + t) == Releases(s) + Releases(t)
  {
    if s == [] {
      assert s + t == t;
    } else {
      assert (s + t)[1..] == s[1..] + t;
      ReleasesAppend(s[1..], t);
    }
  }

  /**
   * Every resource acquired is released exactly once and nothing else is
   * released.
   */
  ghost predicate Balanced(t: seq<Call>) {
    Releases(t) == Acquisitions(t) && forall r :: Acquisitions(t)[r] <= 1
  }

  /** The status of the first call that failed, or success when none did. */
  function Verdict(t: seq<Call>): Status {
    if t == [] then Success else if t[0].Failed() then t[0].res else Verdict(t[1..])
  }

  lemma {:induction false} VerdictAppend(s: seq<Call>, t: seq<Call>)
    ensures Verdict(s + t) == if Verdict(s) != Success then Verdict(s) else Verdict(t)
  {
    if s == [] {
      assert s + t == t;
    } else {
      assert (s + t)[0] == s[0];
      assert (s + t)[1..] == s[1..] + t;
      VerdictAppend(s[1..], t);
    }
  }

  /** After a call fails, only releases follow. */
  ghost predicate FailFast(t: seq<Call>) {
    forall i, j | 0 <= i < j < |t| && t[i].Failed() :: t[j].IsRelease()
  }

  /** Cleanup order: persistent object first, then transient object, then operation. */
  function ReleaseRank(c: Call): nat {
    if c.Close? then 0 else if c.FreeTransient? then 1 else 2
  }

  /**
   * The releases form one final block, in the cleanup order, each kind at
   * most once.
   */
  ghost predicate CleanupLast(t: seq<Call>) {
    forall i, j | 0 <= i < j < |t| && t[i].IsRelease() ::
      t[j].IsRelease() && ReleaseRank(t[i]) < ReleaseRank(t[j])
  }
}
