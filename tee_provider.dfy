/**
 * The TEE Internal Core API as an object the trusted application calls.
 * Each method changes the provider's state as the matching transition of
 * TeeModel says, and appends the call it answered to a ghost log.
 */
module TeeProvider {
  import opened Wrappers
  import opened TeeTypes
  import opened TeeModel

  class Tee {
    /** What the environment answers to each call. */
    const env: Env

    /** The provider's state. */
    var world: World

    /** Every call answered so far, in order. */
    ghost var log: seq<Call>

    ghost predicate Valid()
      reads this
    {
      TeeModel.Valid(world) && |log| == world.calls
    }

    /** A provider holding `store`, with nothing allocated or open and no call made yet. */
    constructor (env: Env, store: map<ObjectId, Key>)
      ensures Valid() && this.env == env && log == []
      ensures world == World(0, store, map[], map[], map[])
    {
      this.env := env;
      world := World(0, store, map[], map[], map[]);
      log := [];
    }

    method AllocateTransientObject(objectType: uint32, maxObjectSize: uint32) returns (res: Status, h: Handle)
      requires Valid()
      modifies this
      ensures Valid()
      ensures var s := TeeModel.AllocateTransientObject(env, old(world), objectType, maxObjectSize);
        world == s.world && log == old(log) + [s.call] && res == s.call.res && h == s.call.h
    {
      var s := TeeModel.AllocateTransientObject(env, world, objectType, maxObjectSize);
      world := s.world;
      log := log + [s.call];
      res := s.call.res;
      h := s.call.h;
    }

    method GenerateKey(h: Handle, keySize: uint32) returns (res: Status)
      requires Valid() && h in world.transients
      modifies this
      ensures Valid()
      ensures var s := TeeModel.GenerateKey(env, old(world), h, keySize);
        world == s.world && log == old(log) + [s.call] && res == s.call.res
    {
      var s := TeeModel.GenerateKey(env, world, h, keySize);
      world := s.world;
      log := log + [s.call];
      res := s.call.res;
    }

    method CreatePersistentObject(storage: uint32, id: ObjectId, flags: Flags, h: Handle) returns (res: Status)
      requires Valid() && h in world.transients && world.transients[h].key.Some?
      modifies this
      ensures Valid()
      ensures var s := TeeModel.CreatePersistentObject(env, old(world), storage, id, flags, h);
        world == s.world && log == old(log) + [s.call] && res == s.call.res
    {
      var s := TeeModel.CreatePersistentObject(env, world, storage, id, flags, h);
      world := s.world;
      log := log + [s.call];
      res := s.call.res;
    }

    method OpenPersistentObject(storage: uint32, id: ObjectId, flags: Flags) returns (res: Status, h: Handle)
      requires Valid()
      modifies this
      ensures Valid()
      ensures var s := TeeModel.OpenPersistentObject(env, old(world), storage, id, flags);
        world == s.world && log == old(log) + [s.call] && res == s.call.res && h == s.call.h
    {
      var s := TeeModel.OpenPersistentObject(env, world, storage, id, flags);
      world := s.world;
      log := log + [s.call];
      res := s.call.res;
      h := s.call.h;
    }

    method GetObjectInfo1(h: Handle) returns (res: Status, info: ObjectInfo)
      requires Valid() && h in world.persistents
      modifies this
      ensures Valid()
      ensures var s := TeeModel.GetObjectInfo1(env, old(world), h);
        world == s.world && log == old(log) + [s.call] && res == s.call.res && info == s.call.info
    {
      var s := TeeModel.GetObjectInfo1(env, world, h);
      world := s.world;
      log := log + [s.call];
      res := s.call.res;
      info := s.call.info;
    }

    method CopyObjectAttributes1(dst: Handle, src: Handle) returns (res: Status)
      requires Valid() && dst in world.transients && src in world.persistents
      modifies this
      ensures Valid()
      ensures var s := TeeModel.CopyObjectAttributes1(env, old(world), dst, src);
        world == s.world && log == old(log) + [s.call] && res == s.call.res
    {
      var s := TeeModel.CopyObjectAttributes1(env, world, dst, src);
      world := s.world;
      log := log + [s.call];
      res := s.call.res;
    }

    method AllocateOperation(algorithm: uint32, mode: uint32, maxKeySize: uint32) returns (res: Status, h: Handle)
      requires Valid()
      modifies this
      ensures Valid()
      ensures var s := TeeModel.AllocateOperation(env, old(world), algorithm, mode, maxKeySize);
        world == s.world && log == old(log) + [s.call] && res == s.call.res && h == s.call.h
    {
      var s := TeeModel.AllocateOperation(env, world, algorithm, mode, maxKeySize);
      world := s.world;
      log := log + [s.call];
      res := s.call.res;
      h := s.call.h;
    }

    method SetOperationKey(op: Handle, keyObject: Handle) returns (res: Status)
      requires Valid() && op in world.operations && keyObject in world.transients
      modifies this
      ensures Valid()
      ensures var s := TeeModel.SetOperationKey(env, old(world), op, keyObject);
        world == s.world && log == old(log) + [s.call] && res == s.call.res
    {
      var s := TeeModel.SetOperationKey(env, world, op, keyObject);
      world := s.world;
      log := log + [s.call];
      res := s.call.res;
    }

    method AsymmetricDecrypt(op: Handle, src: Address, srcLen: uint32, dst: Address, dstLen: uint32)
      returns (res: Status, outLen: uint32)
      requires Valid() && op in world.operations
      modifies this
      ensures Valid()
      ensures var s := TeeModel.AsymmetricDecrypt(env, old(world), op, src, srcLen, dst, dstLen);
        world == s.world && log == old(log) + [s.call] && res == s.call.res && outLen == s.call.outLen
    {
      var s := TeeModel.AsymmetricDecrypt(env, world, op, src, srcLen, dst, dstLen);
      world := s.world;
      log := log + [s.call];
      res := s.call.res;
      outLen := s.call.outLen;
    }

    method CloseObject(h: Handle)
      requires Valid() && h in world.persistents
      modifies this
      ensures Valid()
      ensures var s := TeeModel.CloseObject(old(world), h);
        world == s.world && log == old(log) + [s.call]
    {
      var s := TeeModel.CloseObject(world, h);
      world := s.world;
      log := log + [s.call];
    }

    method FreeTransientObject(h: Handle)
      requires Valid() && h in world.transients
      modifies this
      ensures Valid()
      ensures var s := TeeModel.FreeTransientObject(old(world), h);
        world == s.world && log == old(log) + [s.call]
    {
      var s := TeeModel.FreeTransientObject(world, h);
      world := s.world;
      log := log + [s.call];
    }

    method FreeOperation(h: Handle)
      requires Valid() && h in world.operations
      modifies this
      ensures Valid()
      ensures var s := TeeModel.FreeOperation(old(world), h);
        world == s.world && log == old(log) + [s.call]
    {
      var s := TeeModel.FreeOperation(world, h);
      world := s.world;
      log := log + [s.call];
    }
  }
}
