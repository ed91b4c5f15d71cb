# Secure-storage trusted application, modelled in Dafny

This project models the command handler of a small OP-TEE trusted
application, `ta/secure_storage_entry.c`, and proves how it behaves. The
application serves two commands:

- **GenerateKeyPair** (command 1) creates a 2048-bit RSA key pair in a
  transient object. It stores the pair as a persistent object under the
  handler's own identifier `obj_id` (always 0) and reports that identifier
  in slot 0.
- **DecryptData** (command 2) opens the persistent object named by slot 0
  and reads its info. With a NULL output buffer it only reports the
  object's size in slot 2 (the size probe). Otherwise it copies the key
  into a transient object, sets it into an `RSA_NOPAD` decrypt operation,
  and decrypts the slot-1 buffer into the slot-2 buffer.

Both handlers check the declared parameter-type word first. They leave
through one `out:` label on the first failure and release, at that label,
every handle they hold. Opening a session accepts only four `NONE`
parameters.

The TEE Internal Core API the handlers call is modelled as an abstract
provider. Its state (`TeeModel.World`) holds:

- the persistent store, a map from identifier to key;
- the live transient objects, open persistent handles and live operations,
  each a map from handle;
- a call counter.

Every status the provider returns is chosen by an environment
(`TeeModel.Env`), indexed by the call counter, with one exception: opening
an identifier with nothing stored under it answers
`TEE_ERROR_ITEM_NOT_FOUND`, the answer the GlobalPlatform TEE Internal Core
API Specification documents for that case. So one proof covers every way
the provider can answer, apart from that open. Each call is recorded as a
`TeeModel.Call`.

Files:

- `wrappers.dfy`: the `Option` type the other modules use.
- `tee_types.dfy`: result codes, the `TEE_PARAM_TYPES` word of section 4.3
  (TA Interface) of the GlobalPlatform TEE Internal Core API
  Specification, and the four parameter slots.
- `tee_model.dfy`: the provider's calls as state transitions. Also the
  resource bookkeeping (acquisitions, releases), the first-failure status
  `Verdict`, and the trace predicates `Balanced`, `FailFast` and
  `CleanupLast`.
- `tee_provider.dfy`: the provider as a class `Tee` whose methods update
  its state in place and log each call.
- `secure_storage_spec.dfy`: what each handler does, as functions. Each
  handler has a body that runs to the `out:` label (`Progress`) and a
  shared cleanup (`Cleanup`, `Finish`).
- `secure_storage_entry.dfy`: the handlers as imperative methods over a
  `Tee` and a four-slot `params` array. Each is proved to produce exactly
  the outcome the spec functions give. A `return` from a stage method, or
  a `break out`, stands for `goto out`.
- `secure_storage_props.dfy`: the properties, proved of the spec functions
  and therefore of the methods.

The model follows the code where one might expect otherwise:

- The header comment of GenerateKeyPair (`ta/secure_storage_entry.c`
  lines 8-12) calls slot 0 an input "key pair gen mechanism", slot 1 an
  attribute buffer and slot 2 the "output object ID". The code expects
  slot 0 to be declared `VALUE_OUTPUT` and slots 1-3 `NONE`, and writes the
  identifier into slot 0 (lines 20-24 and 52). The model does what the
  code does.
- The identifier GenerateKeyPair reports is the constant 0 it stored the
  key under, not one the provider assigns.
- An unknown command returns `TEE_ERROR_BAD_PARAMETERS`, not a separate
  "unsupported command" status.
- The size probe reports `objectSize`, which is in bits (2048 for a
  generated key), not the length in bytes of a decrypted block (256).
- A failed open returns the provider's status unchanged.

## Model

| member | source | states |
|---|---|---|
| TeeTypes.Pack | ta/secure_storage_entry.c:20-23 | `TEE_PARAM_TYPES`: reading slot i back out of the packed word gives the code packed there, and no bit above the four nibbles is set |
| TeeTypes.MatchesSlotwise | ta/secure_storage_entry.c:77-81 | a type word equals an expected packed word exactly when every slot carries the expected code and no higher bit is set |
| TeeTypes.PackInjective | ta/secure_storage_entry.c:20-24 | two packed words are equal exactly when the two type vectors agree slot by slot |
| TeeModel.AllocateTransientObject | ta/secure_storage_entry.c:34-36 | TEE_AllocateTransientObject: the handle is non-null exactly on success, and then it is fresh |
| TeeModel.OpenPersistentObject | ta/secure_storage_entry.c:89-95 | TEE_OpenPersistentObject: the handle is non-null exactly on success, and then it is fresh; an identifier with nothing stored under it gives TEE_ERROR_ITEM_NOT_FOUND and opens nothing |
| TeeModel.AllocateOperation | ta/secure_storage_entry.c:122-125 | TEE_AllocateOperation: the handle is non-null exactly on success, and then it is fresh |
| TeeProvider.Tee.AllocateTransientObject | ta/secure_storage_entry.c:34 | the provider's state becomes the allocation's new state, the call is logged, and the status and handle are returned |
| TeeProvider.Tee.GenerateKey | ta/secure_storage_entry.c:39 | the provider's state becomes the key generation's new state and the call is logged |
| TeeProvider.Tee.CreatePersistentObject | ta/secure_storage_entry.c:43-48 | the provider's state becomes the creation's new state (the key stored under the identifier on success) and the call is logged |
| TeeProvider.Tee.OpenPersistentObject | ta/secure_storage_entry.c:89-93 | the provider's state becomes the open's new state, the call is logged, and the status and handle are returned |
| TeeProvider.Tee.GetObjectInfo1 | ta/secure_storage_entry.c:99 | the call is logged and the stored key's type and size are returned with the provider's status |
| TeeProvider.Tee.CopyObjectAttributes1 | ta/secure_storage_entry.c:115 | on success the transient object holds the stored key; the call is logged |
| TeeProvider.Tee.AllocateOperation | ta/secure_storage_entry.c:122-123 | the provider's state becomes the allocation's new state, the call is logged, and the status and handle are returned |
| TeeProvider.Tee.SetOperationKey | ta/secure_storage_entry.c:128 | on success the operation uses the transient object's key; the call is logged |
| TeeProvider.Tee.AsymmetricDecrypt | ta/secure_storage_entry.c:133-137 | the decryption is logged with its key, buffers and lengths, and the status and new output length are returned |
| TeeProvider.Tee.CloseObject | ta/secure_storage_entry.c:143-144 | the persistent handle is no longer open and the call is logged |
| TeeProvider.Tee.FreeTransientObject | ta/secure_storage_entry.c:146-147 | the transient object is no longer live and the call is logged |
| TeeProvider.Tee.FreeOperation | ta/secure_storage_entry.c:149-150 | the operation is no longer live and the call is logged |
| SecureStorageSpec.Cleanup | ta/secure_storage_entry.c:142-150 | the cleanup can run on any handles the handler holds and leaves a consistent provider state |
| SecureStorageSpec.Finish | ta/secure_storage_entry.c:142-152 | the status and slots the handler reached at `out:` are what it returns after the cleanup |
| SecureStorageSpec.GenerateBody | ta/secure_storage_entry.c:30-52 | every handle held at `out:` is live |
| SecureStorageSpec.GenerateKeyPair | ta/secure_storage_entry.c:14-60 | the outcome leaves a consistent provider state and four slots |
| SecureStorageSpec.DecryptBody | ta/secure_storage_entry.c:86-139 | every handle held at `out:` is live |
| SecureStorageSpec.DecryptOpened | ta/secure_storage_entry.c:97-139 | every handle held at `out:` is live, and the persistent handle is still the one opened |
| SecureStorageSpec.DecryptCopyKey | ta/secure_storage_entry.c:108-139 | every handle held at `out:` is live, and the persistent handle is still the one opened; the transient copy is allocated with the object info's type and size, and the operation as RSA_NOPAD in decrypt mode with the object info's size |
| SecureStorageSpec.DecryptRun | ta/secure_storage_entry.c:119-139 | every handle held at `out:` is live, and the object handles are still the ones given; the operation is allocated as TEE_ALG_RSA_NOPAD in TEE_MODE_DECRYPT with the object info's size |
| SecureStorageSpec.DecryptData | ta/secure_storage_entry.c:69-153 | the outcome leaves a consistent provider state and four slots |
| SecureStorageEntry.GenerateKeyPair | ta/secure_storage_entry.c:14-60 | the handler's status, the provider's new state, the slots and the calls made are exactly GenerateKeyPair's outcome |
| SecureStorageEntry.GenerateBody | ta/secure_storage_entry.c:30-52 | the steps up to `out:` give exactly the status, transient handle, state, slots and calls of the generation body |
| SecureStorageEntry.DecryptData | ta/secure_storage_entry.c:69-153 | the handler's status, the provider's new state, the slots and the calls made are exactly DecryptData's outcome |
| SecureStorageEntry.DecryptOpened | ta/secure_storage_entry.c:97-139 | the steps after the open give exactly the status, handles, state, slots and calls of that stage, including the size probe |
| SecureStorageEntry.DecryptCopyKey | ta/secure_storage_entry.c:108-139 | the key-copy steps give exactly the status, handles, state, slots and calls of that stage |
| SecureStorageEntry.DecryptRun | ta/secure_storage_entry.c:119-139 | the operation steps give exactly the status, handle, state, slots and calls of that stage, with the output length written to slot 2 |
| SecureStorageEntry.Cleanup | ta/secure_storage_entry.c:142-150 | the cleanup makes exactly the release calls of the cleanup function and reaches its state |
| SecureStorageEntry.InvokeCommand | ta/secure_storage_entry.c:212-225 | the dispatcher's status, state, slots and calls are exactly the routed outcome |
| SecureStorageProps.CleanupReleases | ta/secure_storage_entry.c:142-150 | the cleanup closes, then frees the transient object, then frees the operation, each only when held, and the live maps lose exactly those handles |
| SecureStorageProps.ReleaseCallsOrdered | ta/secure_storage_entry.c:142-150 | the cleanup's calls are all releases, in the order close, free transient, free operation |
| SecureStorageProps.ReleaseCallsReleases | ta/secure_storage_entry.c:142-150 | the cleanup releases exactly the resources the held handles stand for |
| SecureStorageProps.FinishBalanced | ta/secure_storage_entry.c:142-150 | when the body acquired exactly what it holds and released nothing, every resource is released exactly once after the cleanup |
| SecureStorageProps.FinishOrdered | ta/secure_storage_entry.c:142-152 | after the cleanup the status is that of the first failed call, only releases follow a failure, and the releases come last in cleanup order |
| SecureStorageProps.FinishRestores | ta/secure_storage_entry.c:142-150 | after the cleanup the live maps are what they were before the handler ran |
| SecureStorageProps.FinishAppendsReleases | ta/secure_storage_entry.c:142-150 | the cleanup only appends release calls after the body's calls |
| SecureStorageProps.GenerateBodyCalls | ta/secure_storage_entry.c:34-50 | the generation body stops at the first failure and acquired only the transient object it holds |
| SecureStorageProps.GenerateBodySegment | ta/secure_storage_entry.c:34-50 | the generation body's calls release nothing, only the last may fail, and its status is the first failure's |
| SecureStorageProps.GenerateBodyAcquires | ta/secure_storage_entry.c:34-50 | the generation body acquired exactly the transient object it holds, and no persistent handle or operation |
| SecureStorageProps.GenerateBodyFrame | ta/secure_storage_entry.c:34-36 | the generation body adds only its transient object to the live maps |
| SecureStorageProps.GenerateBodyStores | ta/secure_storage_entry.c:39-52 | the body succeeds exactly when its three calls are granted; it then stores the key under identifier 0 and writes 0 to slot 0, and otherwise changes neither |
| SecureStorageProps.GenerateKeyPairRejects | ta/secure_storage_entry.c:20-27 | a type word other than (VALUE_OUTPUT, NONE, NONE, NONE) gives TEE_ERROR_BAD_PARAMETERS with no call, the state and slots unchanged; with the right word some call is made |
| SecureStorageProps.GenerateKeyPairReleases | ta/secure_storage_entry.c:34-59 | the transient object is freed exactly once when it was allocated and never otherwise, and the live maps are restored |
| SecureStorageProps.GenerateKeyPairPropagates | ta/secure_storage_entry.c:34-59 | the provider's first error is returned unchanged, no call but the cleanup follows it, and the cleanup comes last |
| SecureStorageProps.GenerateKeyPairStores | ta/secure_storage_entry.c:18-52 | success exactly when the type word matches and three calls are granted; on success the 2048-bit RSA pair is stored under 0 and slot 0 reads 0; on failure store and slots are untouched |
| SecureStorageProps.DecryptsWithPrefix | ta/secure_storage_entry.c:133-137 | calls that decrypt nothing do not change which key and buffers the decryptions use |
| SecureStorageProps.DecryptRunCalls | ta/secure_storage_entry.c:122-139 | the operation stage's calls release nothing, only the last may fail, and its status is the first failure's |
| SecureStorageProps.DecryptRunAcquires | ta/secure_storage_entry.c:122-125 | the operation stage acquired exactly the operation it holds |
| SecureStorageProps.DecryptRunFrame | ta/secure_storage_entry.c:122-139 | the operation stage adds only its operation to the live maps, leaves the store alone and changes at most the slot-2 size |
| SecureStorageProps.DecryptRunKey | ta/secure_storage_entry.c:128-137 | the decryption uses the transient object's key, reads slot 1 and writes slot 2 |
| SecureStorageProps.DecryptRunOutcome | ta/secure_storage_entry.c:122-139 | the stage succeeds exactly when its three calls are granted; slot 2's size is the decryption's output length when it answered success or a short buffer, else unchanged |
| SecureStorageProps.DecryptCopyKeyCalls | ta/secure_storage_entry.c:109-139 | the key-copy stage's calls release nothing, only the last may fail, and its status is the first failure's |
| SecureStorageProps.DecryptCopyKeyAcquires | ta/secure_storage_entry.c:109-125 | the key-copy stage acquired exactly the transient object and operation it holds |
| SecureStorageProps.DecryptCopyKeyFrame | ta/secure_storage_entry.c:109-139 | the key-copy stage adds only its handles to the live maps, leaves the store alone and changes at most the slot-2 size |
| SecureStorageProps.DecryptCopyKeyKey | ta/secure_storage_entry.c:115-137 | every decryption uses the key stored under the open object, from slot 1 into slot 2 |
| SecureStorageProps.DecryptCopyKeyOutcome | ta/secure_storage_entry.c:109-139 | the stage succeeds exactly when its five calls are granted, with slot 2 as the decryption left it |
| SecureStorageProps.DecryptOpenedCalls | ta/secure_storage_entry.c:99-139 | the stage after the open stops at its first failure and releases nothing |
| SecureStorageProps.DecryptOpenedAcquires | ta/secure_storage_entry.c:99-125 | the stage after the open acquired exactly the transient object and operation it holds |
| SecureStorageProps.DecryptOpenedFrame | ta/secure_storage_entry.c:99-139 | the stage after the open adds only its handles to the live maps, leaves the store alone and changes at most the slot-2 size |
| SecureStorageProps.DecryptOpenedKey | ta/secure_storage_entry.c:99-106 | decryptions use the stored key; with a NULL buffer the stage makes only the info call and on success writes the key size to slot 2 |
| SecureStorageProps.DecryptOpenedOutcome | ta/secure_storage_entry.c:99-139 | with an output buffer the stage succeeds exactly when its six calls are granted |
| SecureStorageProps.DecryptBodyCalls | ta/secure_storage_entry.c:89-139 | the decryption body stops at its first failure and acquired exactly what it holds |
| SecureStorageProps.DecryptBodySegment | ta/secure_storage_entry.c:89-139 | the decryption body's calls release nothing, only the last may fail, and its status is the first failure's |
| SecureStorageProps.DecryptBodyAcquires | ta/secure_storage_entry.c:89-125 | the decryption body acquired exactly the persistent handle, transient object and operation it holds |
| SecureStorageProps.DecryptBodyFrame | ta/secure_storage_entry.c:89-139 | the decryption body adds only its handles to the live maps, leaves the store alone and changes at most the slot-2 size |
| SecureStorageProps.DecryptBodyKey | ta/secure_storage_entry.c:86-95 | a missing identifier gives TEE_ERROR_ITEM_NOT_FOUND after the open alone; otherwise every decryption uses the stored key |
| SecureStorageProps.DecryptBodyProbe | ta/secure_storage_entry.c:103-106 | with a NULL buffer nothing is allocated or decrypted; with the key present and the two calls granted the body succeeds with the key size in slot 2 |
| SecureStorageProps.DecryptBodyUsesStoredKey | ta/secure_storage_entry.c:86-137 | every decryption of the body has a stored key and an output buffer, and uses that key |
| SecureStorageProps.DecryptBodyOutcome | ta/secure_storage_entry.c:89-139 | with a stored key and an output buffer the body succeeds exactly when its seven calls are granted |
| SecureStorageProps.FinishKeepsDecryptions | ta/secure_storage_entry.c:142-150 | the cleanup adds no decryption |
| SecureStorageProps.FinishKeepsProbing | ta/secure_storage_entry.c:142-150 | the cleanup allocates nothing and decrypts nothing |
| SecureStorageProps.DecryptDataRejects | ta/secure_storage_entry.c:77-84 | a type word other than (VALUE_INPUT, MEMREF_INPUT, MEMREF_OUTPUT, NONE) gives TEE_ERROR_BAD_PARAMETERS with no call at all, nothing released, state and slots unchanged |
| SecureStorageProps.DecryptDataReleases | ta/secure_storage_entry.c:142-150 | on every path each acquired resource is released exactly once, the live maps are as on entry, and the store is unchanged |
| SecureStorageProps.DecryptDataPropagates | ta/secure_storage_entry.c:89-150 | the provider's first error is returned unchanged, only the cleanup follows it, and its releases come last in the order close, free transient, free operation |
| SecureStorageProps.DecryptDataSlots | ta/secure_storage_entry.c:103-137 | the handler writes nothing but the size of slot 2 |
| SecureStorageProps.DecryptDataOpenFails | ta/secure_storage_entry.c:89-95 | a failed open returns its status unchanged (TEE_ERROR_ITEM_NOT_FOUND for a missing identifier) after that single call, with nothing allocated or released |
| SecureStorageProps.DecryptDataSizeProbe | ta/secure_storage_entry.c:99-106 | with a NULL buffer nothing is allocated or decrypted; with the key present and open and info granted the calls are open, info, close, the result is success and slot 2's size is the key size in bits |
| SecureStorageProps.DecryptDataUsesStoredKey | ta/secure_storage_entry.c:86-137 | every decryption happens after the type check, with an output buffer and the key stored under slot 0's identifier, from slot 1 into slot 2 |
| SecureStorageProps.DecryptOpenedAllocates | ta/secure_storage_entry.c:97-125 | after the open, the transient copy has the stored key's type and size, and the operation is an RSA_NOPAD decryption of that size |
| SecureStorageProps.DecryptBodyAllocates | ta/secure_storage_entry.c:86-125 | every allocation of the body fits the key stored under slot 0's identifier |
| SecureStorageProps.FinishKeepsAllocations | ta/secure_storage_entry.c:142-150 | the cleanup allocates nothing |
| SecureStorageProps.DecryptDataConfigures | ta/secure_storage_entry.c:108-125 | every transient object DecryptData allocates has the stored key's type and size, and every operation is TEE_ALG_RSA_NOPAD in TEE_MODE_DECRYPT with the stored key's size |
| SecureStorageProps.DecryptDataDecrypts | ta/secure_storage_entry.c:108-139 | with a stored key and an output buffer: success exactly when the seven calls are granted; slot 2's size is the decryption's output length when it ran and answered success or a short buffer |
| SecureStorageProps.GenerateThenProbe | ta/secure_storage_entry.c:30-52 | after a successful GenerateKeyPair, probing the reported identifier reports 2048, the key size in bits |
| SecureStorageProps.InvokeCommandDispatches | ta/secure_storage_entry.c:217-224 | command 2 runs DecryptData, command 1 runs GenerateKeyPair, any other is answered with TEE_ERROR_BAD_PARAMETERS with no call; resources are balanced for every command |
| SecureStorageProps.TypeWords | ta/secure_storage_entry.c:183-186 | the expected type words are 0x0 (open session), 0x2 (GenerateKeyPair) and 0x651 (DecryptData) |
| SecureStorageSpec.Route | ta/secure_storage_entry.c:217-224 | command 2 is routed to DecryptData and command 1 to GenerateKeyPair, and only those |
| SecureStorageSpec.InvokeCommand | ta/secure_storage_entry.c:212-225 | the outcome leaves a consistent state and four slots; a command other than 1 and 2 gives TEE_ERROR_BAD_PARAMETERS with no call and state and slots unchanged |
| SecureStorageSpec.OpenSession | ta/secure_storage_entry.c:180-195 | a session opens exactly when all four slots are NONE and no higher bit is set; otherwise TEE_ERROR_BAD_PARAMETERS |

The command identifiers 1 and 2 are those of
`ta/include/ta_secure_storage.h` lines 9-10.

## Left out

- The host program `host/secure_storage.c` is not part of this model. It is client plumbing: context and session setup, shared memory, argument parsing, printing.
- RSA arithmetic is not modelled. Key material is an opaque token, and nothing is said about the bytes TEE_AsymmetricDecrypt writes into the output buffer.
- The environment decides whether the output buffer is large enough. It also decides the new output length on success or TEE_ERROR_SHORT_BUFFER. On any other error that length is left as it was.
- Storage flags, access conflicts and overwrite behaviour are not modelled. The flags are recorded in each call only. A successful create stores the key under the identifier, replacing any old entry; a conflict is one of the failures the environment may choose.
- The unused arguments are not modelled: the empty attribute lists of TEE_GenerateKey and TEE_AsymmetricDecrypt, and the empty initial data and unrequested handle of TEE_CreatePersistentObject.
- The identifier buffer is modelled as a 32-bit number. Its byte length is not.
- The provider methods require their handles to be live. The real provider panics on a bad handle; the handlers never pass one, and the entry methods prove it.
- `DMSG` logging is left out, and so are TA_CreateEntryPoint, TA_DestroyEntryPoint and TA_CloseSessionEntryPoint, which only return or log.
- The UUID constant is left out.
- TeeModel.OpenPersistentObject: for an identifier with nothing stored under it, the model answers only `TEE_ERROR_ITEM_NOT_FOUND`. The provider's other failures in that case (`TEE_ERROR_OUT_OF_MEMORY`, `TEE_ERROR_STORAGE_NOT_AVAILABLE` and the like) are not modelled, so the `TEE_ERROR_ITEM_NOT_FOUND` clauses of DecryptBodyKey and DecryptDataOpenFails rest on this choice. For a stored identifier the environment may choose any status.
- How the TEE serialises concurrent sessions is left out. The handler keeps no state between invocations.
- TA_OpenSessionEntryPoint is modelled as a function of the type word. Its `params` and `sess_ctx` are unused.
- `TEE_Param` is a union in C. The model keeps its value view (`a`, `b`) and its memory-reference view (`buffer`, `size`) side by side, so writing one view does not clobber the other.
- The two handlers are split into stage methods (GenerateBody, DecryptOpened, DecryptCopyKey, DecryptRun) and a cleanup method. In those methods a `return` stands for `goto out`. The order of calls and of writes to `params` is the source's.
- SecureStorageSpec.GenerateKeyPair: its own contract states only that the outcome's state is consistent. What the handler promises is proved in the GenerateKeyPair* lemmas.
- SecureStorageSpec.DecryptData: its own contract states only that the outcome's state is consistent. What the handler promises is proved in the DecryptData* lemmas.
