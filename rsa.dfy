/** The RSA half of the trusted application: the per-session pair of handles, the
    parameter-shape check, and key generation, encryption and decryption as
    sequences of platform primitives that stop at the first failure. The platform
    (TEE Internal Core API) is modelled by its object and operation tables and a
    trace of the primitives called; what each primitive returns is an input, so
    every combination of successes and failures is covered and no RSA arithmetic
    is involved. */
module Rsa {
  import opened TeeTypes

  const RSA_KEY_SIZE := 1024
  const MAX_PLAIN_LEN_1024 := 86
  const RSA_CIPHER_LEN_1024 := RSA_KEY_SIZE / 8

  /** check_params: the RSA commands accept one parameter shape only. */
  function CheckParams(paramTypes: u32): (res: u32)
    ensures res == TEE_SUCCESS || res == TEE_ERROR_BAD_PARAMETERS
  {
    if paramTypes != ParamTypes(TEE_PARAM_TYPE_MEMREF_INPUT, TEE_PARAM_TYPE_MEMREF_OUTPUT,
                                TEE_PARAM_TYPE_NONE, TEE_PARAM_TYPE_NONE)
    then TEE_ERROR_BAD_PARAMETERS
    else TEE_SUCCESS
  }

  /** check_params succeeds exactly when slot 0 is an input memory reference, slot 1
      an output memory reference, slots 2 and 3 unused, and no bit above the four
      slots is set. */
  lemma CheckParamsShape(paramTypes: u32)
    ensures CheckParams(paramTypes) == TEE_SUCCESS <==>
      && paramTypes < 0x1_0000
      && ParamTypeGet(paramTypes, 0) == TEE_PARAM_TYPE_MEMREF_INPUT
      && ParamTypeGet(paramTypes, 1) == TEE_PARAM_TYPE_MEMREF_OUTPUT
      && ParamTypeGet(paramTypes, 2) == TEE_PARAM_TYPE_NONE
      && ParamTypeGet(paramTypes, 3) == TEE_PARAM_TYPE_NONE
  {
    if paramTypes < 0x1_0000 {
      ParamTypesOfSlots(paramTypes);
    }
  }

  datatype Mode = EncryptMode | DecryptMode

  /** A primitive call into the platform, with the handles it is given. */
  datatype Call =
    | AllocTransient                    // TEE_AllocateTransientObject(TEE_TYPE_RSA_KEYPAIR, 1024, ...)
    | GenKey(obj: Handle)               // TEE_GenerateKey
    | GetInfo(obj: Handle)              // TEE_GetObjectInfo1
    | AllocOp(mode: Mode)               // TEE_AllocateOperation(..., TEE_ALG_RSAES_PKCS1_V1_5, mode, ...)
    | SetKey(op: Handle, key: Handle)   // TEE_SetOperationKey
    | Transform(mode: Mode, op: Handle) // TEE_AsymmetricEncrypt / TEE_AsymmetricDecrypt
    | FreeOp(op: Handle)                // TEE_FreeOperation

  /** What each primitive returns during one command. `allocClearsHandle` says what a
      failed TEE_AllocateTransientObject or TEE_AllocateOperation leaves in the handle
      it was given: TEE_HANDLE_NULL (true) or the value the handle already held (false). */
  datatype Results = Results(
    allocateTransientObject: u32,
    generateKey: u32,
    getObjectInfo: u32,
    allocateOperation: u32,
    setOperationKey: u32,
    transform: u32,
    allocClearsHandle: bool)

  /** The handle a failed allocation leaves behind, given the value it held before. */
  function HandleAfterFailedAlloc(prev: Handle, clears: bool): Handle
  {
    if clears then Null else prev
  }

  /** One primitive call of a short-circuiting sequence and the code it returns. */
  datatype Step = Step(call: Call, code: u32)

  /** The number of leading steps that succeed: the index of the first failing step,
      or the length when none fails. */
  function FirstFailure(steps: seq<Step>): (k: nat)
    ensures k <= |steps|
    ensures forall j :: 0 <= j < k ==> steps[j].code == TEE_SUCCESS
    ensures k < |steps| ==> steps[k].code != TEE_SUCCESS
  {
    if steps == [] || steps[0].code != TEE_SUCCESS then 0
    else 1 + FirstFailure(steps[1..])
  }

  /** The code such a sequence returns: that of its first failing step, unchanged,
      or TEE_SUCCESS when every step succeeds. */
  function ResultOf(steps: seq<Step>): (res: u32)
    ensures res == TEE_SUCCESS <==> forall j :: 0 <= j < |steps| ==> steps[j].code == TEE_SUCCESS
  {
    var k := FirstFailure(steps);
    if k == |steps| then TEE_SUCCESS else steps[k].code
  }

  /** The calls such a sequence makes: every step up to and including the first failing one. */
  function CallsMade(steps: seq<Step>): seq<Call>
  {
    var k := FirstFailure(steps);
    var n := if k < |steps| then k + 1 else |steps|;
    seq(n, j requires 0 <= j < n => steps[j].call)
  }

  /** RSA_encrypt / RSA_decrypt after the shape check: prepare_rsa_operation (look up
      the key, allocate the operation, bind the key to it), then the transform. */
  function OperationSteps(mode: Mode, key: Handle, newOp: nat, r: Results): seq<Step>
  {
    [ Step(GetInfo(key), r.getObjectInfo),
      Step(AllocOp(mode), r.allocateOperation),
      Step(SetKey(Ref(newOp), key), r.setOperationKey),
      Step(Transform(mode, Ref(newOp)), r.transform) ]
  }

  /** The session's operation handle after prepare_rsa_operation: untouched when the key
      lookup fails, what the failed allocation leaves when the allocation fails, the new
      operation otherwise. */
  function PreparedHandle(op: Handle, newOp: nat, r: Results): Handle
  {
    if r.getObjectInfo != TEE_SUCCESS then op
    else if r.allocateOperation != TEE_SUCCESS then HandleAfterFailedAlloc(op, r.allocClearsHandle)
    else Ref(newOp)
  }

  /** The operation table after TEE_FreeOperation(h); freeing TEE_HANDLE_NULL does nothing. */
  function Released(operations: set<nat>, h: Handle): set<nat>
  {
    if h.Ref? then operations - {h.id} else operations
  }

  /** Everything one RSA_encrypt or RSA_decrypt call changes. */
  datatype Effect = Effect(res: u32, calls: seq<Call>, opHandle: Handle, operations: set<nat>, nextId: nat)

  /** The effect of RSA_encrypt (EncryptMode) or RSA_decrypt (DecryptMode) on a session
      holding `key` and `op`, over a platform whose live operations are `operations`
      and whose next fresh id is `nextId`: the shape check, then each way
      prepare_rsa_operation and the transform can end, with `goto err` freeing the
      handle the session holds at that point. It succeeds exactly when the shape is
      right and every primitive succeeds; a fresh id is used exactly when the
      allocation is reached and succeeds, and no operation but that one is added. */
  function OperationEffect(mode: Mode, paramTypes: u32, key: Handle, op: Handle,
                           operations: set<nat>, nextId: nat, r: Results): (e: Effect)
    ensures e.res == TEE_SUCCESS <==>
      && CheckParams(paramTypes) == TEE_SUCCESS && r.getObjectInfo == TEE_SUCCESS
      && r.allocateOperation == TEE_SUCCESS && r.setOperationKey == TEE_SUCCESS
      && r.transform == TEE_SUCCESS
    ensures e.operations <= operations + {nextId}
    ensures e.nextId == (if CheckParams(paramTypes) == TEE_SUCCESS && r.getObjectInfo == TEE_SUCCESS
                            && r.allocateOperation == TEE_SUCCESS then nextId + 1 else nextId)
  {
    var newOp := Ref(nextId);
    var prepared := [GetInfo(key), AllocOp(mode), SetKey(newOp, key)];
    if CheckParams(paramTypes) != TEE_SUCCESS then
      Effect(TEE_ERROR_BAD_PARAMETERS, [], op, operations, nextId)
    else if r.getObjectInfo != TEE_SUCCESS then
      Effect(r.getObjectInfo, [GetInfo(key), FreeOp(op)], op, Released(operations, op), nextId)
    else if r.allocateOperation != TEE_SUCCESS then
      var left := HandleAfterFailedAlloc(op, r.allocClearsHandle);
      Effect(r.allocateOperation, [GetInfo(key), AllocOp(mode), FreeOp(left)], left,
             Released(operations, left), nextId)
    else if r.setOperationKey != TEE_SUCCESS then
      Effect(r.setOperationKey, prepared + [FreeOp(newOp)],
             newOp, Released(operations + {nextId}, newOp), nextId + 1)
    else if r.transform != TEE_SUCCESS then
      Effect(r.transform, prepared + [Transform(mode, newOp), FreeOp(newOp)],
             newOp, Released(operations + {nextId}, newOp), nextId + 1)
    else
      Effect(TEE_SUCCESS, prepared + [Transform(mode, newOp)], newOp, operations + {nextId}, nextId + 1)
  }

  /** A shape other than (input memref, output memref, none, none) is rejected with
      TEE_ERROR_BAD_PARAMETERS before any primitive runs, and the session is untouched. */
  lemma {:induction false} OperationRejectsBadShape(mode: Mode, paramTypes: u32, key: Handle, op: Handle,
                                                    operations: set<nat>, nextId: nat, r: Results)
    requires paramTypes != ParamTypes(TEE_PARAM_TYPE_MEMREF_INPUT, TEE_PARAM_TYPE_MEMREF_OUTPUT,
                                      TEE_PARAM_TYPE_NONE, TEE_PARAM_TYPE_NONE)
    ensures var e := OperationEffect(mode, paramTypes, key, op, operations, nextId, r);
      e == Effect(TEE_ERROR_BAD_PARAMETERS, [], op, operations, nextId)
  {
  }

  /** With the right shape, RSA_encrypt / RSA_decrypt behave as a short-circuiting
      sequence of primitives: the code returned is that of the first failing primitive,
      unchanged (TEE_SUCCESS when none fails); the calls made are the primitives up to
      and including that one, in source order; and a failure ends with
      TEE_FreeOperation of the handle prepare_rsa_operation left in the session. */
  lemma {:induction false} OperationPropagatesFirstFailure(mode: Mode, paramTypes: u32, key: Handle, op: Handle,
                                                           operations: set<nat>, nextId: nat, r: Results)
    requires CheckParams(paramTypes) == TEE_SUCCESS
    ensures var e := OperationEffect(mode, paramTypes, key, op, operations, nextId, r);
      var steps := OperationSteps(mode, key, nextId, r);
      && e.res == ResultOf(steps)
      && e.opHandle == PreparedHandle(op, nextId, r)
      && e.calls == CallsMade(steps) + (if e.res == TEE_SUCCESS then [] else [FreeOp(e.opHandle)])
  {
    var steps := OperationSteps(mode, key, nextId, r);
    var k := FirstFailure(steps);
    assert |steps| == 4 && steps[0].code == r.getObjectInfo && steps[1].code == r.allocateOperation
      && steps[2].code == r.setOperationKey && steps[3].code == r.transform;
    if r.getObjectInfo != TEE_SUCCESS {
      assert k == 0;
      assert CallsMade(steps) == [GetInfo(key)];
    } else if r.allocateOperation != TEE_SUCCESS {
      assert k == 1;
      assert CallsMade(steps) == [GetInfo(key), AllocOp(mode)];
    } else if r.setOperationKey != TEE_SUCCESS {
      assert k == 2;
      assert CallsMade(steps) == [GetInfo(key), AllocOp(mode), SetKey(Ref(nextId), key)];
    } else if r.transform != TEE_SUCCESS {
      assert k == 3;
      assert CallsMade(steps) == [GetInfo(key), AllocOp(mode), SetKey(Ref(nextId), key), Transform(mode, Ref(nextId))];
    } else {
      assert k == 4;
      assert CallsMade(steps) == [GetInfo(key), AllocOp(mode), SetKey(Ref(nextId), key), Transform(mode, Ref(nextId))];
    }
  }

  /** The operation handle's lifecycle. On success the new operation stays allocated and
      the session keeps it (it is not freed); an operation the session held before is
      then neither freed nor referenced any more. On failure the handle the session is
      left with has been freed. */
  lemma {:induction false} OperationHandleLifecycle(mode: Mode, paramTypes: u32, key: Handle, op: Handle,
                                                    operations: set<nat>, nextId: nat, r: Results)
    requires forall id :: id in operations ==> id < nextId
    requires CheckParams(paramTypes) == TEE_SUCCESS
    ensures var e := OperationEffect(mode, paramTypes, key, op, operations, nextId, r);
      && (e.res == TEE_SUCCESS ==>
            e.opHandle == Ref(nextId) && e.operations == operations + {nextId} && e.nextId == nextId + 1
            && (op.Ref? && op.id in operations ==> op.id in e.operations && e.opHandle != op))
      && (e.res != TEE_SUCCESS ==>
            |e.calls| > 0 && e.calls[|e.calls| - 1] == FreeOp(e.opHandle)
            && (e.opHandle.Ref? ==> e.opHandle.id !in e.operations)
            && e.operations <= operations)
  {
  }

  /** Two successful operations in a row on one session (as the host's RSA flow runs
      RSA_encrypt then RSA_decrypt): the first operation is still allocated, but the
      session no longer holds its handle, so nothing can free it any more. */
  lemma {:induction false} SecondOperationStrandsFirst(paramTypes: u32, key: Handle, op: Handle,
                                                       operations: set<nat>, nextId: nat,
                                                       first: Results, second: Results)
    requires forall id :: id in operations ==> id < nextId
    requires CheckParams(paramTypes) == TEE_SUCCESS
    requires OperationEffect(EncryptMode, paramTypes, key, op, operations, nextId, first).res == TEE_SUCCESS
    requires var e1 := OperationEffect(EncryptMode, paramTypes, key, op, operations, nextId, first);
      OperationEffect(DecryptMode, paramTypes, key, e1.opHandle, e1.operations, e1.nextId, second).res == TEE_SUCCESS
    ensures var e1 := OperationEffect(EncryptMode, paramTypes, key, op, operations, nextId, first);
      var e2 := OperationEffect(DecryptMode, paramTypes, key, e1.opHandle, e1.operations, e1.nextId, second);
      e1.opHandle == Ref(nextId) && nextId in e2.operations && e2.opHandle != e1.opHandle
  {
    var e1 := OperationEffect(EncryptMode, paramTypes, key, op, operations, nextId, first);
    OperationHandleLifecycle(EncryptMode, paramTypes, key, op, operations, nextId, first);
    OperationHandleLifecycle(DecryptMode, paramTypes, key, e1.opHandle, e1.operations, e1.nextId, second);
  }

  /** When TEE_AllocateOperation fails, `goto err` frees whatever the failed allocation
      left in the session. If the platform leaves the handle as it was, that is the
      operation an earlier call left there, which is freed (again, if that call had
      failed); if it clears the handle, TEE_HANDLE_NULL is freed and nothing changes. */
  lemma {:induction false} FailedAllocFreesHeldHandle(mode: Mode, paramTypes: u32, key: Handle, op: Handle,
                                                      operations: set<nat>, nextId: nat, r: Results)
    requires CheckParams(paramTypes) == TEE_SUCCESS
    requires r.getObjectInfo == TEE_SUCCESS && r.allocateOperation != TEE_SUCCESS
    ensures var e := OperationEffect(mode, paramTypes, key, op, operations, nextId, r);
      && (!r.allocClearsHandle ==>
            e.opHandle == op && e.calls[|e.calls| - 1] == FreeOp(op) && e.operations == Released(operations, op))
      && (r.allocClearsHandle ==>
            e.opHandle == Null && e.calls[|e.calls| - 1] == FreeOp(Null) && e.operations == operations)
  {
  }

  /** A call that fails after allocating its operation frees it but leaves its handle
      in the session (the error path never resets it). A following call whose key
      lookup fails frees that handle a second time, although the operation is gone. */
  lemma {:induction false} FailedOperationFreedTwice(paramTypes: u32, key: Handle, op: Handle,
                                                     operations: set<nat>, nextId: nat,
                                                     first: Results, second: Results)
    requires CheckParams(paramTypes) == TEE_SUCCESS
    requires first.getObjectInfo == TEE_SUCCESS && first.allocateOperation == TEE_SUCCESS
    requires first.setOperationKey != TEE_SUCCESS || first.transform != TEE_SUCCESS
    requires second.getObjectInfo != TEE_SUCCESS
    ensures var e1 := OperationEffect(EncryptMode, paramTypes, key, op, operations, nextId, first);
      var e2 := OperationEffect(DecryptMode, paramTypes, key, e1.opHandle, e1.operations, e1.nextId, second);
      && e1.calls[|e1.calls| - 1] == FreeOp(Ref(nextId)) && nextId !in e1.operations
      && e1.opHandle == Ref(nextId)
      && e2.calls == [GetInfo(key), FreeOp(Ref(nextId))]
  {
  }

  /** The platform: its transient objects, which of them hold a generated key pair,
      its live operations, the id the next allocation gets, and the primitives
      called so far. */
  class Tee {
    var objects: set<nat>
    var keyPairs: set<nat>
    var operations: set<nat>
    var nextId: nat
    var trace: seq<Call>

    ghost predicate Valid()
      reads this
    {
      && keyPairs <= objects
      && (forall id :: id in objects ==> id < nextId)
      && (forall id :: id in operations ==> id < nextId)
    }

    constructor ()
      ensures Valid()
      ensures objects == {} && keyPairs == {} && operations == {} && trace == []
    {
      objects, keyPairs, operations := {}, {}, {};
      nextId := 0;
      trace := [];
    }

    /** TEE_AllocateTransientObject into a handle holding `prev`, returning `rc`; on
        failure the handle is TEE_HANDLE_NULL or `prev`, as `clears` says. */
    method AllocateTransientObject(rc: u32, prev: Handle, clears: bool) returns (res: u32, obj: Handle)
      requires Valid()
      modifies this
      ensures Valid() && res == rc
      ensures trace == old(trace) + [AllocTransient]
      ensures rc == TEE_SUCCESS ==>
        obj == Ref(old(nextId)) && objects == old(objects) + {old(nextId)} && nextId == old(nextId) + 1
      ensures rc != TEE_SUCCESS ==>
        obj == HandleAfterFailedAlloc(prev, clears) && objects == old(objects) && nextId == old(nextId)
      ensures keyPairs == old(keyPairs) && operations == old(operations)
    {
      res := rc;
      trace := trace + [AllocTransient];
      if rc == TEE_SUCCESS {
        obj := Ref(nextId);
        objects := objects + {nextId};
        nextId := nextId + 1;
      } else {
        obj := HandleAfterFailedAlloc(prev, clears);
      }
    }

    /** TEE_GenerateKey, returning `rc`; on success the object holds a key pair. */
    method GenerateKey(obj: Handle, rc: u32) returns (res: u32)
      requires Valid()
      modifies this
      ensures Valid() && res == rc
      ensures trace == old(trace) + [GenKey(obj)]
      ensures keyPairs == if rc == TEE_SUCCESS && obj.Ref? && obj.id in objects
                          then old(keyPairs) + {obj.id} else old(keyPairs)
      ensures objects == old(objects) && operations == old(operations) && nextId == old(nextId)
    {
      res := rc;
      trace := trace + [GenKey(obj)];
      if rc == TEE_SUCCESS && obj.Ref? && obj.id in objects {
        keyPairs := keyPairs + {obj.id};
      }
    }

    /** TEE_GetObjectInfo1, returning `rc`. */
    method GetObjectInfo1(obj: Handle, rc: u32) returns (res: u32)
      modifies this`trace
      ensures res == rc && trace == old(trace) + [GetInfo(obj)]
    {
      res := rc;
      trace := trace + [GetInfo(obj)];
    }

    /** TEE_AllocateOperation into a handle holding `prev`, returning `rc`; on failure
        the handle is TEE_HANDLE_NULL or `prev`, as `clears` says. */
    method AllocateOperation(mode: Mode, rc: u32, prev: Handle, clears: bool) returns (res: u32, op: Handle)
      requires Valid()
      modifies this
      ensures Valid() && res == rc
      ensures trace == old(trace) + [AllocOp(mode)]
      ensures rc == TEE_SUCCESS ==>
        op == Ref(old(nextId)) && operations == old(operations) + {old(nextId)} && nextId == old(nextId) + 1
      ensures rc != TEE_SUCCESS ==>
        op == HandleAfterFailedAlloc(prev, clears) && operations == old(operations) && nextId == old(nextId)
      ensures objects == old(objects) && keyPairs == old(keyPairs)
    {
      res := rc;
      trace := trace + [AllocOp(mode)];
      if rc == TEE_SUCCESS {
        op := Ref(nextId);
        operations := operations + {nextId};
        nextId := nextId + 1;
      } else {
        op := HandleAfterFailedAlloc(prev, clears);
      }
    }

    /** TEE_SetOperationKey, returning `rc`. */
    method SetOperationKey(op: Handle, key: Handle, rc: u32) returns (res: u32)
      modifies this`trace
      ensures res == rc && trace == old(trace) + [SetKey(op, key)]
    {
      res := rc;
      trace := trace + [SetKey(op, key)];
    }

    /** TEE_AsymmetricEncrypt or TEE_AsymmetricDecrypt, returning `rc`. */
    method AsymmetricTransform(mode: Mode, op: Handle, rc: u32) returns (res: u32)
      modifies this`trace
      ensures res == rc && trace == old(trace) + [Transform(mode, op)]
    {
      res := rc;
      trace := trace + [Transform(mode, op)];
    }

    /** TEE_FreeOperation; freeing TEE_HANDLE_NULL does nothing. */
    method FreeOperation(op: Handle)
      requires Valid()
      modifies this
      ensures Valid()
      ensures trace == old(trace) + [FreeOp(op)] && operations == Released(old(operations), op)
      ensures objects == old(objects) && keyPairs == old(keyPairs) && nextId == old(nextId)
    {
      trace := trace + [FreeOp(op)];
      operations := Released(operations, op);
    }
  }

  /** struct rsa_session: the operation handle and the key-pair handle of one session. */
  class RsaSession {
    var opHandle: Handle
    var keyHandle: Handle

    /** The session as TA_OpenSessionEntryPoint sets it up: both handles TEE_HANDLE_NULL. */
    constructor ()
      ensures opHandle == Null && keyHandle == Null
    {
      opHandle, keyHandle := Null, Null;
    }

    /** RSA_create_key_pair. The parameter types are not checked. The key handle is
        overwritten without freeing the object it named before. */
    method CreateKeyPair(tee: Tee, r: Results) returns (res: u32)
      requires tee.Valid()
      modifies this, tee
      ensures tee.Valid()
      ensures r.allocateTransientObject != TEE_SUCCESS ==>
        && res == r.allocateTransientObject
        && keyHandle == HandleAfterFailedAlloc(old(keyHandle), r.allocClearsHandle)
        && tee.trace == old(tee.trace) + [AllocTransient]
        && tee.objects == old(tee.objects) && tee.nextId == old(tee.nextId)
      ensures r.allocateTransientObject == TEE_SUCCESS ==>
        && res == r.generateKey && keyHandle == Ref(old(tee.nextId))
        && tee.trace == old(tee.trace) + [AllocTransient, GenKey(keyHandle)]
        && tee.objects == old(tee.objects) + {old(tee.nextId)} && tee.nextId == old(tee.nextId) + 1
      ensures tee.keyPairs == if res == TEE_SUCCESS then old(tee.keyPairs) + {old(tee.nextId)}
                              else old(tee.keyPairs)
      ensures opHandle == old(opHandle) && tee.operations == old(tee.operations)
    {
      res, keyHandle := tee.AllocateTransientObject(r.allocateTransientObject, keyHandle, r.allocClearsHandle);
      if res != TEE_SUCCESS {
        return;
      }
      res := tee.GenerateKey(keyHandle, r.generateKey);
    }

    /** prepare_rsa_operation(&op_handle, TEE_ALG_RSAES_PKCS1_V1_5, mode, key_handle). */
    method PrepareRsaOperation(tee: Tee, mode: Mode, r: Results) returns (ret: u32)
      requires tee.Valid()
      modifies this`opHandle, tee
      ensures tee.Valid()
      ensures r.getObjectInfo != TEE_SUCCESS ==>
        && ret == r.getObjectInfo && opHandle == old(opHandle)
        && tee.trace == old(tee.trace) + [GetInfo(keyHandle)]
      ensures r.getObjectInfo == TEE_SUCCESS && r.allocateOperation != TEE_SUCCESS ==>
        && ret == r.allocateOperation
        && opHandle == HandleAfterFailedAlloc(old(opHandle), r.allocClearsHandle)
        && tee.trace == old(tee.trace) + [GetInfo(keyHandle), AllocOp(mode)]
      ensures r.getObjectInfo == TEE_SUCCESS && r.allocateOperation == TEE_SUCCESS ==>
        && ret == r.setOperationKey && opHandle == Ref(old(tee.nextId))
        && tee.trace == old(tee.trace) + [GetInfo(keyHandle), AllocOp(mode), SetKey(opHandle, keyHandle)]
        && tee.operations == old(tee.operations) + {old(tee.nextId)} && tee.nextId == old(tee.nextId) + 1
      ensures !(r.getObjectInfo == TEE_SUCCESS && r.allocateOperation == TEE_SUCCESS) ==>
        tee.operations == old(tee.operations) && tee.nextId == old(tee.nextId)
      ensures tee.objects == old(tee.objects) && tee.keyPairs == old(tee.keyPairs)
    {
      ret := tee.GetObjectInfo1(keyHandle, r.getObjectInfo);
      if ret != TEE_SUCCESS {
        return;
      }
      ret, opHandle := tee.AllocateOperation(mode, r.allocateOperation, opHandle, r.allocClearsHandle);
      if ret != TEE_SUCCESS {
        return;
      }
      ret := tee.SetOperationKey(opHandle, keyHandle, r.setOperationKey);
    }

    /** RSA_encrypt. The operation handle is freed on the error path only. */
    method Encrypt(tee: Tee, paramTypes: u32, r: Results) returns (res: u32)
      requires tee.Valid()
      modifies this, tee
      ensures tee.Valid()
      ensures var e := OperationEffect(EncryptMode, paramTypes, old(keyHandle), old(opHandle),
                                       old(tee.operations), old(tee.nextId), r);
        && res == e.res && opHandle == e.opHandle
        && tee.trace == old(tee.trace) + e.calls
        && tee.operations == e.operations && tee.nextId == e.nextId
      ensures keyHandle == old(keyHandle)
      ensures tee.objects == old(tee.objects) && tee.keyPairs == old(tee.keyPairs)
    {
      res := RunOperation(tee, EncryptMode, paramTypes, r);
    }

    /** RSA_decrypt, the same sequence in decrypt mode. */
    method Decrypt(tee: Tee, paramTypes: u32, r: Results) returns (res: u32)
      requires tee.Valid()
      modifies this, tee
      ensures tee.Valid()
      ensures var e := OperationEffect(DecryptMode, paramTypes, old(keyHandle), old(opHandle),
                                       old(tee.operations), old(tee.nextId), r);
        && res == e.res && opHandle == e.opHandle
        && tee.trace == old(tee.trace) + e.calls
        && tee.operations == e.operations && tee.nextId == e.nextId
      ensures keyHandle == old(keyHandle)
      ensures tee.objects == old(tee.objects) && tee.keyPairs == old(tee.keyPairs)
    {
      res := RunOperation(tee, DecryptMode, paramTypes, r);
    }

    /** The body RSA_encrypt and RSA_decrypt share: check the shape, prepare, transform,
        and on failure `goto err`, which frees the operation handle. */
    method RunOperation(tee: Tee, mode: Mode, paramTypes: u32, r: Results) returns (res: u32)
      requires tee.Valid()
      modifies this, tee
      ensures tee.Valid()
      ensures var e := OperationEffect(mode, paramTypes, old(keyHandle), old(opHandle),
                                       old(tee.operations), old(tee.nextId), r);
        && res == e.res && opHandle == e.opHandle
        && tee.trace == old(tee.trace) + e.calls
        && tee.operations == e.operations && tee.nextId == e.nextId
      ensures keyHandle == old(keyHandle)
      ensures tee.objects == old(tee.objects) && tee.keyPairs == old(tee.keyPairs)
    {
      if CheckParams(paramTypes) != TEE_SUCCESS {
        return TEE_ERROR_BAD_PARAMETERS;
      }
      res := PrepareRsaOperation(tee, mode, r);
      if res == TEE_SUCCESS {
        res := tee.AsymmetricTransform(mode, opHandle, r.transform);
        if res == TEE_SUCCESS {
          return;
        }
      }
      tee.FreeOperation(opHandle);
    }
  }
}
