/** The trusted application's entry points: opening a session, and routing a
    command id to its handler. */
module Dispatcher {
  import opened TeeTypes
  import opened Caesar
  import CaesarTa
  import opened Rsa

  // Command ids. TEEencrypt_ta.h, which defines them, is not part of this model:
  // the values below are placeholders and only their being distinct is used.
  const TA_TEEencrypt_CMD_ENC_VALUE: u32 := 0
  const TA_TEEencrypt_CMD_DEC_VALUE: u32 := 1
  const TA_TEEencrypt_CMD_RANDOMKEY_GET: u32 := 2
  const TA_RSA_CMD_GENKEYS: u32 := 3
  const TA_RSA_CMD_ENCRYPT: u32 := 4
  const TA_RSA_CMD_DECRYPT: u32 := 5

  const KnownCommands: set<u32> := {
    TA_TEEencrypt_CMD_ENC_VALUE, TA_TEEencrypt_CMD_DEC_VALUE, TA_TEEencrypt_CMD_RANDOMKEY_GET,
    TA_RSA_CMD_GENKEYS, TA_RSA_CMD_ENCRYPT, TA_RSA_CMD_DECRYPT }

  /** The five handlers a command can reach. */
  datatype Handler = EncValue | DecValue | CreateKeyPair | RsaEncrypt | RsaDecrypt

  /** The switch of TA_InvokeCommandEntryPoint. RANDOMKEY_GET reaches dec_value, as
      DEC_VALUE does; every other known id reaches a handler of its own, and an
      unknown id reaches none. */
  function Route(cmdId: u32): (h: Option<Handler>)
    ensures h == None <==> cmdId !in KnownCommands
    ensures h == Some(DecValue) <==>
      cmdId == TA_TEEencrypt_CMD_DEC_VALUE || cmdId == TA_TEEencrypt_CMD_RANDOMKEY_GET
  {
    if cmdId == TA_TEEencrypt_CMD_ENC_VALUE then Some(EncValue)
    else if cmdId == TA_TEEencrypt_CMD_DEC_VALUE then Some(DecValue)
    else if cmdId == TA_TEEencrypt_CMD_RANDOMKEY_GET then Some(DecValue)
    else if cmdId == TA_RSA_CMD_GENKEYS then Some(CreateKeyPair)
    else if cmdId == TA_RSA_CMD_ENCRYPT then Some(RsaEncrypt)
    else if cmdId == TA_RSA_CMD_DECRYPT then Some(RsaDecrypt)
    else None
  }

  /** Two distinct command ids reach the same handler only when both reach dec_value. */
  lemma RouteAliasesOnlyDecrypt(a: u32, b: u32)
    requires a in KnownCommands && b in KnownCommands && a != b
    ensures Route(a) == Route(b) <==>
      {a, b} == {TA_TEEencrypt_CMD_DEC_VALUE, TA_TEEencrypt_CMD_RANDOMKEY_GET}
  {
    if {a, b} == {TA_TEEencrypt_CMD_DEC_VALUE, TA_TEEencrypt_CMD_RANDOMKEY_GET} {
      assert a in {TA_TEEencrypt_CMD_DEC_VALUE, TA_TEEencrypt_CMD_RANDOMKEY_GET};
      assert b in {TA_TEEencrypt_CMD_DEC_VALUE, TA_TEEencrypt_CMD_RANDOMKEY_GET};
    }
  }

  /** TA_OpenSessionEntryPoint. `allocSucceeds` is whether TEE_Malloc returns memory. */
  method OpenSession(paramTypes: u32, allocSucceeds: bool) returns (res: u32, sess: RsaSession?)
    ensures paramTypes != ParamTypes(TEE_PARAM_TYPE_NONE, TEE_PARAM_TYPE_NONE,
                                     TEE_PARAM_TYPE_NONE, TEE_PARAM_TYPE_NONE) ==>
      res == TEE_ERROR_BAD_PARAMETERS && sess == null
    ensures paramTypes == ParamTypes(TEE_PARAM_TYPE_NONE, TEE_PARAM_TYPE_NONE,
                                     TEE_PARAM_TYPE_NONE, TEE_PARAM_TYPE_NONE) ==>
      if allocSucceeds
      then res == TEE_SUCCESS && sess != null && fresh(sess)
           && sess.opHandle == Null && sess.keyHandle == Null
      else res == TEE_ERROR_OUT_OF_MEMORY && sess == null
  {
    var expParamTypes := ParamTypes(TEE_PARAM_TYPE_NONE, TEE_PARAM_TYPE_NONE,
                                    TEE_PARAM_TYPE_NONE, TEE_PARAM_TYPE_NONE);
    if paramTypes != expParamTypes {
      return TEE_ERROR_BAD_PARAMETERS, null;
    }
    if !allocSucceeds {
      return TEE_ERROR_OUT_OF_MEMORY, null;
    }
    sess := new RsaSession();
    res := TEE_SUCCESS;
  }

  /** What enc_value needs of its buffers: distinct, a NUL within the text no further
      in than MAX, and room for the four key bytes. */
  ghost predicate EncBuffers(text: array<u8>, key: array<u8>)
    reads text
  {
    text != key && NUL in text[..] && CStrlen(text[..]) <= MAX && key.Length >= 4
  }

  /** What dec_value needs of its buffers: as enc_value, but two key bytes suffice. */
  ghost predicate DecBuffers(text: array<u8>, key: array<u8>)
    reads text
  {
    text != key && NUL in text[..] && CStrlen(text[..]) <= MAX && key.Length >= 2
  }

  /** TA_InvokeCommandEntryPoint. `p0` and `p1` are the memory references of params[0]
      and params[1]; `random` is the byte TEE_GenerateRandom would draw; `r` is what the
      platform primitives return. */
  method InvokeCommand(sess: RsaSession, tee: Tee, cmdId: u32, paramTypes: u32,
                       p0: array<u8>, p1: array<u8>, random: u8, r: Results) returns (res: u32)
    requires tee.Valid()
    requires Route(cmdId) == Some(EncValue) ==> EncBuffers(p0, p1)
    requires Route(cmdId) == Some(DecValue) ==> DecBuffers(p0, p1)
    modifies sess, tee, p0, p1
    ensures tee.Valid()
    ensures Route(cmdId) == None ==>
      res == TEE_ERROR_BAD_PARAMETERS && unchanged(sess, tee, p0, p1)
    ensures Route(cmdId) == Some(EncValue) ==>
      && res == TEE_SUCCESS && unchanged(sess, tee)
      && p0[..] == EncryptText(old(p0[..]), ShiftOf(random))
      && p1[..4] == KeyRecord(ShiftOf(random)) && p1[4..] == old(p1[4..])
    ensures Route(cmdId) == Some(DecValue) ==>
      && res == TEE_SUCCESS && unchanged(sess, tee)
      && p0[..] == DecryptText(old(p0[..]), RecoveredShift(old(p1[0]), old(p1[1])))
      && p1[0] == NUL && p1[1..] == old(p1[1..])
    ensures Route(cmdId) == Some(CreateKeyPair) ==>
      && unchanged(p0, p1)
      && sess.opHandle == old(sess.opHandle) && tee.operations == old(tee.operations)
      && (r.allocateTransientObject != TEE_SUCCESS ==>
            && res == r.allocateTransientObject
            && sess.keyHandle == HandleAfterFailedAlloc(old(sess.keyHandle), r.allocClearsHandle)
            && tee.trace == old(tee.trace) + [AllocTransient]
            && tee.objects == old(tee.objects) && tee.nextId == old(tee.nextId))
      && (r.allocateTransientObject == TEE_SUCCESS ==>
            && res == r.generateKey && sess.keyHandle == Ref(old(tee.nextId))
            && tee.trace == old(tee.trace) + [AllocTransient, GenKey(Ref(old(tee.nextId)))]
            && tee.objects == old(tee.objects) + {old(tee.nextId)} && tee.nextId == old(tee.nextId) + 1)
      && tee.keyPairs == (if res == TEE_SUCCESS then old(tee.keyPairs) + {old(tee.nextId)} else old(tee.keyPairs))
    ensures Route(cmdId) == Some(RsaEncrypt) ==>
      var e := OperationEffect(EncryptMode, paramTypes, old(sess.keyHandle), old(sess.opHandle),
                               old(tee.operations), old(tee.nextId), r);
      && res == e.res && sess.opHandle == e.opHandle && sess.keyHandle == old(sess.keyHandle)
      && tee.trace == old(tee.trace) + e.calls && tee.operations == e.operations && tee.nextId == e.nextId
      && tee.objects == old(tee.objects) && tee.keyPairs == old(tee.keyPairs) && unchanged(p0)
    ensures Route(cmdId) == Some(RsaDecrypt) ==>
      var e := OperationEffect(DecryptMode, paramTypes, old(sess.keyHandle), old(sess.opHandle),
                               old(tee.operations), old(tee.nextId), r);
      && res == e.res && sess.opHandle == e.opHandle && sess.keyHandle == old(sess.keyHandle)
      && tee.trace == old(tee.trace) + e.calls && tee.operations == e.operations && tee.nextId == e.nextId
      && tee.objects == old(tee.objects) && tee.keyPairs == old(tee.keyPairs) && unchanged(p0)
  {
    if cmdId == TA_TEEencrypt_CMD_ENC_VALUE {
      res := CaesarTa.EncValue(p0, p1, random);
    } else if cmdId == TA_TEEencrypt_CMD_DEC_VALUE {
      res := CaesarTa.DecValue(p0, p1);
    } else if cmdId == TA_TEEencrypt_CMD_RANDOMKEY_GET {
      res := CaesarTa.DecValue(p0, p1);
    } else if cmdId == TA_RSA_CMD_GENKEYS {
      res := sess.CreateKeyPair(tee, r);
    } else if cmdId == TA_RSA_CMD_ENCRYPT {
      res := sess.Encrypt(tee, paramTypes, r);
    } else if cmdId == TA_RSA_CMD_DECRYPT {
      res := sess.Decrypt(tee, paramTypes, r);
    } else {
      res := TEE_ERROR_BAD_PARAMETERS;
    }
  }
}
