# TEEencrypt trusted application, modelled in Dafny

This project models the trusted application (TA) of TEEencrypt, an OP-TEE sample in
which a host program sends an 86-byte text buffer across the secure-world boundary.
The TA then does one of two things:

- It encrypts or decrypts the text with a Caesar cipher. The per-message shift is
  drawn from one random byte. The shift leaves the TA only in obfuscated form: two
  ASCII digits of `(shift + rootkey) % 26`, with `rootkey = 17`.
- It generates an RSA key pair bound to the session and encrypts or decrypts with
  it (RSAES-PKCS1-v1_5).

The model is split into these modules:

- `TeeTypes` (`tee_types.dfy`): `u8`/`u32`, the TEE_Result codes, the packed
  parameter-type word with `TEE_PARAM_TYPES`/`TEE_PARAM_TYPE_GET`, and handles.
- `Caesar` (`caesar.dfy`): the cipher as pure functions. It covers `strlen`, the
  per-byte rotations, the whole-buffer transforms, the key record and its parsing
  with C's truncating `%`, and lemmas for the round trips, case preservation and the
  frame of the NUL-terminated prefix.
- `CaesarTa` (`caesar_ta.dfy`): `enc_value` and `dec_value` as methods over
  `array<u8>`. They copy into a zero-filled working array of `MAX` bytes, loop over
  it and copy back, as the C code does. Each is proved against the `Caesar`
  functions.
- `Rsa` (`rsa.dfy`): `struct rsa_session` as a class, `check_params`,
  `prepare_rsa_operation`, `RSA_create_key_pair`, `RSA_encrypt` and `RSA_decrypt`.
  - The platform is a `Tee` class. It holds the object and operation tables and a
    trace of the primitives called.
  - Each primitive returns a result code that is an input of the model. No RSA
    arithmetic is involved.
  - `OperationEffect` states, case by case, what one encrypt/decrypt call does. The
    methods are proved against it.
  - `FirstFailure`, `ResultOf` and `CallsMade` give the generic semantics of a
    sequence of primitives that stops at the first failure. A lemma shows that
    `OperationEffect` agrees with that semantics. Further lemmas state the shape check
    and the handle lifecycle.
- `Dispatcher` (`dispatcher.dfy`): the command switch (`Route`),
  `TA_OpenSessionEntryPoint` and `TA_InvokeCommandEntryPoint`.

Modelling choices:

- `char` is taken as unsigned, as on the ARM targets. This matters only when
  `dec_value` parses a key record that is not two digits.
- The random byte that `TEE_GenerateRandom` writes into the low byte of the zeroed
  `int key` is a parameter.
- Whether `TEE_Malloc` succeeds is a parameter.
- What each TEE primitive returns is a parameter.
- What a failed `TEE_AllocateTransientObject` or `TEE_AllocateOperation` leaves in
  the handle it was given is a parameter (`Results.allocClearsHandle`). The handle is
  either TEE_HANDLE_NULL or the value it held before. The code does not decide this;
  the platform does, so the model covers both.
- `TEE_FreeOperation(TEE_HANDLE_NULL)` does nothing.
- TEEencrypt_ta.h is not part of this model. The command ids take placeholder values
  0 to 5; only the fact that they are distinct is used.

Behaviour of the code that the model reproduces:

- `TA_TEEencrypt_CMD_RANDOMKEY_GET` runs `dec_value`, like
  `TA_TEEencrypt_CMD_DEC_VALUE`.
- `RSA_encrypt` and `RSA_decrypt` free the operation handle only on the error path.
  On success the new operation stays allocated and the session keeps its handle.
  The next successful call overwrites that handle, so the earlier operation can no
  longer be freed (`SecondOperationStrandsFirst`).
- When `TEE_GetObjectInfo1` fails, the error path frees whatever operation handle the
  session still held from an earlier call. That handle may already have been freed:
  a call that fails after allocating its operation frees it but never resets the
  handle, so the next failing call frees it a second time (`FailedOperationFreedTwice`).
- When `TEE_AllocateOperation` fails and the platform leaves the handle as it was,
  the error path frees the operation held from an earlier call
  (`FailedAllocFreesHeldHandle`).
- `RSA_create_key_pair` does not check the parameter types. It overwrites the key
  handle without freeing the object the handle named before.
- `dec_value` writes NUL into key byte 0 only; bytes 1 onwards keep their values.

## Model

| member | source | states |
|---|---|---|
| TeeTypes.ParamTypes | ta/TEEencrypt_ta.c:141-145 | packing four 4-bit slot types gives a 16-bit word from which each slot reads back as the type packed into it |
| TeeTypes.SlotsDetermineWord | ta/TEEencrypt_ta.c:141-148 | two 16-bit parameter-type words with the same four slots are equal, so comparing words compares shapes |
| TeeTypes.ParamTypesOfSlots | ta/TEEencrypt_ta.c:141-145 | every 16-bit parameter-type word is the packing of its own four slots (the converse of ParamTypes) |
| Caesar.CStrlen | ta/TEEencrypt_ta.c:247 | strlen returns the index of a NUL with no NUL before it |
| Caesar.CStrlenUnique | ta/TEEencrypt_ta.c:247 | that index is unique: any NUL with no NUL before it is where strlen stops |
| Caesar.CRem | ta/TEEencrypt_ta.c:290 | C's `%` truncates: the remainder lies in (-b, b), differs from the operand by a multiple of b, agrees with the mathematical remainder for a non-negative operand and is non-positive for a non-positive one, which together fix its value |
| Caesar.ShiftOf | ta/TEEencrypt_ta.c:255-256 | the shift drawn from any random byte lies in [0, 25] |
| Caesar.EncChar | ta/TEEencrypt_ta.c:258-265 | rotating a byte forward keeps upper case upper and lower case lower, moves a letter `shift` places on modulo 26, and leaves every non-letter unchanged |
| Caesar.DecChar | ta/TEEencrypt_ta.c:291-298 | rotating back keeps case, moves a letter `shift` places back modulo 26 and leaves non-letters unchanged, for any shift in (-26, 26), the range a malformed key record can yield |
| Caesar.DecEncChar | ta/TEEencrypt_ta.c:291-298 | rotating back by the same shift restores every byte rotated forward |
| Caesar.EncDecChar | ta/TEEencrypt_ta.c:258-265 | rotating forward restores every byte rotated back, so each per-byte map is a bijection |
| Caesar.EncryptText | ta/TEEencrypt_ta.c:254-267 | enc_value's text buffer keeps its length and the position of its first NUL, no byte from that NUL on changes, case is preserved and non-letters are unchanged |
| Caesar.DecryptText | ta/TEEencrypt_ta.c:286-300 | the same guarantees for dec_value's text buffer |
| Caesar.ParseKey | ta/TEEencrypt_ta.c:287-288 | two digit bytes are read as a decimal number in [0, 99] whose tens and units are those digits |
| Caesar.Obfuscate | ta/TEEencrypt_ta.c:269 | the obfuscated shift lies in [0, 25] |
| Caesar.KeyRecord | ta/TEEencrypt_ta.c:269-273 | enc_value writes two ASCII digits whose decimal value is `(shift + 17) % 26`, then `'\n'` and NUL |
| Caesar.RecoveredShift | ta/TEEencrypt_ta.c:287-290 | the shift dec_value recovers from any two key bytes lies in (-26, 26) |
| Caesar.ObfuscationRoundTrip | ta/TEEencrypt_ta.c:287-290 | for every shift in [0, 25], including those below 17, parsing the record enc_value writes and computing `(k - 17 + 26) % 26` gives back the shift |
| Caesar.RecordOfRecoveredShift | ta/TEEencrypt_ta.c:269-273 | every well-formed record (two digits, value below 26) is exactly the record enc_value writes for the shift recovered from it |
| Caesar.TextRoundTrip | ta/TEEencrypt_ta.c:254-300 | decrypting with the shift recovered from enc_value's key record restores the text buffer exactly, for every random byte |
| Caesar.EncryptDecryptText | ta/TEEencrypt_ta.c:286-300 | encrypting with a shift undoes decrypting with it |
| Caesar.HelloExample | ta/TEEencrypt_ta.c:255-267 | random byte 3 draws shift 3, which turns "HELLO" into "KHOOR" |
| Caesar.HelloKeyRecord | ta/TEEencrypt_ta.c:269-273 | shift 3 is published as the key record "20\n" |
| Caesar.ZeroShiftExample | ta/TEEencrypt_ta.c:255-273 | every random byte that is a multiple of 26 draws shift 0, which leaves any text unchanged and gives key record "17\n" |
| CaesarTa.Memcpy | ta/TEEencrypt_ta.c:254 | memcpy copies the first n bytes and leaves the rest of the destination alone |
| CaesarTa.RotateForward | ta/TEEencrypt_ta.c:258-265 | enc_value's loop rotates each of the first n bytes of the working array by EncChar and leaves every later byte alone |
| CaesarTa.RotateBack | ta/TEEencrypt_ta.c:291-298 | dec_value's loop rotates each of the first n bytes back by DecChar and leaves every later byte alone |
| CaesarTa.EncValue | ta/TEEencrypt_ta.c:244-275 | requires a NUL no further in than MAX in the text buffer; returns TEE_SUCCESS; the text buffer becomes EncryptText of its old contents; key bytes 0..3 become the key record and no later key byte changes |
| CaesarTa.DecValue | ta/TEEencrypt_ta.c:277-303 | returns TEE_SUCCESS; the text buffer becomes DecryptText with the shift recovered from the old key bytes 0 and 1; key byte 0 becomes NUL and no other key byte changes |
| CaesarTa.EncryptThenDecrypt | ta/TEEencrypt_ta.c:244-303 | running enc_value and then dec_value on the same buffers restores the text buffer |
| Rsa.CheckParams | ta/TEEencrypt_ta.c:140-151 | check_params returns TEE_SUCCESS or TEE_ERROR_BAD_PARAMETERS |
| Rsa.CheckParamsShape | ta/TEEencrypt_ta.c:140-151 | check_params succeeds exactly when slot 0 is MEMREF_INPUT, slot 1 MEMREF_OUTPUT, slots 2 and 3 NONE, and no higher bit is set |
| Rsa.FirstFailure | ta/TEEencrypt_ta.c:115-139 | the index found is that of the first failing primitive: every earlier one succeeded |
| Rsa.ResultOf | ta/TEEencrypt_ta.c:115-139 | a short-circuiting sequence of primitives returns TEE_SUCCESS exactly when every primitive succeeds |
| Rsa.OperationEffect | ta/TEEencrypt_ta.c:173-242 | RSA_encrypt/RSA_decrypt succeed exactly when the shape is right and every primitive succeeds; a fresh operation id is used exactly when the allocation is reached and succeeds, and no other operation is added |
| Rsa.OperationRejectsBadShape | ta/TEEencrypt_ta.c:182-183 | with any other parameter shape, RSA_encrypt/RSA_decrypt return TEE_ERROR_BAD_PARAMETERS, call no primitive and leave the session and platform unchanged |
| Rsa.OperationPropagatesFirstFailure | ta/TEEencrypt_ta.c:115-139 | with the right shape, OperationEffect agrees with the generic first-failure semantics: the result is the first failing primitive's code, unchanged (TEE_SUCCESS if none fails); the calls are the primitives in source order up to that one; a failure adds TEE_FreeOperation of the handle prepare_rsa_operation left in the session |
| Rsa.OperationHandleLifecycle | ta/TEEencrypt_ta.c:186-205 | on success the new operation stays allocated and held by the session; an operation held before is neither freed nor referenced; on failure the handle left in the session has been freed |
| Rsa.SecondOperationStrandsFirst | ta/TEEencrypt_ta.c:200 | after a successful encrypt and then a successful decrypt, the encrypt's operation is still allocated but no longer held by the session |
| Rsa.FailedAllocFreesHeldHandle | ta/TEEencrypt_ta.c:124-128 | after a failed TEE_AllocateOperation the error path frees what the handle holds: the earlier operation if the platform left the handle alone, TEE_HANDLE_NULL (no change) if it cleared it |
| Rsa.FailedOperationFreedTwice | ta/TEEencrypt_ta.c:186-205 | a call failing after its allocation frees the operation but keeps its handle; a following call whose key lookup fails frees that handle again |
| Rsa.RsaSession.constructor | ta/TEEencrypt_ta.c:95-96 | a new session holds TEE_HANDLE_NULL in both handles |
| Rsa.RsaSession.CreateKeyPair | ta/TEEencrypt_ta.c:153-171 | allocates a transient object into the key handle (on failure, what the platform leaves there), generates the key pair into it, returns the first failing code, and leaves the operation handle alone |
| Rsa.RsaSession.PrepareRsaOperation | ta/TEEencrypt_ta.c:115-139 | GetObjectInfo1, AllocateOperation and SetOperationKey run in order up to the first failure, whose code is returned; the operation handle is untouched, what the failed allocation left, or the new operation accordingly |
| Rsa.RsaSession.RunOperation | ta/TEEencrypt_ta.c:173-206 | the shared body of RSA_encrypt/RSA_decrypt has exactly the effect OperationEffect describes on the result, the handles, the trace and the operation table |
| Rsa.RsaSession.Encrypt | ta/TEEencrypt_ta.c:173-206 | RSA_encrypt has the effect OperationEffect describes in encrypt mode; the key handle is unchanged |
| Rsa.RsaSession.Decrypt | ta/TEEencrypt_ta.c:208-242 | RSA_decrypt has the effect OperationEffect describes in decrypt mode; the key handle is unchanged |
| Dispatcher.Route | ta/TEEencrypt_ta.c:316-331 | an id reaches no handler exactly when it is not one of the six commands; DEC_VALUE and RANDOMKEY_GET are exactly the ids that reach dec_value |
| Dispatcher.RouteAliasesOnlyDecrypt | ta/TEEencrypt_ta.c:319-322 | two distinct known ids share a handler exactly when they are DEC_VALUE and RANDOMKEY_GET |
| Dispatcher.OpenSession | ta/TEEencrypt_ta.c:76-103 | any parameter types other than four NONE give TEE_ERROR_BAD_PARAMETERS; a failed allocation gives TEE_ERROR_OUT_OF_MEMORY; otherwise a fresh session with both handles NULL |
| Dispatcher.InvokeCommand | ta/TEEencrypt_ta.c:309-332 | an unknown id returns TEE_ERROR_BAD_PARAMETERS and changes no buffer, session field or platform state; each known id has its handler's whole effect on result, buffers, session and platform (for ENCRYPT/DECRYPT, all but the output buffer), and RANDOMKEY_GET has dec_value's |

## Left out

- RSA mathematics and PKCS#1 v1.5 padding. `TEE_AsymmetricEncrypt` and `TEE_AsymmetricDecrypt` are opaque calls that return a code; the bytes they write to the output buffer are not modelled, so no RSA round trip is stated.
- Rsa.RsaSession.Encrypt: does not state what happens to the output memory reference, because the transform's output is not modelled.
- Rsa.RsaSession.Decrypt: does not state what happens to the output memory reference, for the same reason.
- Dispatcher.InvokeCommand: says nothing about the output buffer `p1` for ENCRYPT and DECRYPT, for the same reason; the input buffer `p0` is stated unchanged, and GENKEYS leaves both buffers unchanged.
- Double frees and frees of stale handles are no-ops in the model (`Released` removes nothing); on a real platform they panic the TA.
- Platform panics. The GlobalPlatform primitives abort the TA on some misuse, for example an invalid object handle. The model treats every primitive as returning a code.
- The memory reference sizes. The TA never reads `memref.size` for the cipher commands. The model states what the TA relies on instead: a NUL within the text buffer no further in than MAX, and room for the key bytes written.
- `TA_CreateEntryPoint`, `TA_DestroyEntryPoint` and `TA_CloseSessionEntryPoint` do nothing but log, and logging is not modelled.
- `rootkey` is a mutable global that every invocation sets to 17. The model uses the constant `ROOT_KEY`.
- The host program (host/main.c) is not modelled: it parses arguments, does file I/O and calls the client API.
