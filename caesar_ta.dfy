/** enc_value and dec_value as the trusted application runs them: the text is copied
    into a zero-filled working array of MAX bytes, rewritten there letter by letter,
    and copied back over the caller's text buffer; the key buffer is written directly. */
module CaesarTa {
  import opened TeeTypes
  import opened Caesar

  /** C's memcpy(dst, src, n) between two distinct buffers. */
  method Memcpy(dst: array<u8>, src: array<u8>, n: nat)
    requires dst != src && n <= dst.Length && n <= src.Length
    modifies dst
    ensures forall i :: 0 <= i < n ==> dst[i] == src[i]
    ensures forall i :: n <= i < dst.Length ==> dst[i] == old(dst[i])
  {
    forall i | 0 <= i < n {
      dst[i] := src[i];
    }
  }

  /** Copying the first strlen bytes of the working array back over the text gives
      EncryptText: the bytes before strlen are rotated and the rest are as before. */
  lemma CopiedBackEncrypted(after: seq<u8>, plain: seq<u8>, k: int)
    requires NUL in plain && 0 <= k < ALPHABET
    requires |after| == |plain|
    requires forall j :: 0 <= j < CStrlen(plain) ==> after[j] == EncChar(plain[j], k)
    requires forall j :: CStrlen(plain) <= j < |after| ==> after[j] == plain[j]
    ensures after == EncryptText(plain, k)
  {
    forall j | 0 <= j < |after| ensures after[j] == EncryptText(plain, k)[j] {
    }
  }

  /** The same for dec_value's working array and DecryptText. */
  lemma CopiedBackDecrypted(after: seq<u8>, cipher: seq<u8>, k: int)
    requires NUL in cipher && -ALPHABET < k < ALPHABET
    requires |after| == |cipher|
    requires forall j :: 0 <= j < CStrlen(cipher) ==> after[j] == DecChar(cipher[j], k)
    requires forall j :: CStrlen(cipher) <= j < |after| ==> after[j] == cipher[j]
    ensures after == DecryptText(cipher, k)
  {
    forall j | 0 <= j < |after| ensures after[j] == DecryptText(cipher, k)[j] {
    }
  }

  /** enc_value's loop: each of the first `n` bytes of the working array that is a
      letter is rotated forward by `k` within its case; nothing else changes. */
  method RotateForward(work: array<u8>, n: nat, k: int)
    requires n <= work.Length && 0 <= k < ALPHABET
    modifies work
    ensures forall j :: 0 <= j < n ==> work[j] == EncChar(old(work[j]), k)
    ensures forall j :: n <= j < work.Length ==> work[j] == old(work[j])
  {
    var i := 0;
    while i < n
      invariant 0 <= i <= n
      invariant forall j :: 0 <= j < i ==> work[j] == EncChar(old(work[j]), k)
      invariant forall j :: i <= j < work.Length ==> work[j] == old(work[j])
      modifies work
    {
      if UPPER_A <= work[i] as int <= UPPER_Z {
        work[i] := ((work[i] as int - UPPER_A + k) % ALPHABET + UPPER_A) as u8;
      } else if LOWER_A <= work[i] as int <= LOWER_Z {
        work[i] := ((work[i] as int - LOWER_A + k) % ALPHABET + LOWER_A) as u8;
      }
      i := i + 1;
    }
  }

  /** dec_value's loop: each of the first `n` bytes that is a letter is rotated back
      by `k` within its case (adding 26 first, as the source does); nothing else
      changes. */
  method RotateBack(work: array<u8>, n: nat, k: int)
    requires n <= work.Length && -ALPHABET < k < ALPHABET
    modifies work
    ensures forall j :: 0 <= j < n ==> work[j] == DecChar(old(work[j]), k)
    ensures forall j :: n <= j < work.Length ==> work[j] == old(work[j])
  {
    var i := 0;
    while i < n
      invariant 0 <= i <= n
      invariant forall j :: 0 <= j < i ==> work[j] == DecChar(old(work[j]), k)
      invariant forall j :: i <= j < work.Length ==> work[j] == old(work[j])
      modifies work
    {
      if UPPER_A <= work[i] as int <= UPPER_Z {
        work[i] := ((work[i] as int - UPPER_A - k + ALPHABET) % ALPHABET + UPPER_A) as u8;
      } else if LOWER_A <= work[i] as int <= LOWER_Z {
        work[i] := ((work[i] as int - LOWER_A - k + ALPHABET) % ALPHABET + LOWER_A) as u8;
      }
      i := i + 1;
    }
  }

  /** enc_value. `text` is params[0] and `key` is params[1]; `random` is the byte that
      TEE_GenerateRandom writes into the low byte of the zeroed `int key`. The text must
      hold a NUL (strlen runs over it) no further in than MAX, the size of the working
      copy; the key buffer must hold the four bytes written to it. */
  method EncValue(text: array<u8>, key: array<u8>, random: u8) returns (res: u32)
    requires text != key
    requires NUL in text[..] && CStrlen(text[..]) <= MAX
    requires key.Length >= 4
    modifies text, key
    ensures res == TEE_SUCCESS
    ensures text[..] == EncryptText(old(text[..]), ShiftOf(random))
    ensures key[..4] == KeyRecord(ShiftOf(random)) && key[4..] == old(key[4..])
  {
    ghost var plain := text[..];
    var plainLen := CStrlen(text[..]);
    var encrypted := new u8[MAX](_ => NUL);
    Memcpy(encrypted, text, plainLen);
    var k := random as int;
    k := k % ALPHABET;
    RotateForward(encrypted, plainLen, k);
    Memcpy(text, encrypted, plainLen);
    CopiedBackEncrypted(text[..], plain, k);

    ghost var oldKey := key[..];
    var rec := (k + ROOT_KEY) % ALPHABET;
    key[0] := (rec / 10 + DIGIT_ZERO) as u8;
    key[1] := (rec % 10 + DIGIT_ZERO) as u8;
    key[2] := NEWLINE;
    key[3] := NUL;
    assert key[..4] == KeyRecord(k);
    assert key[4..] == oldKey[4..];
    res := TEE_SUCCESS;
  }

  /** dec_value. The shift is read back from the first two key bytes, and the first
      key byte is then cleared. */
  method DecValue(text: array<u8>, key: array<u8>) returns (res: u32)
    requires text != key
    requires NUL in text[..] && CStrlen(text[..]) <= MAX
    requires key.Length >= 2
    modifies text, key
    ensures res == TEE_SUCCESS
    ensures text[..] == DecryptText(old(text[..]), RecoveredShift(old(key[0]), old(key[1])))
    ensures key[0] == NUL && key[1..] == old(key[1..])
  {
    ghost var cipher := text[..];
    var encryptedLen := CStrlen(text[..]);
    var decrypted := new u8[MAX](_ => NUL);
    Memcpy(decrypted, text, encryptedLen);
    var k := (key[0] as int - DIGIT_ZERO) * 10 + (key[1] as int - DIGIT_ZERO);
    k := CRem(k - ROOT_KEY + ALPHABET, ALPHABET);
    RotateBack(decrypted, encryptedLen, k);
    Memcpy(text, decrypted, encryptedLen);
    CopiedBackDecrypted(text[..], cipher, k);
    key[0] := NUL;
    res := TEE_SUCCESS;
  }

  /** The host's encrypt-then-decrypt cycle over the same two buffers: dec_value,
      given the text and key bytes enc_value produced, restores the text buffer. */
  method EncryptThenDecrypt(text: array<u8>, key: array<u8>, random: u8)
    requires text != key
    requires NUL in text[..] && CStrlen(text[..]) <= MAX
    requires key.Length >= 4
    modifies text, key
    ensures text[..] == old(text[..])
    ensures key[0] == NUL && key[1..4] == KeyRecord(ShiftOf(random))[1..] && key[4..] == old(key[4..])
  {
    var r1 := EncValue(text, key, random);
    ghost var rec := key[..4];
    var r2 := DecValue(text, key);
    TextRoundTrip(old(text[..]), random);
    assert key[1..4] == rec[1..];
  }
}
