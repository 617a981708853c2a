/** The substitution (Caesar) cipher of the trusted application as pure functions:
    the NUL-terminated text, the per-byte shift, the whole-text transforms, and the
    obfuscated key record that carries the shift out of the secure world. */
module Caesar {
  import opened TeeTypes

  /** Capacity of the text buffer and of the working copy in enc_value/dec_value. */
  const MAX := 86
  /** The root key that hides the shift before it leaves the trusted application. */
  const ROOT_KEY := 17
  const ALPHABET := 26

  const NUL: u8 := 0
  const NEWLINE: u8 := 10
  const DIGIT_ZERO := 48  // '0'
  const UPPER_A := 65     // 'A'
  const UPPER_Z := 90     // 'Z'
  const LOWER_A := 97     // 'a'
  const LOWER_Z := 122    // 'z'

  predicate IsUpper(c: u8) { UPPER_A <= c as int <= UPPER_Z }
  predicate IsLower(c: u8) { LOWER_A <= c as int <= LOWER_Z }
  predicate IsLetter(c: u8) { IsUpper(c) || IsLower(c) }
  predicate IsDigit(c: u8) { DIGIT_ZERO <= c as int < DIGIT_ZERO + 10 }

  /** C's strlen: the index of the first NUL byte. */
  function CStrlen(s: seq<u8>): (n: nat)
    requires NUL in s
    ensures n < |s| && s[n] == NUL
    ensures forall i :: 0 <= i < n ==> s[i] != NUL
  {
    if s[0] == NUL then 0
    else
      assert NUL in s[1..] by { var k :| 0 <= k < |s| && s[k] == NUL; assert s[1..][k - 1] == NUL; }
      1 + CStrlen(s[1..])
  }

  /** The first NUL is the only one with no NUL before it. */
  lemma CStrlenUnique(s: seq<u8>, n: nat)
    requires n < |s| && s[n] == NUL
    requires forall i :: 0 <= i < n ==> s[i] != NUL
    ensures CStrlen(s) == n
  {
  }

  /** C's `a % b` for b > 0, which truncates toward zero: the remainder has the sign of `a`. */
  function CRem(a: int, b: int): (r: int)
    requires b > 0
    ensures -b < r < b
    ensures a >= 0 ==> r == a % b
    ensures a <= 0 ==> r <= 0
    ensures (a - r) % b == 0
  {
    if a >= 0 then
      assert a - a % b == b * (a / b);
      MultipleMod(b, a / b);
      a % b
    else
      var q := (-a) / b;
      assert a + (-a) % b == b * -q by { assert -a == b * q + (-a) % b; }
      MultipleMod(b, -q);
      -((-a) % b)
  }

  /** A multiple of `b` leaves remainder 0. */
  lemma MultipleMod(b: int, m: int)
    requires b > 0
    ensures (b * m) % b == 0
  {
    var x := b * m;
    var k := m - x / b;
    assert b * k == x % b by {
      assert x == b * (x / b) + x % b;
      assert b * k == b * m - b * (x / b);
    }
  }

  /** The shift drawn by enc_value: one random byte reduced modulo 26. */
  function ShiftOf(random: u8): (shift: int)
    ensures 0 <= shift < ALPHABET
  {
    random as int % ALPHABET
  }

  /** enc_value's per-byte step: rotate a letter forward by `shift` within its own case,
      so that it lands `shift` places further on, modulo 26. */
  function EncChar(c: u8, shift: int): (r: u8)
    requires 0 <= shift < ALPHABET
    ensures IsUpper(r) == IsUpper(c) && IsLower(r) == IsLower(c)
    ensures !IsLetter(c) ==> r == c
    ensures IsLetter(c) ==> (r as int - c as int - shift) % ALPHABET == 0
  {
    if IsUpper(c) then ((c as int - UPPER_A + shift) % ALPHABET + UPPER_A) as u8
    else if IsLower(c) then ((c as int - LOWER_A + shift) % ALPHABET + LOWER_A) as u8
    else c
  }

  /** dec_value's per-byte step: rotate a letter back by `shift` within its own case.
      A key record that is not two digits can give a negative shift (C's `%`
      truncates), so shifts in (-26, 26) are admitted; the left operand of `% 26`
      stays positive for all of them. */
  function DecChar(c: u8, shift: int): (r: u8)
    requires -ALPHABET < shift < ALPHABET
    ensures IsUpper(r) == IsUpper(c) && IsLower(r) == IsLower(c)
    ensures !IsLetter(c) ==> r == c
    ensures IsLetter(c) ==> (r as int - c as int + shift) % ALPHABET == 0
  {
    if IsUpper(c) then ((c as int - UPPER_A - shift + ALPHABET) % ALPHABET + UPPER_A) as u8
    else if IsLower(c) then ((c as int - LOWER_A - shift + ALPHABET) % ALPHABET + LOWER_A) as u8
    else c
  }

  /** Rotating back undoes rotating forward, for a letter's offset `x` in its alphabet. */
  lemma RotateBackForward(x: int, shift: int)
    requires 0 <= x < ALPHABET && 0 <= shift < ALPHABET
    ensures ((x + shift) % ALPHABET - shift + ALPHABET) % ALPHABET == x
  {
    if x + shift < ALPHABET {
      assert (x + shift) % ALPHABET == x + shift;
      assert (x + ALPHABET) % ALPHABET == x;
    } else {
      assert (x + shift) % ALPHABET == x + shift - ALPHABET;
    }
  }

  /** Rotating forward undoes rotating back. */
  lemma RotateForwardBack(x: int, shift: int)
    requires 0 <= x < ALPHABET && 0 <= shift < ALPHABET
    ensures ((x - shift + ALPHABET) % ALPHABET + shift) % ALPHABET == x
  {
    if x - shift >= 0 {
      assert (x - shift + ALPHABET) % ALPHABET == x - shift;
    } else {
      assert (x - shift + ALPHABET) % ALPHABET == x - shift + ALPHABET;
      assert (x + ALPHABET) % ALPHABET == x;
    }
  }

  /** DecChar inverts EncChar for every byte and every shift enc_value can draw. */
  lemma DecEncChar(c: u8, shift: int)
    requires 0 <= shift < ALPHABET
    ensures DecChar(EncChar(c, shift), shift) == c
  {
    if IsUpper(c) {
      RotateBackForward(c as int - UPPER_A, shift);
    } else if IsLower(c) {
      RotateBackForward(c as int - LOWER_A, shift);
    }
  }

  /** EncChar inverts DecChar: together with DecEncChar, each is a bijection on bytes. */
  lemma EncDecChar(c: u8, shift: int)
    requires 0 <= shift < ALPHABET
    ensures EncChar(DecChar(c, shift), shift) == c
  {
    if IsUpper(c) {
      RotateForwardBack(c as int - UPPER_A, shift);
    } else if IsLower(c) {
      RotateForwardBack(c as int - LOWER_A, shift);
    }
  }

  /** The text buffer after enc_value: the bytes before the first NUL rotated by EncChar,
      the rest untouched. The NUL stays where it was, case is kept, and every byte
      that is not a letter is left alone. */
  function EncryptText(s: seq<u8>, shift: int): (r: seq<u8>)
    requires NUL in s && 0 <= shift < ALPHABET
    ensures |r| == |s| && NUL in r && CStrlen(r) == CStrlen(s)
    ensures forall i :: CStrlen(s) <= i < |s| ==> r[i] == s[i]
    ensures forall i :: 0 <= i < |s| ==> IsUpper(r[i]) == IsUpper(s[i]) && IsLower(r[i]) == IsLower(s[i])
    ensures forall i :: 0 <= i < |s| && !IsLetter(s[i]) ==> r[i] == s[i]
  {
    var n := CStrlen(s);
    var r := seq(|s|, i requires 0 <= i < |s| => if i < n then EncChar(s[i], shift) else s[i]);
    assert r[n] == NUL;
    CStrlenUnique(r, n);
    r
  }

  /** The text buffer after dec_value, with the same guarantees as EncryptText. */
  function DecryptText(s: seq<u8>, shift: int): (r: seq<u8>)
    requires NUL in s && -ALPHABET < shift < ALPHABET
    ensures |r| == |s| && NUL in r && CStrlen(r) == CStrlen(s)
    ensures forall i :: CStrlen(s) <= i < |s| ==> r[i] == s[i]
    ensures forall i :: 0 <= i < |s| ==> IsUpper(r[i]) == IsUpper(s[i]) && IsLower(r[i]) == IsLower(s[i])
    ensures forall i :: 0 <= i < |s| && !IsLetter(s[i]) ==> r[i] == s[i]
  {
    var n := CStrlen(s);
    var r := seq(|s|, i requires 0 <= i < |s| => if i < n then DecChar(s[i], shift) else s[i]);
    assert r[n] == NUL;
    CStrlenUnique(r, n);
    r
  }

  /** The shift as enc_value publishes it: combined with the root key modulo 26. */
  function Obfuscate(shift: int): (k: int)
    requires 0 <= shift < ALPHABET
    ensures 0 <= k < ALPHABET
  {
    (shift + ROOT_KEY) % ALPHABET
  }

  /** dec_value's reading of the first two key bytes as a two-digit decimal number.
      Bytes that are not digits are taken as they are, as the C arithmetic does. */
  function ParseKey(d0: u8, d1: u8): (k: int)
    ensures IsDigit(d0) && IsDigit(d1) ==>
      0 <= k < 100 && k / 10 == d0 as int - DIGIT_ZERO && k % 10 == d1 as int - DIGIT_ZERO
  {
    (d0 as int - DIGIT_ZERO) * 10 + (d1 as int - DIGIT_ZERO)
  }

  /** The four key bytes enc_value writes: two decimal digits of the obfuscated shift,
      a newline and a NUL. */
  function KeyRecord(shift: int): (rec: seq<u8>)
    requires 0 <= shift < ALPHABET
    ensures |rec| == 4 && IsDigit(rec[0]) && IsDigit(rec[1])
    ensures rec[2] == NEWLINE && rec[3] == NUL
    ensures ParseKey(rec[0], rec[1]) == Obfuscate(shift)
  {
    var k := Obfuscate(shift);
    [(k / 10 + DIGIT_ZERO) as u8, (k % 10 + DIGIT_ZERO) as u8, NEWLINE, NUL]
  }

  /** The shift dec_value recovers from the key bytes: `(k - rootkey + 26) % 26`
      with C's truncating `%`. */
  function RecoveredShift(d0: u8, d1: u8): (shift: int)
    ensures -ALPHABET < shift < ALPHABET
  {
    CRem(ParseKey(d0, d1) - ROOT_KEY + ALPHABET, ALPHABET)
  }

  /** Deobfuscation inverts obfuscation for every shift, including those below the
      root key, which rely on the `+ 26`. */
  lemma ObfuscationRoundTrip(shift: int)
    requires 0 <= shift < ALPHABET
    ensures var rec := KeyRecord(shift); RecoveredShift(rec[0], rec[1]) == shift
  {
    var rec := KeyRecord(shift);
    var k := ParseKey(rec[0], rec[1]);
    assert k - ROOT_KEY + ALPHABET >= 0;
    if shift + ROOT_KEY < ALPHABET {
      assert k == shift + ROOT_KEY;
    } else {
      assert k == shift + ROOT_KEY - ALPHABET;
    }
  }

  /** The other direction: a well-formed record (two digits, value below 26) is
      exactly the record enc_value writes for the shift recovered from it. */
  lemma RecordOfRecoveredShift(d0: u8, d1: u8)
    requires IsDigit(d0) && IsDigit(d1) && ParseKey(d0, d1) < ALPHABET
    ensures var shift := RecoveredShift(d0, d1);
      0 <= shift < ALPHABET && KeyRecord(shift)[..2] == [d0, d1]
  {
    var k := ParseKey(d0, d1);
    var shift := RecoveredShift(d0, d1);
    assert shift == (k + ALPHABET - ROOT_KEY) % ALPHABET;
    if k >= ROOT_KEY {
      assert shift == k - ROOT_KEY;
    } else {
      assert shift == k + ALPHABET - ROOT_KEY;
    }
    assert Obfuscate(shift) == k;
  }

  /** Decrypting with the shift recovered from enc_value's key record restores the
      text buffer exactly, whatever random byte was drawn. */
  lemma {:induction false} TextRoundTrip(s: seq<u8>, random: u8)
    requires NUL in s
    ensures var shift := ShiftOf(random);
      var rec := KeyRecord(shift);
      DecryptText(EncryptText(s, shift), RecoveredShift(rec[0], rec[1])) == s
  {
    var shift := ShiftOf(random);
    var rec := KeyRecord(shift);
    ObfuscationRoundTrip(shift);
    var e := EncryptText(s, shift);
    var d := DecryptText(e, shift);
    forall i | 0 <= i < |s| ensures d[i] == s[i] {
      if i < CStrlen(s) {
        DecEncChar(s[i], shift);
      }
    }
  }

  /** Encrypting undoes decrypting: for a given shift the two text transforms are
      mutually inverse. */
  lemma {:induction false} EncryptDecryptText(s: seq<u8>, shift: int)
    requires NUL in s && 0 <= shift < ALPHABET
    ensures EncryptText(DecryptText(s, shift), shift) == s
  {
    var d := DecryptText(s, shift);
    var e := EncryptText(d, shift);
    forall i | 0 <= i < |s| ensures e[i] == s[i] {
      if i < CStrlen(s) {
        EncDecChar(s[i], shift);
      }
    }
  }

  /** The worked example: random byte 3 draws shift 3, and "HELLO" becomes "KHOOR". */
  lemma HelloExample()
    ensures ShiftOf(3) == 3
    ensures EncryptText([72, 69, 76, 76, 79, 0], 3) == [75, 72, 79, 79, 82, 0]
  {
    var hello: seq<u8> := [72, 69, 76, 76, 79, 0];
    CStrlenUnique(hello, 5);
    var e := EncryptText(hello, 3);
    assert e[0] == EncChar(72, 3) == 75;
    assert e[1] == EncChar(69, 3) == 72;
    assert e[2] == e[3] == EncChar(76, 3) == 79;
    assert e[4] == EncChar(79, 3) == 82;
  }

  /** The key record of the worked example: shift 3 is published as "20\n". */
  lemma HelloKeyRecord()
    ensures KeyRecord(3) == [50, 48, 10, 0]
  {
    assert Obfuscate(3) == 20;
  }

  /** A random byte that is a multiple of 26 draws shift 0: the text is unchanged
      and the key record is "17\n". */
  lemma ZeroShiftExample(s: seq<u8>, random: u8)
    requires NUL in s && random as int % ALPHABET == 0
    ensures ShiftOf(random) == 0 && EncryptText(s, ShiftOf(random)) == s
    ensures KeyRecord(ShiftOf(random)) == [49, 55, 10, 0]
  {
    var r := EncryptText(s, 0);
    forall i | 0 <= i < |s| ensures r[i] == s[i] {
      if i < CStrlen(s) && IsLetter(s[i]) {
        assert r[i] == EncChar(s[i], 0);
      }
    }
  }
}
