/** Types and constants shared by the trusted application: fixed-width integers,
    the TEE_Result codes it returns, the packed parameter-type word, and the
    opaque handles that name platform objects and operations. */
module TeeTypes {

  /** A C `char` of the trusted application (unsigned, as on the ARM targets OP-TEE runs on). */
  newtype u8 = x: int | 0 <= x < 0x100

  /** A C `uint32_t`: command ids, parameter-type words and TEE_Result codes. */
  newtype u32 = x: int | 0 <= x < 0x1_0000_0000

  datatype Option<T> = None | Some(value: T)

  // TEE_Result codes (GlobalPlatform TEE Internal Core API)
  const TEE_SUCCESS: u32 := 0x0000_0000
  const TEE_ERROR_BAD_PARAMETERS: u32 := 0xFFFF_0006
  const TEE_ERROR_OUT_OF_MEMORY: u32 := 0xFFFF_000C

  // Parameter types, one 4-bit slot per parameter
  const TEE_PARAM_TYPE_NONE: u32 := 0
  const TEE_PARAM_TYPE_VALUE_INPUT: u32 := 1
  const TEE_PARAM_TYPE_VALUE_OUTPUT: u32 := 2
  const TEE_PARAM_TYPE_VALUE_INOUT: u32 := 3
  const TEE_PARAM_TYPE_MEMREF_INPUT: u32 := 5
  const TEE_PARAM_TYPE_MEMREF_OUTPUT: u32 := 6
  const TEE_PARAM_TYPE_MEMREF_INOUT: u32 := 7

  /** TEE_PARAM_TYPE_GET(pt, i): the type of parameter `i`, i.e. `(pt >> (4 * i)) & 0xF`. */
  function ParamTypeGet(pt: u32, i: nat): (t: u32)
    requires i < 4
    ensures t < 16
  {
    if i == 0 then pt % 16 else ParamTypeGet(pt / 16, i - 1)
  }

  /** Dividing `16 * q + r` by 16 gives back `q` and `r`. */
  lemma DivMod16(q: int, r: int)
    requires 0 <= q && 0 <= r < 16
    ensures (16 * q + r) / 16 == q && (16 * q + r) % 16 == r
  {
  }

  /** TEE_PARAM_TYPES(t0, t1, t2, t3): packs four slot types into one word.
      Each slot reads back as the type that was packed into it. */
  function ParamTypes(t0: u32, t1: u32, t2: u32, t3: u32): (pt: u32)
    requires t0 < 16 && t1 < 16 && t2 < 16 && t3 < 16
    ensures pt < 0x1_0000
    ensures ParamTypeGet(pt, 0) == t0 && ParamTypeGet(pt, 1) == t1
    ensures ParamTypeGet(pt, 2) == t2 && ParamTypeGet(pt, 3) == t3
  {
    var hi := t2 as int + 16 * t3 as int;
    var mid := t1 as int + 16 * hi;
    var pt := t0 as int + 16 * mid;
    DivMod16(mid, t0 as int);
    DivMod16(hi, t1 as int);
    DivMod16(t3 as int, t2 as int);
    assert ParamTypeGet(pt as u32, 2) == ParamTypeGet(mid as u32, 1) == ParamTypeGet(hi as u32, 0);
    assert ParamTypeGet(pt as u32, 3) == ParamTypeGet(mid as u32, 2) == ParamTypeGet(hi as u32, 1) == ParamTypeGet(t3, 0);
    pt as u32
  }

  /** A number below 0x1_0000, divided by 16 three times over, is the weighted sum
      of its four base-16 digits. */
  lemma Undigits(a: int, b: int, c: int, d: int)
    requires 0 <= a < 0x1_0000 && b == a / 16 && c == b / 16 && d == c / 16
    ensures d < 16 && a == a % 16 + 16 * (b % 16 + 16 * (c % 16 + 16 * d))
  {
    assert b < 0x1000 && c < 0x100;
  }

  /** A 16-bit word is the weighted sum of its four slots. */
  lemma SlotDigits(x: u32)
    requires x < 0x1_0000
    ensures x as int == ParamTypeGet(x, 0) as int + 16 * (ParamTypeGet(x, 1) as int
                        + 16 * (ParamTypeGet(x, 2) as int + 16 * ParamTypeGet(x, 3) as int))
  {
    var b := x / 16;
    var c := b / 16;
    var d := c / 16;
    assert ParamTypeGet(x, 1) == ParamTypeGet(b, 0);
    assert ParamTypeGet(x, 2) == ParamTypeGet(b, 1) == ParamTypeGet(c, 0);
    assert ParamTypeGet(x, 3) == ParamTypeGet(b, 2) == ParamTypeGet(c, 1) == ParamTypeGet(d, 0);
    Undigits(x as int, b as int, c as int, d as int);
    assert ParamTypeGet(x, 0) == x % 16 && ParamTypeGet(b, 0) == b % 16;
    assert ParamTypeGet(c, 0) == c % 16 && ParamTypeGet(d, 0) == d % 16 == d;
  }

  /** Two 16-bit words with the same four slots are the same word. */
  lemma SlotsDetermineWord(x: u32, y: u32)
    requires x < 0x1_0000 && y < 0x1_0000
    requires ParamTypeGet(x, 0) == ParamTypeGet(y, 0) && ParamTypeGet(x, 1) == ParamTypeGet(y, 1)
    requires ParamTypeGet(x, 2) == ParamTypeGet(y, 2) && ParamTypeGet(x, 3) == ParamTypeGet(y, 3)
    ensures x == y
  {
    SlotDigits(x);
    SlotDigits(y);
  }

  /** The converse of ParamTypes' contract: every 16-bit word is the packing of its four slots. */
  lemma ParamTypesOfSlots(pt: u32)
    requires pt < 0x1_0000
    ensures pt == ParamTypes(ParamTypeGet(pt, 0), ParamTypeGet(pt, 1), ParamTypeGet(pt, 2), ParamTypeGet(pt, 3))
  {
    var v := ParamTypes(ParamTypeGet(pt, 0), ParamTypeGet(pt, 1), ParamTypeGet(pt, 2), ParamTypeGet(pt, 3));
    SlotsDetermineWord(pt, v);
  }

  /** A TEE_ObjectHandle or TEE_OperationHandle: TEE_HANDLE_NULL, or a reference
      to the platform object with the given id. */
  datatype Handle = Null | Ref(id: nat)
}
