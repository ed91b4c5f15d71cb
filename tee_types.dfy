/**
 * Types shared by the trusted application and the TEE Internal Core API it calls:
 * result codes, the parameter-type word of section 4.3 (TA Interface) of the
 * GlobalPlatform TEE Internal Core API Specification, and the four parameter slots.
 */
module TeeTypes {

  type uint32 = x: int | 0 <= x < 0x1_0000_0000

  /** TEE_Result: 0 is success, every other value names a failure. */
  type Status = uint32

  /** TEE_SUCCESS */
  const Success: Status := 0
  /** TEE_ERROR_BAD_PARAMETERS */
  const BadParameters: Status := 0xFFFF_0006
  /** TEE_ERROR_ITEM_NOT_FOUND */
  const ItemNotFound: Status := 0xFFFF_0008
  /** TEE_ERROR_SHORT_BUFFER */
  const ShortBuffer: Status := 0xFFFF_0010

  /** The TEE_PARAM_TYPE_* codes; Absent is TEE_PARAM_TYPE_NONE. */
  datatype ParamType =
    | Absent
    | ValueInput
    | ValueOutput
    | ValueInout
    | MemrefInput
    | MemrefOutput
    | MemrefInout

  /** The 4-bit code of a parameter type. */
  function Code(t: ParamType): bv32 {
    match t
    case Absent => 0
    case ValueInput => 1
    case ValueOutput => 2
    case ValueInout => 3
    case MemrefInput => 5
    case MemrefOutput => 6
    case MemrefInout => 7
  }

  /** The declared types of the four parameter slots. */
  datatype TypeVector = TypeVector(t0: ParamType, t1: ParamType, t2: ParamType, t3: ParamType) {
    function At(i: nat): ParamType
      requires i < 4
    {
      if i == 0 then t0 else if i == 1 then t1 else if i == 2 then t2 else t3
    }
  }

  /**
   * TEE_PARAM_TYPES(t0, t1, t2, t3): one nibble per slot, slot 0 lowest.
   * Reading slot i back out gives the code packed there, and no bit above
   * the four nibbles is set.
   */
  function Pack(v: TypeVector): (r: bv32)
    ensures forall i | 0 <= i < 4 :: Slot(r, i) == Code(v.At(i))
    ensures r >> 16 == 0
  {
    CodeBound(v.t0); CodeBound(v.t1); CodeBound(v.t2); CodeBound(v.t3);
    Nibbles(Code(v.t0), Code(v.t1), Code(v.t2), Code(v.t3));
    Code(v.t0) | (Code(v.t1) << 4) | (Code(v.t2) << 8) | (Code(v.t3) << 12)
  }

  /** TEE_PARAM_TYPE_GET(w, i): the nibble of slot i in a parameter-type word. */
  function Slot(w: bv32, i: nat): bv32
    requires i < 4
  {
    if i == 0 then w & 0xF
    else if i == 1 then (w >> 4) & 0xF
    else if i == 2 then (w >> 8) & 0xF
    else (w >> 12) & 0xF
  }

  lemma CodeBound(t: ParamType)
    ensures Code(t) <= 0xF
  {
  }

  lemma CodeInjective(s: ParamType, t: ParamType)
    ensures Code(s) == Code(t) <==> s == t
  {
  }

  /** Packing four nibbles and reading them back is the identity. */
  lemma Nibbles(c0: bv32, c1: bv32, c2: bv32, c3: bv32)
    requires c0 <= 0xF && c1 <= 0xF && c2 <= 0xF && c3 <= 0xF
    ensures var w := c0 | (c1 << 4) | (c2 << 8) | (c3 << 12);
      w & 0xF == c0 && (w >> 4) & 0xF == c1 && (w >> 8) & 0xF == c2 && (w >> 12) & 0xF == c3 && w >> 16 == 0
  {
  }

  /**
   * A parameter-type word equals a packed vector exactly when every slot
   * carries that vector's code and no bit above the fourth slot is set.
   * This is what the comparisons of a declared word against an expected
   * TEE_PARAM_TYPES word decide.
   */
  lemma MatchesSlotwise(w: bv32, v: TypeVector)
    ensures w == Pack(v) <==> (forall i | 0 <= i < 4 :: Slot(w, i) == Code(v.At(i))) && w >> 16 == 0
  {
    if (forall i | 0 <= i < 4 :: Slot(w, i) == Code(v.At(i))) && w >> 16 == 0 {
      assert Slot(w, 0) == Code(v.At(0)) && Slot(w, 1) == Code(v.At(1));
      assert Slot(w, 2) == Code(v.At(2)) && Slot(w, 3) == Code(v.At(3));
      Unpack(w);
    }
  }

  /** A word with no bit above the four slots is the packing of its own slots. */
  lemma Unpack(w: bv32)
    requires w >> 16 == 0
    ensures w == Slot(w, 0) | (Slot(w, 1) << 4) | (Slot(w, 2) << 8) | (Slot(w, 3) << 12)
  {
  }

  /** Two packed words are equal exactly when the vectors agree slot by slot. */
  lemma PackInjective(u: TypeVector, v: TypeVector)
    ensures Pack(u) == Pack(v) <==> u == v
  {
    if Pack(u) == Pack(v) {
      forall i | 0 <= i < 4 ensures u.At(i) == v.At(i) {
        CodeInjective(u.At(i), v.At(i));
      }
      assert u.At(0) == v.At(0) && u.At(1) == v.At(1) && u.At(2) == v.At(2) && u.At(3) == v.At(3);
    }
  }

  /** A buffer address; 0 is NULL. */
  type Address = nat
  const Null: Address := 0

  /**
   * One TEE_Param slot. In the source it is a union of a value view
   * (a, b) and a memory-reference view (buffer, size); both views are
   * kept here side by side.
   */
  datatype TeeParam = TeeParam(a: uint32, b: uint32, buffer: Address, size: uint32)
}
