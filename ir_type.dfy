/** The element types of the current IR schema and their constant
    name/byte-width table (include/mera/ir/type.h). */
module IrType {

  datatype DataType = UInt8 | Int8 | Int32 | Float32 | BrainFloat16

  /** One row of the constant table: the type, its display name, its width in bytes. */
  datatype TypeEntry = TypeEntry(t: DataType, name: string, size: nat)

  const TypeMap: seq<TypeEntry> := [
    TypeEntry(UInt8, "UInt8", 1),
    TypeEntry(Int8, "Int8", 1),
    TypeEntry(Int32, "Int32", 4),
    TypeEntry(Float32, "Float32", 4),
    TypeEntry(BrainFloat16, "BrainFloat16", 2)
  ]

  /** The enumerator's underlying value, `(int)t`: its declaration position. */
  function Ordinal(t: DataType): (i: nat)
    ensures i < |TypeMap|
    ensures TypeMap[i].t == t
  {
    match t
    case UInt8 => 0
    case Int8 => 1
    case Int32 => 2
    case Float32 => 3
    case BrainFloat16 => 4
  }

  /** Row i of the table describes the i-th enumerator, so `type_map[(int)t]`
      is a total and correct lookup. */
  lemma TypeMapIndexed(i: nat)
    requires i < |TypeMap|
    ensures Ordinal(TypeMap[i].t) == i
  {
  }

  function ToString(t: DataType): (name: string)
    ensures name == match t
      case UInt8 => "UInt8"
      case Int8 => "Int8"
      case Int32 => "Int32"
      case Float32 => "Float32"
      case BrainFloat16 => "BrainFloat16"
  {
    TypeMap[Ordinal(t)].name
  }

  function SizeOf(t: DataType): (bytes: nat)
    ensures bytes in {1, 2, 4}
    ensures bytes == match t
      case UInt8 => 1
      case Int8 => 1
      case Int32 => 4
      case Float32 => 4
      case BrainFloat16 => 2
  {
    TypeMap[Ordinal(t)].size
  }

  /** Distinct types have distinct display names. */
  lemma ToStringInjective(a: DataType, b: DataType)
    ensures ToString(a) == ToString(b) ==> a == b
  {
  }
}
