/**
 * Value kinds of the compiler interface and the target word size.
 * The constructors are listed in the declaration order of the compiler's kind
 * enumeration; the catalog build walks them in this order.
 */
module Kinds {
  datatype Kind = Boolean | Byte | Short | Char | Int | Float | Long | Double | Object | Void | Jsr | Illegal

  /** Every kind, in declaration order. */
  const AllKinds: seq<Kind> := [Boolean, Byte, Short, Char, Int, Float, Long, Double, Object, Void, Jsr, Illegal]

  /** The target architectures the generator supports; only ARMv7 is 32-bit. */
  datatype Arch = AMD64 | AArch64 | ARMv7 | RISCV64

  function WordSize(arch: Arch): nat
  {
    if arch == ARMv7 then 4 else 8
  }

  /** The kind a machine word (pointer, address, offset) takes on the target. */
  function ArchKind(arch: Arch): Kind
  {
    if arch == ARMv7 then Int else Long
  }

  /** Storage size of one array element of the given kind. */
  function ElementSize(arch: Arch, k: Kind): nat
  {
    match k
    case Boolean => 1
    case Byte => 1
    case Short => 2
    case Char => 2
    case Int => 4
    case Float => 4
    case Long => 8
    case Double => 8
    case Object => WordSize(arch)
    case _ => 0
  }
}
