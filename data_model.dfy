/** The C data-model table of a compilation target: the width of each C
    primitive type (pointer, `short`, `int`, `long`, `long long`, `float`,
    `double`) under each of the five classic C data models. */
module DataModel {

  /** Rust's `u8`: what `bits()` and `bytes()` return. */
  type UInt8 = x: int | 0 <= x < 0x100

  /** The size of a type: one of four widths. */
  datatype Size = U8 | U16 | U32 | U64 {

    /** The number of bits this size represents. */
    function Bits(): (r: UInt8)
      ensures r in {8, 16, 32, 64}
    {
      match this
      case U8 => 8
      case U16 => 16
      case U32 => 32
      case U64 => 64
    }

    /** The number of bytes in this size, a byte being 8 bits. */
    function Bytes(): (r: UInt8)
      ensures r * 8 == Bits()
    {
      match this
      case U8 => 1
      case U16 => 2
      case U32 => 4
      case U64 => 8
    }
  }

  /** A size is identified by its width, in bits or in bytes. */
  lemma SizeIsDeterminedByWidth(a: Size, b: Size)
    ensures a.Bits() == b.Bits() <==> a == b
    ensures a.Bytes() == b.Bytes() <==> a == b
  {
  }

  /** The C data model used on a target. */
  datatype CDataModel =
    | LP32   // Win16: `long` and pointer are 32 bits
    | ILP32  // Win32 and 32-bit Unix: `int`, `long` and pointer are 32 bits
    | LLP64  // Win64: `long long` and pointer are 64 bits
    | LP64   // 64-bit Unix: `long` and pointer are 64 bits
    | ILP64  // early 64-bit Unix (documented: `int`, `long` and pointer are 64 bits)
  {
    /** The width of a pointer in the default address space. */
    function PointerWidth(): (r: Size)
      ensures r == U32 || r == U64
    {
      match this
      case LP32 | ILP32 => U32
      case LLP64 | LP64 | ILP64 => U64
    }

    /** The size of a C `short`, required to be at least 16 bits. */
    function ShortSize(): (r: Size)
      ensures r.Bits() >= 16
    {
      match this
      case LP32 | ILP32 | LLP64 | LP64 | ILP64 => U16
    }

    /** The size of a C `int`, required to be at least 16 bits. */
    function IntSize(): (r: Size)
      ensures r.Bits() >= 16
    {
      match this
      case LP32 => U16
      case ILP32 | LLP64 | LP64 | ILP64 => U32
    }

    /** The size of a C `long`, required to be at least 32 bits. */
    function LongSize(): (r: Size)
      ensures r.Bits() >= 32
    {
      match this
      case LP32 | ILP32 | LLP64 | ILP64 => U32
      case LP64 => U64
    }

    /** The size of a C `long long`, required (since C99) to be at least 64 bits. */
    function LongLongSize(): (r: Size)
      ensures r.Bits() >= 64
    {
      match this
      case LP32 | ILP32 | LLP64 | ILP64 | LP64 => U64
    }

    /** The size of a C `float`; the same for every data model. */
    function FloatSize(): (r: Size)
      ensures r.Bits() == 32 && r.Bytes() == 4
    {
      U32
    }

    /** The size of a C `double`; the same for every data model. */
    function DoubleSize(): (r: Size)
      ensures r.Bits() == 64 && r.Bytes() == 8
    {
      U64
    }
  }

  /** Pointers are 32 bits exactly in the 32-bit models and 64 bits exactly
      in the 64-bit ones. */
  lemma PointerWidthByFamily(m: CDataModel)
    ensures m.PointerWidth() == U32 <==> m.LP32? || m.ILP32?
    ensures m.PointerWidth() == U64 <==> m.LLP64? || m.LP64? || m.ILP64?
  {
  }

  /** `short` is 16 bits under every data model. */
  lemma ShortIsAlways16(m: CDataModel)
    ensures m.ShortSize() == U16
  {
  }

  /** `int` is 16 bits only under LP32 and 32 bits under every other model,
      ILP64 included. */
  lemma IntSizeByModel(m: CDataModel)
    ensures m.IntSize() == U16 <==> m.LP32?
    ensures m.IntSize() == U32 <==> !m.LP32?
    ensures m.IntSize() != U64
  {
  }

  /** `long` is 64 bits only under LP64 and 32 bits under every other model,
      ILP64 included. */
  lemma LongSizeByModel(m: CDataModel)
    ensures m.LongSize() == U64 <==> m.LP64?
    ensures m.LongSize() == U32 <==> !m.LP64?
  {
  }

  /** `long long` is 64 bits under every data model. */
  lemma LongLongIsAlways64(m: CDataModel)
    ensures m.LongLongSize() == U64
  {
  }

  /** The integer types never shrink as their rank grows:
      `short` <= `int` <= `long` <= `long long`, in bits. */
  lemma IntegerWidthsOrdered(m: CDataModel)
    ensures m.ShortSize().Bits() <= m.IntSize().Bits()
    ensures m.IntSize().Bits() <= m.LongSize().Bits()
    ensures m.LongSize().Bits() <= m.LongLongSize().Bits()
  {
  }

  /** `float` and `double` do not depend on the data model: 32 and 64 bits. */
  lemma FloatAndDoubleIgnoreModel(m: CDataModel, n: CDataModel)
    ensures m.FloatSize() == n.FloatSize() && m.FloatSize().Bits() == 32
    ensures m.DoubleSize() == n.DoubleSize() && m.DoubleSize().Bits() == 64
  {
  }

  /** The Unix and Windows 64-bit conventions differ in `long` alone:
      8 bytes under LP64, 4 bytes under LLP64. */
  lemma Lp64AndLlp64DifferOnlyInLong()
    ensures LP64.LongSize().Bytes() == 8 && LLP64.LongSize().Bytes() == 4
    ensures LP64.PointerWidth() == LLP64.PointerWidth()
    ensures LP64.ShortSize() == LLP64.ShortSize()
    ensures LP64.IntSize() == LLP64.IntSize()
    ensures LP64.LongLongSize() == LLP64.LongLongSize()
    ensures LP64.FloatSize() == LLP64.FloatSize()
    ensures LP64.DoubleSize() == LLP64.DoubleSize()
  {
  }
}
