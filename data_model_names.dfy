/** The naming convention of the C data models, used as an independent
    reference for the data-model table: a name such as `LLP64` lists the C
    types whose width is the number it ends in (`I` for `int`, `L` for
    `long`, `LL` for `long long`, `P` for pointer). */
module DataModelNames {
  import opened DataModel

  datatype Option<T> = None | Some(value: T)

  /** The C primitive types the data-model table answers for. */
  datatype CType = Pointer | Short | Int | Long | LongLong | Float | Double

  /** One row of the data-model table: a size for each C primitive type. */
  datatype Widths = Widths(
    pointerSize: Size,
    shortSize: Size,
    intSize: Size,
    longSize: Size,
    longLongSize: Size,
    floatSize: Size,
    doubleSize: Size)
  {
    /** The size this row gives type `t`. */
    function Of(t: CType): Size
    {
      match t
      case Pointer => pointerSize
      case Short => shortSize
      case Int => intSize
      case Long => longSize
      case LongLong => longLongSize
      case Float => floatSize
      case Double => doubleSize
    }
  }

  /** The row of the table that the accessors of `m` produce. */
  function TableRow(m: CDataModel): Widths
  {
    Widths(m.PointerWidth(), m.ShortSize(), m.IntSize(), m.LongSize(),
           m.LongLongSize(), m.FloatSize(), m.DoubleSize())
  }

  /** The name of each data model. */
  function Name(m: CDataModel): string
  {
    match m
    case LP32 => "LP32"
    case ILP32 => "ILP32"
    case LLP64 => "LLP64"
    case LP64 => "LP64"
    case ILP64 => "ILP64"
  }

  /** True for the types a data-model name can mention. */
  predicate Nameable(t: CType)
  {
    t.Int? || t.Long? || t.LongLong? || t.Pointer?
  }

  /** Splits a name into the C types its leading letters stand for (`LL`
      read before `L`) and the text that follows them. */
  function ParseName(name: string): (p: (seq<CType>, string))
    ensures |p.1| <= |name|
    ensures p.1 == [] || p.1[0] !in "ILP"
    ensures forall t :: t in p.0 ==> Nameable(t)
    decreases |name|
  {
    if |name| >= 2 && name[0] == 'L' && name[1] == 'L' then
      var rest := ParseName(name[2..]);
      ([LongLong] + rest.0, rest.1)
    else if |name| >= 1 && name[0] == 'L' then
      var rest := ParseName(name[1..]);
      ([Long] + rest.0, rest.1)
    else if |name| >= 1 && name[0] == 'I' then
      var rest := ParseName(name[1..]);
      ([Int] + rest.0, rest.1)
    else if |name| >= 1 && name[0] == 'P' then
      var rest := ParseName(name[1..]);
      ([Pointer] + rest.0, rest.1)
    else
      ([], name)
  }

  /** The value of a non-empty string of decimal digits; `None` for anything else. */
  function DecimalValue(s: string): (v: Option<nat>)
    ensures v.Some? ==> s != [] && forall i :: 0 <= i < |s| ==> '0' <= s[i] <= '9'
    decreases |s|
  {
    if s == [] || !('0' <= s[|s| - 1] <= '9') then None
    else
      var low := s[|s| - 1] as int - '0' as int;
      if |s| == 1 then Some(low)
      else match DecimalValue(s[..|s| - 1])
        case None => None
        case Some(high) => Some(high * 10 + low)
  }

  /** What `ParseName` leaves over is a suffix of the name. */
  lemma {:induction false} ParseNameRestIsSuffix(name: string)
    ensures ParseName(name).1 == name[|name| - |ParseName(name).1|..]
    decreases |name|
  {
    if |name| >= 2 && name[0] == 'L' && name[1] == 'L' {
      ParseNameRestIsSuffix(name[2..]);
    } else if |name| >= 1 && (name[0] == 'L' || name[0] == 'I' || name[0] == 'P') {
      ParseNameRestIsSuffix(name[1..]);
    }
  }

  /** Everything `ParseName` reads before the rest is a type letter, so,
      with `ParseNameRestIsSuffix`, it stops at the first character that
      is not one. */
  lemma {:induction false} ParseNameConsumesTypeLetters(name: string, i: int)
    requires 0 <= i < |name| - |ParseName(name).1|
    ensures name[i] in "ILP"
    decreases |name|
  {
    if |name| >= 2 && name[0] == 'L' && name[1] == 'L' {
      if i >= 2 {
        ParseNameConsumesTypeLetters(name[2..], i - 2);
      }
    } else if |name| >= 1 && (name[0] == 'L' || name[0] == 'I' || name[0] == 'P') {
      if i >= 1 {
        ParseNameConsumesTypeLetters(name[1..], i - 1);
      }
    }
  }

  /** `DecimalValue` is defined exactly on the non-empty strings of digits. */
  lemma {:induction false} DecimalValueDefinedOnDigits(s: string)
    ensures DecimalValue(s).Some? <==> s != [] && forall i :: 0 <= i < |s| ==> '0' <= s[i] <= '9'
    decreases |s|
  {
    if |s| > 1 {
      DecimalValueDefinedOnDigits(s[..|s| - 1]);
    }
  }

  /** A row agrees with a name when every type the name lists has the
      width the name ends in, and, among `int`, `long` and pointer, only
      the listed ones have it. (`long long` is left out of the second
      half: it is 64 bits whether or not a name lists it.) */
  ghost predicate AgreesWithName(name: string, row: Widths)
  {
    var (types, digits) := ParseName(name);
    && DecimalValue(digits).Some?
    && var width := DecimalValue(digits).value;
    && (forall t :: t in types ==> row.Of(t).Bits() == width)
    && (forall t: CType :: t.Int? || t.Long? || t.Pointer? ==> (t in types <==> row.Of(t).Bits() == width))
  }

  /** What the parser reads from each of the five names. */
  lemma ParsedNames()
    ensures ParseName("LP32").0 == [Long, Pointer] && ParseName("LP32").1 == "32"
    ensures ParseName("ILP32").0 == [Int, Long, Pointer] && ParseName("ILP32").1 == "32"
    ensures ParseName("LLP64").0 == [LongLong, Pointer] && ParseName("LLP64").1 == "64"
    ensures ParseName("LP64").0 == [Long, Pointer] && ParseName("LP64").1 == "64"
    ensures ParseName("ILP64").0 == [Int, Long, Pointer] && ParseName("ILP64").1 == "64"
    ensures DecimalValue("32") == Some(32) && DecimalValue("64") == Some(64)
  {
  }

  /** Every data model but ILP64 has the widths its name announces. */
  lemma TableRowsAgreeWithNames(m: CDataModel)
    requires !m.ILP64?
    ensures AgreesWithName(Name(m), TableRow(m))
  {
    ParsedNames();
  }

  /** As written, ILP64 gives `int` and `long` 32 bits although its name
      makes them 64 bits; its row cannot be told apart from LLP64's. */
  lemma Ilp64RowContradictsName()
    ensures TableRow(ILP64).intSize.Bits() == 32 && TableRow(ILP64).longSize.Bits() == 32
    ensures !AgreesWithName(Name(ILP64), TableRow(ILP64))
    ensures TableRow(ILP64) == TableRow(LLP64)
  {
    ParsedNames();
    assert Int in ParseName(Name(ILP64)).0;
  }

  /** As written, LLP64 and ILP64 are the only two data models that share a row. */
  lemma TableRowsDistinctExceptIlp64(m: CDataModel, n: CDataModel)
    ensures TableRow(m) == TableRow(n) <==> m == n || ((m.LLP64? || m.ILP64?) && (n.LLP64? || n.ILP64?))
  {
  }
}
