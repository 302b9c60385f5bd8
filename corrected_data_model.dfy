/** The data-model table with ILP64 as its name and its documentation
    describe it: `int` and `long` 64 bits wide, like the pointer. Every
    other model, and every other type, keeps the widths of `DataModel`. */
module CorrectedDataModel {
  import opened DataModel
  import opened DataModelNames

  /** The size of a C `int`, with ILP64 giving it 64 bits. */
  function CorrectedIntSize(m: CDataModel): (r: Size)
    ensures r.Bits() >= 16
    ensures m.ShortSize().Bits() <= r.Bits()
  {
    match m
    case LP32 => U16
    case ILP32 | LLP64 | LP64 => U32
    case ILP64 => U64
  }

  /** The size of a C `long`, with ILP64 giving it 64 bits. */
  function CorrectedLongSize(m: CDataModel): (r: Size)
    ensures r.Bits() >= 32
    ensures CorrectedIntSize(m).Bits() <= r.Bits() <= m.LongLongSize().Bits()
  {
    match m
    case LP32 | ILP32 | LLP64 => U32
    case LP64 | ILP64 => U64
  }

  /** The row of the corrected table for `m`. */
  function CorrectedRow(m: CDataModel): Widths
  {
    TableRow(m).(intSize := CorrectedIntSize(m), longSize := CorrectedLongSize(m))
  }

  /** The correction changes the `int` and `long` of ILP64 and nothing else. */
  lemma CorrectionOnlyTouchesIlp64(m: CDataModel, t: CType)
    ensures CorrectedRow(m).Of(t) != TableRow(m).Of(t) <==> m.ILP64? && (t.Int? || t.Long?)
  {
  }

  /** With the correction, every data model has the widths its name announces. */
  lemma CorrectedRowsAgreeWithNames(m: CDataModel)
    ensures AgreesWithName(Name(m), CorrectedRow(m))
  {
    ParsedNames();
  }

  /** With the correction, no two data models share a row. */
  lemma CorrectedRowsAreDistinct(m: CDataModel, n: CDataModel)
    ensures CorrectedRow(m) == CorrectedRow(n) <==> m == n
  {
  }
}
