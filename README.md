# C data-model table of target-lexicon, in Dafny

target-lexicon describes compilation targets. Its C data-model table answers
"how wide is a C `long` on this target?". `Size` is one of four widths (8, 16,
32 or 64 bits) with two projections, `bits()` and `bytes()`. `CDataModel` is one
of the five classic C data models: LP32, ILP32, LLP64, LP64 and ILP64. Seven
accessors each map a model to the `Size` of one C primitive type: pointer,
`short`, `int`, `long`, `long long`, `float` and `double`.

The model has three modules:

- `DataModel` (`data_model.dfy`) is the code as written. `Size` and
  `CDataModel` are datatypes, and each Rust method is a member function with
  the same `match` arms. Rust's `u8` result type is the subset type `UInt8`.
  The contracts and lemmas state the table's invariants:
  - a size's byte count times 8 is its bit count;
  - each model's pointer width is 32 or 64 bits;
  - each integer type meets the minimum width its doc comment requires;
  - integer widths do not shrink with rank;
  - `float` and `double` are the same under every model.
- `DataModelNames` (`data_model_names.dfy`) is an independent reference
  definition. It reads the table from the models' names: `LLP64` means
  `long long` and pointer are 64 bits. The variant doc comments spell out the
  same convention. A small parser splits a name into the types its letters
  stand for and the width its digits give. The lemmas compare each row of the
  table with the model's name.
- `CorrectedDataModel` (`corrected_data_model.dfy`) is the table with ILP64
  fixed (see "## Findings").

The code and its documentation disagree on ILP64. The doc comment of ILP64 and
its name say that `int`, `long` and pointer are all 64 bits. The `match` arms
of `int_size` and `long_size` give ILP64 32 bits for both. `DataModel` follows
the code. `DataModelNames.Ilp64RowContradictsName` shows the disagreement, and
`CorrectedDataModel` holds the documented behaviour with its proofs.

## Model

| member | source | states |
|---|---|---|
| `DataModel.Size.Bits` | src/data_model.rs:12-20 | every size is 8, 16, 32 or 64 bits, a value that fits in a `u8` |
| `DataModel.Size.Bytes` | src/data_model.rs:22-32 | the byte count times 8 is the bit count (a byte is 8 bits), and fits in a `u8` |
| `DataModel.SizeIsDeterminedByWidth` | src/data_model.rs:4-32 | two sizes are equal exactly when their bit counts are equal, and exactly when their byte counts are equal |
| `DataModel.CDataModel.PointerWidth` | src/data_model.rs:62-68 | a pointer is either 32 or 64 bits wide under every model |
| `DataModel.CDataModel.ShortSize` | src/data_model.rs:69-74 | `short` is at least 16 bits, as its doc comment requires |
| `DataModel.CDataModel.IntSize` | src/data_model.rs:75-81 | `int` is at least 16 bits, as its doc comment requires |
| `DataModel.CDataModel.LongSize` | src/data_model.rs:82-88 | `long` is at least 32 bits, as its doc comment requires |
| `DataModel.CDataModel.LongLongSize` | src/data_model.rs:89-94 | `long long` is at least 64 bits, as its doc comment requires |
| `DataModel.CDataModel.FloatSize` | src/data_model.rs:95-99 | `float` is 32 bits (4 bytes); `DataModel.FloatAndDoubleIgnoreModel` states that it is the same under every model |
| `DataModel.CDataModel.DoubleSize` | src/data_model.rs:100-104 | `double` is 64 bits (8 bytes); `DataModel.FloatAndDoubleIgnoreModel` states that it is the same under every model |
| `DataModel.PointerWidthByFamily` | src/data_model.rs:63-68 | the pointer is 32 bits exactly for LP32 and ILP32, and 64 bits exactly for LLP64, LP64 and ILP64 |
| `DataModel.ShortIsAlways16` | src/data_model.rs:70-74 | `short` is 16 bits under every model |
| `DataModel.IntSizeByModel` | src/data_model.rs:76-81 | `int` is 16 bits exactly for LP32 and 32 bits for every other model, ILP64 included; it is never 64 bits |
| `DataModel.LongSizeByModel` | src/data_model.rs:83-88 | `long` is 64 bits exactly for LP64 and 32 bits for every other model |
| `DataModel.LongLongIsAlways64` | src/data_model.rs:90-94 | `long long` is 64 bits under every model |
| `DataModel.IntegerWidthsOrdered` | src/data_model.rs:69-94 | under every model, `short` <= `int` <= `long` <= `long long` in bits |
| `DataModel.FloatAndDoubleIgnoreModel` | src/data_model.rs:95-104 | `float` and `double` do not depend on the model; they are 32 and 64 bits |
| `DataModel.Lp64AndLlp64DifferOnlyInLong` | src/data_model.rs:47-94 | `long` is 8 bytes under LP64 and 4 bytes under LLP64; the two models agree on every other type |
| `DataModelNames.ParseName` | src/data_model.rs:40-58 | reading a model name yields only `int`, `long`, `long long` and pointer; what is left over is no longer than the name and does not start with a type letter |
| `DataModelNames.ParseNameRestIsSuffix` | src/data_model.rs:40-58 | what is left over after reading a name is a suffix of the name |
| `DataModelNames.ParseNameConsumesTypeLetters` | src/data_model.rs:40-58 | every character read before the left-over part is a type letter (`I`, `L` or `P`); with the two rows above, reading stops at the first character that is not a type letter |
| `DataModelNames.DecimalValueDefinedOnDigits` | src/data_model.rs:40-58 | the width reader gives a value exactly for non-empty strings of decimal digits, such as the `32` and `64` that end the model names |
| `DataModelNames.ParsedNames` | src/data_model.rs:41-58 | what each variant name announces: LP32 means `long` and pointer are 32 bits, ILP32 means `int`, `long` and pointer are 32 bits, LLP64 means `long long` and pointer are 64 bits, LP64 means `long` and pointer are 64 bits, and ILP64 means `int`, `long` and pointer are 64 bits |
| `DataModelNames.TableRowsAgreeWithNames` | src/data_model.rs:40-94 | for every model except ILP64, the types the name lists have the width it ends in; among `int`, `long` and pointer, the listed types are exactly the ones with that width |
| `DataModelNames.Ilp64RowContradictsName` | src/data_model.rs:55-88 | as written, ILP64 gives `int` and `long` 32 bits, contradicting its name, and its row equals LLP64's |
| `DataModelNames.TableRowsDistinctExceptIlp64` | src/data_model.rs:40-105 | as written, LLP64 and ILP64 are the only two models whose rows are equal |
| `CorrectedDataModel.CorrectedIntSize` | src/data_model.rs:75-81 | corrected `int`: at least 16 bits and at least as wide as `short` |
| `CorrectedDataModel.CorrectedLongSize` | src/data_model.rs:82-88 | corrected `long`: at least 32 bits, at least as wide as corrected `int`, and no wider than `long long` |
| `CorrectedDataModel.CorrectionOnlyTouchesIlp64` | src/data_model.rs:75-88 | the corrected table differs from the code's only in ILP64's `int` and `long` |
| `CorrectedDataModel.CorrectedRowsAgreeWithNames` | src/data_model.rs:40-94 | in the corrected table, every model, ILP64 included, has the widths its name announces, in both directions |
| `CorrectedDataModel.CorrectedRowsAreDistinct` | src/data_model.rs:40-105 | in the corrected table, two models have equal rows only if they are the same model |

## Left out

- `src/lib.rs` only declares modules and re-exports them. `DefaultToHost::default` (src/lib.rs:42-46) calls `Triple::host()`, and host detection is not part of this model.
- Target-triple parsing, host detection, `ParseError`, calling conventions and endianness (the `triple`, `host`, `targets` and `parse_error` modules) are not part of this model. The model takes a `CDataModel` as its input.
- `#[non_exhaustive]` on `CDataModel` has no counterpart. The Dafny datatype is closed, so a new variant would make the model fail to verify (a missing case in each `match` over `CDataModel`) until it is extended.
- The derived `Copy`, `Clone`, `Debug` and `Hash` traits have no counterpart. `PartialEq`/`Eq` are the datatypes' structural equality.
- `DataModel.FloatAndDoubleIgnoreModel` states only that `float` and `double` are constant. The code marks both values as possibly wrong on some architectures (src/data_model.rs:97, src/data_model.rs:102), so no claim is made that they match any real architecture.
- Purity and idempotence of the accessors have no lemma. Dafny functions are deterministic by construction.

## Findings

| source | as written | input that shows it | evidently intended | confidence | as-written member | corrected member |
|---|---|---|---|---|---|---|
| src/data_model.rs:76-88 | `int_size` and `long_size` return `Size::U32` for `CDataModel::ILP64` | `CDataModel::ILP64`: `int_size().bits()` and `long_size().bits()` are 32, and the row is the same as LLP64's | `int` and `long` are 64 bits under ILP64, as its doc comment (src/data_model.rs:57) and its name say | high for the discrepancy, medium for the intent; not executed | `DataModelNames.Ilp64RowContradictsName` | `CorrectedDataModel.CorrectedRowsAgreeWithNames` |

`DataModel` keeps the code's behaviour because that is what callers of the
library get. Every name-based claim for all five models is stated and proved
over `CorrectedDataModel.CorrectedRow`.
