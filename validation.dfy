/**
 * The schema check `validate` of client.py: a downloaded CSV table must have
 * the headers `system` and `property`, and every value in its `system` column
 * must be one of eight benchmark system codes.
 *
 * CSV parsing itself is not modelled: a table arrives already parsed, as its
 * header row and the cells of its `system` column, or as `Unreadable` when the
 * parser itself raises (pandas raises, for instance, on an empty file).
 */
module Validation {

  /** A parsed CSV file: its header row and the cells of its `system` column, in row order. */
  datatype CsvData =
    | Table(columns: seq<string>, system: seq<string>)
    | Unreadable

  /** Which of the checks rejected the data. */
  datatype SchemaError = ParseError | MissingHeaders | InvalidSystemValues

  datatype Validation = Valid | Invalid(error: SchemaError)

  /** The fixed vocabulary of system codes that `validate` accepts. */
  const SYSTEM_CODES: set<string> :=
    {"AT", "CC", "AFC", "AFC_normal", "AFC_power", "NN", "SC", "F16"}

  predicate HasRequiredHeaders(columns: seq<string>)
  {
    "system" in columns && "property" in columns
  }

  /** The set built from a column's cells, one cell at a time (Python's `set(column.tolist())`). */
  function DistinctValues(cells: seq<string>): (vals: set<string>)
    ensures forall v :: v in vals <==> v in cells
    ensures |vals| <= |cells|
    decreases |cells|
  {
    if cells == [] then {}
    else DistinctValues(cells[..|cells| - 1]) + {cells[|cells| - 1]}
  }

  /**
   * `validate`: the header check comes first, so a table without a `system`
   * header fails on its headers whatever its cells are; only then is the set
   * of `system` values compared with the vocabulary.
   */
  function Validate(data: CsvData): (r: Validation)
    ensures r == Invalid(ParseError) <==> data.Unreadable?
    ensures r == Invalid(MissingHeaders) <==>
              data.Table? && !HasRequiredHeaders(data.columns)
    ensures r == Valid <==>
              data.Table? && HasRequiredHeaders(data.columns) &&
              forall k :: 0 <= k < |data.system| ==> data.system[k] in SYSTEM_CODES
    ensures r == Invalid(InvalidSystemValues) <==>
              data.Table? && HasRequiredHeaders(data.columns) &&
              exists k :: 0 <= k < |data.system| && data.system[k] !in SYSTEM_CODES
  {
    match data
    case Unreadable => Invalid(ParseError)
    case Table(columns, system) =>
      if !HasRequiredHeaders(columns) then Invalid(MissingHeaders)
      else if !(DistinctValues(system) <= SYSTEM_CODES) then Invalid(InvalidSystemValues)
      else Valid
  }

  /** A table with both headers and no data rows passes. */
  lemma EmptyTableIsValid(columns: seq<string>)
    requires HasRequiredHeaders(columns)
    ensures Validate(Table(columns, [])) == Valid
  {
  }

  /** Validation is decided by the set of distinct `system` values, not by their order or repetition. */
  lemma {:induction false} ValidateDependsOnValueSet(columns: seq<string>, a: seq<string>, b: seq<string>)
    requires DistinctValues(a) == DistinctValues(b)
    ensures Validate(Table(columns, a)) == Validate(Table(columns, b))
  {
    assert forall v :: v in a <==> v in b by {
      forall v ensures v in a <==> v in b {
        assert v in DistinctValues(a) <==> v in DistinctValues(b);
      }
    }
    if HasRequiredHeaders(columns) {
      if Validate(Table(columns, a)) == Valid {
        forall k | 0 <= k < |b| ensures b[k] in SYSTEM_CODES {
          assert b[k] in a;
        }
      } else {
        var k :| 0 <= k < |a| && a[k] !in SYSTEM_CODES;
        assert a[k] in b;
      }
    }
  }
}
