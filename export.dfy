/**
 * Exporting the enriched contracts to a table: one row per contract, one
 * column per field of `FIELDS`, list values flattened to `"; "`-separated
 * text and missing fields left empty.
 */
module Export {
  import opened PyValues
  import opened Text

  /** The columns of the exported table, in order. */
  const Fields: seq<string> := [
    "uid",
    "ContractDeployment.id",
    "ContractDeployment.storage_protocol",
    "ContractDeployment.storage_address",
    "ContractDeployment.experimental",
    "ContractDeployment.solc_version",
    "ContractDeployment.verified_source",
    "ContractDeployment.name",
    "ContractDeployment.description",
    "ContractDeployment.functionality_classification",
    "ContractDeployment.application_domain",
    "ContractDeployment.security_risks_description"
  ]

  const ListSeparator := "; "

  /** `str(item)` of every element of a list. */
  function Texts(items: seq<Value>): (ts: seq<string>)
    ensures |ts| == |items| && forall k | 0 <= k < |items| :: ts[k] == PyStr(items[k])
  {
    seq(|items|, k requires 0 <= k < |items| => PyStr(items[k]))
  }

  /**
   * `format_value(value)`: a list becomes the text of its elements joined
   * by `"; "`; every other value is kept as it is. The result is never a
   * list.
   */
  function FormatValue(v: Value): (r: Value)
    ensures !r.List?
    ensures !v.List? ==> r == v
    ensures v.List? ==> r.Str?
    ensures v.List? && |v.items| == 0 ==> r == Str("")
    ensures v.List? && |v.items| == 1 ==> r == Str(PyStr(v.items[0]))
  {
    if v.List? then Str(Join(ListSeparator, Texts(v.items))) else v
  }

  /**
   * A non-empty list whose elements' text holds no `;` can be read back
   * from its cell by splitting on `"; "`.
   */
  lemma FormatListRoundTrip(items: seq<Value>)
    requires |items| >= 1
    requires forall k | 0 <= k < |items| :: ';' !in PyStr(items[k])
    ensures var r := FormatValue(List(items)); Split(r.s, ListSeparator) == Texts(items)
  {
    SplitJoin(Texts(items), ListSeparator);
  }

  /**
   * The row written for one contract: every column of `Fields`, in order,
   * holding the contract's formatted value, or the empty text when the
   * contract lacks that field.
   */
  function ExportRow(item: Record): (row: seq<(string, Value)>)
    ensures Keys(row) == Fields
    ensures forall k | 0 <= k < |row| :: Fields[k] !in item ==> row[k].1 == Str("")
    ensures forall k | 0 <= k < |row| :: Fields[k] in item && !item[Fields[k]].List? ==> row[k].1 == item[Fields[k]]
    ensures forall k | 0 <= k < |row| :: !row[k].1.List?
  {
    var row := seq(|Fields|, k requires 0 <= k < |Fields| => (Fields[k], FormatValue(GetOr(item, Fields[k], Str("")))));
    assert Keys(row) == Fields;
    row
  }

  /** Each column is looked up by its own name in the row. */
  lemma RowLookup(item: Record, k: nat)
    requires k < |Fields|
    ensures Lookup(ExportRow(item), Fields[k]) == FormatValue(GetOr(item, Fields[k], Str("")))
  {
    var row := ExportRow(item);
    forall j | k < j < |row| ensures row[j].0 != Fields[k] {
      FieldsDistinct(k, j);
    }
    LookupAt(row, Fields[k], k);
  }

  /** The twelve column names are pairwise distinct. */
  lemma FieldsDistinct(i: nat, j: nat)
    requires i < j < |Fields|
    ensures Fields[i] != Fields[j]
  {
    if i == 0 {
      assert |Fields[i]| == 3 < |Fields[j]|;
    } else {
      SuffixesDistinct(i, j);
    }
  }

  /** After the common prefix, the names differ in their first few characters. */
  lemma SuffixesDistinct(i: nat, j: nat)
    requires 1 <= i < j < |Fields|
    ensures Fields[i][19..] != Fields[j][19..]
  {
    var a := Fields[i][19..];
    var b := Fields[j][19..];
    if |a| == |b| {
      var d := FirstDifference(i, j);
      assert a[d] != b[d];
    }
  }

  /** An index at which two equally long suffixes differ. */
  function FirstDifference(i: nat, j: nat): (d: nat)
    requires 1 <= i < j < |Fields| && |Fields[i]| == |Fields[j]|
    ensures 19 + d < |Fields[i]| && Fields[i][19 + d] != Fields[j][19 + d]
  {
    if Fields[i][19] != Fields[j][19] then 0
    else if Fields[i][20] != Fields[j][20] then 1
    else 2
  }

  /** Keys outside `Fields` do not reach the exported row. */
  lemma RowIgnoresOtherKeys(item: Record, other: Record)
    requires forall f | f in Fields :: (f in item <==> f in other) && (f in item ==> item[f] == other[f])
    ensures ExportRow(item) == ExportRow(other)
  {
    var a := ExportRow(item);
    var b := ExportRow(other);
    forall k | 0 <= k < |Fields| ensures a[k] == b[k] {
      assert Fields[k] in Fields;
    }
  }

  /**
   * The export loop: one row per contract, in the order of the input, each
   * the contract's `ExportRow`; the header is `Fields`.
   */
  method ExportTable(data: seq<Record>) returns (header: seq<string>, rows: seq<seq<(string, Value)>>)
    ensures header == Fields
    ensures |rows| == |data|
    ensures forall i | 0 <= i < |data| :: rows[i] == ExportRow(data[i])
  {
    header := Fields;
    rows := [];
    for i := 0 to |data|
      invariant |rows| == i
      invariant forall j | 0 <= j < i :: rows[j] == ExportRow(data[j])
    {
      var row := ExportRow(data[i]);
      rows := rows + [row];
    }
  }
}
