/**
 * Turning the labelled contract categories into evaluation queries: the
 * category text is cleaned of separators and surrounding whitespace, and
 * each query record keeps the raw category as its id.
 */
module TransformTarget {
  import opened PyValues
  import opened Text

  /** The three separators `clean_text` turns into spaces. */
  predicate Separator(c: char)
  {
    c == '_' || c == ':' || c == '/'
  }

  /** Every separator turned into a space, character by character. */
  function Spaced(text: string): (r: string)
    ensures |r| == |text|
    ensures forall k | 0 <= k < |text| :: r[k] == if Separator(text[k]) then ' ' else text[k]
  {
    MapChar(MapChar(MapChar(text, '_', ' '), ':', ' '), '/', ' ')
  }

  /** The three `str.replace` calls of `clean_text` are the character map `Spaced`. */
  lemma ReplacedIsSpaced(text: string)
    ensures ReplaceAll(ReplaceAll(ReplaceAll(text, "_", " "), ":", " "), "/", " ") == Spaced(text)
  {
    var a := ReplaceAll(text, "_", " ");
    var b := ReplaceAll(a, ":", " ");
    ReplaceOneChar(text, '_', ' ');
    ReplaceOneChar(a, ':', ' ');
    ReplaceOneChar(b, '/', ' ');
  }

  /** Stripping text that holds no separator leaves none, and removes only characters. */
  lemma StripKeepsNoSeparator(s: string)
    requires forall k | 0 <= k < |s| :: !Separator(s[k])
    ensures var r := Strip(s); |r| <= |s| && forall k | 0 <= k < |r| :: !Separator(r[k])
  {
    StripShape(s);
    var t := RStrip(s);
    var r := Strip(s);
    var start := |t| - |r|;
    assert r == s[start..|t|];
    forall k | 0 <= k < |r| ensures !Separator(r[k]) {
      assert r[k] == s[start + k];
    }
  }

  /**
   * `clean_text(text)`: the three replacements, then `strip`. The result
   * holds no separator, has no whitespace at either end, and is never
   * longer than the input.
   */
  function CleanText(text: string): (r: string)
    ensures r == Strip(Spaced(text))
    ensures forall k | 0 <= k < |r| :: !Separator(r[k])
    ensures |r| > 0 ==> !IsSpace(r[0]) && !IsSpace(r[|r| - 1])
    ensures |r| <= |text|
  {
    ReplacedIsSpaced(text);
    StripShape(Spaced(text));
    StripKeepsNoSeparator(Spaced(text));
    Strip(ReplaceAll(ReplaceAll(ReplaceAll(text, "_", " "), ":", " "), "/", " "))
  }

  /** Text without separators is only stripped. */
  lemma SpacedKeeps(text: string)
    requires forall k | 0 <= k < |text| :: !Separator(text[k])
    ensures Spaced(text) == text
  {
  }

  /** Cleaning twice is cleaning once. */
  lemma CleanTextIdempotent(text: string)
    ensures CleanText(CleanText(text)) == CleanText(text)
  {
    var r := CleanText(text);
    SpacedKeeps(r);
    StripIdempotent(Spaced(text));
  }

  /** The record written for one category: its raw text as id, its cleaned text as query and description. */
  function QueryRecord(jenis: string, contracts: Value): (q: Value)
    ensures q.Dict? && Keys(q.members) == ["id", "query", "description", "expected_results"]
    ensures Lookup(q.members, "id") == Str(jenis)
    ensures Lookup(q.members, "query") == Str(CleanText(jenis))
    ensures Lookup(q.members, "description") == Lookup(q.members, "query")
    ensures var e := Lookup(q.members, "expected_results");
      e.Dict? && Lookup(e.members, "contract_uids") == contracts
  {
    QueryFields(jenis, CleanText(jenis), contracts)
  }

  /** The object literal of one query record, for any cleaned text. */
  function QueryFields(id: string, cleaned: string, contracts: Value): (q: Value)
    ensures q.Dict? && Keys(q.members) == ["id", "query", "description", "expected_results"]
    ensures Lookup(q.members, "id") == Str(id)
    ensures Lookup(q.members, "query") == Str(cleaned) && Lookup(q.members, "description") == Str(cleaned)
    ensures var e := Lookup(q.members, "expected_results");
      e.Dict? && Lookup(e.members, "contract_uids") == contracts
  {
    var expected := Dict([("contract_uids", contracts)]);
    var q := Dict([("id", Str(id)), ("query", Str(cleaned)), ("description", Str(cleaned)),
      ("expected_results", expected)]);
    assert Keys(q.members) == ["id", "query", "description", "expected_results"];
    LookupAt(q.members, "id", 0);
    LookupAt(q.members, "query", 1);
    LookupAt(q.members, "description", 2);
    LookupAt(q.members, "expected_results", 3);
    LookupAt(expected.members, "contract_uids", 0);
    q
  }

  /** The queries of a table's rows, in order: the list `main` builds. */
  function Queries(rows: seq<(string, Value)>): (qs: seq<Value>)
    ensures |qs| == |rows|
  {
    if |rows| == 0 then [] else Queries(rows[..|rows| - 1]) + [QueryRecord(rows[|rows| - 1].0, rows[|rows| - 1].1)]
  }

  /** Each row yields its own query, at its own position. */
  lemma {:induction false} QueriesAt(rows: seq<(string, Value)>, i: nat)
    requires i < |rows|
    ensures Queries(rows)[i] == QueryRecord(rows[i].0, rows[i].1)
  {
    var init := rows[..|rows| - 1];
    var last := rows[|rows| - 1];
    assert Queries(rows) == Queries(init) + [QueryRecord(last.0, last.1)];
    if i < |rows| - 1 {
      QueriesAt(init, i);
      assert init[i] == rows[i];
      assert Queries(rows)[i] == Queries(init)[i];
    }
  }

  /** Adding one row to the rows read so far appends that row's query. */
  lemma QueriesStep(rows: seq<(string, Value)>, i: nat)
    requires i < |rows|
    ensures Queries(rows[..i + 1]) == Queries(rows[..i]) + [QueryRecord(rows[i].0, rows[i].1)]
  {
    var next := rows[..i + 1];
    assert next[..|next| - 1] == rows[..i];
    assert next[|next| - 1] == rows[i];
  }

  /**
   * The loop of `main`: one query per row of the table, in order, each
   * built from the row's category and its parsed contract list.
   */
  method TransformRows(rows: seq<(string, Value)>) returns (queries: seq<Value>)
    ensures queries == Queries(rows)
  {
    queries := [];
    var i := 0;
    while i < |rows|
      invariant 0 <= i <= |rows|
      invariant queries == Queries(rows[..i])
    {
      QueriesStep(rows, i);
      queries := queries + [QueryRecord(rows[i].0, rows[i].1)];
      i := i + 1;
    }
    assert rows[..|rows|] == rows;
  }

  /** `{"queries": queries}`, the document written: the list can be read back under its one key. */
  function QueriesDocument(queries: seq<Value>): (d: Value)
    ensures d.Dict? && Keys(d.members) == ["queries"]
    ensures Lookup(d.members, "queries") == List(queries)
  {
    var d := Dict([("queries", List(queries))]);
    LookupAt(d.members, "queries", 0);
    d
  }
}
