/**
 * `SemanticEnricher` and `ParallelSemanticEnricher`: how the answer of the
 * language model is shaped into a set object (`enrich`), how source code is
 * cut down before it is sent (`preprocess`), and how a page of contracts is
 * projected and fanned out (`process_contracts`).
 *
 * The chain (prompt, model, JSON parser) is an oracle from the record sent
 * to the parsed answer, None where it raises; the token counter and the
 * regular-expression rules of `preprocess` are oracles too.
 */
module LlmEnrichment {
  import opened PyValues
  import opened Text
  import opened Deployment

  // ---- enrich ----

  const Prefix := "ContractDeployment."

  /** The chain: the parsed JSON answer for the record sent, None where any stage raises. */
  type Chain = Record -> Option<Value>

  /** `{f"ContractDeployment.{key}": value for key, value in result.items()}`. */
  function Prefixed(members: seq<(string, Value)>): (ps: seq<(string, Value)>)
    ensures |ps| == |members|
    ensures forall i | 0 <= i < |ps| :: ps[i] == (Prefix + members[i].0, members[i].1)
  {
    seq(|members|, i requires 0 <= i < |members| => (Prefix + members[i].0, members[i].1))
  }

  /** Looking a prefixed key up in the prefixed items is looking the key up in the answer. */
  lemma {:induction false} PrefixedLookup(members: seq<(string, Value)>, key: string)
    ensures Lookup(Prefixed(members), Prefix + key) == Lookup(members, key)
    decreases |members|
  {
    if |members| > 0 {
      var init := members[..|members| - 1];
      var last := members[|members| - 1];
      PrefixedLookup(init, key);
      assert Prefixed(members)[..|members| - 1] == Prefixed(init);
      if last.0 != key {
        assert Prefix + last.0 != Prefix + key by {
          assert (Prefix + last.0)[|Prefix|..] == last.0;
          assert (Prefix + key)[|Prefix|..] == key;
        }
      }
    }
  }

  /**
   * `enrich(contract_data)`. The `return` in `finally` swallows every
   * exception: when the chain raises the result is still `{}`; when the
   * answer is not an object, `.items()` raises and the raw answer is
   * returned; when `uid` or `ContractDeployment.id` is missing from the
   * data, the result stops at the key that raised.
   */
  function Enrich(answer: Option<Value>, data: Record): (r: Value)
    ensures answer.None? ==> r == Dict([])
    ensures answer.Some? && !answer.value.Dict? ==> r == answer.value
  {
    match answer
    case None => Dict([])
    case Some(Dict(members)) =>
      var shaped := Prefixed(members);
      if UidKey !in data then Dict(shaped)
      else if IdKey !in data then Dict(shaped + [(UidKey, data[UidKey])])
      else Dict(shaped + [(UidKey, data[UidKey]), ("id", data[IdKey])])
    case Some(v) => v
  }

  /** The object `enrich` builds from an answer object when the data has both `uid` and the id. */
  lemma EnrichObject(members: seq<(string, Value)>, data: Record)
    requires UidKey in data && IdKey in data
    ensures Enrich(Some(Dict(members)), data) == Dict(Prefixed(members) + [(UidKey, data[UidKey])] + [("id", data[IdKey])])
  {
  }

  /**
   * On an object answer, every field comes back under its prefixed name,
   * and `uid` and `id` are copied from the data.
   */
  lemma EnrichLookups(members: seq<(string, Value)>, data: Record, key: string)
    requires UidKey in data && IdKey in data
    ensures var r := Enrich(Some(Dict(members)), data);
      r.Dict?
      && Lookup(r.members, Prefix + key) == Lookup(members, key)
      && Lookup(r.members, UidKey) == data[UidKey]
      && Lookup(r.members, "id") == data[IdKey]
  {
    var shaped := Prefixed(members);
    var withUid := shaped + [(UidKey, data[UidKey])];
    var rs := withUid + [("id", data[IdKey])];
    EnrichObject(members, data);
    PrefixedLookup(members, key);
    assert Prefix + key != "id" && Prefix + key != UidKey by {
      assert |Prefix + key| > |"id"| && |Prefix + key| > |UidKey|;
    }
    assert rs[..|rs| - 1] == withUid && withUid[..|withUid| - 1] == shaped;
    assert Lookup(rs, Prefix + key) == Lookup(shaped, Prefix + key);
    LookupLast(shaped, UidKey, data[UidKey]);
  }

  /** On an object answer no key appears but the prefixed ones, `uid` and `id`. */
  lemma EnrichKeys(members: seq<(string, Value)>, data: Record)
    requires UidKey in data && IdKey in data
    ensures var r := Enrich(Some(Dict(members)), data);
      r.Dict? && forall i | 0 <= i < |r.members| ::
        r.members[i].0 == UidKey || r.members[i].0 == "id" || StartsWith(r.members[i].0, Prefix)
  {
    EnrichObject(members, data);
    PrefixedKeys(members);
  }

  /** Every prefixed key starts with the prefix. */
  lemma PrefixedKeys(members: seq<(string, Value)>)
    ensures forall i | 0 <= i < |members| :: StartsWith(Prefixed(members)[i].0, Prefix)
  {
    forall i | 0 <= i < |members| ensures StartsWith(Prefixed(members)[i].0, Prefix) {
      assert (Prefix + members[i].0)[..|Prefix|] == Prefix;
    }
  }

  // ---- process_contracts ----

  /** The nine fields sent to the model. */
  const SentKeys: seq<string> := [UidKey, IdKey, StorageProtocolKey, StorageAddressKey,
    ExperimentalKey, SolcVersionKey, VerifiedSourceKey, SourceCodeKey, NameKey]

  /** `filtered_contract`: exactly the nine fields, None for each the contract lacks. */
  function Filtered(c: Record): (f: Record)
    ensures f.Keys == set k | k in SentKeys
    ensures forall k | k in f :: f[k] == Get(c, k)
  {
    map k | k in SentKeys :: Get(c, k)
  }

  /** So the enriched object of a filtered contract always carries its uid and id, None where the contract had none. */
  lemma FilteredCarriesIdentity(c: Record, members: seq<(string, Value)>)
    ensures var r := Enrich(Some(Dict(members)), Filtered(c));
      Lookup(r.members, UidKey) == Get(c, UidKey) && Lookup(r.members, "id") == Get(c, IdKey)
  {
    EnrichLookups(members, Filtered(c), "");
  }

  /** The results `process_contracts` gathers: one per contract, in order, None where the call raises. */
  function EnrichedPage(chain: Chain, contracts: seq<Record>): (results: Option<seq<Value>>)
    ensures results.Some? <==> forall i | 0 <= i < |contracts| :: IdKey in contracts[i]
    ensures results.Some? ==> |results.value| == |contracts|
    ensures results.Some? ==> forall i | 0 <= i < |contracts| ::
      results.value[i] == Enrich(chain(Filtered(contracts[i])), Filtered(contracts[i]))
  {
    if forall i | 0 <= i < |contracts| :: IdKey in contracts[i] then
      Some(seq(|contracts|, i requires 0 <= i < |contracts| => Enrich(chain(Filtered(contracts[i])), Filtered(contracts[i]))))
    else None
  }

  /**
   * `process_contracts(contracts)`: one task per contract, in order, each
   * on the filtered contract; the log line after each append indexes
   * `ContractDeployment.id`, so a contract without it makes the whole call
   * raise. `gather` is modelled as running the tasks in order.
   */
  method ProcessContracts(chain: Chain, contracts: seq<Record>) returns (results: Option<seq<Value>>)
    ensures results == EnrichedPage(chain, contracts)
  {
    var tasks: seq<Record> := [];
    var i := 0;
    while i < |contracts|
      invariant 0 <= i <= |contracts|
      invariant |tasks| == i
      invariant forall j | 0 <= j < i :: tasks[j] == Filtered(contracts[j]) && IdKey in contracts[j]
    {
      tasks := tasks + [Filtered(contracts[i])];
      if IdKey !in contracts[i] {
        assert !(forall j | 0 <= j < |contracts| :: IdKey in contracts[j]);
        return None;
      }
      i := i + 1;
    }
    var out: seq<Value> := [];
    var k := 0;
    while k < |tasks|
      invariant 0 <= k <= |tasks|
      invariant |out| == k
      invariant forall j | 0 <= j < k :: out[j] == Enrich(chain(tasks[j]), tasks[j])
    {
      out := out + [Enrich(chain(tasks[k]), tasks[k])];
      k := k + 1;
    }
    results := Some(out);
    assert out == EnrichedPage(chain, contracts).value;
  }

  // ---- preprocess ----

  /** One entry of the replacement list: a literal text, or a regular expression left to an oracle. */
  datatype Rule = Literal(pattern: string, replacement: string) | Regex(position: nat)

  predicate WellFormed(rule: Rule)
  {
    rule.Literal? ==> |rule.pattern| > 0
  }

  /** A rule whose literal pattern, if any, is not empty. */
  type Substitution = r: Rule | WellFormed(r) witness Regex(0)

  /**
   * The regular-expression parts: `headers` for the three comment and
   * header removals, `rule(k, s)` for entry `k` of the replacement list.
   */
  datatype Regexes = Regexes(headers: string -> string, rule: (nat, string) -> string)

  /** The boilerplate, interface, mapping, pragma and SafeMath rules that open the list. */
  const Leading: seq<Substitution> := [Regex(0), Regex(1), Regex(2), Regex(3), Regex(4), Regex(5), Regex(6), Regex(7), Regex(8)]

  /** The literal arithmetic calls, positions 9 to 12. */
  const Literals: seq<Substitution> := [Literal(".add(", "+"), Literal(".sub(", "-"), Literal(".mul(", "*"), Literal(".div(", "/")]

  /** The reflection, address, decimal, accessor and tax rules that close it. */
  const Trailing: seq<Substitution> := [Regex(13), Regex(14), Regex(15), Regex(16), Regex(17)]

  /** The replacement list, in order. */
  const Replacements: seq<Substitution> := Leading + Literals + Trailing

  /** The list has eighteen entries, and each regular-expression entry is the rule of its own position. */
  lemma ReplacementsPositions()
    ensures |Replacements| == 18
    ensures forall k | 0 <= k < |Replacements| :: Replacements[k].Regex? <==> !(9 <= k <= 12)
    ensures forall k | 0 <= k < |Replacements| && Replacements[k].Regex? :: Replacements[k].position == k
  {
  }

  function ApplyRule(rule: Substitution, s: string, rx: Regexes): string
  {
    match rule
    case Literal(p, r) => ReplaceAll(s, p, r)
    case Regex(k) => rx.rule(k, s)
  }

  /** `for pattern, replacement in replacements: source = re.sub(pattern, replacement, source)`. */
  function ApplyRules(rules: seq<Substitution>, s: string, rx: Regexes): string
    decreases |rules|
  {
    if |rules| == 0 then s else ApplyRules(rules[1..], ApplyRule(rules[0], s, rx), rx)
  }

  lemma {:induction false} ApplyRulesConcat(a: seq<Substitution>, b: seq<Substitution>, s: string, rx: Regexes)
    ensures ApplyRules(a + b, s, rx) == ApplyRules(b, ApplyRules(a, s, rx), rx)
    decreases |a|
  {
    if |a| > 0 {
      assert (a + b)[0] == a[0];
      assert (a + b)[1..] == a[1..] + b;
      ApplyRulesConcat(a[1..], b, ApplyRule(a[0], s, rx), rx);
    } else {
      assert a + b == b;
    }
  }

  /** The four literal rules. */
  function Arithmetic(s: string): string
  {
    ReplaceAll(ReplaceAll(ReplaceAll(ReplaceAll(s, ".add(", "+"), ".sub(", "-"), ".mul(", "*"), ".div(", "/")
  }

  /** After the four literal rules none of `.add(`, `.sub(`, `.mul(`, `.div(` is left, wherever it stood. */
  lemma ArithmeticLeavesNone(s: string)
    ensures var t := Arithmetic(s);
      !Contains(t, ".add(") && !Contains(t, ".sub(") && !Contains(t, ".mul(") && !Contains(t, ".div(")
  {
    var s1 := ReplaceAll(s, ".add(", "+");
    ReplaceLeavesNone(s, ".add(", "+", ".add(");
    var s2 := ReplaceAll(s1, ".sub(", "-");
    ReplaceLeavesNone(s1, ".sub(", "-", ".add(");
    ReplaceLeavesNone(s1, ".sub(", "-", ".sub(");
    var s3 := ReplaceAll(s2, ".mul(", "*");
    ReplaceLeavesNone(s2, ".mul(", "*", ".add(");
    ReplaceLeavesNone(s2, ".mul(", "*", ".sub(");
    ReplaceLeavesNone(s2, ".mul(", "*", ".mul(");
    ReplaceLeavesNone(s3, ".div(", "/", ".add(");
    ReplaceLeavesNone(s3, ".div(", "/", ".sub(");
    ReplaceLeavesNone(s3, ".div(", "/", ".mul(");
    ReplaceLeavesNone(s3, ".div(", "/", ".div(");
  }

  /** The literal rules are the four replacements of `Arithmetic`, in that order. */
  lemma LiteralsAreArithmetic(t: string, rx: Regexes)
    ensures ApplyRules(Literals, t, rx) == Arithmetic(t)
  {
    var l := Literals;
    assert l[1..] == [Literal(".sub(", "-"), Literal(".mul(", "*"), Literal(".div(", "/")];
    assert l[1..][1..] == [Literal(".mul(", "*"), Literal(".div(", "/")];
    assert l[1..][1..][1..] == [Literal(".div(", "/")];
    assert l[1..][1..][1..][1..] == [];
  }

  /** The replacement list runs the leading rules, then the literal ones, then the trailing ones. */
  lemma ReplacementsSplit(s: string, rx: Regexes)
    ensures ApplyRules(Replacements, s, rx)
      == ApplyRules(Trailing, Arithmetic(ApplyRules(Leading, s, rx)), rx)
  {
    LiteralsAreArithmetic(ApplyRules(Leading, s, rx), rx);
    ApplyRulesConcat(Leading, Literals, s, rx);
    ApplyRulesConcat(Leading + Literals, Trailing, s, rx);
  }

  /** `[line for line in source.split("\n") if line.strip()]`: a line is kept when it is not `Blank`, that is when its `strip()` is not empty (`StripEmptyIffBlank`). */
  function NonBlank(lines: seq<string>): (kept: seq<string>)
    ensures |kept| <= |lines|
  {
    if |lines| == 0 then []
    else if !Blank(lines[0]) then [lines[0]] + NonBlank(lines[1..])
    else NonBlank(lines[1..])
  }

  /** Every kept line is one of the input lines, and none of them is blank. */
  lemma {:induction false} NonBlankKeeps(lines: seq<string>)
    ensures forall k | 0 <= k < |NonBlank(lines)| :: !Blank(NonBlank(lines)[k]) && NonBlank(lines)[k] in lines
    decreases |lines|
  {
    if |lines| > 0 {
      NonBlankKeeps(lines[1..]);
      var rest := NonBlank(lines[1..]);
      var kept := NonBlank(lines);
      if !Blank(lines[0]) {
        assert kept == [lines[0]] + rest;
        assert lines[0] in lines;
        forall k | 1 <= k < |kept| ensures !Blank(kept[k]) && kept[k] in lines {
          assert kept[k] == rest[k - 1];
          assert rest[k - 1] in lines[1..];
        }
      } else {
        assert kept == rest;
        forall k | 0 <= k < |kept| ensures kept[k] in lines {
          assert rest[k] in lines[1..];
        }
      }
    }
  }

  /** Leading newlines dropped. */
  function DropNewlines(s: string): (r: string)
    ensures |r| <= |s|
  {
    if |s| > 0 && s[0] == '\n' then DropNewlines(s[1..]) else s
  }

  /** `re.sub(r"\n{3,}", "\n\n", s)`: every run of three or more newlines becomes two. */
  function CollapseNewlines(s: string): string
    decreases |s|
  {
    if |s| < 3 then s
    else if s[..3] == "\n\n\n" then "\n\n" + CollapseNewlines(DropNewlines(s[3..]))
    else [s[0]] + CollapseNewlines(s[1..])
  }

  /** Without a run of three newlines the collapse changes nothing. */
  lemma {:induction false} CollapseNoRun(s: string)
    requires !Contains(s, "\n\n\n")
    ensures CollapseNewlines(s) == s
    decreases |s|
  {
    if |s| >= 3 {
      assert !OccursAt(s, "\n\n\n", 0);
      SuffixLacks(s, "\n\n\n", 1);
      CollapseNoRun(s[1..]);
      assert s == [s[0]] + s[1..];
    }
  }

  /** Lines joined with one newline, none of them empty, never hold two newlines in a row. */
  lemma {:induction false} JoinedLinesNoRun(lines: seq<string>)
    requires forall k | 0 <= k < |lines| :: |lines[k]| > 0 && '\n' !in lines[k]
    ensures !Contains(Join("\n", lines), "\n\n")
    decreases |lines|
  {
    if |lines| > 1 {
      JoinedLinesNoRun(lines[1..]);
      var rest := Join("\n", lines[1..]);
      var j := lines[0] + "\n" + rest;
      assert Join("\n", lines) == j;
      assert |rest| > 0 && rest[0] != '\n' by {
        assert |lines[1]| > 0 && lines[1][0] != '\n';
        if |lines[1..]| > 1 {
          assert rest == lines[1] + "\n" + Join("\n", lines[2..]) by {
            assert lines[1..][1..] == lines[2..];
          }
        }
        assert rest[0] == lines[1][0];
      }
      forall i | 0 <= i <= |j| - 2 ensures !OccursAt(j, "\n\n", i) {
        var pair := j[i..i + 2];
        if i < |lines[0]| {
          assert pair[0] == j[i] == lines[0][i];
          assert lines[0][i] in lines[0];
          assert pair[0] != '\n';
        } else if i == |lines[0]| {
          assert pair[1] == j[i + 1] == rest[0];
          assert pair[1] != '\n';
        } else {
          var t := i - |lines[0]| - 1;
          assert 0 <= t <= |rest| - 2;
          assert pair == rest[t..t + 2];
          assert !OccursAt(rest, "\n\n", t);
        }
      }
    } else if |lines| == 1 {
      forall i | 0 <= i <= |lines[0]| - 2 ensures !OccursAt(lines[0], "\n\n", i) {
        assert lines[0][i] != '\n';
      }
    }
  }

  /** Two newlines in a row are in every run of three. */
  lemma RunOfThree(s: string)
    requires !Contains(s, "\n\n")
    ensures !Contains(s, "\n\n\n")
  {
    forall i | 0 <= i <= |s| - 3 ensures !OccursAt(s, "\n\n\n", i) {
      assert !OccursAt(s, "\n\n", i);
      assert s[i..i + 3][..2] == s[i..i + 2];
    }
  }

  /** The structural cleanup: blank lines dropped, then runs of newlines collapsed. */
  function Cleanup(s: string): string
  {
    CollapseNewlines(Join("\n", NonBlank(Split(s, "\n"))))
  }

  /**
   * After the cleanup no line is empty or only whitespace (an empty text
   * aside), and the newline collapse had nothing left to do.
   */
  lemma CleanupLines(s: string)
    ensures var kept := NonBlank(Split(s, "\n"));
      Cleanup(s) == Join("\n", kept)
    ensures Cleanup(s) == "" || forall line | line in Split(Cleanup(s), "\n") :: !Blank(line)
  {
    var lines := Split(s, "\n");
    var kept := NonBlank(lines);
    NonBlankKeeps(lines);
    SplitPiecesFree(s, '\n');
    assert forall k | 0 <= k < |kept| :: |kept[k]| > 0 && '\n' !in kept[k] by {
      forall k | 0 <= k < |kept| ensures |kept[k]| > 0 && '\n' !in kept[k] {
        assert kept[k] in lines;
        var m :| 0 <= m < |lines| && lines[m] == kept[k];
      }
    }
    JoinedLinesNoRun(kept);
    RunOfThree(Join("\n", kept));
    CollapseNoRun(Join("\n", kept));
    if |kept| > 0 {
      SplitJoin(kept, "\n");
    }
  }

  const TokenCap := 4000

  /** Above the cap the kept length is below the text's length. */
  lemma CapShorter(len: nat, tokenCount: nat)
    requires tokenCount > TokenCap
    ensures len * TokenCap / tokenCount <= len
    ensures len > 0 ==> len * TokenCap / tokenCount < len
  {
    var n := len * TokenCap / tokenCount;
    assert n * tokenCount <= len * TokenCap;
    if len > 0 {
      assert len * TokenCap < len * tokenCount;
      assert n * tokenCount < len * tokenCount;
    }
  }

  /**
   * `int(len * (4000 / token_count))`, taken as the floor of the exact
   * quotient: the largest length whose share of the tokens stays within the cap.
   */
  function CapLength(len: nat, tokenCount: nat): (n: nat)
    requires tokenCount > TokenCap
    ensures n * tokenCount <= len * TokenCap < (n + 1) * tokenCount
    ensures n <= len && (len > 0 ==> n < len)
  {
    CapShorter(len, tokenCount);
    len * TokenCap / tokenCount
  }

  /** The hard cap: above 4000 tokens the text is cut to its first `CapLength` characters. */
  function HardCap(s: string, tokenCount: nat): (r: string)
    ensures |r| <= |s| && r == s[..|r|]
    ensures tokenCount <= TokenCap ==> r == s
    ensures tokenCount > TokenCap ==> |r| == CapLength(|s|, tokenCount)
  {
    if tokenCount > TokenCap then s[..CapLength(|s|, tokenCount)] else s
  }

  /** The source after the replacement rules and the structural cleanup, before the cap. */
  function Cleaned(s: string, rx: Regexes): string
  {
    var trimmed := RStrip(ReplaceAll(s, "\r", ""));
    Cleanup(ApplyRules(Replacements, rx.headers(trimmed), rx))
  }

  /** The text `preprocess` writes back: the cleaned source under the cap. */
  function PreprocessedText(s: string, tokens: string -> nat, rx: Regexes): string
  {
    HardCap(Cleaned(s, rx), tokens(Cleaned(s, rx)))
  }

  /** The loop over the replacement list. */
  method RunReplacements(start: string, rx: Regexes) returns (source: string)
    ensures source == ApplyRules(Replacements, start, rx)
  {
    source := start;
    var i := 0;
    while i < |Replacements|
      invariant 0 <= i <= |Replacements|
      invariant ApplyRules(Replacements[i..], source, rx) == ApplyRules(Replacements, start, rx)
    {
      assert Replacements[i..][1..] == Replacements[i + 1..];
      source := ApplyRule(Replacements[i], source, rx);
      i := i + 1;
    }
  }

  /**
   * `preprocess(contract)`: the source code goes through the cleanup
   * steps and is written back under the same key; nothing else changes.
   * None is the exception raised when the key is missing or not a text,
   * and the division by zero in the token log line when the original
   * source counts no tokens.
   */
  method Preprocess(contract: Record, tokens: string -> nat, rx: Regexes) returns (result: Option<Record>)
    ensures result.Some? <==>
      SourceCodeKey in contract && contract[SourceCodeKey].Str? && tokens(contract[SourceCodeKey].s) > 0
    ensures result.Some? ==> result.value == contract[SourceCodeKey := Str(PreprocessedText(contract[SourceCodeKey].s, tokens, rx))]
  {
    if SourceCodeKey !in contract || !contract[SourceCodeKey].Str? {
      return None;
    }
    var source := contract[SourceCodeKey].s;
    var prevTokenCount := tokens(source);
    source := RStrip(ReplaceAll(source, "\r", ""));
    source := rx.headers(source);
    source := RunReplacements(source, rx);
    source := Cleanup(source);
    var tokenCount := tokens(source);
    if prevTokenCount == 0 {
      return None;
    }
    if tokenCount > TokenCap {
      source := source[..CapLength(|source|, tokenCount)];
    }
    result := Some(contract[SourceCodeKey := Str(source)]);
  }

  /**
   * The cleaned text `preprocess` works on: no arithmetic call survives the
   * arithmetic rules, the trailing rules and the cleanup run on that text,
   * and the cleaned text holds no blank line.
   */
  lemma PreprocessedShape(s: string, rx: Regexes)
    ensures var trimmed := RStrip(ReplaceAll(s, "\r", ""));
      var mid := Arithmetic(ApplyRules(Leading, rx.headers(trimmed), rx));
      !Contains(mid, ".add(") && !Contains(mid, ".sub(") && !Contains(mid, ".mul(") && !Contains(mid, ".div(")
      && Cleaned(s, rx) == Cleanup(ApplyRules(Trailing, mid, rx))
    ensures var cleaned := Cleaned(s, rx);
      cleaned == "" || forall line | line in Split(cleaned, "\n") :: !Blank(line)
  {
    var trimmed := RStrip(ReplaceAll(s, "\r", ""));
    ReplacementsSplit(rx.headers(trimmed), rx);
    var mid := Arithmetic(ApplyRules(Leading, rx.headers(trimmed), rx));
    ArithmeticLeavesNone(ApplyRules(Leading, rx.headers(trimmed), rx));
    CleanupLines(ApplyRules(Trailing, mid, rx));
  }
}
