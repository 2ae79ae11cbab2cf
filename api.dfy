/**
 * The value logic of the search API: stripping Dgraph key prefixes, the
 * rule-based query enhancer and the no-client refinement, the risk split,
 * and the two search handlers that skip results they cannot format.
 */
module Api {
  import opened PyValues
  import opened Text
  import opened Deployment
  import opened DgraphClient

  // ---- parse_dgraph_entity ----

  /** `key.replace(f"{entity_type}.", "")`: every occurrence, scanning left to right once. */
  function CleanKey(key: string, entity: string): string
  {
    ReplaceAll(key, entity + ".", "")
  }

  /** The dictionary the loop builds: each cleaned key holds the value of the last item that cleans to it. */
  function Parsed(items: seq<(string, Value)>, entity: string): (r: Record)
    ensures r.Keys == set i | 0 <= i < |items| :: CleanKey(items[i].0, entity)
    decreases |items|
  {
    if |items| == 0 then map[]
    else
      var init := items[..|items| - 1];
      var last := items[|items| - 1];
      var r := Parsed(init, entity)[CleanKey(last.0, entity) := last.1];
      assert forall i | 0 <= i < |init| :: init[i] == items[i];
      r
  }

  /** `parse_dgraph_entity(data, entity_type)` on the items of `data`, in order. */
  method ParseDgraphEntity(data: seq<(string, Value)>, entity: string) returns (result: Record)
    ensures result == Parsed(data, entity)
  {
    if |data| == 0 {
      return map[];
    }
    result := map[];
    for i := 0 to |data|
      invariant result == Parsed(data[..i], entity)
    {
      assert data[..i + 1][..i] == data[..i];
      result := result[CleanKey(data[i].0, entity) := data[i].1];
    }
    assert data[..|data|] == data;
  }

  /** An item keeps its value unless a later item cleans to the same key. */
  lemma {:induction false} ParsedLastWins(items: seq<(string, Value)>, entity: string, i: nat)
    requires i < |items|
    requires forall j | i < j < |items| :: CleanKey(items[j].0, entity) != CleanKey(items[i].0, entity)
    ensures Parsed(items, entity)[CleanKey(items[i].0, entity)] == items[i].1
    decreases |items|
  {
    if i < |items| - 1 {
      var init := items[..|items| - 1];
      assert init[i] == items[i];
      ParsedLastWins(init, entity, i);
    }
  }

  /** A key of the form `Entity.name`, where `name` holds no further `Entity.`, comes out as `name`. */
  lemma PrefixStripped(entity: string, name: string)
    requires !Contains(name, entity + ".")
    ensures CleanKey(entity + "." + name, entity) == name
  {
    var pat := entity + ".";
    var key := pat + name;
    assert OccursAt(key, pat, 0) by {
      assert key[0..|pat|] == pat;
    }
    assert key[|pat|..] == name;
    ReplaceAbsent(name, pat, "");
  }

  /** Keys without the prefix pass through, and with distinct keys every value is kept. */
  lemma PlainKeysPassThrough(items: seq<(string, Value)>, entity: string)
    requires forall i | 0 <= i < |items| :: !Contains(items[i].0, entity + ".")
    requires forall i, j | 0 <= i < j < |items| :: items[i].0 != items[j].0
    ensures forall i | 0 <= i < |items| ::
      (items[i].0 in Parsed(items, entity) && Parsed(items, entity)[items[i].0] == items[i].1)
  {
    forall i | 0 <= i < |items| ensures CleanKey(items[i].0, entity) == items[i].0 {
      ReplaceAbsent(items[i].0, entity + ".", "");
    }
    forall i | 0 <= i < |items|
      ensures items[i].0 in Parsed(items, entity) && Parsed(items, entity)[items[i].0] == items[i].1
    {
      ParsedLastWins(items, entity, i);
    }
  }

  // ---- fallback_query_enhancement ----

  /** A refinement: the query as given, the refined query, and the reasoning. */
  datatype RefineResponse = RefineResponse(originalQuery: string, refinedQuery: string, reasoning: Option<string>)

  /** One rule of the enhancer: the trigger words and the phrase they add. */
  datatype Rule = Rule(words: seq<string>, phrase: string)

  const TokenRule := Rule(["token", "coin", "currency"], "ERC20 or ERC721 token standard implementation")
  const NftRule := Rule(["nft", "collectible", "art", "gaming"],
    "non-fungible token with metadata and ownership transfer capabilities")
  const DefiRule := Rule(["defi", "lending", "borrowing", "liquidity"],
    "decentralized finance protocol with automated market maker functionality")
  const GovernanceRule := Rule(["governance", "voting", "dao"],
    "decentralized governance system with proposal and voting mechanisms")
  const SecurityRule := Rule(["security", "audit", "safe"],
    "security-focused implementation with access controls and vulnerability mitigations")

  /** The rules in the order the enhancer tries them. */
  const Rules: seq<Rule> := [TokenRule, NftRule, DefiRule, GovernanceRule, SecurityRule]

  const GeneralSuffix := " smart contract functionality with standard implementation patterns"
  const RuleReasoning := "Enhanced with rule-based pattern matching for blockchain terminology"
  const GeneralReasoning := "Added general smart contract context"
  const NoClientReasoning := "LLM service not available - using original query"
  const LlmReasoning := "Query enhanced with semantic details"

  /** `any(word in query_lower for word in words)`: a substring test. */
  predicate Triggers(lower: string, rule: Rule)
  {
    exists k | 0 <= k < |rule.words| :: Contains(lower, rule.words[k])
  }

  /** The five checks of the enhancer, each appending its phrase. */
  function Enhancements(lower: string): seq<string>
  {
    (if Triggers(lower, TokenRule) then [TokenRule.phrase] else [])
    + ((if Triggers(lower, NftRule) then [NftRule.phrase] else [])
    + ((if Triggers(lower, DefiRule) then [DefiRule.phrase] else [])
    + ((if Triggers(lower, GovernanceRule) then [GovernanceRule.phrase] else [])
    + (if Triggers(lower, SecurityRule) then [SecurityRule.phrase] else []))))
  }

  /** Every position moved up by one. */
  function Shifted(idx: seq<nat>): (s: seq<nat>)
    ensures |s| == |idx| && forall k | 0 <= k < |idx| :: s[k] == idx[k] + 1
    ensures forall i: nat :: i in s <==> i > 0 && i - 1 in idx
  {
    var s := seq(|idx|, k requires 0 <= k < |idx| => idx[k] + 1);
    assert forall i: nat | i > 0 && i - 1 in idx :: i in s by {
      forall i: nat | i > 0 && i - 1 in idx ensures i in s {
        var k :| 0 <= k < |idx| && idx[k] == i - 1;
        assert s[k] == i;
      }
    }
    s
  }

  /** The positions of the rules a query triggers, in rule order. */
  function Triggered(lower: string, rules: seq<Rule>): (idx: seq<nat>)
    ensures forall a, b | 0 <= a < b < |idx| :: idx[a] < idx[b]
    ensures forall k | 0 <= k < |idx| :: idx[k] < |rules|
    ensures forall i | 0 <= i < |rules| :: i in idx <==> Triggers(lower, rules[i])
    decreases |rules|
  {
    if |rules| == 0 then []
    else
      var rest := Triggered(lower, rules[1..]);
      TriggeredCons(lower, rules, rest);
      (if Triggers(lower, rules[0]) then [0] else []) + Shifted(rest)
  }

  /** The first rule's position, when it triggers, followed by the later rules' positions moved up by one. */
  lemma TriggeredCons(lower: string, rules: seq<Rule>, rest: seq<nat>)
    requires |rules| > 0
    requires forall a, b | 0 <= a < b < |rest| :: rest[a] < rest[b]
    requires forall k | 0 <= k < |rest| :: rest[k] < |rules| - 1
    requires forall i | 0 <= i < |rules| - 1 :: i in rest <==> Triggers(lower, rules[1..][i])
    ensures var idx := (if Triggers(lower, rules[0]) then [0] else []) + Shifted(rest);
      (forall a, b | 0 <= a < b < |idx| :: idx[a] < idx[b])
      && (forall k | 0 <= k < |idx| :: idx[k] < |rules|)
      && (forall i | 0 <= i < |rules| :: i in idx <==> Triggers(lower, rules[i]))
  {
    var head: seq<nat> := if Triggers(lower, rules[0]) then [0] else [];
    var shifted := Shifted(rest);
    var idx := head + shifted;
    forall i | 0 <= i < |rules| ensures i in idx <==> Triggers(lower, rules[i]) {
      if i == 0 {
        assert 0 !in shifted;
      } else {
        assert rules[1..][i - 1] == rules[i];
        assert i in idx <==> i in shifted;
      }
    }
  }

  /** The phrases of the rules at the given positions. */
  function Phrases(rules: seq<Rule>, idx: seq<nat>): seq<string>
    requires forall k | 0 <= k < |idx| :: idx[k] < |rules|
  {
    seq(|idx|, k requires 0 <= k < |idx| => rules[idx[k]].phrase)
  }

  /** The phrases of the rules a query triggers, rule by rule. */
  function Matching(lower: string, rules: seq<Rule>): seq<string>
    decreases |rules|
  {
    if |rules| == 0 then []
    else (if Triggers(lower, rules[0]) then [rules[0].phrase] else []) + Matching(lower, rules[1..])
  }

  /** Shifting every position by one reads the same phrases from the table without its first rule. */
  lemma PhrasesShift(rules: seq<Rule>, rest: seq<nat>)
    requires |rules| > 0
    requires forall k | 0 <= k < |rest| :: rest[k] < |rules| - 1
    ensures Phrases(rules, Shifted(rest)) == Phrases(rules[1..], rest)
  {
    var shifted := Shifted(rest);
    forall k | 0 <= k < |rest| ensures rules[shifted[k]].phrase == rules[1..][rest[k]].phrase {
    }
  }

  /** Reading the table rule by rule yields the phrases of exactly the triggered positions. */
  lemma {:induction false} MatchingPhrases(lower: string, rules: seq<Rule>)
    ensures Matching(lower, rules) == Phrases(rules, Triggered(lower, rules))
    decreases |rules|
  {
    if |rules| > 0 {
      var rest := Triggered(lower, rules[1..]);
      MatchingPhrases(lower, rules[1..]);
      var head: seq<nat> := if Triggers(lower, rules[0]) then [0] else [];
      var shifted := Shifted(rest);
      PhrasesShift(rules, rest);
      assert Triggered(lower, rules) == head + shifted;
      PhrasesConcat(rules, head, shifted);
      assert Phrases(rules, head) == if Triggers(lower, rules[0]) then [rules[0].phrase] else [];
    }
  }

  lemma PhrasesConcat(rules: seq<Rule>, a: seq<nat>, b: seq<nat>)
    requires forall k | 0 <= k < |a| :: a[k] < |rules|
    requires forall k | 0 <= k < |b| :: b[k] < |rules|
    ensures Phrases(rules, a + b) == Phrases(rules, a) + Phrases(rules, b)
  {
    assert forall k | 0 <= k < |a + b| :: (a + b)[k] < |rules|;
  }

  /** The five checks are the table `Rules` read in order. */
  lemma EnhancementsAreMatching(lower: string)
    ensures Enhancements(lower) == Matching(lower, Rules)
  {
    assert Rules[0] == TokenRule && Rules[1] == NftRule && Rules[2] == DefiRule;
    assert Rules[3] == GovernanceRule && Rules[4] == SecurityRule;
    var m5 := Matching(lower, Rules[5..]);
    var m4 := Matching(lower, Rules[4..]);
    var m3 := Matching(lower, Rules[3..]);
    var m2 := Matching(lower, Rules[2..]);
    var m1 := Matching(lower, Rules[1..]);
    assert m5 == [];
    assert Rules[4..][1..] == Rules[5..];
    assert m4 == (if Triggers(lower, SecurityRule) then [SecurityRule.phrase] else []);
    assert Rules[3..][1..] == Rules[4..];
    assert m3 == (if Triggers(lower, GovernanceRule) then [GovernanceRule.phrase] else []) + m4;
    assert Rules[2..][1..] == Rules[3..];
    assert m2 == (if Triggers(lower, DefiRule) then [DefiRule.phrase] else []) + m3;
    assert Rules[1..][1..] == Rules[2..];
    assert m1 == (if Triggers(lower, NftRule) then [NftRule.phrase] else []) + m2;
  }

  /**
   * The enhancements are the phrases of exactly the triggered rules, in
   * rule order, each once.
   */
  lemma EnhancementsFollowRules(lower: string)
    ensures Enhancements(lower) == Phrases(Rules, Triggered(lower, Rules))
  {
    EnhancementsAreMatching(lower);
    MatchingPhrases(lower, Rules);
  }

  /** The phrases differ from one another, so no enhancement appears twice. */
  lemma EnhancementsDistinct(lower: string)
    ensures forall a, b | 0 <= a < b < |Enhancements(lower)| :: Enhancements(lower)[a] != Enhancements(lower)[b]
  {
    EnhancementsFollowRules(lower);
    var idx := Triggered(lower, Rules);
    PhrasesDistinct();
    var e := Phrases(Rules, idx);
    forall a, b | 0 <= a < b < |e| ensures e[a] != e[b] {
      assert idx[a] < idx[b];
    }
  }

  /** The five phrases have five different lengths. */
  lemma PhrasesDistinct()
    ensures forall i, j | 0 <= i < j < |Rules| :: Rules[i].phrase != Rules[j].phrase
  {
    assert |Rules[0].phrase| == 45 && |Rules[1].phrase| == 68 && |Rules[2].phrase| == 72;
    assert |Rules[3].phrase| == 67 && |Rules[4].phrase| == 82;
  }

  /** What follows the query: the joined enhancements, or the general suffix when none fired. */
  function Tail(lower: string): string
  {
    var e := Enhancements(lower);
    if |e| > 0 then " - " + Join(", ", e) else GeneralSuffix
  }

  lemma AppendedParts(q: string, tail: string)
    ensures StartsWith(q + tail, q) && (q + tail)[|q|..] == tail
  {
    assert (q + tail)[..|q|] == q;
  }

  /**
   * `fallback_query_enhancement(original_query)`. The refined query is the
   * query followed by a text that depends only on the query lower-cased,
   * so the rules match case-insensitively and the query is never altered.
   */
  function FallbackQueryEnhancement(q: string): (resp: RefineResponse)
    ensures resp.originalQuery == q
    ensures StartsWith(resp.refinedQuery, q) && resp.refinedQuery[|q|..] == Tail(Lower(q))
    ensures |Enhancements(Lower(q))| == 0 ==> resp.refinedQuery == q + GeneralSuffix
    ensures resp.reasoning == Some(if |Enhancements(Lower(q))| > 0 then RuleReasoning else GeneralReasoning)
  {
    var lower := Lower(q);
    var tail := Tail(lower);
    AppendedParts(q, tail);
    RefineResponse(q, q + tail, Some(if |Enhancements(lower)| > 0 then RuleReasoning else GeneralReasoning))
  }

  // ---- refine_query_with_llm ----

  /**
   * `refine_query_with_llm(original_query)`. `client` says whether an
   * OpenAI client exists; `answer` is the parsed JSON reply, None where the
   * call or the parse raises. A reply the response model rejects raises
   * too, and every raise falls back to the rule-based enhancer.
   */
  function RefineWithLlm(q: string, client: bool, answer: Option<Value>): (resp: RefineResponse)
    ensures resp.originalQuery == q
    ensures !client ==> resp == RefineResponse(q, q, Some(NoClientReasoning))
    ensures client && answer.None? ==> resp == FallbackQueryEnhancement(q)
    ensures (client && answer.Some? && answer.value.Dict? && !HasKey(answer.value.members, "refined_query")
      && !HasKey(answer.value.members, "reasoning")) ==> resp == RefineResponse(q, q, Some(LlmReasoning))
  {
    if !client then RefineResponse(q, q, Some(NoClientReasoning))
    else match answer
      case None => FallbackQueryEnhancement(q)
      case Some(Dict(ms)) =>
        var refined := LookupOr(ms, "refined_query", Str(q));
        var reasoning := LookupOr(ms, "reasoning", Str(LlmReasoning));
        if refined.Str? && reasoning.Str? then RefineResponse(q, refined.s, Some(reasoning.s))
        else if refined.Str? && reasoning.Null? then RefineResponse(q, refined.s, None)
        else FallbackQueryEnhancement(q)
      case Some(_) => FallbackQueryEnhancement(q)
  }

  // ---- search results ----

  /**
   * `value.split(", ") if value else []` for the risk description: None
   * where a truthy value is not a string and `.split` raises.
   */
  function RiskSplit(v: Value): (r: Option<seq<string>>)
    ensures !Truthy(v) ==> r == Some([])
    ensures v.Str? && v.s != "" ==> r.Some? && Join(", ", r.value) == v.s
    ensures Truthy(v) && !v.Str? ==> r.None?
  {
    if !Truthy(v) then Some([])
    else if v.Str? then
      JoinSplit(v.s, ", ");
      Some(Split(v.s, ", "))
    else None
  }

  /** The fields of a `ContractResult` this model checks; `symbol`, `license` and the rest keep their defaults. */
  datatype ContractResult = ContractResult(
    id: string, name: string, description: string, created: string, verified: bool, tags: seq<string>,
    storageProtocol: Option<string>, storageAddress: Option<string>, experimental: Option<bool>,
    solcVersion: Option<string>, verifiedSource: Option<bool>, verifiedSourceCode: Option<string>,
    functionality: Option<string>, domain: Option<string>, securityRisks: Option<seq<string>>)

  /** The values handed to the model's constructor, before validation. */
  datatype Fields = Fields(
    id: Value, name: Value, description: Value, created: Value, verified: Value, tag: Value,
    storageProtocol: Value, storageAddress: Value, experimental: Value,
    solcVersion: Value, verifiedSource: Value, verifiedSourceCode: Value,
    functionality: Value, domain: Value, securityRisks: Option<Value>)

  function OptStr(v: Value): Option<Option<string>>
  {
    match v
    case Null => Some(None)
    case Str(s) => Some(Some(s))
    case _ => None
  }

  function OptBool(v: Value): Option<Option<bool>>
  {
    match v
    case Null => Some(None)
    case Bool(b) => Some(Some(b))
    case _ => None
  }

  function OptStrList(v: Value): Option<Option<seq<string>>>
  {
    match v
    case Null => Some(None)
    case List(items) =>
      if forall k | 0 <= k < |items| :: items[k].Str? then
        Some(Some(seq(|items|, k requires 0 <= k < |items| && items[k].Str? => items[k].s)))
      else None
    case _ => None
  }

  /** An optional text field as the value it was read from: None came from None. */
  function OptText(o: Option<string>): (v: Value)
    ensures OptStr(v) == Some(o)
  {
    if o.Some? then Str(o.value) else Null
  }

  /** An optional flag as the value it was read from. */
  function OptFlag(o: Option<bool>): (v: Value)
    ensures OptBool(v) == Some(o)
  {
    if o.Some? then Bool(o.value) else Null
  }

  /** An optional list of texts as the value it was read from. */
  function OptTexts(o: Option<seq<string>>): (v: Value)
    ensures OptStrList(v) == Some(o)
  {
    if o.Some? then
      var items := seq(|o.value|, k requires 0 <= k < |o.value| => Str(o.value[k]));
      assert seq(|items|, k requires 0 <= k < |items| && items[k].Str? => items[k].s) == o.value;
      List(items)
    else Null
  }

  /**
   * Building the response model: None where a value has the wrong type
   * and validation raises. A missing risk list means `.split` already
   * raised. Every field of the result is the value it was built from.
   */
  function Validate(f: Fields): (r: Option<ContractResult>)
    ensures r.Some? ==> (f.id.Str? && f.name.Str? && f.description.Str? && f.created.Str?
      && f.verified.Bool? && f.tag.Str? && f.securityRisks.Some?)
    ensures r.Some? ==> (r.value.id == f.id.s && r.value.name == f.name.s && r.value.description == f.description.s
      && r.value.created == f.created.s && r.value.verified == f.verified.b && r.value.tags == [f.tag.s])
    ensures r.Some? ==> (f.storageProtocol == OptText(r.value.storageProtocol)
      && f.storageAddress == OptText(r.value.storageAddress) && f.experimental == OptFlag(r.value.experimental)
      && f.solcVersion == OptText(r.value.solcVersion) && f.verifiedSource == OptFlag(r.value.verifiedSource)
      && f.verifiedSourceCode == OptText(r.value.verifiedSourceCode))
    ensures r.Some? ==> (f.functionality == OptText(r.value.functionality) && f.domain == OptText(r.value.domain)
      && OptStrList(f.securityRisks.value) == Some(r.value.securityRisks))
    ensures r.Some? <==>
      (f.id.Str? && f.name.Str? && f.description.Str? && f.created.Str? && f.verified.Bool?
       && f.tag.Str? && OptStr(f.storageProtocol).Some? && OptStr(f.storageAddress).Some?
       && OptBool(f.experimental).Some? && OptStr(f.solcVersion).Some? && OptBool(f.verifiedSource).Some?
       && OptStr(f.verifiedSourceCode).Some? && OptStr(f.functionality).Some? && OptStr(f.domain).Some?
       && f.securityRisks.Some? && OptStrList(f.securityRisks.value).Some?)
  {
    if f.id.Str? && f.name.Str? && f.description.Str? && f.created.Str? && f.verified.Bool? && f.tag.Str?
      && OptStr(f.storageProtocol).Some? && OptStr(f.storageAddress).Some? && OptBool(f.experimental).Some?
      && OptStr(f.solcVersion).Some? && OptBool(f.verifiedSource).Some? && OptStr(f.verifiedSourceCode).Some?
      && OptStr(f.functionality).Some? && OptStr(f.domain).Some?
      && f.securityRisks.Some? && OptStrList(f.securityRisks.value).Some?
    then
      Some(ContractResult(f.id.s, f.name.s, f.description.s, f.created.s, f.verified.b, [f.tag.s],
        OptStr(f.storageProtocol).value, OptStr(f.storageAddress).value, OptBool(f.experimental).value,
        OptStr(f.solcVersion).value, OptBool(f.verifiedSource).value, OptStr(f.verifiedSourceCode).value,
        OptStr(f.functionality).value, OptStr(f.domain).value, OptStrList(f.securityRisks.value).value))
    else None
  }

  const CreatedKey := "ContractDeployment.created"
  const FunctionalityKey := "ContractDeployment.functionality"
  const DomainKey := "ContractDeployment.domain"
  const RisksKey := "ContractDeployment.security_risks"
  const ClassificationKey := "ContractDeployment.functionality_classification"

  /** The formatting of one `vector_search` result, None where it raises. */
  function FormatVectorResult(r: Record): (c: Option<ContractResult>)
    ensures c.Some? ==> GetOr(r, UidKey, Str("")) == Str(c.value.id)
    ensures c.Some? ==> GetOr(r, NameKey, Str("")) == Str(c.value.name)
    ensures c.Some? ==> GetOr(r, DescriptionKey, Str("")) == Str(c.value.description)
    ensures c.Some? ==> GetOr(r, CreatedKey, Str("")) == Str(c.value.created)
    ensures c.Some? ==> GetOr(r, VerifiedSourceKey, Bool(false)) == Bool(c.value.verified)
    ensures c.Some? ==> |c.value.tags| == 1 && GetOr(r, ApplicationDomainKey, Str("")) == Str(c.value.tags[0])
    ensures c.Some? ==> Get(r, ClassificationKey) == OptText(c.value.functionality)
    ensures c.Some? ==> Get(r, ApplicationDomainKey) == OptText(c.value.domain)
    ensures c.Some? ==> (Get(r, StorageProtocolKey) == OptText(c.value.storageProtocol)
      && Get(r, StorageAddressKey) == OptText(c.value.storageAddress)
      && Get(r, ExperimentalKey) == OptFlag(c.value.experimental)
      && Get(r, SolcVersionKey) == OptText(c.value.solcVersion)
      && Get(r, VerifiedSourceKey) == OptFlag(c.value.verifiedSource)
      && Get(r, SourceCodeKey) == OptText(c.value.verifiedSourceCode))
    ensures c.Some? ==> (RiskSplit(Get(r, SecurityRisksKey)).Some?
      && c.value.securityRisks == Some(RiskSplit(Get(r, SecurityRisksKey)).value))
  {
    var risks := RiskSplit(Get(r, SecurityRisksKey));
    var f := Fields(GetOr(r, UidKey, Str("")), GetOr(r, NameKey, Str("")), GetOr(r, DescriptionKey, Str("")),
      GetOr(r, CreatedKey, Str("")), GetOr(r, VerifiedSourceKey, Bool(false)), GetOr(r, ApplicationDomainKey, Str("")),
      Get(r, StorageProtocolKey), Get(r, StorageAddressKey), Get(r, ExperimentalKey),
      Get(r, SolcVersionKey), Get(r, VerifiedSourceKey), Get(r, SourceCodeKey),
      Get(r, ClassificationKey), Get(r, ApplicationDomainKey),
      if risks.Some? then Some(List(seq(|risks.value|, k requires 0 <= k < |risks.value| => Str(risks.value[k])))) else None);
    var c := Validate(f);
    if c.Some? then
      var items := f.securityRisks.value.items;
      assert forall k | 0 <= k < |items| :: items[k].Str? && items[k].s == risks.value[k];
      assert OptStrList(f.securityRisks.value).value.value == risks.value;
      c
    else c
  }

  /** The results a handler returns: the formatted ones, in order, the failing ones skipped. */
  function VectorKept(results: seq<Record>): (out: seq<ContractResult>)
    ensures |out| <= |results|
    decreases |results|
  {
    if |results| == 0 then []
    else
      var init := results[..|results| - 1];
      var rest := VectorKept(init);
      match FormatVectorResult(results[|results| - 1])
      case Some(c) => rest + [c]
      case None => rest
  }

  /** Every result that formats is kept. */
  lemma {:induction false} VectorKeptComplete(results: seq<Record>, i: nat)
    requires i < |results| && FormatVectorResult(results[i]).Some?
    ensures FormatVectorResult(results[i]).value in VectorKept(results)
    decreases |results|
  {
    if i < |results| - 1 {
      var init := results[..|results| - 1];
      assert init[i] == results[i];
      VectorKeptComplete(init, i);
    }
  }

  /** Every kept contract is the formatting of some result. */
  lemma {:induction false} VectorKeptSound(results: seq<Record>, c: ContractResult)
    requires c in VectorKept(results)
    ensures exists i | 0 <= i < |results| :: FormatVectorResult(results[i]) == Some(c)
    decreases |results|
  {
    var init := results[..|results| - 1];
    if c in VectorKept(init) {
      VectorKeptSound(init, c);
      var i :| 0 <= i < |init| && FormatVectorResult(init[i]) == Some(c);
      assert init[i] == results[i];
    } else {
      assert FormatVectorResult(results[|results| - 1]) == Some(c);
    }
  }

  /** Keeping one more result appends its formatting when there is one. */
  lemma VectorKeptStep(results: seq<Record>, i: nat)
    requires i < |results|
    ensures var c := FormatVectorResult(results[i]);
      VectorKept(results[..i + 1]) == VectorKept(results[..i]) + (if c.Some? then [c.value] else [])
  {
    assert results[..i + 1][..i] == results[..i];
    assert results[..i + 1][i] == results[i];
  }

  /** The loop of `vector_search_contracts` over the search results: a result that raises is skipped. */
  method VectorSearchContracts(results: seq<Record>) returns (formatted: seq<ContractResult>)
    ensures formatted == VectorKept(results)
  {
    formatted := [];
    for i := 0 to |results|
      invariant formatted == VectorKept(results[..i])
    {
      var c := FormatVectorResult(results[i]);
      VectorKeptStep(results, i);
      if c.Some? {
        formatted := formatted + [c.value];
      }
    }
    assert results[..|results|] == results;
  }

  /** `result["metadata"]["dgraph_id"]`, None where either subscript raises. */
  function DgraphId(result: Record): (id: Option<Value>)
    ensures id.Some? <==> ("metadata" in result && result["metadata"].Dict?
      && HasKey(result["metadata"].members, "dgraph_id"))
  {
    if "metadata" in result && result["metadata"].Dict? && HasKey(result["metadata"].members, "dgraph_id")
    then Some(Lookup(result["metadata"].members, "dgraph_id"))
    else None
  }

  /** The formatting of one retriever result with the stored contract, None where it is skipped. */
  function FormatSearchResult(store: ContractStore, result: Record): (c: Option<ContractResult>)
    reads store
    requires store.Valid()
    ensures c.Some? ==> (DgraphId(result).Some?
      && store.GetContractByUid(PyStr(DgraphId(result).value)).Some?
      && |store.GetContractByUid(PyStr(DgraphId(result).value)).value| > 0)
    ensures c.Some? ==> GetOr(result, "content", Str("")) == Str(c.value.description)
  {
    match DgraphId(result)
    case None => None
    case Some(id) =>
      match store.GetContractByUid(PyStr(id))
      case None => None
      case Some(contracts) =>
        if |contracts| == 0 then None
        else
          var r := contracts[0];
          var f := Fields(GetOr(r, UidKey, Str("")), GetOr(r, NameKey, Str("")), GetOr(result, "content", Str("")),
            GetOr(r, CreatedKey, Str("")), GetOr(r, VerifiedSourceKey, Bool(false)), GetOr(r, DomainKey, Str("")),
            Get(r, StorageProtocolKey), Get(r, StorageAddressKey), Get(r, ExperimentalKey),
            Get(r, SolcVersionKey), Get(r, VerifiedSourceKey), Get(r, SourceCodeKey),
            Get(r, FunctionalityKey), Get(r, DomainKey), Some(GetOr(r, RisksKey, List([]))));
          Validate(f)
  }

  /** The fields of a formatted search result come from the first stored contract the hit's `dgraph_id` finds. */
  lemma SearchResultFields(store: ContractStore, result: Record)
    requires store.Valid() && FormatSearchResult(store, result).Some?
    ensures var c := FormatSearchResult(store, result).value;
      var r := store.GetContractByUid(PyStr(DgraphId(result).value)).value[0];
      GetOr(r, UidKey, Str("")) == Str(c.id) && GetOr(r, NameKey, Str("")) == Str(c.name)
      && GetOr(r, CreatedKey, Str("")) == Str(c.created)
      && GetOr(r, VerifiedSourceKey, Bool(false)) == Bool(c.verified)
      && |c.tags| == 1 && GetOr(r, DomainKey, Str("")) == Str(c.tags[0])
    ensures var c := FormatSearchResult(store, result).value;
      var r := store.GetContractByUid(PyStr(DgraphId(result).value)).value[0];
      Get(r, FunctionalityKey) == OptText(c.functionality) && Get(r, DomainKey) == OptText(c.domain)
      && GetOr(r, RisksKey, List([])) == OptTexts(c.securityRisks)
  {
  }

  function SearchKept(store: ContractStore, results: seq<Record>): (out: seq<ContractResult>)
    reads store
    requires store.Valid()
    ensures |out| <= |results|
    decreases |results|
  {
    if |results| == 0 then []
    else
      var init := results[..|results| - 1];
      var rest := SearchKept(store, init);
      match FormatSearchResult(store, results[|results| - 1])
      case Some(c) => rest + [c]
      case None => rest
  }

  /** Every result that formats is kept. */
  lemma {:induction false} SearchKeptComplete(store: ContractStore, results: seq<Record>, i: nat)
    requires store.Valid()
    requires i < |results| && FormatSearchResult(store, results[i]).Some?
    ensures FormatSearchResult(store, results[i]).value in SearchKept(store, results)
    decreases |results|
  {
    if i < |results| - 1 {
      var init := results[..|results| - 1];
      assert init[i] == results[i];
      SearchKeptComplete(store, init, i);
    }
  }

  /** Every kept contract is the formatting of some result. */
  lemma {:induction false} SearchKeptSound(store: ContractStore, results: seq<Record>, c: ContractResult)
    requires store.Valid()
    requires c in SearchKept(store, results)
    ensures exists i | 0 <= i < |results| :: FormatSearchResult(store, results[i]) == Some(c)
    decreases |results|
  {
    var init := results[..|results| - 1];
    if c in SearchKept(store, init) {
      SearchKeptSound(store, init, c);
      var i :| 0 <= i < |init| && FormatSearchResult(store, init[i]) == Some(c);
      assert init[i] == results[i];
    } else {
      assert FormatSearchResult(store, results[|results| - 1]) == Some(c);
    }
  }

  /** Keeping one more result appends its formatting when there is one. */
  lemma SearchKeptStep(store: ContractStore, results: seq<Record>, i: nat)
    requires store.Valid() && i < |results|
    ensures var c := FormatSearchResult(store, results[i]);
      SearchKept(store, results[..i + 1]) == SearchKept(store, results[..i]) + (if c.Some? then [c.value] else [])
  {
    assert results[..i + 1][..i] == results[..i];
    assert results[..i + 1][i] == results[i];
  }

  /**
   * `search_contracts(request)` after the retriever answered: with
   * `data` false nothing is looked up and the response is empty; otherwise
   * each result whose lookup is empty or whose formatting raises is skipped.
   */
  method SearchContracts(store: ContractStore, results: seq<Record>, data: bool) returns (formatted: seq<ContractResult>)
    requires store.Valid()
    ensures !data ==> formatted == []
    ensures data ==> formatted == SearchKept(store, results)
  {
    formatted := [];
    if data {
      for i := 0 to |results|
        invariant formatted == SearchKept(store, results[..i])
      {
        var c := FormatSearchResult(store, results[i]);
        SearchKeptStep(store, results, i);
        if c.Some? {
          formatted := formatted + [c.value];
        }
      }
      assert results[..|results|] == results;
    }
  }
}
