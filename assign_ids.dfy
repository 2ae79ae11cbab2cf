/**
 * The identifier backfill of `tasks/assign_contract_ids.py`: pages of
 * enriched contracts are read at growing offsets, every contract whose
 * `ContractDeployment.id` is missing or empty gets a set object carrying
 * its uid and its generated identifier, the objects are sent one by one in
 * sub-batches of at most ten, and the accepted ones are counted. Beside it,
 * the verification pass that counts contracts with and without an
 * identifier, and the script's `main`, which backfills only when that pass
 * finds contracts without one.
 */
module AssignContractIds {
  import opened PyValues
  import opened Deployment
  import opened ContractIds
  import opened DgraphClient

  /** `not contract_id or contract_id == ""`. */
  predicate NeedsId(r: Record)
  {
    !Truthy(Get(r, IdKey))
  }

  /** The contracts of a page that need an identifier, in page order. */
  function NeedingIds(rs: seq<Record>): (ns: seq<Record>)
    ensures |ns| <= |rs|
    ensures forall r | r in ns :: r in rs && NeedsId(r)
    ensures forall r | r in rs && NeedsId(r) :: r in ns
  {
    if |rs| == 0 then []
    else NeedingIds(rs[..|rs| - 1]) + (if NeedsId(rs[|rs| - 1]) then [rs[|rs| - 1]] else [])
  }

  lemma {:induction false} NeedingIdsConcat(a: seq<Record>, b: seq<Record>)
    ensures NeedingIds(a + b) == NeedingIds(a) + NeedingIds(b)
    decreases |b|
  {
    if |b| > 0 {
      var init := b[..|b| - 1];
      assert (a + b)[..|a + b| - 1] == a + init;
      NeedingIdsConcat(a, init);
    } else {
      assert a + b == a;
    }
  }

  /** Generating an identifier raises for none of these contracts. */
  predicate IdsGenerate(sha: Sha256, rs: seq<Record>)
  {
    forall r | r in rs :: GenerateContractId(sha, r).Some?
  }

  /** The set object prepared for one contract: its uid and its generated identifier. */
  function IdMutation(sha: Sha256, r: Record): (m: Record)
    requires GenerateContractId(sha, r).Some?
    ensures m.Keys == {UidKey, IdKey}
    ensures m[UidKey] == Get(r, UidKey) && m[IdKey] == Str(GenerateContractId(sha, r).value)
  {
    map[UidKey := Get(r, UidKey), IdKey := Str(GenerateContractId(sha, r).value)]
  }

  function IdMutations(sha: Sha256, rs: seq<Record>): (ms: seq<Record>)
    requires IdsGenerate(sha, rs)
    ensures |ms| == |rs| && forall i | 0 <= i < |rs| :: ms[i] == IdMutation(sha, rs[i])
  {
    seq(|rs|, i requires 0 <= i < |rs| => IdMutation(sha, rs[i]))
  }

  /** The set objects a page produces: one per contract needing an identifier, in page order. */
  function Plan(sha: Sha256, page: seq<Record>): seq<Record>
    requires IdsGenerate(sha, NeedingIds(page))
  {
    IdMutations(sha, NeedingIds(page))
  }

  lemma PlanConcat(sha: Sha256, a: seq<Record>, b: seq<Record>)
    requires IdsGenerate(sha, NeedingIds(a)) && IdsGenerate(sha, NeedingIds(b))
    ensures IdsGenerate(sha, NeedingIds(a + b))
    ensures Plan(sha, a + b) == Plan(sha, a) + Plan(sha, b)
  {
    NeedingIdsConcat(a, b);
    IdsGenerateJoin(sha, NeedingIds(a), NeedingIds(b));
    IdMutationsConcat(sha, NeedingIds(a), NeedingIds(b));
  }

  lemma IdsGenerateJoin(sha: Sha256, a: seq<Record>, b: seq<Record>)
    requires IdsGenerate(sha, a) && IdsGenerate(sha, b)
    ensures IdsGenerate(sha, a + b)
  {
    forall q | q in a + b ensures GenerateContractId(sha, q).Some? {
      assert q in a || q in b;
    }
  }

  /** The graph after a sequence of set objects, each sent in its own transaction. */
  ghost function ApplyAccepted(accepts: Mutation -> bool, g: Graph, ms: seq<Record>): (g': Graph)
    ensures g'.order == g.order && g'.data.Keys == g.data.Keys
    ensures g.Valid() ==> g'.Valid()
  {
    if |ms| == 0 then g
    else
      var before := ApplyAccepted(accepts, g, ms[..|ms| - 1]);
      if accepts(SetOne(ms[|ms| - 1])) then ApplySet(before, ms[|ms| - 1]) else before
  }

  /** How many of them were accepted. */
  function AcceptedCount(accepts: Mutation -> bool, ms: seq<Record>): (n: nat)
    ensures n <= |ms|
  {
    if |ms| == 0 then 0
    else AcceptedCount(accepts, ms[..|ms| - 1]) + (if accepts(SetOne(ms[|ms| - 1])) then 1 else 0)
  }

  lemma {:induction false} ApplyAcceptedConcat(accepts: Mutation -> bool, g: Graph, a: seq<Record>, b: seq<Record>)
    ensures ApplyAccepted(accepts, g, a + b) == ApplyAccepted(accepts, ApplyAccepted(accepts, g, a), b)
    ensures AcceptedCount(accepts, a + b) == AcceptedCount(accepts, a) + AcceptedCount(accepts, b)
    decreases |b|
  {
    if |b| == 0 {
      assert a + b == a;
    } else {
      var init := b[..|b| - 1];
      assert (a + b)[..|a + b| - 1] == a + init;
      ApplyAcceptedConcat(accepts, g, a, init);
    }
  }

  lemma ConcatAssoc<T>(a: seq<T>, b: seq<T>, c: seq<T>)
    ensures (a + b) + c == a + (b + c)
  {
  }

  /** A node that no set object names keeps its predicates. */
  lemma {:induction false} ApplyAcceptedUntouched(accepts: Mutation -> bool, g: Graph, ms: seq<Record>, u: string)
    requires u in g.data
    requires forall m | m in ms :: Get(m, UidKey) != Str(u)
    ensures ApplyAccepted(accepts, g, ms).data[u] == g.data[u]
  {
    if |ms| > 0 {
      ApplyAcceptedUntouched(accepts, g, ms[..|ms| - 1], u);
    }
  }

  lemma ApplyAcceptedSnoc(accepts: Mutation -> bool, g: Graph, ms: seq<Record>, m: Record)
    ensures ApplyAccepted(accepts, g, ms + [m]) ==
      if accepts(SetOne(m)) then ApplySet(ApplyAccepted(accepts, g, ms), m) else ApplyAccepted(accepts, g, ms)
  {
    assert (ms + [m])[..|ms|] == ms;
  }

  /** The record a page shows for a stored node. */
  function Shown(g: Graph, u: string): (r: Record)
    requires u in g.data
    ensures Get(r, UidKey) == Str(u)
    ensures forall k | k in QueriedKeys && k != UidKey :: Get(r, k) == Get(g.data[u], k)
  {
    ProjectKeepsQueried(g.Node(u), UidKey);
    assert forall k | k in QueriedKeys && k != UidKey :: Get(Project(g.Node(u)), k) == Get(g.Node(u), k);
    Project(g.Node(u))
  }

  /** The identifier a node would be given, read as a page returns it. */
  function NodeId(sha: Sha256, g: Graph, u: string): Option<string>
    requires u in g.data
  {
    GenerateContractId(sha, Shown(g, u))
  }

  /** The set objects one record contributes to a plan. */
  function Step(sha: Sha256, r: Record): (ms: seq<Record>)
    requires NeedsId(r) ==> GenerateContractId(sha, r).Some?
    ensures |ms| <= 1
  {
    if NeedsId(r) then [IdMutation(sha, r)] else []
  }

  /** Generating an identifier raises for none of the listed nodes that need one. */
  predicate Generates(sha: Sha256, g: Graph, us: seq<string>)
    requires forall x | x in us :: x in g.data
  {
    forall x | x in us :: NeedsId(Shown(g, x)) ==> NodeId(sha, g, x).Some?
  }

  /**
   * The set objects a run of pages over the uids `us` sends, stated per
   * node: in uid order, one for every node that needs an identifier.
   */
  function PlanOf(sha: Sha256, g: Graph, us: seq<string>): (ms: seq<Record>)
    requires forall x | x in us :: x in g.data
    requires Generates(sha, g, us)
    ensures |ms| <= |us|
    decreases |us|
  {
    if |us| == 0 then []
    else
      var init := us[..|us| - 1];
      assert forall x | x in init :: x in us;
      PlanOf(sha, g, init) + Step(sha, Shown(g, us[|us| - 1]))
  }

  lemma {:induction false} PlanOfConcat(sha: Sha256, g: Graph, a: seq<string>, b: seq<string>)
    requires forall x | x in a + b :: x in g.data
    requires Generates(sha, g, a + b)
    ensures Generates(sha, g, a) && Generates(sha, g, b)
    ensures PlanOf(sha, g, a + b) == PlanOf(sha, g, a) + PlanOf(sha, g, b)
    decreases |b|
  {
    assert forall x | x in a :: x in a + b;
    assert forall x | x in b :: x in a + b;
    if |b| == 0 {
      assert a + b == a;
      assert PlanOf(sha, g, b) == [];
    } else {
      var init := b[..|b| - 1];
      var last := b[|b| - 1];
      assert (a + b)[..|a + b| - 1] == a + init;
      assert (a + b)[|a + b| - 1] == last;
      assert forall x | x in a + init :: x in a + b;
      assert forall x | x in init :: x in b;
      assert PlanOf(sha, g, a + b) == PlanOf(sha, g, a + init) + Step(sha, Shown(g, last));
      assert PlanOf(sha, g, b) == PlanOf(sha, g, init) + Step(sha, Shown(g, last));
      PlanOfConcat(sha, g, a, init);
      var pa, pi, st := PlanOf(sha, g, a), PlanOf(sha, g, init), Step(sha, Shown(g, last));
      ConcatAssoc(pa, pi, st);
    }
  }

  /** Page records need an identifier, and generate one, exactly as the nodes they show. */
  lemma GeneratesPage(sha: Sha256, g: Graph, w: seq<string>)
    requires forall x | x in w :: x in g.data
    ensures IdsGenerate(sha, NeedingIds(Records(g, w))) <==> Generates(sha, g, w)
  {
    var rs := Records(g, w);
    if Generates(sha, g, w) {
      forall r | r in NeedingIds(rs) ensures GenerateContractId(sha, r).Some? {
        var k :| 0 <= k < |w| && rs[k] == r;
        assert r == Shown(g, w[k]);
      }
    }
    if IdsGenerate(sha, NeedingIds(rs)) {
      forall x | x in w && NeedsId(Shown(g, x)) ensures NodeId(sha, g, x).Some? {
        var k :| 0 <= k < |w| && w[k] == x;
        assert rs[k] == Shown(g, x);
        assert rs[k] in NeedingIds(rs);
      }
    }
  }

  lemma IdsGenerateSplit(sha: Sha256, a: seq<Record>, b: seq<Record>)
    requires IdsGenerate(sha, a + b)
    ensures IdsGenerate(sha, a) && IdsGenerate(sha, b)
  {
    assert forall q | q in a :: q in a + b;
    assert forall q | q in b :: q in a + b;
  }

  /** A page plan grows by one record's step. */
  lemma PlanSnocRecord(sha: Sha256, a: seq<Record>, r: Record)
    requires IdsGenerate(sha, NeedingIds(a + [r]))
    ensures IdsGenerate(sha, NeedingIds(a))
    ensures Plan(sha, a + [r]) == Plan(sha, a) + Step(sha, r)
  {
    var na := NeedingIds(a);
    var extra := if NeedsId(r) then [r] else [];
    NeedingIdsSnoc(a, r);
    IdsGenerateSplit(sha, na, extra);
    StepIsMutations(sha, r);
    IdMutationsConcat(sha, na, extra);
  }

  lemma NeedingIdsSnoc(a: seq<Record>, r: Record)
    ensures NeedingIds(a + [r]) == NeedingIds(a) + (if NeedsId(r) then [r] else [])
  {
    assert (a + [r])[..|a|] == a;
  }

  /** One record's step is the mutations of the record when it needs an identifier. */
  lemma StepIsMutations(sha: Sha256, r: Record)
    requires NeedsId(r) ==> GenerateContractId(sha, r).Some?
    ensures var extra := if NeedsId(r) then [r] else [];
      IdsGenerate(sha, extra) && IdMutations(sha, extra) == Step(sha, r)
  {
    var extra := if NeedsId(r) then [r] else [];
    if NeedsId(r) {
      var one := IdMutations(sha, extra);
      assert |one| == 1 && one[0] == IdMutation(sha, r);
    }
  }

  lemma IdMutationsConcat(sha: Sha256, a: seq<Record>, b: seq<Record>)
    requires IdsGenerate(sha, a) && IdsGenerate(sha, b) && IdsGenerate(sha, a + b)
    ensures IdMutations(sha, a + b) == IdMutations(sha, a) + IdMutations(sha, b)
  {
    var m := IdMutations(sha, a + b);
    var n := IdMutations(sha, a) + IdMutations(sha, b);
    forall i | 0 <= i < |a + b| ensures m[i] == n[i] {
      if i >= |a| {
        assert (a + b)[i] == b[i - |a|];
      }
    }
  }

  /** The plan of a page equals the per-node plan of the uids it was read from. */
  lemma {:induction false} PlanIsPlanOf(sha: Sha256, g: Graph, w: seq<string>)
    requires forall x | x in w :: x in g.data
    requires Generates(sha, g, w)
    ensures IdsGenerate(sha, NeedingIds(Records(g, w)))
    ensures Plan(sha, Records(g, w)) == PlanOf(sha, g, w)
    decreases |w|
  {
    GeneratesPage(sha, g, w);
    if |w| == 0 {
      assert Records(g, w) == [];
    } else {
      var init := w[..|w| - 1];
      var x := w[|w| - 1];
      assert forall y | y in init :: y in w;
      RecordsSnoc(g, w);
      PlanSnocRecord(sha, Records(g, init), Shown(g, x));
      PlanIsPlanOf(sha, g, init);
    }
  }

  lemma RecordsSnoc(g: Graph, w: seq<string>)
    requires |w| > 0 && forall x | x in w :: x in g.data
    ensures forall x | x in w[..|w| - 1] :: x in g.data
    ensures Records(g, w) == Records(g, w[..|w| - 1]) + [Shown(g, w[|w| - 1])]
  {
    assert forall x | x in w[..|w| - 1] :: x in w;
  }

  /** Setting an id-only object on a stored node writes the identifier and nothing else. */
  lemma SetIdOnNode(g: Graph, sha: Sha256, r: Record, x: string)
    requires x in g.data && GenerateContractId(sha, r).Some? && Get(r, UidKey) == Str(x)
    ensures ApplySet(g, IdMutation(sha, r)).data[x] == g.data[x][IdKey := Str(GenerateContractId(sha, r).value)]
  {
    var m := IdMutation(sha, r);
    assert SetKeys(m) == {IdKey};
  }

  /** The step of node `x`, on a graph where `x` is as it was, sets its identifier if accepted. */
  lemma StepOnNode(accepts: Mutation -> bool, sha: Sha256, g1: Graph, g: Graph, x: string)
    requires x in g.data && x in g1.data && g1.data[x] == g.data[x]
    requires NeedsId(Shown(g, x)) ==> NodeId(sha, g, x).Some?
    ensures var r := Shown(g, x);
      ApplyAccepted(accepts, g1, Step(sha, r)).data[x] ==
        if NeedsId(r) && accepts(SetOne(IdMutation(sha, r)))
        then g.data[x][IdKey := Str(NodeId(sha, g, x).value)]
        else g.data[x]
  {
    var r := Shown(g, x);
    if NeedsId(r) {
      ApplyAcceptedSnoc(accepts, g1, [], IdMutation(sha, r));
      assert [] + [IdMutation(sha, r)] == Step(sha, r);
      SetIdOnNode(g1, sha, r, x);
    }
  }

  /** The step of node `x` touches no other node. */
  lemma StepLeavesOthers(accepts: Mutation -> bool, sha: Sha256, g1: Graph, g: Graph, x: string, u: string)
    requires x in g.data && u in g1.data && u != x
    requires NeedsId(Shown(g, x)) ==> NodeId(sha, g, x).Some?
    ensures ApplyAccepted(accepts, g1, Step(sha, Shown(g, x))).data[u] == g1.data[u]
  {
    ApplyAcceptedUntouched(accepts, g1, Step(sha, Shown(g, x)), u);
  }

  /**
   * The effect of a backfill over the uids `us` on each node: a listed node
   * that needed an identifier and whose set object was accepted now carries
   * its generated identifier; every other node is exactly as it was.
   */
  lemma {:induction false} BackfillEffect(accepts: Mutation -> bool, sha: Sha256, g: Graph, us: seq<string>, u: string)
    requires Distinct(us) && forall x | x in us :: x in g.data
    requires Generates(sha, g, us)
    requires u in g.data
    ensures var r := Shown(g, u);
      ApplyAccepted(accepts, g, PlanOf(sha, g, us)).data[u] ==
        if u in us && NeedsId(r) && accepts(SetOne(IdMutation(sha, r)))
        then g.data[u][IdKey := Str(NodeId(sha, g, u).value)]
        else g.data[u]
    decreases |us|
  {
    if |us| > 0 {
      var init := us[..|us| - 1];
      var x := us[|us| - 1];
      assert us == init + [x];
      assert x !in init;
      assert Distinct(init);
      assert forall y | y in init :: y in us;
      var planInit := PlanOf(sha, g, init);
      ApplyAcceptedConcat(accepts, g, planInit, Step(sha, Shown(g, x)));
      var g1 := ApplyAccepted(accepts, g, planInit);
      if u == x {
        BackfillEffect(accepts, sha, g, init, x);
        StepOnNode(accepts, sha, g1, g, x);
      } else {
        BackfillEffect(accepts, sha, g, init, u);
        StepLeavesOthers(accepts, sha, g1, g, x, u);
      }
    }
  }

  /** Writing the identifier moves no node in or out of a selection. */
  lemma SetIdKeepsSelection(n: Record, v: Value, enriched: bool)
    ensures InSelection(n[IdKey := v], enriched) == InSelection(n, enriched)
  {
    assert Get(n[IdKey := v], VerifiedSourceKey) == Get(n, VerifiedSourceKey);
    assert Has(n[IdKey := v], DescriptionKey) == Has(n, DescriptionKey);
  }

  /** A backfill over `us` leaves the enriched selection as it was. */
  lemma SelectionKept(accepts: Mutation -> bool, sha: Sha256, g0: Graph, us: seq<string>)
    requires g0.Valid() && Distinct(us) && forall x | x in us :: x in g0.data
    requires Generates(sha, g0, us)
    ensures Select(g0.order, ApplyAccepted(accepts, g0, PlanOf(sha, g0, us)).data, true)
      == Select(g0.order, g0.data, true)
  {
    var g := ApplyAccepted(accepts, g0, PlanOf(sha, g0, us));
    forall u | u in g0.order ensures InSelection(g.data[u], true) == InSelection(g0.data[u], true) {
      BackfillEffect(accepts, sha, g0, us, u);
      if u in us && NeedsId(Shown(g0, u)) && accepts(SetOne(IdMutation(sha, Shown(g0, u)))) {
        SetIdKeepsSelection(g0.data[u], Str(NodeId(sha, g0, u).value), true);
      }
    }
    SelectStable(g0.order, g.data, g0.data, true);
  }

  /**
   * When every set object is accepted, no node of the run still needs an
   * identifier: a generated identifier is sixteen characters and so truthy.
   */
  lemma BackfillCompletes(accepts: Mutation -> bool, sha: Sha256, g: Graph, us: seq<string>)
    requires Distinct(us) && forall x | x in us :: x in g.data
    requires Generates(sha, g, us)
    requires forall m | m in PlanOf(sha, g, us) :: accepts(SetOne(m))
    ensures forall u | u in us :: !NeedsId(Shown(ApplyAccepted(accepts, g, PlanOf(sha, g, us)), u))
  {
    var g' := ApplyAccepted(accepts, g, PlanOf(sha, g, us));
    forall u | u in us ensures !NeedsId(Shown(g', u)) {
      BackfillCompletesOne(accepts, sha, g, us, u);
    }
  }

  lemma BackfillCompletesOne(accepts: Mutation -> bool, sha: Sha256, g: Graph, us: seq<string>, u: string)
    requires Distinct(us) && forall x | x in us :: x in g.data
    requires Generates(sha, g, us)
    requires forall m | m in PlanOf(sha, g, us) :: accepts(SetOne(m))
    requires u in us
    ensures !NeedsId(Shown(ApplyAccepted(accepts, g, PlanOf(sha, g, us)), u))
  {
    var g' := ApplyAccepted(accepts, g, PlanOf(sha, g, us));
    BackfillEffect(accepts, sha, g, us, u);
    if NeedsId(Shown(g, u)) {
      StepInPlan(sha, g, us, u);
      var id := NodeId(sha, g, u).value;
      assert g'.data[u] == g.data[u][IdKey := Str(id)];
      assert Get(Shown(g', u), IdKey) == Str(id);
    } else {
      assert Get(Shown(g', u), IdKey) == Get(Shown(g, u), IdKey);
    }
  }

  /** A listed node that needs an identifier has its set object in the plan. */
  lemma {:induction false} StepInPlan(sha: Sha256, g: Graph, us: seq<string>, u: string)
    requires forall x | x in us :: x in g.data
    requires Generates(sha, g, us)
    requires u in us && NeedsId(Shown(g, u))
    ensures IdMutation(sha, Shown(g, u)) in PlanOf(sha, g, us)
    decreases |us|
  {
    var init := us[..|us| - 1];
    assert us == init + [us[|us| - 1]];
    assert forall y | y in init :: y in us;
    if u != us[|us| - 1] {
      StepInPlan(sha, g, init, u);
    }
  }


  /**
   * `contracts_needing_ids` and `mutation_batches` for one page: the filter
   * loop, then the loop that generates each identifier. None is the
   * exception `generate_contract_id` lets escape.
   */
  method PrepareMutations(sha: Sha256, page: seq<Record>) returns (muts: Option<seq<Record>>)
    ensures muts.Some? <==> IdsGenerate(sha, NeedingIds(page))
    ensures muts.Some? ==> muts.value == Plan(sha, page)
  {
    var needing := FilterNeedingIds(page);
    muts := GenerateMutations(sha, needing);
  }

  /** The filter loop: the contracts whose identifier is None or empty, in page order. */
  method FilterNeedingIds(page: seq<Record>) returns (needing: seq<Record>)
    ensures needing == NeedingIds(page)
  {
    needing := [];
    var j := 0;
    while j < |page|
      invariant 0 <= j <= |page|
      invariant needing == NeedingIds(page[..j])
    {
      var contractId := Get(page[j], IdKey);
      if !Truthy(contractId) || contractId == Str("") {
        needing := needing + [page[j]];
      }
      assert page[..j + 1][..j] == page[..j];
      j := j + 1;
    }
    assert page[..|page|] == page;
  }

  /** The generation loop: one set object per contract, or None at the first identifier that raises. */
  method GenerateMutations(sha: Sha256, needing: seq<Record>) returns (muts: Option<seq<Record>>)
    ensures muts.Some? <==> IdsGenerate(sha, needing)
    ensures muts.Some? ==> muts.value == IdMutations(sha, needing)
  {
    var prepared: seq<Record> := [];
    var j := 0;
    while j < |needing|
      invariant 0 <= j <= |needing|
      invariant IdsGenerate(sha, needing[..j])
      invariant prepared == IdMutations(sha, needing[..j])
    {
      var contractId := GenerateContractId(sha, needing[j]);
      if contractId.None? {
        assert needing[j] in needing;
        return None;
      }
      prepared := prepared + [map[UidKey := Get(needing[j], UidKey), IdKey := Str(contractId.value)]];
      assert needing[..j + 1] == needing[..j] + [needing[j]];
      j := j + 1;
    }
    assert needing[..|needing|] == needing;
    return Some(prepared);
  }

  /**
   * The sub-batch loops: every prepared set object is sent once, in order,
   * in slices of `min(10, len)`; a refused one is skipped and only accepted
   * ones are counted.
   */
  method SubmitMutations(store: ContractStore, muts: seq<Record>) returns (updated: nat)
    requires store.Valid() && |muts| > 0
    modifies store
    ensures store.Valid()
    ensures store.graph == ApplyAccepted(store.accepts, old(store.graph), muts)
    ensures updated == AcceptedCount(store.accepts, muts)
  {
    ghost var g0 := store.graph;
    updated := 0;
    var subBatchSize := if |muts| < 10 then |muts| else 10;
    var i := 0;
    while i < |muts|
      invariant store.Valid()
      invariant 0 <= i <= |muts|
      invariant store.graph == ApplyAccepted(store.accepts, g0, muts[..i])
      invariant updated == AcceptedCount(store.accepts, muts[..i])
      decreases |muts| - i
    {
      var end := if i + subBatchSize < |muts| then i + subBatchSize else |muts|;
      var sent := SendSubBatch(store, muts[i..end]);
      assert muts[..end] == muts[..i] + muts[i..end];
      ApplyAcceptedConcat(store.accepts, g0, muts[..i], muts[i..end]);
      updated := updated + sent;
      i := end;
    }
    assert muts[..|muts|] == muts;
  }

  /** The inner loop over one sub-batch: each set object in its own `mutate`, failures skipped. */
  method SendSubBatch(store: ContractStore, subBatch: seq<Record>) returns (sent: nat)
    requires store.Valid()
    modifies store
    ensures store.Valid()
    ensures store.graph == ApplyAccepted(store.accepts, old(store.graph), subBatch)
    ensures sent == AcceptedCount(store.accepts, subBatch)
  {
    ghost var g0 := store.graph;
    sent := 0;
    var k := 0;
    while k < |subBatch|
      invariant store.Valid()
      invariant 0 <= k <= |subBatch|
      invariant store.graph == ApplyAccepted(store.accepts, g0, subBatch[..k])
      invariant sent == AcceptedCount(store.accepts, subBatch[..k])
    {
      var ok := store.Mutate(subBatch[k]);
      if ok {
        sent := sent + 1;
      }
      assert subBatch[..k + 1][..k] == subBatch[..k];
      k := k + 1;
    }
    assert subBatch[..|subBatch|] == subBatch;
  }

  /**
   * `assign_ids_to_contracts`: the backfill loop. `attempted` is every set
   * object sent, in order; `finished` says the loop reached the empty page
   * rather than an exception.
   */
  /** `attempted` is the plan for the first `n` selected contracts, which all exist and whose ids are generated. */
  ghost predicate PlanPrefix(sha: Sha256, g: Graph, sel: seq<string>, n: nat, attempted: seq<Record>)
    requires g.Valid()
  {
    (forall x | x in Done(sel, n) :: x in g.data) && Generates(sha, g, Done(sel, n)) && attempted == PlanOf(sha, g, Done(sel, n))
  }

  /** When the paging loop runs dry, it has read nothing (no page size) or the whole selection. */
  lemma ExhaustedDone(sel: seq<string>, offset: nat, batchSize: nat)
    requires batchSize == 0 ==> offset == 0
    requires batchSize == 0 || offset >= |sel|
    ensures batchSize == 0 ==> Done(sel, offset) == []
    ensures batchSize > 0 ==> Done(sel, offset) == sel
  {
    if batchSize == 0 && offset < |sel| {
      assert sel[..0] == [];
    }
  }

  method AssignIdsToContracts(store: ContractStore, sha: Sha256, batchSize: nat)
    returns (updated: nat, ghost attempted: seq<Record>, ghost finished: bool, ghost read: nat)
    requires store.Valid()
    modifies store
    ensures store.Valid()
    ensures store.graph == ApplyAccepted(store.accepts, old(store.graph), attempted)
    ensures updated == AcceptedCount(store.accepts, attempted)
    ensures finished && batchSize > 0 ==> Generates(sha, old(store.graph), old(store.Selection(Some(true))))
    ensures finished && batchSize > 0 ==> attempted == PlanOf(sha, old(store.graph), old(store.Selection(Some(true))))
    ensures finished && batchSize == 0 ==> attempted == []
    ensures PlanPrefix(sha, old(store.graph), old(store.Selection(Some(true))), read, attempted)
  {
    ghost var g0 := store.graph;
    ghost var sel0 := store.Selection(Some(true));
    SelectDistinct(g0.order, g0.data, true);
    DoneInSelection(g0, sel0, 0);
    assert Done(sel0, 0) == [];
    assert PlanOf(sha, g0, []) == [];
    updated, attempted, finished, read := 0, [], false, 0;
    var totalContracts := store.GetContractsCount(Some(true));
    if totalContracts.None? {
      return;
    }
    var offset: nat := 0;
    while true
      invariant store.Valid()
      invariant store.graph == ApplyAccepted(store.accepts, g0, attempted)
      invariant store.Selection(Some(true)) == sel0
      invariant batchSize == 0 ==> offset == 0
      invariant forall x | x in Done(sel0, offset) :: x in g0.data
      invariant Generates(sha, g0, Done(sel0, offset))
      invariant attempted == PlanOf(sha, g0, Done(sel0, offset))
      invariant updated == AcceptedCount(store.accepts, attempted)
      decreases |sel0| - offset
    {
      var next := offset + batchSize;
      var n, muts, outcome := BackfillPage(store, sha, batchSize, offset, next, g0, sel0, attempted);
      read := offset;
      if outcome == Raised {
        return;
      }
      if outcome == Exhausted {
        ExhaustedDone(sel0, offset, batchSize);
        finished := true;
        return;
      }
      updated := updated + n;
      attempted := attempted + muts;
      offset := next;
    }
  }

  /** How one pass of the paging loop ends. */
  datatype PageOutcome = Raised | Exhausted | Sent

  /**
   * One pass of the paging loop: read the page at `offset`, stop on a failed
   * query or an empty page, otherwise prepare and send its set objects. The
   * ghost parameters carry the loop's account of the run so far.
   */
  method BackfillPage(store: ContractStore, sha: Sha256, batchSize: nat, offset: nat, next: nat,
                      ghost g0: Graph, ghost sel0: seq<string>, ghost attempted: seq<Record>)
    returns (updated: nat, ghost muts: seq<Record>, outcome: PageOutcome)
    requires store.Valid() && g0.Valid() && sel0 == Select(g0.order, g0.data, true) && Distinct(sel0)
    requires next == offset + batchSize
    requires store.graph == ApplyAccepted(store.accepts, g0, attempted)
    requires store.Selection(Some(true)) == sel0
    requires forall x | x in Done(sel0, offset) :: x in g0.data
    requires Generates(sha, g0, Done(sel0, offset)) && attempted == PlanOf(sha, g0, Done(sel0, offset))
    modifies store
    ensures store.Valid()
    ensures store.graph == ApplyAccepted(store.accepts, g0, attempted + muts)
    ensures AcceptedCount(store.accepts, attempted + muts) == AcceptedCount(store.accepts, attempted) + updated
    ensures outcome != Sent ==> muts == [] && updated == 0 && store.graph == old(store.graph)
    ensures outcome == Exhausted ==> batchSize == 0 || offset >= |sel0|
    ensures outcome == Sent ==> offset < |sel0| && batchSize > 0 && store.Selection(Some(true)) == sel0
    ensures outcome == Sent ==> forall x | x in Done(sel0, next) :: x in g0.data
    ensures outcome == Sent ==> Generates(sha, g0, Done(sel0, next))
    ensures outcome == Sent ==> attempted + muts == PlanOf(sha, g0, Done(sel0, next))
  {
    var contracts := store.GetContracts(batchSize, offset, Some(true));
    if contracts.None? {
      assert attempted + [] == attempted;
      return 0, [], Raised;
    }
    if contracts.value == [] {
      assert attempted + [] == attempted;
      return 0, [], Exhausted;
    }
    var page := contracts.value;
    var ok;
    updated, muts, ok := ProcessPage(store, sha, page);
    if !ok {
      assert attempted + [] == attempted;
      return updated, muts, Raised;
    }
    assert store.graph == ApplyAccepted(store.accepts, g0, attempted + muts)
      && AcceptedCount(store.accepts, attempted + muts) == AcceptedCount(store.accepts, attempted) + updated by {
      ApplyAcceptedConcat(store.accepts, g0, attempted, muts);
    }
    NextPage(store.accepts, sha, g0, sel0, offset, batchSize, next, attempted, page, muts);
    outcome := Sent;
  }

  /** The body of the paging loop for one non-empty page: prepare its set objects, then send them. */
  method ProcessPage(store: ContractStore, sha: Sha256, page: seq<Record>)
    returns (updated: nat, ghost muts: seq<Record>, ok: bool)
    requires store.Valid()
    modifies store
    ensures store.Valid()
    ensures ok <==> IdsGenerate(sha, NeedingIds(page))
    ensures ok ==> muts == Plan(sha, page)
    ensures !ok ==> muts == [] && store.graph == old(store.graph)
    ensures store.graph == ApplyAccepted(store.accepts, old(store.graph), muts)
    ensures updated == AcceptedCount(store.accepts, muts)
  {
    var prepared := PrepareMutations(sha, page);
    if prepared.None? {
      return 0, [], false;
    }
    ok := true;
    muts := prepared.value;
    if |prepared.value| > 0 {
      updated := SubmitMutations(store, prepared.value);
    } else {
      updated := 0;
    }
  }

  /**
   * One loop iteration on a non-empty page: the page shows the nodes as they
   * were at the start, its set objects extend the plan to the next offset,
   * and the enriched selection stays the same.
   */
  lemma NextPage(accepts: Mutation -> bool, sha: Sha256, g0: Graph, sel0: seq<string>, offset: nat, batchSize: nat,
                 next: nat, attempted: seq<Record>, page: seq<Record>, muts: seq<Record>)
    requires g0.Valid() && sel0 == Select(g0.order, g0.data, true) && Distinct(sel0)
    requires offset < |sel0| && batchSize > 0 && next == offset + batchSize
    requires forall x | x in Done(sel0, offset) :: x in g0.data
    requires Generates(sha, g0, Done(sel0, offset)) && attempted == PlanOf(sha, g0, Done(sel0, offset))
    requires page == Records(ApplyAccepted(accepts, g0, attempted), Window(sel0, batchSize, offset))
    requires IdsGenerate(sha, NeedingIds(page)) && muts == Plan(sha, page)
    ensures forall x | x in Done(sel0, next) :: x in g0.data
    ensures Generates(sha, g0, Done(sel0, next))
    ensures attempted + muts == PlanOf(sha, g0, Done(sel0, next))
    ensures Select(g0.order, ApplyAccepted(accepts, g0, attempted + muts).data, true) == sel0
  {
    var w := Window(sel0, batchSize, offset);
    var upTo := Done(sel0, next);
    assert Generates(sha, g0, w) && muts == PlanOf(sha, g0, w) by {
      PagePlan(accepts, sha, g0, sel0, offset, batchSize, page, muts);
    }
    assert (forall x | x in upTo :: x in g0.data) && Distinct(upTo) by {
      DoneInSelection(g0, sel0, next);
    }
    assert Generates(sha, g0, upTo) && attempted + muts == PlanOf(sha, g0, upTo) by {
      AdvancePlan(sha, g0, sel0, offset, batchSize, next, attempted, muts);
    }
    SelectionKept(accepts, sha, g0, upTo);
  }

  /** The set objects of the page at `offset` are the per-node plan of its uids. */
  lemma PagePlan(accepts: Mutation -> bool, sha: Sha256, g0: Graph, sel0: seq<string>, offset: nat, batchSize: nat,
                 page: seq<Record>, muts: seq<Record>)
    requires Distinct(sel0) && forall x | x in sel0 :: x in g0.data
    requires offset < |sel0|
    requires forall x | x in Done(sel0, offset) :: x in g0.data
    requires Generates(sha, g0, Done(sel0, offset))
    requires page == Records(ApplyAccepted(accepts, g0, PlanOf(sha, g0, Done(sel0, offset))), Window(sel0, batchSize, offset))
    requires IdsGenerate(sha, NeedingIds(page)) && muts == Plan(sha, page)
    ensures Generates(sha, g0, Window(sel0, batchSize, offset))
    ensures muts == PlanOf(sha, g0, Window(sel0, batchSize, offset))
  {
    var w := Window(sel0, batchSize, offset);
    PageUntouched(accepts, sha, g0, sel0, offset, batchSize);
    GeneratesPage(sha, g0, w);
    PlanIsPlanOf(sha, g0, w);
  }

  /** The plan so far and the page's plan make the plan up to the next offset. */
  lemma AdvancePlan(sha: Sha256, g0: Graph, sel0: seq<string>, offset: nat, batchSize: nat, next: nat,
                    attempted: seq<Record>, muts: seq<Record>)
    requires forall x | x in sel0 :: x in g0.data
    requires offset < |sel0| && next == offset + batchSize
    requires forall x | x in Done(sel0, offset) :: x in g0.data
    requires Generates(sha, g0, Done(sel0, offset)) && attempted == PlanOf(sha, g0, Done(sel0, offset))
    requires Generates(sha, g0, Window(sel0, batchSize, offset))
    requires muts == PlanOf(sha, g0, Window(sel0, batchSize, offset))
    ensures forall x | x in Done(sel0, next) :: x in g0.data
    ensures Generates(sha, g0, Done(sel0, next))
    ensures attempted + muts == PlanOf(sha, g0, Done(sel0, next))
  {
    var w := Window(sel0, batchSize, offset);
    var done := Done(sel0, offset);
    DoneAdvance(sel0, offset, batchSize, next);
    DoneInSelection(g0, sel0, next);
    GeneratesJoin(sha, g0, done, w);
    PlanOfConcat(sha, g0, done, w);
  }

  lemma GeneratesJoin(sha: Sha256, g: Graph, a: seq<string>, b: seq<string>)
    requires forall x | x in a + b :: x in g.data
    requires forall x | x in a :: x in g.data
    requires forall x | x in b :: x in g.data
    requires Generates(sha, g, a) && Generates(sha, g, b)
    ensures Generates(sha, g, a + b)
  {
  }

  /** The nodes of the page at `offset` are still as they were at the start. */
  lemma PageUntouched(accepts: Mutation -> bool, sha: Sha256, g0: Graph, sel0: seq<string>, offset: nat, batchSize: nat)
    requires Distinct(sel0) && forall x | x in sel0 :: x in g0.data
    requires offset < |sel0|
    requires Generates(sha, g0, Done(sel0, offset))
    ensures Records(ApplyAccepted(accepts, g0, PlanOf(sha, g0, Done(sel0, offset))), Window(sel0, batchSize, offset))
      == Records(g0, Window(sel0, batchSize, offset))
  {
    var g := ApplyAccepted(accepts, g0, PlanOf(sha, g0, Done(sel0, offset)));
    var w := Window(sel0, batchSize, offset);
    forall k | 0 <= k < |w| ensures w[k] in g.data && w[k] in g0.data && g.Node(w[k]) == g0.Node(w[k]) {
      PendingUntouched(accepts, sha, g0, sel0, offset, batchSize, k);
    }
    RecordsAgree(g, g0, w);
  }

  /** The k-th node of the page at `offset` is not touched by the plan for the contracts before it. */
  lemma PendingUntouched(accepts: Mutation -> bool, sha: Sha256, g0: Graph, sel0: seq<string>, offset: nat, batchSize: nat, k: nat)
    requires Distinct(sel0) && forall x | x in sel0 :: x in g0.data
    requires offset < |sel0| && k < |Window(sel0, batchSize, offset)|
    requires Generates(sha, g0, Done(sel0, offset))
    ensures var x := Window(sel0, batchSize, offset)[k];
      var g := ApplyAccepted(accepts, g0, PlanOf(sha, g0, Done(sel0, offset)));
      x in g.data && x in g0.data && g.Node(x) == g0.Node(x)
  {
    var x := Window(sel0, batchSize, offset)[k];
    assert x == sel0[offset + k];
    var done := Done(sel0, offset);
    DoneInSelection(g0, sel0, offset);
    assert x !in done;
    BackfillEffect(accepts, sha, g0, done, x);
  }

  /** Two graphs that agree on the nodes of `us` return the same records for them. */
  lemma RecordsAgree(g: Graph, g': Graph, us: seq<string>)
    requires forall k | 0 <= k < |us| :: us[k] in g.data && us[k] in g'.data && g.Node(us[k]) == g'.Node(us[k])
    ensures (forall u | u in us :: u in g.data && u in g'.data) && Records(g, us) == Records(g', us)
  {
    assert forall u | u in us :: u in g.data && u in g'.data;
    assert forall k | 0 <= k < |us| :: Records(g, us)[k] == Records(g', us)[k];
  }

  /** The verification counts: with and without an identifier, and their sum. */
  datatype IdStats = IdStats(withIds: nat, withoutIds: nat, total: nat)

  /** The counting loop over one page of `verify_contract_ids`. */
  method CountPage(page: seq<Record>) returns (withIds: nat, withoutIds: nat)
    ensures withoutIds == |NeedingIds(page)|
    ensures withIds + withoutIds == |page|
  {
    withIds, withoutIds := 0, 0;
    var j := 0;
    while j < |page|
      invariant 0 <= j <= |page|
      invariant withoutIds == |NeedingIds(page[..j])| && withIds + withoutIds == j
    {
      var contractId := Get(page[j], IdKey);
      if Truthy(contractId) && contractId != Str("") {
        withIds := withIds + 1;
      } else {
        withoutIds := withoutIds + 1;
      }
      assert page[..j + 1][..j] == page[..j];
      j := j + 1;
    }
    assert page[..|page|] == page;
  }

  /**
   * `verify_contract_ids`: pages of ten enriched contracts until the first
   * empty page, each counted as having an identifier or not; any failure
   * gives all zeros.
   */
  method VerifyContractIds(store: ContractStore) returns (stats: IdStats)
    requires store.Valid()
    ensures stats.total == stats.withIds + stats.withoutIds
    ensures stats == IdStats(0, 0, 0) ||
      (stats.withoutIds == |NeedingIds(Records(store.graph, store.Selection(Some(true))))|
       && stats.total == |store.Selection(Some(true))|)
    ensures (forall off: nat :: store.serves(ContractsPage(10, off, Some(true)))) ==>
      stats.withoutIds == |NeedingIds(Records(store.graph, store.Selection(Some(true))))|
      && stats.total == |store.Selection(Some(true))|
  {
    ghost var sel := store.Selection(Some(true));
    DoneInSelection(store.graph, sel, 0);
    var withIds, withoutIds := 0, 0;
    var offset: nat := 0;
    var batchSize := 10;
    while true
      invariant forall x | x in Done(sel, offset) :: x in store.graph.data
      invariant withoutIds == |NeedingIds(Records(store.graph, Done(sel, offset)))|
      invariant withIds + withoutIds == |Done(sel, offset)|
      decreases |sel| - offset
    {
      var contracts := store.GetContracts(batchSize, offset, Some(true));
      if contracts.None? {
        return IdStats(0, 0, 0);
      }
      if contracts.value == [] {
        assert Done(sel, offset) == sel;
        break;
      }
      var page := contracts.value;
      var w, wo := CountPage(page);
      CountAdvance(store.graph, sel, offset, batchSize, page);
      DoneInSelection(store.graph, sel, offset + batchSize);
      withIds, withoutIds := withIds + w, withoutIds + wo;
      offset := offset + batchSize;
    }
    stats := IdStats(withIds, withoutIds, withIds + withoutIds);
  }

  /** The counts after one more page are the counts so far plus the page's. */
  lemma CountAdvance(g: Graph, sel: seq<string>, offset: nat, batchSize: nat, page: seq<Record>)
    requires forall x | x in sel :: x in g.data
    requires offset < |sel| && batchSize > 0
    requires page == Records(g, Window(sel, batchSize, offset))
    ensures forall x | x in Done(sel, offset) :: x in g.data
    ensures forall x | x in Done(sel, offset + batchSize) :: x in g.data
    ensures |NeedingIds(Records(g, Done(sel, offset + batchSize)))|
      == |NeedingIds(Records(g, Done(sel, offset)))| + |NeedingIds(page)|
    ensures |Done(sel, offset + batchSize)| == |Done(sel, offset)| + |page|
  {
    var w := Window(sel, batchSize, offset);
    DoneAdvance(sel, offset, batchSize, offset + batchSize);
    DoneInSelection(g, sel, offset);
    DoneInSelection(g, sel, offset + batchSize);
    RecordsConcat(g, Done(sel, offset), w);
    var before := Records(g, Done(sel, offset));
    assert Records(g, Done(sel, offset + batchSize)) == before + page;
    NeedingIdsConcat(before, page);
    assert |NeedingIds(before + page)| == |NeedingIds(before)| + |NeedingIds(page)|;
  }

  /**
   * The default mode of `main`: verify, backfill only when some contract has
   * no identifier, then verify again.
   */
  method AssignMain(store: ContractStore, sha: Sha256, batchSize: nat)
    returns (before: IdStats, updated: Option<nat>, after: Option<IdStats>)
    requires store.Valid()
    modifies store
    ensures store.Valid()
    ensures updated.Some? <==> before.withoutIds > 0
    ensures after.Some? <==> before.withoutIds > 0
    ensures before.withoutIds == 0 ==> store.graph == old(store.graph)
  {
    before := VerifyContractIds(store);
    if before.withoutIds > 0 {
      var n, _, _, _ := AssignIdsToContracts(store, sha, batchSize);
      updated := Some(n);
      var final := VerifyContractIds(store);
      after := Some(final);
    } else {
      updated, after := None, None;
    }
  }
}
