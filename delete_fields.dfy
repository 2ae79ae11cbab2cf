/**
 * `ArrayFieldDeleter`: clear a list of fields from chosen contracts, named
 * by uid, by contract id, or every enriched contract page by page.
 */
module DeleteFields {
  import opened PyValues
  import opened Deployment
  import opened DgraphClient

  /** The fields cleared when no list is given. */
  const DefaultFields: seq<string> := [FunctionalitiesKey, StandardsKey, PatternsKey]

  /**
   * `if array_fields is None`: only a missing list falls back. An empty list
   * is kept, and its delete objects carry only the uid, which removes every
   * predicate of the node.
   */
  function FieldsOrDefault(fields: Option<seq<string>>): seq<string>
  {
    if fields.None? then DefaultFields else fields.value
  }

  function FieldSet(fields: seq<string>): set<string>
  {
    set f | f in fields
  }

  /** `delete_data`: the uid, then every field set to None (a field named `uid` overwrites the uid). */
  function DeleteObject(uid: Value, fields: seq<string>): (obj: Record)
    ensures obj.Keys == {UidKey} + FieldSet(fields)
  {
    map k | k in {UidKey} + FieldSet(fields) :: if k in fields then Null else uid
  }

  /** The delete object clears exactly the listed fields of the node its uid names. */
  lemma DeleteObjectShape(uid: Value, fields: seq<string>)
    ensures DeleteKeys(DeleteObject(uid, fields)) == FieldSet(fields) - {UidKey}
    ensures Get(DeleteObject(uid, fields), UidKey) == if UidKey in fields then Null else uid
    ensures UidKey !in fields ==> (DeleteObject(uid, fields).Keys == {UidKey} <==> |fields| == 0)
  {
    if UidKey !in fields && |fields| > 0 {
      assert fields[0] in DeleteObject(uid, fields).Keys;
    }
  }

  /** A targeted node after its deletes: with no field listed it loses every predicate, otherwise the listed ones. */
  function ClearedNode(node: Record, fields: seq<string>): Record
  {
    if |fields| == 0 then map[] else node - FieldSet(fields)
  }

  /** The store after the delete objects for `targets`, in order. */
  function ApplyDeletes(g: Graph, fields: seq<string>, targets: seq<Value>): (g': Graph)
    ensures g'.order == g.order && g'.data.Keys == g.data.Keys
    ensures g.Valid() ==> g'.Valid()
    decreases |targets|
  {
    if |targets| == 0 then g
    else ApplyDelete(ApplyDeletes(g, fields, targets[..|targets| - 1]), DeleteObject(targets[|targets| - 1], fields))
  }

  lemma ApplyDeletesAppend(g: Graph, fields: seq<string>, targets: seq<Value>, t: Value)
    ensures ApplyDeletes(g, fields, targets + [t]) == ApplyDelete(ApplyDeletes(g, fields, targets), DeleteObject(t, fields))
  {
    assert (targets + [t])[..|targets|] == targets;
  }

  /**
   * What a run of deletes does to one node: the listed fields are gone
   * when the node was a target (all of them when none is listed), and
   * nothing else changes anywhere. A field list that names `uid` turns
   * every delete into a no-op.
   */
  lemma {:induction false} ApplyDeletesEffect(g: Graph, fields: seq<string>, targets: seq<Value>, v: string)
    requires v in g.data
    ensures ApplyDeletes(g, fields, targets).data[v] ==
      if Str(v) in targets && UidKey !in fields then ClearedNode(g.data[v], fields) else g.data[v]
    decreases |targets|
  {
    if |targets| > 0 {
      var init := targets[..|targets| - 1];
      var t := targets[|targets| - 1];
      ApplyDeletesEffect(g, fields, init, v);
      DeleteObjectShape(t, fields);
      assert targets == init + [t];
      assert Str(v) in targets <==> Str(v) in init || Str(v) == t;
      if UidKey !in fields {
        assert FieldSet(fields) - {UidKey} == FieldSet(fields);
        assert g.data[v] - FieldSet(fields) - FieldSet(fields) == g.data[v] - FieldSet(fields);
      }
    }
  }

  /** Clearing some fields, none of which the filter reads, keeps every node in or out of each selection. */
  predicate KeepsSelection(fields: seq<string>)
  {
    |fields| > 0 && VerifiedSourceKey !in fields && DescriptionKey !in fields
  }

  lemma DeleteKeepsSelection(g: Graph, fields: seq<string>, t: Value, enriched: bool)
    requires g.Valid() && KeepsSelection(fields)
    ensures var g' := ApplyDelete(g, DeleteObject(t, fields));
      Select(g'.order, g'.data, enriched) == Select(g.order, g.data, enriched)
  {
    var g' := ApplyDelete(g, DeleteObject(t, fields));
    DeleteObjectShape(t, fields);
    forall u | u in g.order ensures InSelection(g'.data[u], enriched) == InSelection(g.data[u], enriched) {
      assert VerifiedSourceKey !in DeleteKeys(DeleteObject(t, fields));
      assert DescriptionKey !in DeleteKeys(DeleteObject(t, fields));
    }
    SelectStable(g.order, g.data, g'.data, enriched);
  }

  /** `_delete_fields_from_uid(uid, array_fields)`; a failed mutation is logged and swallowed. */
  method DeleteFromUid(store: ContractStore, uid: Value, fields: seq<string>) returns (ghost ok: bool)
    requires store.Valid()
    modifies store
    ensures store.Valid()
    ensures ok == store.accepts(DeleteObj(DeleteObject(uid, fields)))
    ensures store.graph == if ok then ApplyDelete(old(store.graph), DeleteObject(uid, fields)) else old(store.graph)
  {
    var data: Record := map[UidKey := uid];
    for i := 0 to |fields|
      invariant data == DeleteObject(uid, fields[..i])
    {
      assert fields[..i + 1] == fields[..i] + [fields[i]];
      data := data[fields[i] := Null];
    }
    assert fields[..|fields|] == fields;
    ok := store.Delete(data);
  }

  /** The uid `_delete_fields_from_contract_id` resolves an id to, None where it stops early. */
  function ContractIdTarget(store: ContractStore, id: string): (t: Option<Value>)
    reads store
    requires store.Valid()
    ensures t.Some? ==> Truthy(t.value)
  {
    match store.GetContractById(id)
    case None => None
    case Some(contract) =>
      if contract == map[] then None
      else if Truthy(Get(contract, UidKey)) then Some(Get(contract, UidKey))
      else None
  }

  /** The uid a lookup by id resolves to in a graph: the found record's uid when it is truthy. */
  function IdTarget(g: Graph, id: string): (t: Option<Value>)
    requires g.Valid()
    ensures t.Some? ==> Truthy(t.value)
  {
    var c := FirstWithId(Records(g, g.order) + g.orphans, id);
    if c != map[] && Truthy(Get(c, UidKey)) then Some(Get(c, UidKey)) else None
  }

  /** The resolution of one id against a store that serves or refuses the lookup. */
  function TargetIn(serves: Query -> bool, g: Graph, id: string): Option<Value>
    requires g.Valid()
  {
    if serves(ContractById(id)) then IdTarget(g, id) else None
  }

  /** The uids a run of ids resolves to against one graph, in the order of the ids, unresolved ids dropped. */
  function TargetsIn(serves: Query -> bool, g: Graph, ids: seq<string>): (ts: seq<Value>)
    requires g.Valid()
    ensures |ts| <= |ids|
    decreases |ids|
  {
    if |ids| == 0 then []
    else
      var t := TargetIn(serves, g, ids[|ids| - 1]);
      TargetsIn(serves, g, ids[..|ids| - 1]) + (if t.Some? then [t.value] else [])
  }

  lemma TargetsInStep(serves: Query -> bool, g: Graph, ids: seq<string>, i: nat)
    requires g.Valid() && i < |ids|
    ensures var t := TargetIn(serves, g, ids[i]);
      TargetsIn(serves, g, ids[..i + 1]) == TargetsIn(serves, g, ids[..i]) + (if t.Some? then [t.value] else [])
  {
    assert ids[..i + 1][..i] == ids[..i];
  }

  /** The store's lookup resolves an id as `TargetIn` does on its graph. */
  lemma ContractIdTargetIn(store: ContractStore, id: string)
    requires store.Valid()
    ensures ContractIdTarget(store, id) == TargetIn(store.serves, store.graph, id)
  {
  }

  /** Clearing at least one field, and not the id, keeps every node's id and uid. */
  predicate KeepsIds(fields: seq<string>)
  {
    |fields| > 0 && IdKey !in fields
  }

  /** Two record lists that agree on ids and uids position by position find records with the same uid. */
  lemma {:induction false} FirstWithIdAgree(a: seq<Record>, b: seq<Record>, id: string)
    requires |a| == |b|
    requires forall j | 0 <= j < |a| :: Get(a[j], IdKey) == Get(b[j], IdKey) && Get(a[j], UidKey) == Get(b[j], UidKey)
    ensures (FirstWithId(a, id) == map[]) == (FirstWithId(b, id) == map[])
    ensures Get(FirstWithId(a, id), UidKey) == Get(FirstWithId(b, id), UidKey)
    decreases |a|
  {
    if |a| > 0 && Get(a[0], IdKey) != Str(id) {
      FirstWithIdAgree(a[1..], b[1..], id);
    } else if |a| > 0 {
      assert Get(a[0], IdKey) == Str(id) && Get(b[0], IdKey) == Str(id);
    }
  }

  /** A delete that keeps ids leaves the resolution of every id as it was. */
  lemma DeleteKeepsIdTarget(g: Graph, t: Value, fields: seq<string>, id: string)
    requires g.Valid() && KeepsIds(fields)
    ensures IdTarget(ApplyDelete(g, DeleteObject(t, fields)), id) == IdTarget(g, id)
  {
    var g' := ApplyDelete(g, DeleteObject(t, fields));
    DeleteKeepsLookupKeys(g, t, fields);
    FirstWithIdAgree(Records(g, g.order) + g.orphans, Records(g', g'.order) + g'.orphans, id);
  }

  /** Position by position, the records a lookup walks keep their ids and uids through such a delete. */
  lemma DeleteKeepsLookupKeys(g: Graph, t: Value, fields: seq<string>)
    requires g.Valid() && KeepsIds(fields)
    ensures var g' := ApplyDelete(g, DeleteObject(t, fields));
      var a, b := Records(g, g.order) + g.orphans, Records(g', g'.order) + g'.orphans;
      |a| == |b| && forall j | 0 <= j < |a| :: Get(a[j], IdKey) == Get(b[j], IdKey) && Get(a[j], UidKey) == Get(b[j], UidKey)
  {
    var g' := ApplyDelete(g, DeleteObject(t, fields));
    var ra, rb := Records(g, g.order), Records(g', g'.order);
    var a, b := ra + g.orphans, rb + g'.orphans;
    forall j | 0 <= j < |a| ensures Get(a[j], IdKey) == Get(b[j], IdKey) && Get(a[j], UidKey) == Get(b[j], UidKey) {
      if j < |ra| {
        assert a[j] == ra[j] && b[j] == rb[j];
        DeleteKeepsRecordIds(g, t, fields, g.order[j]);
      } else {
        assert a[j] == b[j];
      }
    }
  }

  lemma DeleteKeepsRecordIds(g: Graph, t: Value, fields: seq<string>, u: string)
    requires g.Valid() && KeepsIds(fields) && u in g.data
    ensures var g' := ApplyDelete(g, DeleteObject(t, fields));
      Get(Project(g'.Node(u)), IdKey) == Get(Project(g.Node(u)), IdKey)
      && Get(Project(g'.Node(u)), UidKey) == Get(Project(g.Node(u)), UidKey)
  {
    var g' := ApplyDelete(g, DeleteObject(t, fields));
    DeleteObjectShape(t, fields);
    ProjectKeepsQueried(g.Node(u), IdKey);
    ProjectKeepsQueried(g'.Node(u), IdKey);
    ProjectKeepsQueried(g.Node(u), UidKey);
    ProjectKeepsQueried(g'.Node(u), UidKey);
    assert Get(g'.data[u], IdKey) == Get(g.data[u], IdKey);
  }

  /** `_delete_fields_from_contract_id(contract_id, array_fields)`: a lookup, then the uid delete; errors are swallowed. */
  method DeleteFromContractId(store: ContractStore, id: string, fields: seq<string>) returns (ghost ok: bool)
    requires store.Valid()
    modifies store
    ensures store.Valid()
    ensures ok <==> (old(ContractIdTarget(store, id)).Some?
      && store.accepts(DeleteObj(DeleteObject(old(ContractIdTarget(store, id)).value, fields))))
    ensures ok ==> store.graph == ApplyDelete(old(store.graph), DeleteObject(old(ContractIdTarget(store, id)).value, fields))
    ensures !ok ==> store.graph == old(store.graph)
  {
    ghost var target := ContractIdTarget(store, id);
    ok := false;
    var contract := store.GetContractById(id);
    if contract.None? || contract.value == map[] {
      assert target.None?;
      return;
    }
    var uid := Get(contract.value, UidKey);
    if !Truthy(uid) {
      assert target.None?;
      return;
    }
    assert target == Some(uid);
    ok := DeleteFromUid(store, uid, fields);
  }

  /** The first record carrying an id decides, so a match in the front part hides the back part. */
  lemma {:induction false} FirstWithIdFront(a: seq<Record>, b: seq<Record>, id: string)
    requires exists i | 0 <= i < |a| :: Get(a[i], IdKey) == Str(id)
    ensures FirstWithId(a + b, id) == FirstWithId(a, id)
    decreases |a|
  {
    if Get(a[0], IdKey) != Str(id) {
      assert (a + b)[1..] == a[1..] + b;
      var i :| 0 <= i < |a| && Get(a[i], IdKey) == Str(id);
      assert a[1..][i - 1] == a[i];
      FirstWithIdFront(a[1..], b, id);
    }
  }

  /** The lookup by id over the store's records finds the one node carrying the id. */
  lemma ByIdFindsNode(g: Graph, id: string, u: string)
    requires g.Valid()
    requires u in g.data && Get(g.data[u], IdKey) == Str(id)
    requires forall v | v in g.data && Get(g.data[v], IdKey) == Str(id) :: v == u
    ensures Get(FirstWithId(Records(g, g.order) + g.orphans, id), UidKey) == Str(u)
  {
    var rs := Records(g, g.order);
    var i :| 0 <= i < |g.order| && g.order[i] == u;
    ProjectKeepsQueried(g.Node(u), IdKey);
    assert Get(rs[i], IdKey) == Str(id);
    FirstWithIdFront(rs, g.orphans, id);
    var j :| 0 <= j < |rs| && Get(rs[j], IdKey) == Str(id) && FirstWithId(rs, id) == rs[j];
    ProjectKeepsQueried(g.Node(g.order[j]), IdKey);
    ProjectKeepsQueried(g.Node(g.order[j]), UidKey);
  }

  /**
   * A contract id carried by exactly one node resolves to that node's uid,
   * so the delete by id clears the fields of that node and no other.
   */
  lemma IdResolvesToNode(store: ContractStore, id: string, u: string)
    requires store.Valid() && store.serves(ContractById(id))
    requires u in store.graph.data && u != "" && Get(store.graph.data[u], IdKey) == Str(id)
    requires forall v | v in store.graph.data && Get(store.graph.data[v], IdKey) == Str(id) :: v == u
    ensures ContractIdTarget(store, id) == Some(Str(u))
  {
    ByIdFindsNode(store.graph, id, u);
    var r := store.GetContractById(id);
    assert r == Some(FirstWithId(Records(store.graph, store.graph.order) + store.graph.orphans, id));
  }

  /** The uids `if uid:` lets through on a page, in page order. */
  function TruthyUids(page: seq<Record>): (ts: seq<Value>)
    ensures |ts| <= |page|
    ensures forall t | t in ts :: Truthy(t)
    decreases |page|
  {
    if |page| == 0 then []
    else
      var init := TruthyUids(page[..|page| - 1]);
      var uid := Get(page[|page| - 1], UidKey);
      if Truthy(uid) then init + [uid] else init
  }

  lemma {:induction false} TruthyUidsConcat(a: seq<Record>, b: seq<Record>)
    ensures TruthyUids(a + b) == TruthyUids(a) + TruthyUids(b)
    decreases |b|
  {
    if |b| > 0 {
      var b' := b[..|b| - 1];
      assert (a + b)[..|a + b| - 1] == a + b';
      assert (a + b)[|a + b| - 1] == b[|b| - 1];
      TruthyUidsConcat(a, b');
    } else {
      assert a + b == a;
    }
  }

  /** The uids as strings, wrapped as the values a page carries. */
  function Strs(us: seq<string>): (vs: seq<Value>)
    ensures |vs| == |us| && forall i | 0 <= i < |us| :: vs[i] == Str(us[i])
  {
    seq(|us|, i requires 0 <= i < |us| => Str(us[i]))
  }

  /** A page read from the store carries the uids of its window, and none of them is empty. */
  lemma {:induction false} StorePageUids(g: Graph, w: seq<string>)
    requires forall u | u in w :: u in g.data && u != ""
    ensures TruthyUids(Records(g, w)) == Strs(w)
    decreases |w|
  {
    if |w| > 0 {
      var init := w[..|w| - 1];
      assert Records(g, w)[..|w| - 1] == Records(g, init);
      ProjectKeepsQueried(g.Node(w[|w| - 1]), UidKey);
      StorePageUids(g, init);
      assert Strs(w) == Strs(init) + [Str(w[|w| - 1])];
    }
  }

  /** With a selection that stays put, the pages read so far are its first `offset` uids. */
  lemma DoneStep(sel: seq<string>, offset: nat, batchSize: nat, next: nat, visited: seq<Value>)
    requires offset < |sel| && next == offset + batchSize
    requires visited == Strs(Done(sel, offset))
    ensures visited + Strs(Window(sel, batchSize, offset)) == Strs(Done(sel, next))
  {
    var w := Window(sel, batchSize, offset);
    DoneAdvance(sel, offset, batchSize, next);
    assert Strs(Done(sel, offset) + w) == Strs(Done(sel, offset)) + Strs(w);
  }

  /**
   * The inner loop over one page: every record whose uid is truthy gets
   * its delete, and is counted whether the delete succeeds or not.
   */
  method DeletePage(store: ContractStore, page: seq<Record>, fields: seq<string>)
    returns (count: nat, ghost accepted: seq<Value>)
    requires store.Valid()
    modifies store
    ensures store.Valid()
    ensures count == |TruthyUids(page)|
    ensures store.graph == ApplyDeletes(old(store.graph), fields, accepted)
    ensures forall t | t in accepted :: t in TruthyUids(page)
    ensures AcceptsDeletes(store) ==> accepted == TruthyUids(page)
    ensures KeepsSelection(fields) ==> store.Selection(Some(true)) == old(store.Selection(Some(true)))
  {
    count, accepted := 0, [];
    ghost var g0 := store.graph;
    for i := 0 to |page|
      invariant store.Valid()
      invariant count == |TruthyUids(page[..i])|
      invariant store.graph == ApplyDeletes(g0, fields, accepted)
      invariant forall t | t in accepted :: t in TruthyUids(page[..i])
      invariant AcceptsDeletes(store) ==> accepted == TruthyUids(page[..i])
      invariant KeepsSelection(fields) ==> store.Selection(Some(true)) == old(store.Selection(Some(true)))
    {
      assert page[..i + 1][..i] == page[..i];
      var uid := Get(page[i], UidKey);
      if Truthy(uid) {
        ghost var before := store.graph;
        var ok := DeleteFromUid(store, uid, fields);
        if KeepsSelection(fields) {
          DeleteKeepsSelection(before, fields, uid, true);
        }
        if ok {
          ApplyDeletesAppend(g0, fields, accepted, uid);
          accepted := accepted + [uid];
        }
        count := count + 1;
      }
    }
    assert page[..|page|] == page;
  }

  /** The store takes every delete object. */
  ghost predicate AcceptsDeletes(store: ContractStore)
  {
    forall o :: store.accepts(DeleteObj(o))
  }

  /** No node has the empty uid, so `if uid:` lets every record of a page through. */
  ghost predicate NonEmptyUids(g: Graph)
  {
    forall u | u in g.data :: u != ""
  }

  /** How one page of the "all contracts" branch ends. */
  datatype Step = PageEmpty | PageShort | PageFull | StepRaised

  /**
   * One turn of the "all contracts" loop: the enriched page at `offset`,
   * then the deletes for its records.
   */
  method DeleteStep(store: ContractStore, fields: seq<string>, batchSize: nat, offset: nat)
    returns (step: Step, count: nat, ghost seen: seq<Value>, ghost acc: seq<Value>)
    requires store.Valid()
    modifies store
    ensures store.Valid()
    ensures count == |seen|
    ensures store.graph == ApplyDeletes(old(store.graph), fields, acc)
    ensures forall t | t in acc :: t in seen
    ensures AcceptsDeletes(store) ==> acc == seen
    ensures KeepsSelection(fields) ==> store.Selection(Some(true)) == old(store.Selection(Some(true)))
    ensures step == PageEmpty ==> seen == [] && (batchSize == 0 || offset >= |old(store.Selection(Some(true)))|)
    ensures step == StepRaised || step == PageEmpty ==> seen == [] && acc == [] && store.graph == old(store.graph)
    ensures step == PageShort || step == PageFull ==> batchSize > 0 && offset < |old(store.Selection(Some(true)))|
    ensures step == PageShort ==> offset + batchSize > |old(store.Selection(Some(true)))|
    ensures step != StepRaised && NonEmptyUids(old(store.graph)) ==>
      seen == Strs(Window(old(store.Selection(Some(true))), batchSize, offset))
  {
    seen, acc := [], [];
    var contracts := store.GetContracts(batchSize, offset, Some(true));
    if contracts.None? {
      return StepRaised, 0, seen, acc;
    }
    if contracts.value == [] {
      return PageEmpty, 0, seen, acc;
    }
    ghost var w := Window(store.Selection(Some(true)), batchSize, offset);
    if NonEmptyUids(store.graph) {
      StorePageUids(store.graph, w);
    }
    count, acc := DeletePage(store, contracts.value, fields);
    seen := TruthyUids(contracts.value);
    step := if |contracts.value| < batchSize then PageShort else PageFull;
  }

  /**
   * The "all contracts" branch: enriched pages at growing offsets until an
   * empty or short page. `raised` is an exception from the store, which the
   * outer handler turns into returning the count so far.
   */
  method DeleteAllEnriched(store: ContractStore, fields: seq<string>, batchSize: nat)
    returns (total: nat, ghost raised: bool, ghost visited: seq<Value>, ghost accepted: seq<Value>)
    requires store.Valid()
    modifies store
    ensures store.Valid()
    ensures total == |visited|
    ensures store.graph == ApplyDeletes(old(store.graph), fields, accepted)
    ensures forall t | t in accepted :: t in visited
    ensures AcceptsDeletes(store) ==> accepted == visited
    ensures batchSize == 0 ==> visited == []
    ensures KeepsSelection(fields) && !raised && batchSize > 0 && NonEmptyUids(old(store.graph))
      ==> visited == Strs(old(store.Selection(Some(true))))
  {
    total, raised, visited, accepted := 0, false, [], [];
    ghost var g0 := store.graph;
    ghost var sel := store.Selection(Some(true));
    ghost var stable := KeepsSelection(fields) && NonEmptyUids(g0);
    var offset: nat := 0;
    var done := false;
    while !done
      invariant store.Valid()
      invariant raised ==> done
      invariant total == |visited|
      invariant store.graph == ApplyDeletes(g0, fields, accepted)
      invariant forall t | t in accepted :: t in visited
      invariant AcceptsDeletes(store) ==> accepted == visited
      invariant batchSize == 0 ==> visited == []
      invariant KeepsSelection(fields) ==> store.Selection(Some(true)) == sel
      invariant stable && !raised ==> visited == Strs(Done(sel, offset))
      invariant stable && !raised && done && batchSize > 0 ==> offset >= |sel|
      invariant offset <= |g0.order| + batchSize
      decreases !done, |g0.order| + batchSize - offset
    {
      var step, count, seen, acc := DeleteStep(store, fields, batchSize, offset);
      if step == StepRaised {
        raised, done := true, true;
      } else if step == PageEmpty {
        done := true;
      } else {
        var next := offset + batchSize;
        if stable {
          assert offset < |sel|;
          DoneStep(sel, offset, batchSize, next, visited);
        }
        assert store.graph == ApplyDeletes(g0, fields, accepted + acc) by {
          ApplyDeletesConcat(g0, fields, accepted, acc);
        }
        total, visited, accepted := total + count, visited + seen, accepted + acc;
        offset := next;
        done := step == PageShort;
      }
    }
  }

  lemma {:induction false} ApplyDeletesConcat(g: Graph, fields: seq<string>, a: seq<Value>, b: seq<Value>)
    ensures ApplyDeletes(ApplyDeletes(g, fields, a), fields, b) == ApplyDeletes(g, fields, a + b)
    decreases |b|
  {
    if |b| > 0 {
      var b' := b[..|b| - 1];
      ApplyDeletesConcat(g, fields, a, b');
      assert (a + b)[..|a + b| - 1] == a + b';
      assert (a + b)[|a + b| - 1] == b[|b| - 1];
    } else {
      assert a + b == a;
    }
  }

  /** The branch `delete_array_fields` takes: uids win over contract ids, and an empty list counts as absent. */
  datatype Mode = ByUid | ByContractId | AllEnriched

  function ModeOf(contractIds: Option<seq<string>>, uids: Option<seq<string>>): (m: Mode)
    ensures m == ByUid <==> uids.Some? && |uids.value| > 0
    ensures m == ByContractId <==> !(uids.Some? && |uids.value| > 0) && contractIds.Some? && |contractIds.value| > 0
  {
    if uids.Some? && |uids.value| > 0 then ByUid
    else if contractIds.Some? && |contractIds.value| > 0 then ByContractId
    else AllEnriched
  }

  /** The `uids` branch: each uid gets its delete, in order, and every one is counted. */
  method DeleteByUids(store: ContractStore, us: seq<string>, fields: seq<string>)
    returns (total: nat, ghost targets: seq<Value>, ghost accepted: seq<Value>)
    requires store.Valid()
    modifies store
    ensures store.Valid()
    ensures store.graph == ApplyDeletes(old(store.graph), fields, accepted)
    ensures forall t | t in accepted :: t in targets
    ensures AcceptsDeletes(store) ==> accepted == targets
    ensures total == |us| && targets == Strs(us)
  {
    total, targets, accepted := 0, [], [];
    ghost var g0 := store.graph;
    for i := 0 to |us|
      invariant store.Valid()
      invariant total == i && targets == Strs(us[..i])
      invariant store.graph == ApplyDeletes(g0, fields, accepted)
      invariant forall t | t in accepted :: t in targets
      invariant AcceptsDeletes(store) ==> accepted == targets
    {
      ghost var ok := DeleteFromUid(store, Str(us[i]), fields);
      if ok {
        ApplyDeletesAppend(g0, fields, accepted, Str(us[i]));
        accepted := accepted + [Str(us[i])];
      }
      assert Strs(us[..i + 1]) == Strs(us[..i]) + [Str(us[i])];
      targets := targets + [Str(us[i])];
      total := total + 1;
    }
    assert us[..|us|] == us;
  }

  /**
   * The `contract_ids` branch: each id is looked up, and the uid it
   * resolves to gets its delete; every id is counted, resolved or not.
   * When the deletes keep ids, each id resolves as it would have in the
   * store as it was at the start.
   */
  method DeleteByContractIds(store: ContractStore, ids: seq<string>, fields: seq<string>)
    returns (total: nat, ghost targets: seq<Value>, ghost accepted: seq<Value>)
    requires store.Valid()
    modifies store
    ensures store.Valid()
    ensures store.graph == ApplyDeletes(old(store.graph), fields, accepted)
    ensures forall t | t in accepted :: t in targets
    ensures AcceptsDeletes(store) ==> accepted == targets
    ensures total == |ids| && |targets| <= total
    ensures KeepsIds(fields) ==> targets == TargetsIn(store.serves, old(store.graph), ids)
  {
    total, targets, accepted := 0, [], [];
    ghost var g0 := store.graph;
    for i := 0 to |ids|
      invariant store.Valid()
      invariant total == i && |targets| <= i
      invariant store.graph == ApplyDeletes(g0, fields, accepted)
      invariant forall t | t in accepted :: t in targets
      invariant AcceptsDeletes(store) ==> accepted == targets
      invariant KeepsIds(fields) ==> forall id :: IdTarget(store.graph, id) == IdTarget(g0, id)
      invariant KeepsIds(fields) ==> targets == TargetsIn(store.serves, g0, ids[..i])
    {
      ghost var before := store.graph;
      ghost var target := ContractIdTarget(store, ids[i]);
      ContractIdTargetIn(store, ids[i]);
      TargetsInStep(store.serves, g0, ids, i);
      ghost var ok := DeleteFromContractId(store, ids[i], fields);
      if ok {
        ApplyDeletesAppend(g0, fields, accepted, target.value);
        accepted := accepted + [target.value];
        if KeepsIds(fields) {
          forall id ensures IdTarget(store.graph, id) == IdTarget(g0, id) {
            DeleteKeepsIdTarget(before, target.value, fields, id);
          }
        }
      }
      if target.Some? {
        targets := targets + [target.value];
      }
      total := total + 1;
    }
    assert ids[..|ids|] == ids;
  }

  /**
   * `delete_array_fields(contract_ids, uids, array_fields, batch_size)`.
   * `targets` is the uids whose delete was sent, `accepted` those the
   * store took, `raised` an exception the "all contracts" branch swallowed;
   * the count is what the method returns.
   */
  method DeleteArrayFields(store: ContractStore, contractIds: Option<seq<string>>, uids: Option<seq<string>>,
                           arrayFields: Option<seq<string>>, batchSize: nat)
    returns (total: nat, ghost targets: seq<Value>, ghost accepted: seq<Value>, ghost raised: bool)
    requires store.Valid()
    modifies store
    ensures store.Valid()
    ensures store.graph == ApplyDeletes(old(store.graph), FieldsOrDefault(arrayFields), accepted)
    ensures forall t | t in accepted :: t in targets
    ensures AcceptsDeletes(store) ==> accepted == targets
    ensures ModeOf(contractIds, uids) == ByUid ==> total == |uids.value| && targets == Strs(uids.value)
    ensures ModeOf(contractIds, uids) == ByContractId ==> total == |contractIds.value| && |targets| <= total
    ensures ModeOf(contractIds, uids) == ByContractId && KeepsIds(FieldsOrDefault(arrayFields)) ==>
      targets == TargetsIn(store.serves, old(store.graph), contractIds.value)
    ensures ModeOf(contractIds, uids) == AllEnriched ==> total == |targets|
    ensures (ModeOf(contractIds, uids) == AllEnriched && KeepsSelection(FieldsOrDefault(arrayFields)) && !raised
             && batchSize > 0 && NonEmptyUids(old(store.graph))) ==>
      targets == Strs(old(store.Selection(Some(true))))
  {
    var fields := FieldsOrDefault(arrayFields);
    raised := false;
    var mode := ModeOf(contractIds, uids);
    if mode == ByUid {
      total, targets, accepted := DeleteByUids(store, uids.value, fields);
    } else if mode == ByContractId {
      total, targets, accepted := DeleteByContractIds(store, contractIds.value, fields);
    } else {
      total, raised, targets, accepted := DeleteAllEnriched(store, fields, batchSize);
    }
  }
}
