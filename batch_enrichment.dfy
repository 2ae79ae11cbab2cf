/**
 * `batch_enrichment`: fetch the first page of unenriched contracts, enrich
 * it, write every result back in one mutation, embed the results, and go
 * round again until the page comes back empty.
 */
module BatchEnrichment {
  import opened PyValues
  import opened Deployment
  import opened DgraphClient
  import opened VectorDbClient
  import opened LlmEnrichment

  /** The keys of a JSON object. */
  function KeysOf(members: seq<(string, Value)>): (ks: set<string>)
    ensures forall k :: k in ks <==> HasKey(members, k)
  {
    set i | 0 <= i < |members| :: members[i].0
  }

  /**
   * A result as the dictionary the mutation and `add_embeddings` see: an
   * object's items, the last value winning for a repeated key; anything
   * else carries no field.
   */
  function AsObject(v: Value): (r: Record)
    ensures v.Dict? ==> r.Keys == KeysOf(v.members)
    ensures v.Dict? ==> forall k :: Get(r, k) == Lookup(v.members, k)
    ensures !v.Dict? ==> r == map[]
  {
    if v.Dict? then
      var r := map k | k in KeysOf(v.members) :: Lookup(v.members, k);
      assert forall k | k !in r :: Lookup(v.members, k) == Null by {
        forall k | k !in r ensures Lookup(v.members, k) == Null {
          LookupMissing(v.members, k);
        }
      }
      r
    else map[]
  }

  function Objects(results: seq<Value>): (objs: seq<Record>)
    ensures |objs| == |results|
    ensures forall i | 0 <= i < |results| :: objs[i] == AsObject(results[i])
  {
    seq(|results|, i requires 0 <= i < |results| => AsObject(results[i]))
  }

  /** The list one pass sends to `mutate` for a page, None when `process_contracts` raises. */
  function PassObjects(chain: Chain, page: seq<Record>): (objs: Option<seq<Record>>)
    ensures objs.Some? <==> EnrichedPage(chain, page).Some?
    ensures objs.Some? ==> |objs.value| == |page| && forall i | 0 <= i < |page| ::
      objs.value[i] == AsObject(Enrich(chain(Filtered(page[i])), Filtered(page[i])))
  {
    match EnrichedPage(chain, page)
    case None => None
    case Some(results) => Some(Objects(results))
  }

  /** The page of unenriched contracts one pass reads from a graph: the first `batchSize` of them. */
  ghost function Page(g: Graph, batchSize: nat): seq<Record>
    requires g.Valid()
  {
    Records(g, Window(Select(g.order, g.data, false), batchSize, 0))
  }

  /** How one pass ends: the page was empty, something raised, or the page was written and embedded. */
  datatype PassOutcome = Empty | Raised | Enriched

  /**
   * One turn of the loop. `mutated` says the mutation went through and
   * `objs` is the list it wrote; a failed embedding raises after the write.
   */
  method EnrichPass(store: ContractStore, vdb: VectorDb, chain: Chain, batchSize: nat)
    returns (outcome: PassOutcome, ghost objs: seq<Record>, ghost mutated: bool)
    requires store.Valid()
    modifies store, vdb
    ensures store.Valid()
    ensures store.graph == if mutated then ApplySetAll(old(store.graph), objs) else old(store.graph)
    ensures mutated ==> (old(store.GetContracts(batchSize, 0, Some(false))).Some?
      && PassObjects(chain, old(store.GetContracts(batchSize, 0, Some(false))).value) == Some(objs))
    ensures mutated ==> PassObjects(chain, Page(old(store.graph), batchSize)) == Some(objs)
    ensures outcome == Empty ==> !mutated && (batchSize == 0 || old(store.Selection(Some(false))) == [])
    ensures outcome == Enriched ==> mutated && Entries(objs).Some?
    ensures vdb.entries == if outcome == Enriched then old(vdb.entries) + Entries(objs).value else old(vdb.entries)
  {
    objs, mutated := [], false;
    var page := store.GetContracts(batchSize, 0, Some(false));
    if page.None? {
      return Raised, objs, mutated;
    }
    if page.value == [] {
      return Empty, objs, mutated;
    }
    var results := ProcessContracts(chain, page.value);
    if results.None? {
      return Raised, objs, mutated;
    }
    var objects := Objects(results.value);
    var ok := store.MutateAll(objects);
    if !ok {
      return Raised, objs, mutated;
    }
    objs, mutated := objects, true;
    if |results.value| > 0 {
      // `contract.get` on a result that is not an object raises.
      if exists i | 0 <= i < |results.value| :: !results.value[i].Dict? {
        return Raised, objs, mutated;
      }
      var added := vdb.AddEmbeddings(objects);
      if !added {
        return Raised, objs, mutated;
      }
    }
    outcome := Enriched;
  }

  /** The graph after a run of accepted mutations, in order. */
  function ApplyBatches(g: Graph, batches: seq<seq<Record>>): (g': Graph)
    ensures g'.order == g.order && g'.data.Keys == g.data.Keys
    ensures g.Valid() ==> g'.Valid()
    decreases |batches|
  {
    if |batches| == 0 then g else ApplySetAll(ApplyBatches(g, batches[..|batches| - 1]), batches[|batches| - 1])
  }

  lemma ApplyBatchesAppend(g: Graph, batches: seq<seq<Record>>, objs: seq<Record>)
    ensures ApplyBatches(g, batches + [objs]) == ApplySetAll(ApplyBatches(g, batches), objs)
  {
    assert (batches + [objs])[..|batches|] == batches;
  }

  lemma AppendEntries(e0: seq<Entry>, a: seq<Record>, b: seq<Record>)
    requires Entries(a).Some? && Entries(b).Some?
    ensures Entries(a + b).Some? && (e0 + Entries(a).value) + Entries(b).value == e0 + Entries(a + b).value
  {
    EntriesConcat(a, b);
  }

  /** The lists of a run of passes, one after the other. */
  function Concat(batches: seq<seq<Record>>): seq<Record>
    decreases |batches|
  {
    if |batches| == 0 then [] else Concat(batches[..|batches| - 1]) + batches[|batches| - 1]
  }

  lemma ConcatAppend(batches: seq<seq<Record>>, objs: seq<Record>)
    ensures Concat(batches + [objs]) == Concat(batches) + objs
  {
    assert (batches + [objs])[..|batches|] == batches;
  }

  /** Each list of `sent` is what a pass makes of the page left by the lists before it. */
  ghost predicate Replays(g: Graph, chain: Chain, batchSize: nat, sent: seq<seq<Record>>)
    requires g.Valid()
    decreases |sent|
  {
    |sent| == 0 ||
    (Replays(g, chain, batchSize, sent[..|sent| - 1])
     && PassObjects(chain, Page(ApplyBatches(g, sent[..|sent| - 1]), batchSize)) == Some(sent[|sent| - 1]))
  }

  lemma ReplaysAppend(g: Graph, chain: Chain, batchSize: nat, sent: seq<seq<Record>>, objs: seq<Record>)
    requires g.Valid() && Replays(g, chain, batchSize, sent)
    requires PassObjects(chain, Page(ApplyBatches(g, sent), batchSize)) == Some(objs)
    ensures Replays(g, chain, batchSize, sent + [objs])
  {
    assert (sent + [objs])[..|sent|] == sent;
  }

  datatype BatchOutcome = Drained | Stopped | OutOfPasses

  /**
   * `batch_enrichment(batch_size)`, run for at most `maxPasses` passes.
   * `sent` is every list the store accepted, `embedded` every object the
   * vector store took.
   */
  method BatchEnrichment(store: ContractStore, vdb: VectorDb, chain: Chain, batchSize: nat, maxPasses: nat)
    returns (outcome: BatchOutcome, passes: nat, ghost sent: seq<seq<Record>>, ghost embedded: seq<Record>)
    requires store.Valid()
    modifies store, vdb
    ensures store.Valid()
    ensures passes <= maxPasses
    ensures store.graph == ApplyBatches(old(store.graph), sent)
    ensures Entries(embedded).Some? && vdb.entries == old(vdb.entries) + Entries(embedded).value
    ensures outcome == Drained ==> batchSize == 0 || store.Selection(Some(false)) == []
    ensures outcome == OutOfPasses ==> passes == maxPasses
    ensures |sent| <= passes
    ensures Replays(old(store.graph), chain, batchSize, sent)
    ensures outcome != Stopped ==> |sent| == (if outcome == Drained then passes - 1 else passes) && embedded == Concat(sent)
    ensures outcome == Stopped ==> embedded == Concat(sent) || (|sent| > 0 && embedded == Concat(sent[..|sent| - 1]))
  {
    passes, sent, embedded := 0, [], [];
    ghost var g0 := store.graph;
    while true
      invariant store.Valid()
      invariant passes <= maxPasses
      invariant store.graph == ApplyBatches(g0, sent)
      invariant Entries(embedded).Some? && vdb.entries == old(vdb.entries) + Entries(embedded).value
      invariant |sent| == passes && embedded == Concat(sent)
      invariant Replays(g0, chain, batchSize, sent)
      decreases maxPasses - passes
    {
      if passes == maxPasses {
        return OutOfPasses, passes, sent, embedded;
      }
      var pass, objs, mutated := EnrichPass(store, vdb, chain, batchSize);
      if mutated {
        ApplyBatchesAppend(g0, sent, objs);
        ConcatAppend(sent, objs);
        ReplaysAppend(g0, chain, batchSize, sent, objs);
        sent := sent + [objs];
      }
      if pass == Enriched {
        assert Entries(embedded + objs).Some? && vdb.entries == old(vdb.entries) + Entries(embedded + objs).value by {
          AppendEntries(old(vdb.entries), embedded, objs);
        }
        embedded := embedded + objs;
      }
      passes := passes + 1;
      if pass == Empty {
        return Drained, passes, sent, embedded;
      }
      if pass == Raised {
        return Stopped, passes, sent, embedded;
      }
    }
  }

  // ---- progress ----

  /** The answer sets no verification flag: it is missing, not an object, or its `verified_source` is absent or None. */
  predicate NoFlag(answer: Option<Value>)
  {
    answer.None? || !answer.value.Dict? || Lookup(answer.value.members, "verified_source") == Null
  }

  /** The answer is an object with a description that is not None. */
  predicate Describes(answer: Option<Value>)
  {
    answer.Some? && answer.value.Dict? && Lookup(answer.value.members, "description") != Null
  }

  /** The object written for an object answer reads the answer's fields under their prefixed names. */
  lemma ObjectOfAnswer(c: Record, ms: seq<(string, Value)>)
    ensures var o := AsObject(Enrich(Some(Dict(ms)), Filtered(c)));
      Get(o, VerifiedSourceKey) == Lookup(ms, "verified_source")
      && Get(o, DescriptionKey) == Lookup(ms, "description")
      && Get(o, UidKey) == Get(c, UidKey)
  {
    var f := Filtered(c);
    var r := Enrich(Some(Dict(ms)), f);
    FilteredCarriesIdentity(c, ms);
    PrefixedFlagKeys();
    FilteredKeepsIdentity(c);
    EnrichLookups(ms, f, "verified_source");
    EnrichLookups(ms, f, "description");
    ObjectGets(r, ms, c);
  }

  lemma PrefixedFlagKeys()
    ensures VerifiedSourceKey == Prefix + "verified_source" && DescriptionKey == Prefix + "description"
  {
  }

  lemma FilteredKeepsIdentity(c: Record)
    ensures UidKey in Filtered(c) && IdKey in Filtered(c)
  {
    assert UidKey == SentKeys[0] && IdKey == SentKeys[1];
  }

  /** The three fields of the written object are those of the enriched answer. */
  lemma ObjectGets(r: Value, ms: seq<(string, Value)>, c: Record)
    requires r.Dict?
    requires Lookup(r.members, VerifiedSourceKey) == Lookup(ms, "verified_source")
    requires Lookup(r.members, DescriptionKey) == Lookup(ms, "description")
    requires Lookup(r.members, UidKey) == Get(c, UidKey)
    ensures var o := AsObject(r);
      Get(o, VerifiedSourceKey) == Lookup(ms, "verified_source")
      && Get(o, DescriptionKey) == Lookup(ms, "description")
      && Get(o, UidKey) == Get(c, UidKey)
  {
  }

  /** What the object written for one contract does to the two fields the selection reads. */
  lemma ObjectFor(c: Record, answer: Option<Value>)
    requires NoFlag(answer)
    ensures var o := AsObject(Enrich(answer, Filtered(c)));
      VerifiedSourceKey !in SetKeys(o)
      && (Has(o, DescriptionKey) <==> Describes(answer))
      && (Describes(answer) ==> Get(o, UidKey) == Get(c, UidKey))
  {
    if answer.Some? && answer.value.Dict? {
      ObjectOfAnswer(c, answer.value.members);
    }
  }

  /** One set object: the verification flag stays, and a description appears only where the object brings one. */
  lemma SetStep(g: Graph, o: Record, v: string)
    requires v in g.data
    requires VerifiedSourceKey !in SetKeys(o)
    ensures Get(ApplySet(g, o).data[v], VerifiedSourceKey) == Get(g.data[v], VerifiedSourceKey)
    ensures Has(ApplySet(g, o).data[v], DescriptionKey) <==>
      Has(g.data[v], DescriptionKey) || (Get(o, UidKey) == Str(v) && Has(o, DescriptionKey))
  {
    assert Has(o, DescriptionKey) <==> DescriptionKey in SetKeys(o);
  }

  /** A whole list of set objects, by induction over the list. */
  lemma {:induction false} SetAllFlags(g: Graph, objs: seq<Record>, v: string)
    requires v in g.data
    requires forall o | o in objs :: VerifiedSourceKey !in SetKeys(o)
    ensures Get(ApplySetAll(g, objs).data[v], VerifiedSourceKey) == Get(g.data[v], VerifiedSourceKey)
    ensures Has(ApplySetAll(g, objs).data[v], DescriptionKey) <==>
      Has(g.data[v], DescriptionKey) || exists o | o in objs :: Get(o, UidKey) == Str(v) && Has(o, DescriptionKey)
    decreases |objs|
  {
    if |objs| > 0 {
      var g1 := ApplySet(g, objs[0]);
      assert ApplySetAll(g, objs) == ApplySetAll(g1, objs[1..]);
      SetStep(g, objs[0], v);
      assert forall o | o in objs[1..] :: o in objs;
      SetAllFlags(g1, objs[1..], v);
      DescribedSplit(objs, v);
    }
  }

  /** Some object of a non-empty list describes `v` exactly when its first one or one of the others does. */
  lemma DescribedSplit(objs: seq<Record>, v: string)
    requires |objs| > 0
    ensures (exists o | o in objs :: Get(o, UidKey) == Str(v) && Has(o, DescriptionKey)) <==>
      (Get(objs[0], UidKey) == Str(v) && Has(objs[0], DescriptionKey))
      || exists o | o in objs[1..] :: Get(o, UidKey) == Str(v) && Has(o, DescriptionKey)
  {
    assert objs == [objs[0]] + objs[1..];
    assert forall o | o in objs[1..] :: o in objs;
    assert objs[0] in objs;
  }

  /** A selection whose members can only leave is no longer, and shorter when one does leave. */
  lemma {:induction false} SelectShrinks(order: seq<string>, d1: map<string, Record>, d2: map<string, Record>, enriched: bool, u: string)
    requires forall x | x in order :: x in d1 && x in d2
    requires forall x | x in order :: InSelection(d2[x], enriched) ==> InSelection(d1[x], enriched)
    ensures |Select(order, d2, enriched)| <= |Select(order, d1, enriched)|
    ensures u in order && InSelection(d1[u], enriched) && !InSelection(d2[u], enriched) ==>
      |Select(order, d2, enriched)| < |Select(order, d1, enriched)|
    decreases |order|
  {
    if |order| > 0 {
      assert forall x | x in order[1..] :: x in order;
      SelectShrinks(order[1..], d1, d2, enriched, u);
      assert u in order ==> u == order[0] || u in order[1..] by {
        assert order == [order[0]] + order[1..];
      }
    }
  }

  /** A list that sets no verification flag and describes one unenriched node shortens the unenriched selection. */
  lemma ObjectsShrink(g: Graph, objs: seq<Record>, u: string, k: nat)
    requires g.Valid()
    requires forall o | o in objs :: VerifiedSourceKey !in SetKeys(o)
    requires u in g.data && InSelection(g.data[u], false)
    requires k < |objs| && Get(objs[k], UidKey) == Str(u) && Has(objs[k], DescriptionKey)
    ensures var g' := ApplySetAll(g, objs);
      |Select(g'.order, g'.data, false)| < |Select(g.order, g.data, false)|
  {
    var g' := ApplySetAll(g, objs);
    forall x | x in g.order ensures InSelection(g'.data[x], false) ==> InSelection(g.data[x], false) {
      SetAllFlags(g, objs, x);
    }
    SetAllFlags(g, objs, u);
    assert objs[k] in objs;
    SelectShrinks(g.order, g.data, g'.data, false, u);
  }

  /**
   * Progress of a pass: when no answer on the page sets the verification
   * flag and one answer brings a description, writing the page's list
   * makes the unenriched selection strictly shorter, so the next pass
   * reads a different first page.
   */
  lemma PassShrinks(g: Graph, chain: Chain, w: seq<string>, i: nat)
    requires g.Valid()
    requires i < |w| && forall u | u in w :: u in g.data && InSelection(g.data[u], false)
    requires PassObjects(chain, Records(g, w)).Some?
    requires forall j | 0 <= j < |w| :: NoFlag(chain(Filtered(Records(g, w)[j])))
    requires Describes(chain(Filtered(Records(g, w)[i])))
    ensures var g' := ApplySetAll(g, PassObjects(chain, Records(g, w)).value);
      |Select(g'.order, g'.data, false)| < |Select(g.order, g.data, false)|
  {
    var rs := Records(g, w);
    var objs := PassObjects(chain, rs).value;
    forall j | 0 <= j < |objs| ensures VerifiedSourceKey !in SetKeys(objs[j]) {
      ObjectFor(rs[j], chain(Filtered(rs[j])));
    }
    ObjectFor(rs[i], chain(Filtered(rs[i])));
    ProjectKeepsQueried(g.Node(w[i]), UidKey);
    ObjectsShrink(g, objs, w[i], i);
  }

  /**
   * The other side: when no answer on the page brings a description (the
   * chain failed, or answered without one), the unenriched selection is
   * unchanged and the next pass reads the same page again.
   */
  lemma UndescribedPassRepeats(g: Graph, chain: Chain, w: seq<string>)
    requires g.Valid()
    requires forall u | u in w :: u in g.data
    requires PassObjects(chain, Records(g, w)).Some?
    requires forall j | 0 <= j < |w| ::
      NoFlag(chain(Filtered(Records(g, w)[j]))) && !Describes(chain(Filtered(Records(g, w)[j])))
    ensures var g' := ApplySetAll(g, PassObjects(chain, Records(g, w)).value);
      Select(g'.order, g'.data, false) == Select(g.order, g.data, false)
  {
    var rs := Records(g, w);
    var objs := PassObjects(chain, rs).value;
    var g' := ApplySetAll(g, objs);
    forall j | 0 <= j < |objs| ensures VerifiedSourceKey !in SetKeys(objs[j]) && !Has(objs[j], DescriptionKey) {
      ObjectFor(rs[j], chain(Filtered(rs[j])));
    }
    forall x | x in g.order ensures InSelection(g'.data[x], false) == InSelection(g.data[x], false) {
      SetAllFlags(g, objs, x);
    }
    SelectStable(g.order, g.data, g'.data, false);
  }

  /**
   * A contract whose chain failed comes back as `{}`, which has no `uid`:
   * `add_embeddings` then raises for the whole page, after the mutation.
   */
  lemma FailedAnswerFailsEmbedding(chain: Chain, page: seq<Record>, i: nat)
    requires i < |page| && PassObjects(chain, page).Some?
    requires chain(Filtered(page[i])).None?
    ensures Entries(PassObjects(chain, page).value).None?
  {
    MissingUidFailsBatch(PassObjects(chain, page).value, i);
  }
}
