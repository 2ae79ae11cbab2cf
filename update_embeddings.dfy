/**
 * `update_embeddings`: walks the enriched contracts page by page and hands
 * each page to the vector store; `get_contracts_stats`: the three counts.
 */
module UpdateEmbeddings {
  import opened PyValues
  import opened Deployment
  import opened DgraphClient
  import opened VectorDbClient

  /** The uids of the pages the store returns carry a uid and only queried keys, so each page makes a batch. */
  lemma StoreBatch(g: Graph, us: seq<string>)
    requires forall u | u in us :: u in g.data
    ensures Entries(Records(g, us)).Some?
  {
    var rs := Records(g, us);
    forall i | 0 <= i < |rs| ensures EntryFor(rs[i]).Some? {
      ProjectKeepsQueried(g.Node(us[i]), UidKey);
      StoreRecordText(rs[i]);
    }
  }

  /** The batch rows of the records of `us`. */
  function Rows(g: Graph, us: seq<string>): (es: seq<Entry>)
    requires forall u | u in us :: u in g.data
    ensures |es| == |us|
    ensures forall i | 0 <= i < |us| :: es[i].id == Str(us[i]) && es[i].metadata == map[MetadataKey := Str(us[i])]
  {
    StoreBatch(g, us);
    var rs := Records(g, us);
    assert forall i | 0 <= i < |us| :: Get(rs[i], UidKey) == Str(us[i]) by {
      forall i | 0 <= i < |us| ensures Get(rs[i], UidKey) == Str(us[i]) {
        ProjectKeepsQueried(g.Node(us[i]), UidKey);
      }
    }
    Entries(rs).value
  }

  lemma RowsConcat(g: Graph, a: seq<string>, b: seq<string>)
    requires forall u | u in a + b :: u in g.data
    ensures Rows(g, a + b) == Rows(g, a) + Rows(g, b)
  {
    RecordsConcat(g, a, b);
    StoreBatch(g, a);
    StoreBatch(g, b);
    EntriesConcat(Records(g, a), Records(g, b));
  }

  lemma AppendRows(e0: seq<Entry>, g: Graph, a: seq<string>, w: seq<string>)
    requires forall u | u in a + w :: u in g.data
    ensures (e0 + Rows(g, a)) + Rows(g, w) == e0 + Rows(g, a + w)
  {
    RowsConcat(g, a, w);
  }

  /**
   * One page of the loop: the page's rows are offered to the vector store;
   * the counter and the embedded uids grow only when the store takes them.
   */
  method EmbedPage(vdb: VectorDb, ghost g: Graph, page: seq<Record>, ghost w: seq<string>)
    returns (ok: bool)
    requires forall u | u in w :: u in g.data
    requires page == Records(g, w)
    modifies vdb
    ensures ok == vdb.accepts(Rows(g, w))
    ensures vdb.entries == if ok then old(vdb.entries) + Rows(g, w) else old(vdb.entries)
  {
    StoreBatch(g, w);
    ok := vdb.AddEmbeddings(page);
  }

  /**
   * `update_embeddings(batch_size)`. `offered` is the uids of every page
   * handed to `add_embeddings`, `embedded` those of the pages it took;
   * `raised` is an exception from the store, which propagates.
   */
  method UpdateEmbeddings(store: ContractStore, vdb: VectorDb, batchSize: nat)
    returns (processed: nat, raised: bool, ghost offered: seq<string>, ghost embedded: seq<string>)
    requires store.Valid()
    modifies vdb
    ensures processed == |embedded| <= |offered|
    ensures forall u | u in embedded :: u in offered
    ensures forall u | u in embedded :: u in store.graph.data
    ensures vdb.entries == old(vdb.entries) + Rows(store.graph, embedded)
    ensures store.GetContractsCount(Some(true)).None? ==> raised && offered == []
    ensures store.GetContractsCount(Some(true)) == Some(0) ==> !raised && offered == [] && vdb.entries == old(vdb.entries)
    ensures !raised && batchSize > 0 ==> offered == store.Selection(Some(true))
    ensures (forall b :: vdb.accepts(b)) ==> embedded == offered
  {
    processed, raised, offered, embedded := 0, false, [], [];
    var total := store.GetContractsCount(Some(true));
    if total.None? {
      raised := true;
      return;
    }
    if total.value == 0 {
      return;
    }
    ghost var g := store.graph;
    ghost var sel := store.Selection(Some(true));
    var offset: nat := 0;
    assert Done(sel, 0) == [];
    while processed < total.value
      invariant offered == Done(sel, offset)
      invariant batchSize == 0 ==> offset == 0
      invariant processed == |embedded| <= |offered|
      invariant forall u | u in embedded :: u in offered
      invariant forall u | u in offered :: u in g.data
      invariant vdb.entries == old(vdb.entries) + Rows(g, embedded)
      invariant (forall b :: vdb.accepts(b)) ==> embedded == offered
      decreases |sel| - offset
    {
      var page := store.GetContracts(batchSize, offset, Some(true));
      if page.None? {
        raised := true;
        return;
      }
      if page.value == [] {
        break;
      }
      var next := offset + batchSize;
      ghost var w := Window(sel, batchSize, offset);
      DoneAdvance(sel, offset, batchSize, next);
      DoneInSelection(g, sel, next);
      var ok := EmbedPage(vdb, g, page.value, w);
      if ok {
        assert vdb.entries == old(vdb.entries) + Rows(g, embedded + w) by {
          AppendRows(old(vdb.entries), g, embedded, w);
        }
        processed := processed + |page.value|;
        embedded := embedded + w;
        offset := next;
      } else {
        offset := next;
      }
      offered := offered + w;
    }
  }

  /** `get_contracts_stats`: the counts for None, True and False under total, enriched and non_enriched. */
  function ContractsStats(store: ContractStore): (stats: Option<Record>)
    reads store
    requires store.Valid()
    ensures stats.Some? <==> (store.GetContractsCount(None).Some?
      && store.GetContractsCount(Some(true)).Some? && store.GetContractsCount(Some(false)).Some?)
    ensures stats.Some? ==> (stats.value.Keys == {"total", "enriched", "non_enriched"}
      && stats.value["total"] == Int(store.GetContractsCount(None).value)
      && stats.value["enriched"] == Int(|store.Selection(Some(true))|)
      && stats.value["non_enriched"] == Int(|store.Selection(Some(false))|))
  {
    match store.GetContractsCount(None)
    case None => None
    case Some(total) =>
      match store.GetContractsCount(Some(true))
      case None => None
      case Some(enriched) =>
        match store.GetContractsCount(Some(false))
        case None => None
        case Some(nonEnriched) =>
          Some(map["total" := Int(total), "enriched" := Int(enriched), "non_enriched" := Int(nonEnriched)])
  }

  /** The statistics are consistent: the total is the enriched plus the non-enriched count. */
  lemma StatsPartition(store: ContractStore)
    requires store.Valid()
    requires ContractsStats(store).Some?
    ensures ContractsStats(store).value["total"].i
      == ContractsStats(store).value["enriched"].i + ContractsStats(store).value["non_enriched"].i
  {
    CountPartition(store.graph.order, store.graph.data);
    CountIsSelectionSize(store.graph.order, store.graph.data, true);
    CountIsSelectionSize(store.graph.order, store.graph.data, false);
  }
}
