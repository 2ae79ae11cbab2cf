/**
 * The contract store behind `DgraphClient`: the `ContractDeployment` nodes in
 * uid order, the enriched/unenriched selection with offset pagination, the
 * count queries, lookup by id and by uid, set and delete mutations, the
 * shape of the embeddings mutation, the similarity annotation of vector
 * search results and the paging loop of the client's `main`.
 *
 * Whether the server answers a query or accepts a mutation is an oracle of
 * the store (`serves`, `accepts`); a refused request is the exception the
 * client re-raises.
 */
module DgraphClient {
  import opened PyValues
  import opened Deployment

  /** A read the client sends. */
  datatype Query =
    | ContractsPage(batchSize: nat, offset: nat, enriched: Option<bool>)
    | ContractsCount(filter: Option<bool>)
    | ContractById(id: string)
    | ContractByUid(uid: string)

  /** A write the client sends: one set object, a list of them in one transaction, or a delete object. */
  datatype Mutation = SetOne(obj: Record) | SetMany(objs: seq<Record>) | DeleteObj(obj: Record)

  /** Dgraph never stores null, so a key with a None value is no value. */
  predicate Has(r: Record, key: string)
  {
    key in r && r[key] != Null
  }

  predicate IsVerified(r: Record)
  {
    Get(r, VerifiedSourceKey) == Bool(true)
  }

  /** The `get_contracts` filter: verified, and described exactly when enriched ones are asked for. */
  predicate InSelection(r: Record, enriched: bool)
  {
    IsVerified(r) && (Has(r, DescriptionKey) <==> enriched)
  }

  /** `"" if enriched else "NOT"`: only a true flag selects the enriched records, so None behaves as False. */
  function WantsEnriched(enriched: Option<bool>): (e: bool)
    ensures e <==> enriched == Some(true)
  {
    enriched == Some(true)
  }

  /** The `get_contracts_count` filter: None counts every verified record. */
  predicate InCount(r: Record, filter: Option<bool>)
  {
    match filter
    case None => IsVerified(r)
    case Some(e) => InSelection(r, e)
  }

  /**
   * The graph: the uids of the `ContractDeployment` nodes in uid order, the
   * predicates of each (without `uid`), and the untyped nodes created by set
   * objects that carry no uid.
   */
  datatype Graph = Graph(order: seq<string>, data: map<string, Record>, orphans: seq<Record>)
  {
    ghost predicate Valid()
    {
      Distinct(order)
      && (forall u :: u in data <==> u in order)
      && (forall u | u in data :: UidKey !in data[u])
    }

    /** A node as a query returns it before projection: its predicates and its uid. */
    function Node(u: string): Record
      requires u in data
    {
      data[u][UidKey := Str(u)]
    }
  }

  predicate Distinct(s: seq<string>)
  {
    forall i, j | 0 <= i < j < |s| :: s[i] != s[j]
  }

  /** The uids a `get_contracts` filter selects, in uid order. */
  function Select(order: seq<string>, data: map<string, Record>, enriched: bool): (sel: seq<string>)
    requires forall u | u in order :: u in data
    ensures |sel| <= |order|
    ensures forall u | u in sel :: u in order && InSelection(data[u], enriched)
    ensures forall u | u in order && InSelection(data[u], enriched) :: u in sel
  {
    if |order| == 0 then []
    else (if InSelection(data[order[0]], enriched) then [order[0]] else []) + Select(order[1..], data, enriched)
  }

  /** A selection has no repeated uid when the order has none. */
  lemma {:induction false} SelectDistinct(order: seq<string>, data: map<string, Record>, enriched: bool)
    requires forall u | u in order :: u in data
    requires Distinct(order)
    ensures Distinct(Select(order, data, enriched))
  {
    if |order| > 0 {
      SelectDistinct(order[1..], data, enriched);
      var rest := Select(order[1..], data, enriched);
      assert order[0] !in order[1..] by {
        forall k | 0 <= k < |order| - 1 ensures order[1..][k] != order[0] {
          assert order[1..][k] == order[k + 1];
        }
      }
      assert order[0] !in rest;
      var sel := Select(order, data, enriched);
      if InSelection(data[order[0]], enriched) {
        assert sel == [order[0]] + rest;
        forall i, j | 0 <= i < j < |sel| ensures sel[i] != sel[j] {
          if i == 0 {
            assert sel[j] == rest[j - 1] && rest[j - 1] in rest;
          } else {
            assert sel[i] == rest[i - 1] && sel[j] == rest[j - 1];
          }
        }
      } else {
        assert sel == rest;
      }
    }
  }

  /** Changing only fields the filter does not read leaves a selection as it was. */
  lemma {:induction false} SelectStable(order: seq<string>, d1: map<string, Record>, d2: map<string, Record>, enriched: bool)
    requires forall u | u in order :: u in d1 && u in d2
    requires forall u | u in order :: InSelection(d1[u], enriched) == InSelection(d2[u], enriched)
    ensures Select(order, d1, enriched) == Select(order, d2, enriched)
  {
    if |order| > 0 {
      SelectStable(order[1..], d1, d2, enriched);
    }
  }

  /** The number of nodes a count filter matches. */
  function CountMatching(order: seq<string>, data: map<string, Record>, filter: Option<bool>): (n: nat)
    requires forall u | u in order :: u in data
    ensures n <= |order|
  {
    if |order| == 0 then 0
    else (if InCount(data[order[0]], filter) then 1 else 0) + CountMatching(order[1..], data, filter)
  }

  /** The enriched and unenriched counts partition the count of all verified records. */
  lemma {:induction false} CountPartition(order: seq<string>, data: map<string, Record>)
    requires forall u | u in order :: u in data
    ensures CountMatching(order, data, None)
      == CountMatching(order, data, Some(true)) + CountMatching(order, data, Some(false))
  {
    if |order| > 0 {
      CountPartition(order[1..], data);
    }
  }

  /** Each count is the size of the corresponding selection. */
  lemma {:induction false} CountIsSelectionSize(order: seq<string>, data: map<string, Record>, enriched: bool)
    requires forall u | u in order :: u in data
    ensures CountMatching(order, data, Some(enriched)) == |Select(order, data, enriched)|
  {
    if |order| > 0 {
      CountIsSelectionSize(order[1..], data, enriched);
    }
  }

  /** Only the queried predicates come back. */
  function Project(r: Record): (p: Record)
    ensures p.Keys == r.Keys * QueriedKeys
    ensures forall k | k in p :: p[k] == r[k]
  {
    map k | k in r.Keys * QueriedKeys :: r[k]
  }

  lemma ProjectKeepsQueried(r: Record, k: string)
    requires k in QueriedKeys
    ensures Get(Project(r), k) == Get(r, k)
  {
  }

  /** The projected records of selected uids are selected, carry only queried keys, and a text uid. */
  lemma SelectedRecords(g: Graph, w: seq<string>, enriched: bool)
    requires forall u | u in w :: u in g.data && InSelection(g.data[u], enriched)
    ensures forall r | r in Records(g, w) :: InSelection(r, enriched) && r.Keys <= QueriedKeys && Get(r, UidKey).Str?
  {
    var rs := Records(g, w);
    forall i | 0 <= i < |w| ensures InSelection(rs[i], enriched) && Get(rs[i], UidKey).Str? {
      var n := g.Node(w[i]);
      ProjectKeepsSelection(n, enriched);
      ProjectKeepsQueried(n, UidKey);
      assert Get(n, VerifiedSourceKey) == Get(g.data[w[i]], VerifiedSourceKey);
      assert Has(n, DescriptionKey) == Has(g.data[w[i]], DescriptionKey);
    }
  }

  /** Projection keeps what the filters look at, so a projected selected record is still selected. */
  lemma ProjectKeepsSelection(r: Record, enriched: bool)
    ensures InSelection(Project(r), enriched) <==> InSelection(r, enriched)
  {
    ProjectKeepsQueried(r, VerifiedSourceKey);
    ProjectKeepsQueried(r, DescriptionKey);
  }

  /** The records a query returns for a sequence of uids. */
  function Records(g: Graph, uids: seq<string>): (rs: seq<Record>)
    requires forall u | u in uids :: u in g.data
    ensures |rs| == |uids|
    ensures forall i | 0 <= i < |uids| :: rs[i] == Project(g.Node(uids[i]))
  {
    seq(|uids|, i requires 0 <= i < |uids| => Project(g.Node(uids[i])))
  }

  lemma RecordsConcat(g: Graph, a: seq<string>, b: seq<string>)
    requires forall u | u in a + b :: u in g.data
    ensures Records(g, a + b) == Records(g, a) + Records(g, b)
  {
  }

  /** Appending the next window's records to those before `offset` gives the records up to the window's end. */
  lemma NextPage(g: Graph, sel: seq<string>, batchSize: nat, offset: nat, acc: seq<Record>)
    requires forall u | u in sel :: u in g.data
    requires offset < |sel| && acc == Records(g, sel[..offset])
    ensures var next := offset + batchSize;
      (next <= |sel| ==> acc + Records(g, Window(sel, batchSize, offset)) == Records(g, sel[..next]))
      && (next > |sel| ==> acc + Records(g, Window(sel, batchSize, offset)) == Records(g, sel))
  {
    var upTo := if offset + batchSize >= |sel| then |sel| else offset + batchSize;
    assert sel[..upTo] == sel[..offset] + sel[offset..upTo];
    RecordsConcat(g, sel[..offset], sel[offset..upTo]);
    assert upTo == |sel| ==> sel[..upTo] == sel;
  }

  /** `first: size, offset: offset` applied to a selection. */
  function Window<T>(sel: seq<T>, batchSize: nat, offset: nat): (w: seq<T>)
    ensures |w| <= batchSize
    ensures offset >= |sel| ==> w == []
    ensures offset < |sel| && batchSize > 0 ==> |w| > 0
    ensures offset < |sel| ==> w == sel[offset..if offset + batchSize >= |sel| then |sel| else offset + batchSize]
    ensures forall x | x in w :: x in sel
  {
    if offset >= |sel| then []
    else if offset + batchSize >= |sel| then sel[offset..]
    else sel[offset..offset + batchSize]
  }

  /** The uids of the pages read before `offset`. */
  function Done(sel: seq<string>, offset: nat): (d: seq<string>)
    ensures offset < |sel| ==> d == sel[..offset]
    ensures offset >= |sel| ==> d == sel
  {
    if offset < |sel| then sel[..offset] else assert sel[..|sel|] == sel; sel
  }

  /** Pages read so far are a prefix of the selection: inside the graph and without repeats. */
  lemma DoneInSelection(g: Graph, sel: seq<string>, offset: nat)
    requires forall x | x in sel :: x in g.data
    ensures forall x | x in Done(sel, offset) :: x in g.data
    ensures Distinct(sel) ==> Distinct(Done(sel, offset))
  {
    if offset < |sel| {
      assert forall x | x in sel[..offset] :: x in sel;
    }
  }

  /** One more page: the uids read so far grow by the page's window. */
  lemma DoneAdvance(sel: seq<string>, offset: nat, batchSize: nat, next: nat)
    requires offset < |sel| && next == offset + batchSize
    ensures Done(sel, next) == Done(sel, offset) + Window(sel, batchSize, offset)
  {
    var end := if next >= |sel| then |sel| else next;
    assert sel[..|sel|] == sel;
    assert Done(sel, next) == sel[..end];
    assert sel[..end] == sel[..offset] + sel[offset..end];
  }

  /** A set object's values that Dgraph stores: every key but `uid` whose value is not None. */
  function SetKeys(obj: Record): set<string>
  {
    set k | k in obj && k != UidKey && obj[k] != Null
  }

  /** A set mutation on one node: the object's values replace the node's, everything else is kept. */
  function Merge(node: Record, obj: Record): (m: Record)
    ensures m.Keys == node.Keys + SetKeys(obj)
    ensures forall k | k in SetKeys(obj) :: m[k] == obj[k]
    ensures forall k | k in node && k !in SetKeys(obj) :: m[k] == node[k]
  {
    map k | k in node.Keys + SetKeys(obj) :: if k in SetKeys(obj) then obj[k] else node[k]
  }

  /** The keys a delete object clears: every key but `uid` mapped to None. */
  function DeleteKeys(obj: Record): set<string>
  {
    set k | k in obj && k != UidKey && obj[k] == Null
  }

  /** The graph after a set object: merged into the node its uid names, or a new untyped node when it names none. */
  function ApplySet(g: Graph, obj: Record): (g': Graph)
    ensures g'.order == g.order && g'.data.Keys == g.data.Keys
    ensures forall u | u in g.data && Get(obj, UidKey) != Str(u) :: g'.data[u] == g.data[u]
    ensures g.Valid() ==> g'.Valid()
  {
    match Get(obj, UidKey)
    case Str(u) => if u in g.data then g.(data := g.data[u := Merge(g.data[u], obj)]) else g
    case Null => if SetKeys(obj) == {} then g else g.(orphans := g.orphans + [Merge(map[], obj)])
    case _ => g
  }

  /** A list of set objects in one transaction, applied in order. */
  function ApplySetAll(g: Graph, objs: seq<Record>): (g': Graph)
    ensures g'.order == g.order && g'.data.Keys == g.data.Keys
    ensures g.Valid() ==> g'.Valid()
    decreases |objs|
  {
    if |objs| == 0 then g else ApplySetAll(ApplySet(g, objs[0]), objs[1..])
  }

  /**
   * A node after a delete object names it: a delete object that carries
   * nothing but `uid` removes every predicate of the node, as a Dgraph JSON
   * delete does; otherwise the cleared keys are removed.
   */
  function Cleared(node: Record, obj: Record): Record
  {
    if obj.Keys == {UidKey} then map[] else node - DeleteKeys(obj)
  }

  /** The graph after a delete object: the node its uid names cleared. */
  function ApplyDelete(g: Graph, obj: Record): (g': Graph)
    ensures g'.order == g.order && g'.data.Keys == g.data.Keys && g'.orphans == g.orphans
    ensures forall u | u in g.data && Get(obj, UidKey) != Str(u) :: g'.data[u] == g.data[u]
    ensures forall u | u in g.data && Get(obj, UidKey) == Str(u) :: g'.data[u] == Cleared(g.data[u], obj)
    ensures g.Valid() ==> g'.Valid()
  {
    match Get(obj, UidKey)
    case Str(u) => if u in g.data then g.(data := g.data[u := Cleared(g.data[u], obj)]) else g
    case _ => g
  }

  /** A delete object with only a stored uid leaves that node with no predicate, so it drops out of every selection. */
  lemma UidOnlyDeleteWipes(g: Graph, u: string, enriched: bool)
    requires g.Valid() && u in g.data
    ensures var g' := ApplyDelete(g, map[UidKey := Str(u)]);
      g'.data[u] == map[] && u !in Select(g'.order, g'.data, enriched)
  {
    var g' := ApplyDelete(g, map[UidKey := Str(u)]);
    assert Get(map[UidKey := Str(u)], UidKey) == Str(u);
    assert !InSelection(g'.data[u], enriched);
  }

  /** The set object `insert_embeddings` sends: an id and the JSON text of the vector, and no uid. */
  function EmbeddingsMutation(contractId: string, embeddings: seq<PyFloat>): (obj: Record)
    ensures obj.Keys == {IdKey, EmbeddingsKey}
    ensures obj[IdKey] == Str(contractId)
  {
    map[IdKey := Str(contractId),
        EmbeddingsKey := Str(Repr(List(seq(|embeddings|, i requires 0 <= i < |embeddings| => Float(embeddings[i])))))]
  }

  /** Without a uid, that mutation creates a new untyped node and never reaches the contract it names. */
  lemma EmbeddingsMutationCreatesNode(g: Graph, contractId: string, embeddings: seq<PyFloat>)
    ensures ApplySet(g, EmbeddingsMutation(contractId, embeddings))
      == g.(orphans := g.orphans + [EmbeddingsMutation(contractId, embeddings)])
  {
    var obj := EmbeddingsMutation(contractId, embeddings);
    assert SetKeys(obj) == obj.Keys;
    assert IdKey in SetKeys(obj);
    assert Merge(map[], obj) == obj;
  }

  /** Position `i` holds the first record of `rs` carrying the id. */
  predicate FirstMatch(rs: seq<Record>, id: string, i: int)
  {
    0 <= i < |rs| && Get(rs[i], IdKey) == Str(id) && forall j | 0 <= j < i :: Get(rs[j], IdKey) != Str(id)
  }

  /** The first record in `rs` carrying that id, or the empty record. */
  function FirstWithId(rs: seq<Record>, id: string): (r: Record)
    ensures r != map[] ==> exists i :: FirstMatch(rs, id, i) && r == rs[i]
    ensures (exists i | 0 <= i < |rs| :: Get(rs[i], IdKey) == Str(id)) ==> r != map[] && Get(r, IdKey) == Str(id)
    decreases |rs|
  {
    if |rs| == 0 then map[]
    else if Get(rs[0], IdKey) == Str(id) then
      assert FirstMatch(rs, id, 0);
      rs[0]
    else
      var r := FirstWithId(rs[1..], id);
      FirstMatchShift(rs, id, r);
      r
  }

  lemma FirstMatchShift(rs: seq<Record>, id: string, r: Record)
    requires |rs| > 0 && Get(rs[0], IdKey) != Str(id)
    requires r != map[] ==> exists i :: FirstMatch(rs[1..], id, i) && r == rs[1..][i]
    requires (exists i | 0 <= i < |rs[1..]| :: Get(rs[1..][i], IdKey) == Str(id)) ==> r != map[] && Get(r, IdKey) == Str(id)
    ensures r != map[] ==> exists i :: FirstMatch(rs, id, i) && r == rs[i]
    ensures (exists i | 0 <= i < |rs| :: Get(rs[i], IdKey) == Str(id)) ==> r != map[] && Get(r, IdKey) == Str(id)
  {
    if r != map[] {
      var i :| FirstMatch(rs[1..], id, i) && r == rs[1..][i];
      assert forall j | 1 <= j < i + 1 :: rs[j] == rs[1..][j - 1];
      assert FirstMatch(rs, id, i + 1);
    }
    if i :| 0 <= i < |rs| && Get(rs[i], IdKey) == Str(id) {
      assert rs[1..][i - 1] == rs[i];
    }
  }

  /** Position `i` of the uid order holds the first node carrying the id. */
  ghost predicate FirstNodeWithId(g: Graph, id: string, i: int)
    requires g.Valid()
  {
    0 <= i < |g.order| && Get(g.data[g.order[i]], IdKey) == Str(id)
    && forall j | 0 <= j < i :: Get(g.data[g.order[j]], IdKey) != Str(id)
  }

  ghost predicate NoNodeWithId(g: Graph, id: string)
  {
    forall u | u in g.data :: Get(g.data[u], IdKey) != Str(id)
  }

  /** A stored record carries the id of its node. */
  lemma RecordIds(g: Graph)
    requires g.Valid()
    ensures forall j | 0 <= j < |g.order| :: Get(Records(g, g.order)[j], IdKey) == Get(g.data[g.order[j]], IdKey)
  {
    forall j | 0 <= j < |g.order| ensures Get(Records(g, g.order)[j], IdKey) == Get(g.data[g.order[j]], IdKey) {
      ProjectKeepsQueried(g.Node(g.order[j]), IdKey);
    }
  }

  /** The lookup by id over a store's records and orphans finds a node that carries the id. */
  lemma CarriedIdFound(g: Graph, id: string)
    requires g.Valid()
    ensures !NoNodeWithId(g, id) ==> FirstWithId(Records(g, g.order) + g.orphans, id) != map[]
  {
    if NoNodeWithId(g, id) {
      return;
    }
    var rs := Records(g, g.order) + g.orphans;
    RecordIds(g);
    var u :| u in g.data && Get(g.data[u], IdKey) == Str(id);
    var j :| 0 <= j < |g.order| && g.order[j] == u;
    assert rs[j] == Records(g, g.order)[j];
    assert Get(rs[j], IdKey) == Str(id);
  }

  /**
   * A record found by id over a store's records and orphans is the
   * projection of the first node in uid order carrying the id, or, when no
   * node carries it, an orphan.
   */
  lemma FoundIsFirst(g: Graph, id: string)
    requires g.Valid()
    ensures var r := FirstWithId(Records(g, g.order) + g.orphans, id);
      r != map[] ==>
        (exists i :: FirstNodeWithId(g, id, i) && r == Project(g.Node(g.order[i])))
        || (NoNodeWithId(g, id) && r in g.orphans)
  {
    var rs := Records(g, g.order) + g.orphans;
    var r := FirstWithId(rs, id);
    if r != map[] {
      var i :| FirstMatch(rs, id, i) && r == rs[i];
      if i < |g.order| {
        FoundNode(g, id, rs, i);
      } else {
        FoundOrphan(g, id, rs, i);
      }
    }
  }

  lemma FoundNode(g: Graph, id: string, rs: seq<Record>, i: nat)
    requires g.Valid() && rs == Records(g, g.order) + g.orphans
    requires FirstMatch(rs, id, i) && i < |g.order|
    ensures FirstNodeWithId(g, id, i) && rs[i] == Project(g.Node(g.order[i]))
  {
    var a := Records(g, g.order);
    RecordIds(g);
    forall j | 0 <= j <= i ensures Get(g.data[g.order[j]], IdKey) == Get(rs[j], IdKey) {
      assert rs[j] == a[j];
    }
  }

  lemma FoundOrphan(g: Graph, id: string, rs: seq<Record>, i: nat)
    requires g.Valid() && rs == Records(g, g.order) + g.orphans
    requires FirstMatch(rs, id, i) && i >= |g.order|
    ensures NoNodeWithId(g, id) && rs[i] in g.orphans
  {
    var a := Records(g, g.order);
    assert rs[i] == g.orphans[i - |a|];
    RecordIds(g);
    forall u | u in g.data ensures Get(g.data[u], IdKey) != Str(id) {
      var j :| 0 <= j < |g.order| && g.order[j] == u;
      assert rs[j] == a[j];
    }
  }

  class ContractStore {
    var graph: Graph
    const serves: Query -> bool
    const accepts: Mutation -> bool

    constructor (initial: Graph, serves: Query -> bool, accepts: Mutation -> bool)
      ensures graph == initial
      ensures this.serves == serves && this.accepts == accepts
    {
      this.graph := initial;
      this.serves := serves;
      this.accepts := accepts;
    }

    ghost predicate Valid()
      reads this
    {
      graph.Valid()
    }

    /** The uids `get_contracts` walks through over all its pages. */
    function Selection(enriched: Option<bool>): (sel: seq<string>)
      reads this
      requires Valid()
      ensures forall u | u in sel :: u in graph.data
    {
      Select(graph.order, graph.data, WantsEnriched(enriched))
    }

    /** `get_contracts(batch_size, offset, enriched)`; None is the re-raised query failure. */
    function GetContracts(batchSize: nat, offset: nat, enriched: Option<bool>): (page: Option<seq<Record>>)
      reads this
      requires Valid()
      ensures page.Some? <==> serves(ContractsPage(batchSize, offset, enriched))
      ensures page.Some? ==> page.value == Records(graph, Window(Selection(enriched), batchSize, offset))
      ensures page.Some? ==> |page.value| <= batchSize
      ensures page.Some? ==> forall r | r in page.value ::
        InSelection(r, WantsEnriched(enriched)) && r.Keys <= QueriedKeys && Get(r, UidKey).Str?
      ensures page.Some? ==> (page.value == [] <==> batchSize == 0 || offset >= |Selection(enriched)|)
    {
      if !serves(ContractsPage(batchSize, offset, enriched)) then None
      else
        var w := Window(Selection(enriched), batchSize, offset);
        SelectedRecords(graph, w, WantsEnriched(enriched));
        Some(Records(graph, w))
    }

    /** `get_contracts_count(enriched)`. */
    function GetContractsCount(filter: Option<bool>): (n: Option<nat>)
      reads this
      requires Valid()
      ensures n.Some? <==> serves(ContractsCount(filter))
      ensures n.Some? && filter.Some? ==> n.value == |Selection(filter)|
    {
      if !serves(ContractsCount(filter)) then None
      else
        CountIsSelectionSize(graph.order, graph.data, true);
        CountIsSelectionSize(graph.order, graph.data, false);
        Some(CountMatching(graph.order, graph.data, filter))
    }

    /** `get_contract_by_id(id)`: the first node carrying that id, or `{}`. */
    function GetContractById(id: string): (r: Option<Record>)
      reads this
      requires Valid()
      ensures r.Some? <==> serves(ContractById(id))
      ensures r.Some? && r.value != map[] ==> Get(r.value, IdKey) == Str(id)
      ensures r.Some? && !NoNodeWithId(graph, id) ==> r.value != map[]
      ensures r.Some? && r.value != map[] ==>
        (exists i :: FirstNodeWithId(graph, id, i) && r.value == Project(graph.Node(graph.order[i])))
        || (NoNodeWithId(graph, id) && r.value in graph.orphans)
    {
      if !serves(ContractById(id)) then None
      else
        CarriedIdFound(graph, id);
        FoundIsFirst(graph, id);
        Some(FirstWithId(Records(graph, graph.order) + graph.orphans, id))
    }

    /** `get_contract_by_uid(uid)`: the node with that uid, as a list of at most one record. */
    function GetContractByUid(uid: string): (rs: Option<seq<Record>>)
      reads this
      requires Valid()
      ensures rs.Some? <==> serves(ContractByUid(uid))
      ensures rs.Some? ==> |rs.value| <= 1 && forall r | r in rs.value :: Get(r, UidKey) == Str(uid)
      ensures rs.Some? ==> (rs.value == [] <==> uid !in graph.data)
    {
      if !serves(ContractByUid(uid)) then None
      else if uid in graph.data then
        ProjectKeepsQueried(graph.Node(uid), UidKey);
        Some([Project(graph.Node(uid))])
      else Some([])
    }

    /** `mutate(obj)`: one set object in its own transaction. */
    method Mutate(obj: Record) returns (ok: bool)
      requires Valid()
      modifies this
      ensures Valid()
      ensures ok == accepts(SetOne(obj))
      ensures graph == if ok then ApplySet(old(graph), obj) else old(graph)
    {
      ok := accepts(SetOne(obj));
      if ok {
        graph := ApplySet(graph, obj);
      }
    }

    /** `mutate(objs)` with a list: every object applied in one transaction, or none. */
    method MutateAll(objs: seq<Record>) returns (ok: bool)
      requires Valid()
      modifies this
      ensures Valid()
      ensures ok == accepts(SetMany(objs))
      ensures graph == if ok then ApplySetAll(old(graph), objs) else old(graph)
    {
      ok := accepts(SetMany(objs));
      if ok {
        graph := ApplySetAll(graph, objs);
      }
    }

    /** A transaction with one delete object. */
    method Delete(obj: Record) returns (ok: bool)
      requires Valid()
      modifies this
      ensures Valid()
      ensures ok == accepts(DeleteObj(obj))
      ensures graph == if ok then ApplyDelete(old(graph), obj) else old(graph)
    {
      ok := accepts(DeleteObj(obj));
      if ok {
        graph := ApplyDelete(graph, obj);
      }
    }

    /**
     * The paging loop of `main`: pages of 50 (here `batchSize`) at growing
     * offsets until the first empty page, their records concatenated.
     */
    method FetchAll(batchSize: nat, enriched: bool) returns (all: Option<seq<Record>>)
      requires Valid()
      ensures batchSize > 0 && all.Some? ==> all.value == Records(graph, Selection(Some(enriched)))
      ensures batchSize == 0 && all.Some? ==> all.value == []
      ensures (forall off: nat :: serves(ContractsPage(batchSize, off, Some(enriched)))) ==> all.Some?
    {
      ghost var sel := Selection(Some(enriched));
      var acc: seq<Record> := [];
      var offset: nat := 0;
      while true
        invariant offset <= |sel| ==> acc == Records(graph, sel[..offset])
        invariant offset > |sel| ==> acc == Records(graph, sel)
        invariant batchSize == 0 ==> offset == 0 && acc == []
        decreases |sel| - offset
      {
        var page := GetContracts(batchSize, offset, Some(enriched));
        if page.None? {
          return None;
        }
        if page.value == [] {
          return Some(acc);
        }
        NextPage(graph, sel, batchSize, offset, acc);
        acc := acc + page.value;
        offset := offset + batchSize;
      }
    }
  }

  // ---- similarity annotation of vector search results ----

  const CosineKey := "cosine_similarity"

  predicate ZeroNorm(v: seq<real>)
  {
    forall k | 0 <= k < |v| :: v[k] == 0.0
  }

  /**
   * The numeric side of the annotation, left to oracles: `fromJson` for
   * `json.loads` of a text, `fromList` for `np.array` of a list (None where
   * either raises), `cosine` for the quotient of the dot product by the norms.
   */
  datatype Numerics = Numerics(
    fromJson: string -> Option<seq<real>>,
    fromList: seq<Value> -> Option<seq<real>>,
    cosine: (seq<real>, seq<real>) -> PyFloat)

  const ZeroSimilarity := Float(PyFloat(0.0, "0.0"))

  /** The stored embedding as a vector, or None where the conversion raises. */
  function EmbeddingVector(emb: Value, num: Numerics): Option<seq<real>>
  {
    match emb
    case Str(s) => num.fromJson(s)
    case List(items) => num.fromList(items)
    case _ => None
  }

  /** The `cosine_similarity` a result receives. */
  function Similarity(emb: Value, query: seq<real>, num: Numerics): (c: Value)
    ensures emb == Null ==> c == Null
    ensures EmbeddingVector(emb, num).None? ==> c == Null
    ensures EmbeddingVector(emb, num).Some? && (ZeroNorm(EmbeddingVector(emb, num).value) || ZeroNorm(query))
      ==> c == ZeroSimilarity
    ensures c == Null || c == ZeroSimilarity || c.Float?
  {
    match EmbeddingVector(emb, num)
    case None => Null
    case Some(v) =>
      if !ZeroNorm(v) && !ZeroNorm(query) then
        if |v| != |query| then Null else Float(num.cosine(v, query))
      else ZeroSimilarity
  }

  /** A result with its similarity added; every other key is kept. */
  function Annotated(r: Record, query: seq<real>, num: Numerics): (a: Record)
    ensures a.Keys == r.Keys + {CosineKey}
    ensures forall k | k in r && k != CosineKey :: a[k] == r[k]
  {
    r[CosineKey := Similarity(Get(r, EmbeddingsKey), query, num)]
  }

  /** The loop of `vector_search`: each result dict gains its `cosine_similarity` in place. */
  method AnnotateResults(results: array<Record>, query: seq<real>, num: Numerics)
    modifies results
    ensures forall i | 0 <= i < results.Length :: results[i] == Annotated(old(results[i]), query, num)
  {
    var i := 0;
    while i < results.Length
      invariant 0 <= i <= results.Length
      invariant forall j | 0 <= j < i :: results[j] == Annotated(old(results[j]), query, num)
      invariant forall j | i <= j < results.Length :: results[j] == old(results[j])
    {
      results[i] := Annotated(results[i], query, num);
      i := i + 1;
    }
  }

  /** The annotation neither drops nor reorders results: each keeps its own fields and gains one key. */
  lemma AnnotationKeepsResults(rs: seq<Record>, query: seq<real>, num: Numerics, i: nat)
    requires i < |rs|
    ensures var a := seq(|rs|, j requires 0 <= j < |rs| => Annotated(rs[j], query, num));
      |a| == |rs| && a[i] - {CosineKey} == rs[i] - {CosineKey} && CosineKey in a[i]
  {
    var a := seq(|rs|, j requires 0 <= j < |rs| => Annotated(rs[j], query, num));
    assert a[i] == Annotated(rs[i], query, num);
    assert a[i] - {CosineKey} == rs[i] - {CosineKey};
  }
}
