/**
 * `VectorDBManager`: the configuration checks of its constructor, the three
 * parallel lists `add_embeddings` builds for one Chroma `add`, the zipping
 * of a Chroma query result in `search`, and the `get_retriever` default.
 *
 * The embedder and the Chroma collection are oracles: whether an `add` of a
 * batch goes through, and what a query answers, are constants of the store.
 */
module VectorDbClient {
  import opened PyValues
  import opened Text
  import opened Deployment

  // ---- configuration ----

  datatype ConfigError =
    | FileNotFound
    | YamlError
    | NotADict
    | MissingChroma
    | ChromaNotADict
    | MissingPersistDirectory
    | ChromaInitFailed

  datatype Outcome<T> = Ok(value: T) | Failed(error: ConfigError)

  /** What the constructor settles on: the collection name and the persist directory. */
  datatype Settings = Settings(collectionName: Value, persistDirectory: Value)

  /**
   * `load_config`: `file` is None when the path does not exist, Some(None)
   * when `yaml.safe_load` raises, and otherwise the parsed document.
   */
  function LoadConfig(file: Option<Option<Value>>): (r: Outcome<seq<(string, Value)>>)
    ensures file.None? ==> r == Failed(FileNotFound)
    ensures file == Some(None) ==> r == Failed(YamlError)
    ensures file.Some? && file.value.Some? ==> (r.Ok? <==> file.value.value.Dict?)
    ensures r.Ok? ==> Dict(r.value) == file.value.value
  {
    match file
    case None => Failed(FileNotFound)
    case Some(None) => Failed(YamlError)
    case Some(Some(doc)) => if doc.Dict? then Ok(doc.members) else Failed(NotADict)
  }

  /** `collection_name or config.get("collection_name", "contracts")`. */
  function CollectionName(arg: Option<string>, config: seq<(string, Value)>): (name: Value)
    ensures arg.Some? && arg.value != "" ==> name == Str(arg.value)
    ensures (arg.None? || arg.value == "") && HasKey(config, "collection_name") ==> name == Lookup(config, "collection_name")
    ensures (arg.None? || arg.value == "") && !HasKey(config, "collection_name") ==> name == Str("contracts")
  {
    if arg.Some? && arg.value != "" then Str(arg.value) else LookupOr(config, "collection_name", Str("contracts"))
  }

  /**
   * The constructor: load the file, pick the collection name, require a
   * `chroma` section with a truthy `persist_directory`, and open the client
   * (`opens` says whether `PersistentClient` and the collection come up).
   */
  function Configure(file: Option<Option<Value>>, arg: Option<string>, opens: (Value, Value) -> bool): (r: Outcome<Settings>)
    ensures LoadConfig(file).Failed? ==> r == Failed(LoadConfig(file).error)
    ensures LoadConfig(file).Ok? && !HasKey(LoadConfig(file).value, "chroma") ==> r == Failed(MissingChroma)
    ensures r.Ok? ==>
      var config := LoadConfig(file).value;
      var chroma := Lookup(config, "chroma");
      HasKey(config, "chroma") && chroma.Dict?
      && r.value.collectionName == CollectionName(arg, config)
      && r.value.persistDirectory == Lookup(chroma.members, "persist_directory")
      && Truthy(r.value.persistDirectory)
      && opens(r.value.persistDirectory, r.value.collectionName)
    ensures LoadConfig(file).Ok? && HasKey(LoadConfig(file).value, "chroma") ==>
      var chroma := Lookup(LoadConfig(file).value, "chroma");
      (!chroma.Dict? ==> r == Failed(ChromaNotADict))
      && (chroma.Dict? && !Truthy(LookupOr(chroma.members, "persist_directory", Null)) ==> r == Failed(MissingPersistDirectory))
  {
    match LoadConfig(file)
    case Failed(e) => Failed(e)
    case Ok(config) =>
      var name := CollectionName(arg, config);
      if !HasKey(config, "chroma") then Failed(MissingChroma)
      else
        var chroma := Lookup(config, "chroma");
        if !chroma.Dict? then Failed(ChromaNotADict)
        else
          var dir := LookupOr(chroma.members, "persist_directory", Null);
          if !Truthy(dir) then Failed(MissingPersistDirectory)
          else if !opens(dir, name) then Failed(ChromaInitFailed)
          else Ok(Settings(name, dir))
  }

  /** `get_retriever`: the search arguments, `{"k": 5}` when none are given. */
  function RetrieverArgs(searchKwargs: Option<Record>): (args: Record)
    ensures searchKwargs.None? ==> args == map["k" := Int(5)]
    ensures searchKwargs.Some? ==> args == searchKwargs.value
  {
    if searchKwargs.None? then map["k" := Int(5)] else searchKwargs.value
  }

  // ---- embedding input ----

  const DomainKey := "ContractDeployment.domain"
  const FunctionalityKey := "ContractDeployment.functionality"
  const RisksKey := "ContractDeployment.security_risks"
  const MetadataKey := "dgraph_id"

  /** Python iteration over a value: list items, the characters of a text, the keys of a dict; None where it raises. */
  function Iterate(v: Value): (items: Option<seq<Value>>)
    ensures v.List? ==> items == Some(v.items)
    ensures v.Str? ==> items.Some? && |items.value| == |v.s|
    ensures items.None? <==> !(v.List? || v.Str? || v.Dict?)
  {
    match v
    case List(xs) => Some(xs)
    case Str(s) => Some(seq(|s|, k requires 0 <= k < |s| => Str([s[k]])))
    case Dict(members) => Some(seq(|members|, k requires 0 <= k < |members| => Str(members[k].0)))
    case _ => None
  }

  /** `sep.join(v)`: every item must be a text. */
  function JoinValue(sep: string, v: Value): (t: Option<string>)
    ensures t.Some? <==> Iterate(v).Some? && forall x | x in Iterate(v).value :: x.Str?
    ensures v.List? && |v.items| == 0 ==> t == Some("")
  {
    match Iterate(v)
    case None => None
    case Some(xs) =>
      if forall x | x in xs :: x.Str? then
        Some(Join(sep, seq(|xs|, k requires 0 <= k < |xs| => xs[k].s)))
      else None
  }

  /** The document text of one contract, None where building it raises. */
  function EmbeddingText(c: Record): (t: Option<string>)
    ensures t.Some? <==> JoinValue(", ", GetOr(c, RisksKey, List([]))).Some?
    ensures t.Some? ==> (t.value ==
      "domain " + PyStr(Get(c, DomainKey))
      + " functionality " + PyStr(GetOr(c, FunctionalityKey, Str("")))
      + " security risks " + JoinValue(", ", GetOr(c, RisksKey, List([]))).value)
  {
    match JoinValue(", ", GetOr(c, RisksKey, List([])))
    case None => None
    case Some(risks) =>
      Some("domain " + PyStr(Get(c, DomainKey))
        + " functionality " + PyStr(GetOr(c, FunctionalityKey, Str("")))
        + " security risks " + risks)
  }

  /**
   * None of the three keys is a predicate the contract queries return, so
   * every record read from the store gets the same document text.
   */
  lemma StoreRecordText(r: Record)
    requires r.Keys <= QueriedKeys
    ensures EmbeddingText(r) == Some("domain None functionality  security risks ")
  {
    StoreRecordLacksKeys(r);
    MissingKeysText(r);
    DefaultsText();
  }

  lemma DefaultsText()
    ensures "domain " + "None" + " functionality " + "" + " security risks " + ""
      == "domain None functionality  security risks "
  {
  }

  lemma StoreRecordLacksKeys(r: Record)
    requires r.Keys <= QueriedKeys
    ensures DomainKey !in r && FunctionalityKey !in r && RisksKey !in r
  {
    assert forall k | k in QueriedKeys :: |k| != 25 && |k| != 32 && |k| != 33;
    assert |DomainKey| == 25 && |FunctionalityKey| == 32 && |RisksKey| == 33;
  }

  /** A contract without the three keys gets the text of their defaults. */
  lemma MissingKeysText(c: Record)
    requires DomainKey !in c && FunctionalityKey !in c && RisksKey !in c
    ensures EmbeddingText(c) == Some("domain " + "None" + " functionality " + "" + " security risks " + "")
  {
    assert PyStr(Get(c, DomainKey)) == "None";
    assert JoinValue(", ", GetOr(c, RisksKey, List([]))) == Some("");
  }

  /** One row of the batch: the document, the id and the metadata. */
  datatype Entry = Entry(id: Value, document: string, metadata: Record)

  /** The row for one contract, None where building it raises. */
  function EntryFor(c: Record): (e: Option<Entry>)
    ensures e.Some? <==> EmbeddingText(c).Some? && UidKey in c
    ensures e.Some? ==> e.value == Entry(c[UidKey], EmbeddingText(c).value, map[MetadataKey := c[UidKey]])
  {
    match EmbeddingText(c)
    case None => None
    case Some(text) => if UidKey in c then Some(Entry(c[UidKey], text, map[MetadataKey := c[UidKey]])) else None
  }

  /** The rows of a batch, in contract order; None when any contract makes the loop raise. */
  function Entries(cs: seq<Record>): (es: Option<seq<Entry>>)
    ensures es.Some? <==> forall i | 0 <= i < |cs| :: EntryFor(cs[i]).Some?
    ensures es.Some? ==> |es.value| == |cs| && forall i | 0 <= i < |cs| :: es.value[i] == EntryFor(cs[i]).value
  {
    if forall i | 0 <= i < |cs| :: EntryFor(cs[i]).Some? then
      Some(seq(|cs|, i requires 0 <= i < |cs| => EntryFor(cs[i]).value))
    else None
  }

  /** A contract without `uid` fails the whole batch. */
  lemma MissingUidFailsBatch(cs: seq<Record>, i: nat)
    requires i < |cs| && UidKey !in cs[i]
    ensures Entries(cs).None?
  {
  }

  /** Rows of two batches are the rows of the joined batch. */
  lemma EntriesConcat(a: seq<Record>, b: seq<Record>)
    requires Entries(a).Some? && Entries(b).Some?
    ensures Entries(a + b) == Some(Entries(a).value + Entries(b).value)
  {
    assert forall i | 0 <= i < |a + b| :: EntryFor((a + b)[i]).Some? by {
      forall i | 0 <= i < |a + b| ensures EntryFor((a + b)[i]).Some? {
        if i < |a| { assert (a + b)[i] == a[i]; } else { assert (a + b)[i] == b[i - |a|]; }
      }
    }
    var ea, eb := Entries(a).value, Entries(b).value;
    assert Entries(a + b).value == ea + eb by {
      forall i | 0 <= i < |a + b| ensures Entries(a + b).value[i] == (ea + eb)[i] {
        if i < |a| { assert (a + b)[i] == a[i]; } else { assert (a + b)[i] == b[i - |a|]; }
      }
    }
  }

  // ---- search results ----

  /** `results.get(key, [[]])[0]` followed by iteration; None where either raises. */
  function FirstList(results: Record, key: string): (xs: Option<seq<Value>>)
  {
    match GetOr(results, key, List([List([])]))
    case List(outer) => if |outer| == 0 then None else Iterate(outer[0])
    case Str(s) => if |s| == 0 then None else Iterate(Str([s[0]]))
    case _ => None
  }

  function Min(a: nat, b: nat): nat
  {
    if a <= b then a else b
  }

  /** `[{"content": doc, "metadata": meta} for doc, meta in zip(documents, metadatas)]`. */
  function Zip(docs: seq<Value>, metas: seq<Value>): (rs: seq<Record>)
    ensures |rs| == Min(|docs|, |metas|)
    ensures forall i | 0 <= i < |rs| :: rs[i].Keys == {"content", "metadata"}
    ensures forall i | 0 <= i < |rs| :: rs[i]["content"] == docs[i] && rs[i]["metadata"] == metas[i]
  {
    seq(Min(|docs|, |metas|), i requires 0 <= i < Min(|docs|, |metas|) => map["content" := docs[i], "metadata" := metas[i]])
  }

  /** With lists of equal length the zip loses nothing: both lists read back from the records. */
  lemma ZipUnzip(docs: seq<Value>, metas: seq<Value>)
    requires |docs| == |metas|
    ensures var rs := Zip(docs, metas);
      seq(|rs|, i requires 0 <= i < |rs| => rs[i]["content"]) == docs
      && seq(|rs|, i requires 0 <= i < |rs| => rs[i]["metadata"]) == metas
  {
  }

  /** The formatting step of `search` on a query result. */
  function SearchResults(results: Record): (rs: Option<seq<Record>>)
    ensures rs.Some? <==> FirstList(results, "documents").Some? && FirstList(results, "metadatas").Some?
    ensures rs.Some? ==> rs.value == Zip(FirstList(results, "documents").value, FirstList(results, "metadatas").value)
  {
    match FirstList(results, "documents")
    case None => None
    case Some(docs) =>
      match FirstList(results, "metadatas")
      case None => None
      case Some(metas) => Some(Zip(docs, metas))
  }

  /** A result without either key reads as one empty list for each, and gives no hits. */
  lemma EmptyResults()
    ensures SearchResults(map[]) == Some([])
  {
  }

  /**
   * The Chroma collection behind the manager: the rows added so far, in
   * order; `accepts` says whether embedding and adding a batch go through,
   * `answer` what a query of `k` hits returns.
   */
  class VectorDb {
    var entries: seq<Entry>
    const accepts: seq<Entry> -> bool
    const answer: (seq<Entry>, string, nat) -> Option<Record>

    constructor (initial: seq<Entry>, accepts: seq<Entry> -> bool, answer: (seq<Entry>, string, nat) -> Option<Record>)
      ensures entries == initial
      ensures this.accepts == accepts && this.answer == answer
    {
      entries := initial;
      this.accepts := accepts;
      this.answer := answer;
    }

    /**
     * `add_embeddings(contracts)`: the three lists are built one contract at
     * a time and handed to a single `add`; on any exception nothing is added.
     */
    method AddEmbeddings(contracts: seq<Record>) returns (ok: bool)
      modifies this
      ensures ok <==> Entries(contracts).Some? && accepts(Entries(contracts).value)
      ensures entries == if ok then old(entries) + Entries(contracts).value else old(entries)
    {
      var texts: seq<string> := [];
      var ids: seq<Value> := [];
      var metadatas: seq<Record> := [];
      var i := 0;
      while i < |contracts|
        invariant 0 <= i <= |contracts|
        invariant |texts| == i && |ids| == i && |metadatas| == i
        invariant forall j | 0 <= j < i :: EntryFor(contracts[j]) == Some(Entry(ids[j], texts[j], metadatas[j]))
      {
        var text := EmbeddingText(contracts[i]);
        if text.None? || UidKey !in contracts[i] {
          return false;
        }
        texts := texts + [text.value];
        ids := ids + [contracts[i][UidKey]];
        metadatas := metadatas + [map[MetadataKey := contracts[i][UidKey]]];
        i := i + 1;
      }
      var batch := seq(i, j requires 0 <= j < i => Entry(ids[j], texts[j], metadatas[j]));
      assert batch == Entries(contracts).value;
      ok := accepts(batch);
      if ok {
        entries := entries + batch;
      }
    }

    /** `search(query, k)`: the query's answer, formatted; None where the query or the formatting raises. */
    function Search(query: string, k: nat): (rs: Option<seq<Record>>)
      reads this
      ensures rs.Some? <==> answer(entries, query, k).Some? && SearchResults(answer(entries, query, k).value).Some?
      ensures rs.Some? ==> rs.value == SearchResults(answer(entries, query, k).value).value
    {
      match answer(entries, query, k)
      case None => None
      case Some(results) => SearchResults(results)
    }
  }
}
