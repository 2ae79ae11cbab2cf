# Contract store bookkeeping, modelled in Dafny

This project models the deterministic core of a smart-contract search
system. Contract deployments live in a Dgraph store. Background tasks
give each contract a content-derived identifier, enrich it through a
language model, and index its description in a vector store. An HTTP
API and an MCP (Model Context Protocol) JSON-RPC endpoint answer
queries over the store.

What the model covers:

- `values.dfy` (`PyValues`): the Python and JSON values the code passes
  around, and the Python built-ins it relies on: `dict.get`, truthiness,
  `str()` and ordered JSON objects.
- `text.dfy` (`Text`): the string methods the code calls: `split`,
  `join`, `replace`, `strip`, `lower` and `in`.
- `deployment.dfy` (`Deployment`): the `ContractDeployment.*` field names.
- `contract_id.dfy` (`ContractIds`): `generate_contract_id`. SHA-256 is
  a parameter: any function from text to a 64-character hex digest.
- `dgraph_client.dfy` (`DgraphClient`): the store.
  - The graph is a class `ContractStore` whose methods apply set and
    delete mutations.
  - Its queries are functions: the enriched and unenriched selection,
    the counts, lookup by id and by uid, and paging.
  - The module also models the in-place cosine annotation loop of
    `vector_search`.
  - Whether Dgraph answers a query or accepts a mutation is an oracle
    fixed when the store is built.
- `assign_ids.dfy` (`AssignContractIds`): the batch identifier backfill,
  its verification count and the gating in `main`.
- `batch_enrichment.dfy` (`BatchEnrichment`): the fetch, enrich, mutate
  and embed loop, and why it terminates when progress is made.
- `update_embeddings.dfy` (`UpdateEmbeddings`): the paging loop that
  re-indexes every enriched contract, and the statistics.
- `llm_enrichment.dfy` (`LlmEnrichment`): result shaping in
  `SemanticEnricher.enrich`, `preprocess`, and `process_contracts`.
- `vectordb_client.dfy` (`VectorDbClient`): the configuration checks,
  the three parallel lists of `add_embeddings`, and the result zip of
  `search`.
- `delete_fields.dfy` (`DeleteFields`): `ArrayFieldDeleter` and its
  two explicit-list modes.
- `api.dfy` (`Api`): `parse_dgraph_entity`, the rule-based query
  enhancer, the no-client refinement path, and the two search handlers'
  result shaping.
- `mcp.dfy` (`Mcp`): the JSON-RPC 2.0 dispatcher for MCP protocol
  version `2025-03-26`, its server state, and batch handling.
- `export.dfy` (`Export`), `transform_target.dfy` (`TransformTarget`)
  and `address_badge.dfy` (`AddressBadge`): the CSV cell formatting,
  the evaluation-query cleaning, and the web badge's address shortening
  and explorer link.

External services are parameters of the model: SHA-256, the language
model, token counting, the embedder, Chroma and the regular-expression
rules. A service that can fail returns an `Option`, where `None`
stands for the exception.

## Model

| member | source | states |
|---|---|---|
| ContractIds.ShortHash | impl/system/src/core/data_access/dgraph_client.py:80 | the identifier is sixteen lower-case hex characters |
| ContractIds.SourceCodeHash | impl/system/src/core/data_access/dgraph_client.py:67-74 | falsy source code gives `""`; truthy code that is not a string raises at `.encode()` (None); a string gives its short hash |
| ContractIds.GenerateContractId | impl/system/src/core/data_access/dgraph_client.py:48-93 | every identifier produced is sixteen hex characters |
| ContractIds.SameIdentitySameId | impl/system/src/core/data_access/dgraph_client.py:50-80 | two records that agree on the eight identity fields get the same identifier, whatever else they hold |
| ContractIds.OtherFieldKeepsId | impl/system/src/core/data_access/dgraph_client.py:50-80 | writing any field outside the identity fields, `ContractDeployment.id` included, leaves the identifier unchanged |
| ContractIds.RaisesExactly | impl/system/src/core/data_access/dgraph_client.py:48-93 | the call raises exactly when the source code is truthy but not a string and the address is present but not a string |
| ContractIds.FallbackUsesAddress | impl/system/src/core/data_access/dgraph_client.py:87-93 | when the main path raises, the identifier is the short hash of the address, or of `"unknown"` when the address is missing |
| ContractIds.IdStringSplits | impl/system/src/core/data_access/dgraph_client.py:77 | the id string joins the eight parts with the bar separator in the source's order, and splits back into them when no part holds a bar |
| ContractIds.DistinctPartsDistinctIdString | impl/system/src/core/data_access/dgraph_client.py:77 | records whose eight parts differ, none holding a bar, are hashed from different id strings |
| ContractIds.EmptyRecordId | impl/system/src/core/data_access/dgraph_client.py:50-77 | a record with no identity field hashes four empty parts, `False`, an empty part, `False` and an empty part, joined by bars: missing fields default to `""`, the two flags to `False` |
| DgraphClient.WantsEnriched | impl/system/src/core/data_access/dgraph_client.py:147 | only a truthy `enriched` selects described contracts; None and False select undescribed ones |
| DgraphClient.Select | impl/system/src/core/data_access/dgraph_client.py:145-147 | the selection is exactly the verified contracts whose having a description matches `enriched`, in uid order |
| DgraphClient.SelectDistinct | impl/system/src/core/data_access/dgraph_client.py:145-147 | the selection lists no contract twice |
| DgraphClient.SelectStable | impl/system/src/core/data_access/dgraph_client.py:145-147 | the selection depends only on each node's membership in the filter |
| DgraphClient.CountPartition | impl/system/src/core/data_access/dgraph_client.py:341-349 | count(None) = count(True) + count(False) |
| DgraphClient.CountIsSelectionSize | impl/system/src/core/data_access/dgraph_client.py:341-367 | the count with a filter is the length of the matching selection |
| DgraphClient.Project | impl/system/src/core/data_access/dgraph_client.py:148-166 | a returned record holds exactly the queried predicates that the node has, with the node's values |
| DgraphClient.ProjectKeepsSelection | impl/system/src/core/data_access/dgraph_client.py:145-166 | a projected record passes the filter exactly when its node does |
| DgraphClient.SelectedRecords | impl/system/src/core/data_access/dgraph_client.py:145-166 | every record of a selected page passes the filter, holds only queried keys and carries its string uid |
| DgraphClient.Records | impl/system/src/core/data_access/dgraph_client.py:145-172 | one projected record per selected uid, in order |
| DgraphClient.RecordsConcat | impl/system/src/core/data_access/dgraph_client.py:145-172 | reading two runs of uids is reading their concatenation |
| DgraphClient.Window | impl/system/src/core/data_access/dgraph_client.py:145 | `first: batch_size, offset: offset` is the slice of the selection from `offset`, at most `batch_size` long, empty past the end |
| DgraphClient.Done | impl/system/src/core/data_access/dgraph_client.py:608-631 | the part of the selection before an offset |
| DgraphClient.DoneAdvance | impl/system/src/core/data_access/dgraph_client.py:614-615 | advancing the offset by the batch size appends exactly the page read at the old offset |
| DgraphClient.NextPage | impl/system/src/core/data_access/dgraph_client.py:608-631 | the accumulated list plus the next page is the records of the selection up to the new offset |
| DgraphClient.Merge | impl/system/src/core/data_access/dgraph_client.py:278-296 | a set mutation overwrites the object's non-null predicates and keeps the node's others |
| DgraphClient.ApplySet | impl/system/src/core/data_access/dgraph_client.py:278-296 | a set object changes at most the node its uid names, keeps the uid order and the store's invariant |
| DgraphClient.ApplySetAll | impl/system/src/core/data_access/dgraph_client.py:278-296 | a list of set objects keeps the uid order, the node set and the invariant |
| DgraphClient.ApplyDelete | impl/system/tasks/delete.py:105-116 | a delete object removes exactly its null-valued predicates from the node its uid names, and one carrying only the uid removes every predicate; nothing else is touched |
| DgraphClient.EmbeddingsMutation | impl/system/src/core/data_access/dgraph_client.py:307-310 | the `insert_embeddings` object has exactly the id and the embeddings |
| DgraphClient.EmbeddingsMutationCreatesNode | impl/system/src/core/data_access/dgraph_client.py:298-329 | having no uid, that object creates a new node instead of updating the contract |
| DgraphClient.FirstWithId | impl/system/src/core/data_access/dgraph_client.py:218-225 | the first record with the id (no earlier record has it), or `{}` exactly when none has it |
| DgraphClient.ContractStore.GetContracts | impl/system/src/core/data_access/dgraph_client.py:131-180 | an answered query returns the window of the selection, at most `batch_size` records, all passing the filter; empty exactly when `batch_size` is 0 or the offset is past the end |
| DgraphClient.ContractStore.GetContractsCount | impl/system/src/core/data_access/dgraph_client.py:331-374 | an answered count with a filter is the selection's size |
| DgraphClient.ContractStore.GetContractById | impl/system/src/core/data_access/dgraph_client.py:182-230 | a non-empty answer carries the requested id and is the projection of the first node in uid order with that id, or an orphan record when no node has it; a stored contract with that id is always found |
| DgraphClient.UidOnlyDeleteWipes | impl/system/tasks/delete.py:105-116 | a delete object holding only a uid leaves that node with no predicates, so it leaves every `get_contracts` selection |
| DgraphClient.RecordIds | impl/system/src/core/data_access/dgraph_client.py:182-230 | the records the id lookup walks are the projections of the nodes in uid order followed by the orphans |
| DgraphClient.CarriedIdFound | impl/system/src/core/data_access/dgraph_client.py:218-225 | when some node carries the id, the lookup finds a record |
| DgraphClient.FoundIsFirst | impl/system/src/core/data_access/dgraph_client.py:218-225 | the record the lookup returns is the first node in uid order with the id, or an orphan when no node has it |
| DgraphClient.FoundNode | impl/system/src/core/data_access/dgraph_client.py:218-225 | a first match among the node records is the first node with the id |
| DgraphClient.FoundOrphan | impl/system/src/core/data_access/dgraph_client.py:218-225 | a first match past the node records is an orphan, and no node has the id |
| DgraphClient.ContractStore.GetContractByUid | impl/system/src/core/data_access/dgraph_client.py:232-276 | at most one record, carrying the uid; empty exactly when no node has the uid |
| DgraphClient.ContractStore.Mutate | impl/system/src/core/data_access/dgraph_client.py:278-296 | an accepted mutation applies the set object; a rejected one changes nothing |
| DgraphClient.ContractStore.MutateAll | impl/system/src/core/data_access/dgraph_client.py:278-296 | a list mutation applies all its objects or none |
| DgraphClient.ContractStore.Delete | impl/system/tasks/delete.py:105-116 | an accepted delete applies the delete object; a rejected one changes nothing |
| DgraphClient.ContractStore.FetchAll | impl/system/src/core/data_access/dgraph_client.py:600-631 | paging until the first empty page collects every selected record in order; when every page is answered, the loop finishes |
| DgraphClient.Similarity | impl/system/src/core/data_access/dgraph_client.py:428-461 | a missing or unparseable embedding gives None; a zero-norm vector gives 0.0; otherwise a float |
| DgraphClient.Annotated | impl/system/src/core/data_access/dgraph_client.py:461 | the result gains `cosine_similarity` and keeps every other key and value |
| DgraphClient.AnnotateResults | impl/system/src/core/data_access/dgraph_client.py:427-466 | every result, in place and in order, becomes its annotated version |
| DgraphClient.AnnotationKeepsResults | impl/system/src/core/data_access/dgraph_client.py:427-466 | annotation neither drops nor reorders results and changes nothing but the similarity key |
| AssignContractIds.NeedingIds | impl/system/tasks/assign_contract_ids.py:43-48 | exactly the contracts whose id is missing or falsy, in page order |
| AssignContractIds.NeedingIdsConcat | impl/system/tasks/assign_contract_ids.py:43-48 | filtering two pages is filtering their concatenation |
| AssignContractIds.IdMutation | impl/system/tasks/assign_contract_ids.py:58-64 | each mutation holds exactly the contract's uid and its generated identifier |
| AssignContractIds.IdMutations | impl/system/tasks/assign_contract_ids.py:56-65 | one mutation per contract needing an id, in order |
| AssignContractIds.PlanConcat | impl/system/tasks/assign_contract_ids.py:43-65 | the mutations of two pages are those of their concatenation |
| AssignContractIds.ApplyAcceptedConcat | impl/system/tasks/assign_contract_ids.py:76-87 | sending two runs of mutations one after the other is sending their concatenation; the success counts add up |
| AssignContractIds.ApplyAcceptedUntouched | impl/system/tasks/assign_contract_ids.py:76-87 | a node no mutation names is unchanged |
| AssignContractIds.PlanOfConcat | impl/system/tasks/assign_contract_ids.py:33-103 | the mutations planned for two runs of uids concatenate |
| AssignContractIds.PlanIsPlanOf | impl/system/tasks/assign_contract_ids.py:43-65 | the mutations prepared from a page are those planned node by node |
| AssignContractIds.BackfillEffect | impl/system/tasks/assign_contract_ids.py:33-103 | after the backfill a node holds its generated id exactly when it was visited, needed one and its mutation was accepted; every other node is unchanged |
| AssignContractIds.SelectionKept | impl/system/tasks/assign_contract_ids.py:33-103 | writing ids never moves a contract out of the enriched selection, so later offsets still name the same contracts |
| AssignContractIds.BackfillCompletes | impl/system/tasks/assign_contract_ids.py:33-103 | when every mutation is accepted, no visited contract needs an id any more |
| AssignContractIds.StepInPlan | impl/system/tasks/assign_contract_ids.py:43-65 | every visited contract that needs an id has its mutation in the plan |
| AssignContractIds.PrepareMutations | impl/system/tasks/assign_contract_ids.py:43-65 | the page's mutations, or None when generating an identifier raises |
| AssignContractIds.FilterNeedingIds | impl/system/tasks/assign_contract_ids.py:44-48 | the filter loop builds `NeedingIds` |
| AssignContractIds.GenerateMutations | impl/system/tasks/assign_contract_ids.py:56-65 | the generation loop builds one mutation per contract, or stops with None where an identifier raises |
| AssignContractIds.SubmitMutations | impl/system/tasks/assign_contract_ids.py:72-91 | every prepared mutation is tried once, in order, in sub-batches of `min(10, n)`; the count is the accepted ones; a failure skips only that mutation |
| AssignContractIds.SendSubBatch | impl/system/tasks/assign_contract_ids.py:79-87 | one sub-batch: each mutation tried once; the count is the accepted ones |
| AssignContractIds.AssignIdsToContracts | impl/system/tasks/assign_contract_ids.py:14-118 | the store is the old one with the attempted mutations applied and `total_updated` counts the accepted ones; whatever way the run ends, what it attempted is the plan for a prefix of the enriched selection, and a finished run attempted exactly the plan of the whole selection |
| AssignContractIds.BackfillPage | impl/system/tasks/assign_contract_ids.py:33-103 | one pass of the loop: an empty page ends it, a raising generation ends it with the count so far, otherwise the page's plan is sent and the offset advances |
| AssignContractIds.ProcessPage | impl/system/tasks/assign_contract_ids.py:43-101 | a page's mutations are sent when every identifier is generated; the count is the accepted ones |
| AssignContractIds.NextPage | impl/system/tasks/assign_contract_ids.py:33-103 | after a page, the attempted mutations are the plan up to the new offset and the selection is unchanged |
| AssignContractIds.PageUntouched | impl/system/tasks/assign_contract_ids.py:33-103 | the page at an offset is read as it was at the start: earlier mutations touched only earlier contracts |
| AssignContractIds.CountPage | impl/system/tasks/assign_contract_ids.py:143-151 | with and without counts of a page add up to its length; without counts the contracts needing an id |
| AssignContractIds.VerifyContractIds | impl/system/tasks/assign_contract_ids.py:121-168 | `with_ids + without_ids == total`; all zeros on error; when every page is answered, the counts describe the whole enriched selection |
| AssignContractIds.CountAdvance | impl/system/tasks/assign_contract_ids.py:143-153 | the running counts after a page are those of the selection up to the new offset |
| AssignContractIds.AssignMain | impl/system/tasks/assign_contract_ids.py:280-303 | the assignment and the second verification run exactly when the first verification found contracts without ids; otherwise the store is unchanged |
| DeleteFields.DeleteObject | impl/system/tasks/delete.py:105-111 | the delete object is the uid plus each requested field, and nothing else |
| DeleteFields.DeleteObjectShape | impl/system/tasks/delete.py:105-111 | the object deletes exactly the requested fields (the uid aside) and names the given uid unless `uid` itself was requested |
| DeleteFields.ApplyDeletesAppend | impl/system/tasks/delete.py:49-51 | deleting from one more target applies one more delete object |
| DeleteFields.ApplyDeletesEffect | impl/system/tasks/delete.py:49-51 | after the deletes, a node listed among the targets has lost exactly the requested fields (everything, for an empty field list); every other node is unchanged |
| DeleteFields.DeleteKeepsSelection | impl/system/tasks/delete.py:69-86 | deleting fields other than `verified_source` and `description` keeps every contract's place in the enriched selection, so the all-mode offsets stay valid |
| DeleteFields.DeleteFromUid | impl/system/tasks/delete.py:97-121 | an accepted delete applies the delete object for the uid; a failure is swallowed and changes nothing |
| DeleteFields.ContractIdTarget | impl/system/tasks/delete.py:134-145 | only a truthy uid of a found contract is a target |
| DeleteFields.DeleteFromContractId | impl/system/tasks/delete.py:123-152 | the fields are deleted exactly when the id resolves to a contract with a truthy uid and the delete is accepted; otherwise nothing changes |
| DeleteFields.FirstWithIdFront | impl/system/src/core/data_access/dgraph_client.py:218-225 | the first match lies in the front part when there is one there |
| DeleteFields.ByIdFindsNode | impl/system/tasks/delete.py:136-147 | when one node has the id, the lookup finds that node's uid |
| DeleteFields.IdResolvesToNode | impl/system/tasks/delete.py:136-147 | a contract id held by exactly one node with a non-empty uid resolves to that uid |
| DeleteFields.TruthyUids | impl/system/tasks/delete.py:76-80 | the truthy uids of a page, in order: the ones the all-mode loop deletes from and counts |
| DeleteFields.TruthyUidsConcat | impl/system/tasks/delete.py:76-80 | the truthy uids of two pages concatenate |
| DeleteFields.StorePageUids | impl/system/tasks/delete.py:76-80 | on a page of stored contracts with non-empty uids, every uid is counted |
| DeleteFields.DoneStep | impl/system/tasks/delete.py:69-86 | the uids visited after a page are those of the selection up to the new offset |
| DeleteFields.DeletePage | impl/system/tasks/delete.py:76-80 | the count grows by the truthy uids of the page; only those uids are deleted from; a page deletion keeps the selection when the fields allow it |
| DeleteFields.DeleteStep | impl/system/tasks/delete.py:69-86 | one pass: an empty page stops, a page shorter than `batch_size` is the last one, a raised query stops with nothing changed |
| DeleteFields.DeleteAllEnriched | impl/system/tasks/delete.py:64-86 | the count is the number of truthy uids visited; with fields that keep the selection, no error and non-empty uids, every enriched contract is visited once |
| DeleteFields.ApplyDeletesConcat | impl/system/tasks/delete.py:49-86 | deleting from two runs of targets is deleting from their concatenation |
| DeleteFields.ModeOf | impl/system/tasks/delete.py:46-64 | non-empty `uids` win over non-empty `contract_ids`, which win over all contracts |
| DeleteFields.DeleteArrayFields | impl/system/tasks/delete.py:14-95 | missing fields default to functionalities, standards and patterns; in list modes the count is the list's length even where deletions failed; in uid mode the targets are exactly the uids; in contract-id mode, with fields that keep ids, the targets are the uids the ids resolve to in the store as it was, in order; in all-contracts mode, under the conditions of `DeleteAllEnriched`, every enriched contract is a target |
| DeleteFields.IdTarget | impl/system/tasks/delete.py:134-145 | the uid a contract id resolves to: the first record's truthy uid, or nothing |
| DeleteFields.TargetsIn | impl/system/tasks/delete.py:54-63 | the uids a run of contract ids resolves to, in order, skipping the ids that resolve to nothing |
| DeleteFields.TargetsInStep | impl/system/tasks/delete.py:54-63 | one more id adds its resolved uid, if any, at the end |
| DeleteFields.ContractIdTargetIn | impl/system/tasks/delete.py:134-145 | the store's contract-id target is the resolution of the id in its graph |
| DeleteFields.FirstWithIdAgree | impl/system/src/core/data_access/dgraph_client.py:218-225 | two record lists that agree on each record's id and uid find the same uid for every id |
| DeleteFields.DeleteKeepsRecordIds | impl/system/tasks/delete.py:105-116 | a delete of a non-empty field list without the id keeps every record's id and uid |
| DeleteFields.DeleteKeepsLookupKeys | impl/system/tasks/delete.py:105-116 | such a delete keeps the ids and uids of the records every lookup walks |
| DeleteFields.DeleteKeepsIdTarget | impl/system/tasks/delete.py:54-63 | such a delete leaves the uid every contract id resolves to unchanged |
| DeleteFields.DeleteByUids | impl/system/tasks/delete.py:46-53 | each uid gets its delete in order; the count is the number of uids and the targets are exactly the uids |
| DeleteFields.DeleteByContractIds | impl/system/tasks/delete.py:54-63 | each id gets the delete of the uid it resolves to; the count is the number of ids, and with fields that keep ids the targets are the resolutions in the store as it was |
| BatchEnrichment.KeysOf | impl/system/tasks/batch_enrichment.py:19 | the keys of a JSON object |
| BatchEnrichment.AsObject | impl/system/tasks/batch_enrichment.py:19 | an enrichment result as the set object Dgraph reads: an object's fields, an empty object otherwise |
| BatchEnrichment.PassObjects | impl/system/tasks/batch_enrichment.py:18-19 | one set object per fetched contract, in order, from `process_contracts`; None where it raises |
| BatchEnrichment.EnrichPass | impl/system/tasks/batch_enrichment.py:13-24 | one pass reads the first unenriched page of the store as it was (no offset); an empty page ends the loop; otherwise every result goes to one mutation and, when the list is non-empty, the same list is embedded |
| BatchEnrichment.ApplyBatchesAppend | impl/system/tasks/batch_enrichment.py:19 | the store after one more pass is the store before with that pass's list applied |
| BatchEnrichment.AppendEntries | impl/system/tasks/batch_enrichment.py:22 | embedding two lists one after the other adds the entries of their concatenation |
| BatchEnrichment.BatchEnrichment | impl/system/tasks/batch_enrichment.py:7-24 | the store is the old one with every pass's list applied, and each list is what `process_contracts` makes of the page left by the lists before it; at most one list per pass; every list but perhaps the last of a stopped run is embedded, and the vector store gained exactly those entries; the loop ends drained only when no unenriched contract is left |
| BatchEnrichment.ReplaysAppend | impl/system/tasks/batch_enrichment.py:12-19 | a pass that writes what `process_contracts` makes of the current page extends the run's account by that list |
| BatchEnrichment.ObjectOfAnswer | impl/system/src/core/data_processing/llm_enrichment.py:208-212 | the set object of an answer carries the answer's `verified_source` and `description` under their prefixed names, and the contract's uid |
| BatchEnrichment.ObjectFor | impl/system/src/core/data_processing/llm_enrichment.py:202-221 | an answer that sets no flag writes a description exactly when it brings one, and then to the contract it came from |
| BatchEnrichment.SetStep | impl/system/tasks/batch_enrichment.py:19 | one set object keeps the verification flag and adds a description only to the node it names |
| BatchEnrichment.SetAllFlags | impl/system/tasks/batch_enrichment.py:19 | a list of set objects keeps the flag, and a node ends up described exactly when it was or one object describes it |
| BatchEnrichment.SelectShrinks | impl/system/tasks/batch_enrichment.py:13 | when no node enters the selection, it does not grow; when one leaves it, it shrinks |
| BatchEnrichment.ObjectsShrink | impl/system/tasks/batch_enrichment.py:13-19 | a list that sets no flag and describes one unenriched node shortens the unenriched selection |
| BatchEnrichment.PassShrinks | impl/system/tasks/batch_enrichment.py:12-24 | a pass in which no answer sets the flag and one answer brings a description makes the unenriched selection strictly shorter, so the loop makes progress |
| BatchEnrichment.UndescribedPassRepeats | impl/system/tasks/batch_enrichment.py:12-24 | a pass in which no answer brings a description leaves the unenriched selection as it was, so the next pass reads the same page again |
| BatchEnrichment.FailedAnswerFailsEmbedding | impl/system/tasks/batch_enrichment.py:18-22 | a failed enrichment returns an empty object without uid, which makes `add_embeddings` fail for the whole list |
| UpdateEmbeddings.StoreBatch | impl/system/tasks/update_embeddings.py:32-42 | a page read from the store always has its uids, so its entries can be built |
| UpdateEmbeddings.Rows | impl/system/tasks/update_embeddings.py:42 | the entries of a page: one per contract, with the uid as id and `{"dgraph_id": uid}` as metadata |
| UpdateEmbeddings.RowsConcat | impl/system/tasks/update_embeddings.py:42 | the entries of two pages concatenate |
| UpdateEmbeddings.AppendRows | impl/system/tasks/update_embeddings.py:41-44 | adding one page after another adds the entries of both, in order |
| UpdateEmbeddings.EmbedPage | impl/system/tasks/update_embeddings.py:41-54 | an accepted page adds its entries; a failed one adds nothing |
| UpdateEmbeddings.UpdateEmbeddings | impl/system/tasks/update_embeddings.py:14-64 | a failed count raises before any page; a count of 0 returns before any page; otherwise every enriched contract is offered once, in order, and `processed_count` counts the contracts of the accepted pages only |
| UpdateEmbeddings.ContractsStats | impl/system/tasks/update_embeddings.py:67-89 | the three counts for None, True and False under `total`, `enriched` and `non_enriched` |
| UpdateEmbeddings.StatsPartition | impl/system/tasks/update_embeddings.py:74-87 | `total == enriched + non_enriched` |
| LlmEnrichment.Prefixed | impl/system/src/core/data_processing/llm_enrichment.py:208-210 | every key of the answer gains the `ContractDeployment.` prefix, value and order kept |
| LlmEnrichment.PrefixedLookup | impl/system/src/core/data_processing/llm_enrichment.py:208-210 | looking up the prefixed key in the prefixed answer finds what the answer held under the plain key |
| LlmEnrichment.PrefixedKeys | impl/system/src/core/data_processing/llm_enrichment.py:208-210 | every key of the prefixed answer starts with `ContractDeployment.` |
| LlmEnrichment.Enrich | impl/system/src/core/data_processing/llm_enrichment.py:200-221 | a chain that raises still returns `{}` because of the `return` in `finally`; an answer that is not an object is returned as it came |
| LlmEnrichment.EnrichObject | impl/system/src/core/data_processing/llm_enrichment.py:208-212 | for an object answer and data holding both ids, the result is the prefixed answer followed by `uid` and `id` |
| LlmEnrichment.EnrichLookups | impl/system/src/core/data_processing/llm_enrichment.py:208-212 | the result finds every answered field under its prefixed name, the data's `uid` under `uid` and its `ContractDeployment.id` under `id` |
| LlmEnrichment.EnrichKeys | impl/system/src/core/data_processing/llm_enrichment.py:208-212 | every key of the result is `uid`, `id` or a prefixed key |
| LlmEnrichment.Filtered | impl/system/src/core/data_processing/llm_enrichment.py:348-370 | exactly the nine sent keys, each holding the contract's value or None when it lacks it |
| LlmEnrichment.FilteredCarriesIdentity | impl/system/src/core/data_processing/llm_enrichment.py:348-371 | the enriched filtered contract carries the contract's own `uid` and `ContractDeployment.id` (None where missing) |
| LlmEnrichment.EnrichedPage | impl/system/src/core/data_processing/llm_enrichment.py:345-375 | the results exist exactly when every contract has `ContractDeployment.id`; then one per contract, in order, each the enrichment of the filtered contract |
| LlmEnrichment.ProcessContracts | impl/system/src/core/data_processing/llm_enrichment.py:345-375 | the loop and the gather compute `EnrichedPage`: a contract without `ContractDeployment.id` makes the log line raise |
| LlmEnrichment.ApplyRulesConcat | impl/system/src/core/data_processing/llm_enrichment.py:292-293 | running two lists of replacements one after the other is running their concatenation |
| LlmEnrichment.ArithmeticLeavesNone | impl/system/src/core/data_processing/llm_enrichment.py:267-270 | after the four arithmetic replacements no `.add(`, `.sub(`, `.mul(` or `.div(` remains |
| LlmEnrichment.LiteralsAreArithmetic | impl/system/src/core/data_processing/llm_enrichment.py:267-270 | the four literal entries of the list are the arithmetic rewriting |
| LlmEnrichment.ReplacementsPositions | impl/system/src/core/data_processing/llm_enrichment.py:247-290 | the replacement list has eighteen entries, the four literal arithmetic rules at positions 9 to 12 and a regular-expression rule at every other position, the tax-structure rule last |
| LlmEnrichment.ReplacementsSplit | impl/system/src/core/data_processing/llm_enrichment.py:247-293 | the replacement list is the leading rules, then the arithmetic rewriting, then the trailing rules |
| LlmEnrichment.RunReplacements | impl/system/src/core/data_processing/llm_enrichment.py:292-293 | the loop applies every entry of the list in order |
| LlmEnrichment.NonBlank | impl/system/src/core/data_processing/llm_enrichment.py:296 | keeping the non-blank lines never adds lines |
| LlmEnrichment.NonBlankKeeps | impl/system/src/core/data_processing/llm_enrichment.py:296 | every kept line is non-blank and is one of the input lines |
| LlmEnrichment.CollapseNoRun | impl/system/src/core/data_processing/llm_enrichment.py:297 | text with no run of three newlines is left unchanged by the collapse |
| LlmEnrichment.JoinedLinesNoRun | impl/system/src/core/data_processing/llm_enrichment.py:296 | non-empty lines without newlines joined by newlines hold no two newlines in a row |
| LlmEnrichment.RunOfThree | impl/system/src/core/data_processing/llm_enrichment.py:297 | text with no two newlines in a row has no run of three |
| LlmEnrichment.CleanupLines | impl/system/src/core/data_processing/llm_enrichment.py:296-297 | the cleanup is the non-blank lines joined by newlines, the collapse changing nothing; no line of its result is blank |
| LlmEnrichment.CapShorter | impl/system/src/core/data_processing/llm_enrichment.py:305-306 | above the cap the kept length is at most the old one, and shorter when the text is not empty |
| LlmEnrichment.CapLength | impl/system/src/core/data_processing/llm_enrichment.py:306 | the kept length is the floor of the length times 4000 over the token count, and no longer than the text |
| LlmEnrichment.HardCap | impl/system/src/core/data_processing/llm_enrichment.py:305-308 | the capped text is a prefix of the text; under the cap it is the text itself |
| LlmEnrichment.Preprocess | impl/system/src/core/data_processing/llm_enrichment.py:223-311 | a result exists exactly when the source is present as text and counts at least one token; the contract comes back with only the source replaced by the preprocessed text |
| LlmEnrichment.PreprocessedShape | impl/system/src/core/data_processing/llm_enrichment.py:237-297 | no arithmetic call survives the arithmetic rules, and the cleaned text holds no blank line |
| VectorDbClient.LoadConfig | impl/system/src/core/data_access/vectordb_client.py:46-65 | a missing file raises FileNotFoundError, unparsable YAML a YAML error, and a document that is not a mapping ValueError; otherwise the mapping itself |
| VectorDbClient.CollectionName | impl/system/src/core/data_access/vectordb_client.py:38 | a non-empty argument wins; otherwise the config's `collection_name`, else `contracts` |
| VectorDbClient.Configure | impl/system/src/core/data_access/vectordb_client.py:20-90 | config errors propagate; no `chroma` section raises; a `chroma` without a truthy `persist_directory` raises; success opens the collection named by `CollectionName` in that directory |
| VectorDbClient.RetrieverArgs | impl/system/src/core/data_access/vectordb_client.py:126-127 | no search arguments means `{"k": 5}`; given ones are passed unchanged |
| VectorDbClient.Iterate | impl/system/src/core/data_access/vectordb_client.py:103 | iterating a list gives its items, a text one item per character, and anything but a list, text or dict raises |
| VectorDbClient.JoinValue | impl/system/src/core/data_access/vectordb_client.py:103 | `", ".join` succeeds exactly when every iterated item is a text; the empty list joins to the empty text |
| VectorDbClient.EmbeddingText | impl/system/src/core/data_access/vectordb_client.py:103 | the document is `domain <domain> functionality <functionality> security risks <risks joined by comma>`, with None, empty text and the empty list as the defaults; it fails exactly when the risks cannot be joined |
| VectorDbClient.MissingKeysText | impl/system/src/core/data_access/vectordb_client.py:103 | a contract without the three keys gets `domain None functionality  security risks ` |
| VectorDbClient.StoreRecordText | impl/system/src/core/data_access/vectordb_client.py:103 | records holding only the queried contract fields all get that same default document |
| VectorDbClient.EntryFor | impl/system/src/core/data_access/vectordb_client.py:102-107 | one row per contract: its `uid` as id, its document, and `{"dgraph_id": uid}` as metadata; none without `uid` or a joinable risk list |
| VectorDbClient.Entries | impl/system/src/core/data_access/vectordb_client.py:102-107 | the batch exists exactly when every contract has a row, and is those rows in order |
| VectorDbClient.MissingUidFailsBatch | impl/system/src/core/data_access/vectordb_client.py:105 | one contract without `uid` fails the whole batch |
| VectorDbClient.EntriesConcat | impl/system/src/core/data_access/vectordb_client.py:102-107 | the rows of two lists of contracts, one after the other, are the rows of their concatenation |
| VectorDbClient.VectorDb.AddEmbeddings | impl/system/src/core/data_access/vectordb_client.py:92-122 | the call succeeds exactly when every contract has a row and the store accepts the batch; then the batch is appended in order, otherwise nothing changes |
| VectorDbClient.Zip | impl/system/src/core/data_access/vectordb_client.py:156-162 | one record per pair, as many as the shorter list, each with exactly `content` and `metadata` |
| VectorDbClient.ZipUnzip | impl/system/src/core/data_access/vectordb_client.py:156-162 | for lists of equal length both lists read back from the records |
| VectorDbClient.SearchResults | impl/system/src/core/data_access/vectordb_client.py:152-162 | the formatting succeeds exactly when both first lists exist, and is their zip |
| VectorDbClient.EmptyResults | impl/system/src/core/data_access/vectordb_client.py:152-153 | a result with neither key gives no hits |
| VectorDbClient.VectorDb.Search | impl/system/src/core/data_access/vectordb_client.py:130-165 | the hits exist exactly when the query answers and its answer formats; they are the formatted answer over the current rows |
| Api.Parsed | impl/system/src/api/api.py:294-305 | the keys of the parsed entity are exactly the cleaned keys of the data |
| Api.ParseDgraphEntity | impl/system/src/api/api.py:294-305 | the loop over the data computes `Parsed` |
| Api.ParsedLastWins | impl/system/src/api/api.py:300-303 | a key holds the value of the last item whose key cleans to it |
| Api.PrefixStripped | impl/system/src/api/api.py:302 | `<entity>.<name>` cleans to `name` when the name does not itself hold the prefix |
| Api.PlainKeysPassThrough | impl/system/src/api/api.py:300-303 | distinct keys without the prefix come through with their values |
| Api.Shifted | impl/system/src/api/api.py:882-913 | helper for the rule indices: every index moved up by one |
| Api.Triggered | impl/system/src/api/api.py:885-913 | the indices of the rules any of whose words occur in the lower-cased query, each once and in the order of the rules |
| Api.MatchingPhrases | impl/system/src/api/api.py:885-913 | the phrases appended are those of the triggered rules, in order |
| Api.PhrasesShift | impl/system/src/api/api.py:885-913 | helper: the phrases picked after the first rule are the phrases of the remaining rules |
| Api.PhrasesConcat | impl/system/src/api/api.py:885-913 | the phrases of two index lists, one after the other, are the phrases of their concatenation |
| Api.EnhancementsAreMatching | impl/system/src/api/api.py:885-913 | the five `if any(...)` tests are the first-to-last reading of the rule table |
| Api.EnhancementsFollowRules | impl/system/src/api/api.py:885-913 | the enhancements are the phrases of the triggered rules, in the table's order |
| Api.EnhancementsDistinct | impl/system/src/api/api.py:885-913 | no enhancement is appended twice |
| Api.PhrasesDistinct | impl/system/src/api/api.py:886-913 | the five phrases are pairwise distinct |
| Api.AppendedParts | impl/system/src/api/api.py:916-921 | the query can be read back from the start of the refined query, and the appended tail after it |
| Api.FallbackQueryEnhancement | impl/system/src/api/api.py:879-926 | the original query is kept and is a prefix of the refined one; with no rule triggered the general suffix is appended; the reasoning names which branch was taken |
| Api.RefineWithLlm | impl/system/src/api/api.py:839-876 | without a client the query comes back unchanged with the not-available note; a failed call falls back to the rules; an answer with neither field keeps the query and the default reasoning |
| Api.RiskSplit | impl/system/src/api/api.py:587-591 | a falsy description gives no risks; a non-empty text splits on comma-space and joins back to itself; any other truthy value raises |
| Api.Validate | impl/system/src/api/api.py:71-91 | a result is built exactly when the id, name, description and created date are texts, the verified flag a boolean, the tags a list of texts and each optional field of its type, and it carries exactly those values |
| Api.OptText | impl/system/src/api/api.py:71-91 | the JSON value of an optional text reads back as that optional text |
| Api.OptFlag | impl/system/src/api/api.py:71-91 | the JSON value of an optional flag reads back as that optional flag |
| Api.OptTexts | impl/system/src/api/api.py:71-91 | the JSON value of an optional list of texts reads back as that optional list |
| Api.FormatVectorResult | impl/system/src/api/api.py:568-592 | a formatted result takes its id, name, description, created date and verified flag from the record (with their defaults), its one tag from the application domain, its functionality from the functionality classification, its domain and optional fields from the matching keys, and its risks from the split risk description |
| Api.VectorKept | impl/system/src/api/api.py:566-600 | no more results than found |
| Api.VectorKeptComplete | impl/system/src/api/api.py:566-600 | every result that formats is kept |
| Api.VectorKeptSound | impl/system/src/api/api.py:566-600 | every kept result is the formatting of some found one |
| Api.VectorKeptStep | impl/system/src/api/api.py:566-600 | one more result appends its formatting, or nothing when it raises |
| Api.VectorSearchContracts | impl/system/src/api/api.py:556-603 | the loop keeps, in order, exactly the results that format |
| Api.DgraphId | impl/system/src/api/api.py:506-508 | the id exists exactly when `metadata` is an object holding `dgraph_id` |
| Api.FormatSearchResult | impl/system/src/api/api.py:504-547 | a formatted result comes from a stored contract found by the hit's `dgraph_id` and takes its description from the hit's `content` |
| Api.SearchResultFields | impl/system/src/api/api.py:504-547 | a formatted search result takes its id, name, created date, verified flag, single domain tag, functionality, domain and risks from the first stored contract the hit's `dgraph_id` finds |
| Api.SearchKept | impl/system/src/api/api.py:504-547 | no more results than hits |
| Api.SearchKeptComplete | impl/system/src/api/api.py:504-547 | every hit that formats is kept |
| Api.SearchKeptSound | impl/system/src/api/api.py:504-547 | every kept result is the formatting of some hit |
| Api.SearchKeptStep | impl/system/src/api/api.py:504-547 | one more hit appends its formatting, or nothing when it is skipped or raises |
| Api.SearchContracts | impl/system/src/api/api.py:497-550 | without `data` the answer is empty; with it, exactly the hits that format, in order |
| Mcp.ErrorMembers | impl/system/src/api/mcp.py:580-582 | the error object holds the code and the message, and holds `data` exactly when it is not None |
| Mcp.ErrorResponse | impl/system/src/api/mcp.py:576-584 | an error response has exactly `jsonrpc` 2.0, the request id and an error object with the code, the message and the data when given |
| Mcp.SuccessResponse | impl/system/src/api/mcp.py:565 | a success response has exactly `jsonrpc` 2.0, the request id and the result |
| Mcp.ErrorIsNoSuccess | impl/system/src/api/mcp.py:565 | no error response reads as a success |
| Mcp.AsParams | impl/system/src/api/mcp.py:545-557 | `params or {}`: falsy params become the empty object, others are kept |
| Mcp.Initialize | impl/system/src/api/mcp.py:202-229 | initialisation succeeds exactly for parameters naming the supported protocol version, answers with that version, and fails with the invalid-version code otherwise |
| Mcp.ToolsCall | impl/system/src/api/mcp.py:242-262 | a call succeeds only for one of the three tool names; every failure, unknown tools included, becomes a tool-execution error |
| Mcp.ResourcesRead | impl/system/src/api/mcp.py:270-281 | a read succeeds exactly for the two resource URIs and fails with resource-not-found otherwise |
| Mcp.PromptsGet | impl/system/src/api/mcp.py:289-301 | a prompt succeeds only for the two prompt names; any other name fails with method-not-found |
| Mcp.Dispatch | impl/system/src/api/mcp.py:544-563 | a handler exists exactly for the seven method names; only a successful `initialize` changes the server state, and no request marks it initialised |
| Mcp.Classify | impl/system/src/api/mcp.py:522-565 | a non-object raises; a wrong `jsonrpc` is a bad-version reply with the request's id; a missing id is a notification, which marks the server initialised exactly for `initialized`; a request with an id keeps it, and an unknown method is one outside the seven |
| Mcp.Render | impl/system/src/api/mcp.py:565-584 | only a non-object raises, only a notification is silent, and a success reply comes only from a request whose handler succeeded |
| Mcp.RenderAsWritten | impl/system/src/api/mcp.py:37-41 | because `MCPError` is not an exception class, every failing handler makes `process_request` raise, like a non-object |
| Mcp.BadVersionIsInvalidRequest | impl/system/src/api/mcp.py:526-531 | a request with a wrong `jsonrpc` gets an invalid-request error carrying its own id |
| Mcp.UnknownMethodIsNotFound | impl/system/src/api/mcp.py:558-563 | a request with an id and an unknown method gets method-not-found carrying its own id |
| Mcp.SuccessShape | impl/system/src/api/mcp.py:565 | every success reply carries the request's id, which is never None |
| Mcp.InitializeNeedsVersion | impl/system/src/api/mcp.py:202-229 | a successful `initialize` reply means the request named the supported version, and the reply repeats it |
| Mcp.UnknownNamesFail | impl/system/src/api/mcp.py:242-301 | a successful tool call, resource read or prompt named a known tool, URI or prompt |
| Mcp.DispatchedNames | impl/system/src/api/mcp.py:242-301 | the same, stated of the dispatcher |
| Mcp.Outcomes | impl/system/src/api/mcp.py:503-504 | each batch item is processed on its own |
| Mcp.Steps | impl/system/src/api/mcp.py:503-504 | each batch item is classified on its own |
| Mcp.Collect | impl/system/src/api/mcp.py:502-507 | the gathered replies are never more than the items |
| Mcp.CollectConcat | impl/system/src/api/mcp.py:502-507 | gathering two runs of outcomes one after the other is gathering their concatenation |
| Mcp.RepliesConcat | impl/system/src/api/mcp.py:502-507 | the replies to two batches, one after the other, are the replies to their concatenation |
| Mcp.CollectFails | impl/system/src/api/mcp.py:502-507 | gathering fails exactly when some outcome raises |
| Mcp.RepliesFail | impl/system/src/api/mcp.py:500-507 | a batch fails exactly when one of its items is not an object |
| Mcp.CollectAnswers | impl/system/src/api/mcp.py:503-506 | every gathered reply is the reply to some outcome |
| Mcp.RepliesAnswerRequests | impl/system/src/api/mcp.py:503-506 | every reply in a batch answers one of its items |
| Mcp.CollectSilent | impl/system/src/api/mcp.py:505 | silent outcomes gather to no reply |
| Mcp.NotificationsOnly | impl/system/src/api/mcp.py:505 | a batch of notifications gets the empty list |
| Mcp.EffectsFlag | impl/system/src/api/mcp.py:231-233 | over a batch that does not stop, the server ends initialised exactly when it was or some step marked it |
| Mcp.InitializedFlag | impl/system/src/api/mcp.py:537-541 | over a batch of objects, the server ends initialised exactly when it was or some item is the `initialized` notification |
| Mcp.CollectStep | impl/system/src/api/mcp.py:503-506 | one more outcome appends its reply, or nothing when silent |
| Mcp.RunningStep | impl/system/src/api/mcp.py:503-506 | one more object item applies its effect |
| Mcp.HaltedStep | impl/system/src/api/mcp.py:503-506 | a non-object item stops the batch without changing the state |
| Mcp.EffectsStop | impl/system/src/api/mcp.py:503-506 | once the batch has stopped, the later items change nothing |
| Mcp.AsWrittenAgreesWithoutFailures | impl/system/src/api/mcp.py:567-573 | where no handler fails, the code as written and the corrected one give the same outcome |
| Mcp.VersionRejected | impl/system/src/api/mcp.py:204-209 | an `initialize` naming another version fails with the invalid-version code and a message naming both versions |
| Mcp.OldVersionClassified | impl/system/src/api/mcp.py:204-209 | an `initialize` naming 2024-11-05 fails with that message |
| Mcp.UnsupportedVersionAsWritten | impl/system/src/api/mcp.py:37-41 | the old-version request gets an internal error with a None id as written, and the invalid-version error with id 1 once corrected |
| Mcp.FailureLosesIdAsWritten | impl/system/src/api/mcp.py:567-573 | every failing handler gets an internal error with a None id as written, and its own error with the request's id once corrected |
| Mcp.FailureLosesBatchAsWritten | impl/system/src/api/mcp.py:500-519 | one failing item turns the whole batch into an internal error as written; once corrected the batch is answered exactly when every item is an object |
| Mcp.RepliesAsWrittenFail | impl/system/src/api/mcp.py:500-507 | as written, one raising item fails the whole batch |
| Mcp.Server.HandleInitialize | impl/system/src/api/mcp.py:202-212 | the answer is `Initialize`; on success the client information is stored, otherwise kept |
| Mcp.Server.HandleInitialized | impl/system/src/api/mcp.py:231-233 | the server becomes initialised and keeps its client information |
| Mcp.Server.ProcessRequest | impl/system/src/api/mcp.py:522-573 | the reply is `Process` and the state changes by the request's effect |
| Mcp.Server.HandleBatch | impl/system/src/api/mcp.py:500-507 | the replies are `Replies` and the state is the batch's effects in order, stopping at a non-object |
| Mcp.Server.HandleBody | impl/system/src/api/mcp.py:494-519 | the reply and the new state are those of the body: a parse failure, a batch or a single request |
| Export.Texts | impl/system/tasks/export.py:29 | `str(item)` of every element, in order |
| Export.FormatValue | impl/system/tasks/export.py:26-30 | the result is never a list: a list becomes text (the empty list the empty text, one element its text), anything else is kept |
| Export.FormatListRoundTrip | impl/system/tasks/export.py:26-30 | a non-empty list whose element texts hold no `;` is read back from its cell by splitting on `"; "` |
| Export.ExportRow | impl/system/tasks/export.py:41 | the row's columns are exactly `FIELDS` in order; a missing field is the empty text; a non-list value is kept; no cell is a list |
| Export.RowLookup | impl/system/tasks/export.py:41 | each column is found by its own name and holds the formatted value of the field |
| Export.FieldsDistinct | impl/system/tasks/export.py:10-23 | the twelve column names are pairwise distinct |
| Export.RowIgnoresOtherKeys | impl/system/tasks/export.py:41 | keys outside `FIELDS` do not reach the row |
| Export.ExportTable | impl/system/tasks/export.py:37-42 | the header is `FIELDS`, and there is one row per contract, in order, each its `ExportRow` |
| TransformTarget.Spaced | impl/system/tests/transform_target.py:10 | every `_`, `:` and `/` becomes a space, every other character is kept, and the length is kept |
| TransformTarget.ReplacedIsSpaced | impl/system/tests/transform_target.py:10 | the three `replace` calls are that character map |
| TransformTarget.StripKeepsNoSeparator | impl/system/tests/transform_target.py:10 | stripping text without separators leaves none |
| TransformTarget.CleanText | impl/system/tests/transform_target.py:9-10 | the cleaned text is the stripped spaced text: no separator, no whitespace at either end, never longer than the input |
| TransformTarget.SpacedKeeps | impl/system/tests/transform_target.py:10 | text without separators is not changed by the map |
| TransformTarget.CleanTextIdempotent | impl/system/tests/transform_target.py:9-10 | cleaning twice is cleaning once |
| TransformTarget.QueryFields | impl/system/tests/transform_target.py:21-28 | the record has exactly `id`, `query`, `description` and `expected_results`, in order, with the given values, and the contract list under `contract_uids` |
| TransformTarget.QueryRecord | impl/system/tests/transform_target.py:18-28 | the raw category is the id, its cleaned text is both the query and the description, and the parsed contracts are the expected results |
| TransformTarget.Queries | impl/system/tests/transform_target.py:17-28 | one query per row |
| TransformTarget.QueriesAt | impl/system/tests/transform_target.py:17-28 | each row yields its own query, at its own position |
| TransformTarget.QueriesStep | impl/system/tests/transform_target.py:17-28 | one more row appends its query |
| TransformTarget.TransformRows | impl/system/tests/transform_target.py:14-28 | the loop builds `Queries` of the rows |
| TransformTarget.QueriesDocument | impl/system/tests/transform_target.py:30 | the document written holds the list under its one key `queries` |
| AddressBadge.Substring | impl/web/components/address-badge.tsx:33 | JavaScript `substring` clamps both bounds and swaps them when reversed; within bounds it is the slice |
| AddressBadge.Clamp | impl/web/components/address-badge.tsx:33 | the bound lies within the text and an in-range bound is kept |
| AddressBadge.FormatAddress | impl/web/components/address-badge.tsx:31-34 | the empty address stays empty; any other shows its first six characters (fewer when short), `...`, and its last four |
| AddressBadge.FormatAddressLength | impl/web/components/address-badge.tsx:30-34 | an address of ten characters or more is shown in thirteen |
| AddressBadge.FormatAddressKeepsOnlyEnds | impl/web/components/address-badge.tsx:30-34 | addresses agreeing on their first six and last four characters show the same text |
| AddressBadge.ExplorerUrl | impl/web/components/address-badge.tsx:37-56 | a non-empty explorer URL wins; otherwise an `https://` address page whose host is chosen by the lower-cased network |
| AddressBadge.AddressPage | impl/web/components/address-badge.tsx:42-54 | the host and the address can be read back from the URL |
| AddressBadge.DefaultLower | impl/web/components/address-badge.tsx:14 | the default network lower-cases to `ethereum` |
| AddressBadge.ExplorerIgnoresCase | impl/web/components/address-badge.tsx:40 | the explorer does not depend on the case of the network name |
| AddressBadge.DefaultIsEtherscan | impl/web/components/address-badge.tsx:14-42 | with no network and no explorer URL the badge links to the address page on Etherscan |
| AddressBadge.DefaultHost | impl/web/components/address-badge.tsx:14-42 | the default network picks `etherscan.io` |
| AddressBadge.TableHostFirstMatch | impl/web/components/address-badge.tsx:41-55 | the host is that of the first matching branch, and Etherscan when none matches |
| AddressBadge.MatchesSubstrings | impl/web/components/address-badge.tsx:43-52 | a branch without exact names matches exactly when one of its words occurs |
| AddressBadge.TableStep | impl/web/components/address-badge.tsx:41-55 | trying the branches from one on: its host when it matches, the later branches otherwise |
| AddressBadge.HostFollowsTable | impl/web/components/address-badge.tsx:41-55 | the if-chain is the first-match reading of the table of branches |

## Left out

- Dgraph transport: pydgraph, the DQL query text, transactions and JSON decoding. The store is a class over a graph of records, and whether a query is answered or a mutation accepted is an oracle fixed when the store is built.
- The language model, the OpenAI call, the HuggingFace embedder, Chroma, SHA-256 and tiktoken are parameters. Their internals are not modelled.
- `lightweight_retriever.py` and `agent_enrichment.py` are not part of this model. The retriever behind the HTTP search handler is an oracle that returns the hits.
- Floating point: the cosine arithmetic in `vector_search` and the float conversion in `insert_embeddings` are oracles. A float is carried as an opaque value with its text.
- LlmEnrichment.CapLength: the source computes `int(len(source) * (4000 / token_count))` in floating point; the model uses exact integer floor division, which can differ from the float result by one character when rounding bites.
- LlmEnrichment.Preprocess: the regular-expression rules (headers, comments, boilerplate, reflection mechanics, addresses, decimals, accessors and the tax-structure rule at position 17) are oracles given by position; only the four literal arithmetic substitutions and the structural cleanup are modelled exactly.
- `asyncio.gather` in `process_contracts` is modelled as running the tasks one after the other, in order. Concurrency is not modelled.
- BatchEnrichment.BatchEnrichment: the source loop has no bound; the model runs at most `maxPasses` passes and reports when it stops for that reason, so a run that never drains is not modelled beyond that bound.
- BatchEnrichment.EnrichPass: the model reads the page synchronously and calls `mutate` with the list alone. As written, line 13 awaits the list `get_contracts` returns and line 19 passes a `commit_now` keyword that `mutate` does not take; both raise a TypeError.
- BatchEnrichment.BatchEnrichment: the model takes the imports at lines 2-4 to resolve to the store, the enricher and the vector store; as written they name `data_processing` modules that are not part of the repository. With the TypeErrors above, the loop as written raises before its first mutation; the model states the loop as evidently intended.
- PyValues.Repr: strings are always quoted with `'` and never escaped; Python switches to `"` for a text holding `'` and escapes control characters, so ids, export cells and error texts built from such strings differ.
- VectorDbClient.EmbeddingText: the document reads the `domain`, `functionality` and `security_risks` keys, which no contract query projects, so every record `update_embeddings` indexes gets the same text (`StoreRecordText`). Whether the query or the reader was meant to change is not evident, so the model keeps the code as written.
- DgraphClient.Window: a page size of 0 gives the empty page; Dgraph reads `first: 0` as no limit and returns the rest of the selection from the offset. Under Dgraph's reading the all-contracts loop of `delete_array_fields` with a batch size of 0 re-reads the whole enriched selection at offset 0 without end, and `update_embeddings(0)` indexes everything; the model instead ends those runs after one empty page.
- DgraphClient.ContractStore.GetContracts: follows `Window`, so its page is empty exactly when the batch size is 0 or the offset is past the end; the `first: 0` reading of Dgraph is not modelled.
- DgraphClient.ContractStore.GetContractById: a record made by a set object without a uid (an orphan) is returned without a `uid`, where Dgraph gives every node one; so deleting by an id that only such a record carries finds no uid, where the source deletes on the node's uid.
- DgraphClient.ContractStore.GetContractByUid: a uid with no node answers `[]`, where the `uid(x)` query that selects `uid` answers `[{"uid": x}]`; so the search handler skips such a hit, where the source builds a blank result from it.
- ContractIds.GenerateContractId: its own ensures state only the identifier's shape; when it raises is stated by `RaisesExactly`, and the field dependence and the fallback by the other lemmas beside it.
- DeleteFields.DeleteAllEnriched: it states that every enriched contract is visited only when the deleted fields keep the selection, no query raises and every uid is non-empty; otherwise it states only the count.
- Api.Validate: pydantic's default lax coercion (e.g. `verified` from `"true"` or `1`) is not modelled; only values of the exact type build a result.
- Api.RefineWithLlm: the text of an LLM answer is an oracle; only the no-client path, the failure fallback and the answer with neither field are stated.
- Python `str.lower()` and JavaScript `toLowerCase()` are modelled on ASCII letters only. AddressBadge.Substring and AddressBadge.FormatAddress count Unicode scalar values, where JavaScript `length` and `substring` count UTF-16 code units, so an address holding a character outside the Basic Multilingual Plane is cut differently.
- Mcp: the tool, resource and prompt builders (`_search_contracts`, `_vector_search_contracts`, `_get_contract_details`, the two prompts, the resource bodies and the three lists) are given values or oracles; `_vector_search_contracts` refers to an undefined `threshold`, which the oracle may report as a failure.
- Mcp: the text of `str(e)` for an exception is an oracle, and the `/health` route is not modelled. Mcp.ToolsCall takes `str(e)` of the corrected `MCPError` raised for an unknown tool to be its message (`Unknown tool: <name>`); a dataclass exception as written prints its argument tuple instead.
- `mcp_handler` reading the request body is a parameter: the body is either a JSON value or a parse failure.
- FastAPI routing, CORS, the HTML landing page, uvicorn and the web interface beyond the address badge (React state, clipboard, toast) are not modelled.
- File and console I/O: the CSV and JSON reading and writing in `export.py` and `transform_target.py`, the printed counts, and logging. `ast.literal_eval` of the contract list is taken as the value it yields.
- `extract_related_entities` and `parse_nested_entities` in `api.py` refer to classes that are not defined; they are not part of this model.

## Findings

| source | as written | input that shows it | evidently intended | confidence | as-written member | corrected member |
|---|---|---|---|---|---|---|
| impl/system/src/api/mcp.py:37-41 | `MCPError` is a plain dataclass, so `raise MCPError(...)` and `except MCPError` raise a TypeError; `process_request` then raises and `mcp_handler` answers a single internal error (-32603) with a null id, and a batch loses every reply | an `initialize` request with id 1 and `protocolVersion` 2024-11-05 | an invalid-version error (-32000) that carries id 1, and in a batch the other replies kept | not executed | Mcp.UnsupportedVersionAsWritten | Mcp.Render |
