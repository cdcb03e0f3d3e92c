# Incremental search indexing and the catalog sync that feeds it

This project models, in Dafny, how enterprise-catalog keeps three stores in agreement: the content table, the indexing
row of each record, and the Algolia index. It follows a catalog refresh from the search results to the index:

- **Catalog sync** (`ContentSync`, `BatchSync`, `CatalogRefresh`): search results are taken into the content table batch
  by batch, failed batches are retried one entry at a time, and the query's membership is replaced unless the guardrail
  objects. `EntryEffects` and `RefreshOutcomes` say what that comes to in the fields of an entry and of the payload.
- **Dispatch** (`Dispatcher`, `Redispatch`, `SkippedRecords`, `ParentSkips`, `Canvas`): records that are due are selected,
  cut into batches and scheduled as nested chords.
- **Object generation** (`IndexingMappings`, `FacetTables`, `FacetLaws`, `FacetInheritance`, `BatchIndependence`,
  `FacetEntries`, `Slicing`, `Sorting`, `Shards`, `ShardFacets`, `Generator`, `ObjectIds`, `ContentRefs`): three passes
  collect catalogs, customers, queries and academies; the result is cut into index objects with printed ids, which go
  through one shared dictionary back to the keys that were asked for.
- **Batch indexing** (`SearchIndex`, `IndexingStates`, `BatchIndexer`, `BatchTask`, `BatchEffects`, `BatchOutcomes`,
  `IndexingRuns`, `RaisedStamps`, `FirstBatch`, `Leftover`): a task plans each record, writes in bulk with a per-record
  fallback, and stamps the rows. `EndToEnd` and `EndToEndExample` join the facets to what the index shows.
- **Around it** (`Semaphore`, `SemaphoreLosers`, `Pagination`): the task semaphore, and reading large tables page by page.

The failures the code handles are explicit parameters: the fate of each request to the index (accepted, refused, or
accepted and then raising), exceptions while reading or stamping, database errors of each call, clocks, the state of a
table at each query, and the interleaving of tasks. A theorem over all values of these parameters is a theorem over all
such failures. What ends a task outright, such as the death of a worker or an exception it does not catch between its
passes, is not among them. Code that updates state in place is a class or a loop proved against a specification
function; what the functions compute is then said without them, in the fields of the data (the lemmas named `...Exactly`
and `...Entries`), and the laws are proved about whole runs. The intermediate states of the writing pass are the
prefixes of its list of accepted writes.

Where the code and its documentation differ, the model follows the code. The dispatcher's documentation and
`docs/decisions/0013-dispatcher-serial-chain-ordering.rst:54-70` say that one dispatch propagates child staleness from
courses to programs to pathways. In the code staleness is evaluated when the canvas is built, before any course batch
has run, and a batch that is not forced looks only at the record's own modification time and failure stamp;
`Dispatcher.ParentDispatchedUnlessSkipped` says exactly which dispatched records are skipped for that reason, and
`ParentSkips.NeverReindexed` that without an edit, a failure or force they are never indexed again, however often they
are dispatched. A comment at `enterprise_catalog/apps/search/tasks.py:1342-1346` says that the next run resurrects a
removed record; `SkippedRecords.ComesBackExactly` says when it does, and `SkippedRecords.RemovedStaysAway` that a record
which was current when it was removed stays away.

Assumptions the theorems name where they need them: distinct records own disjoint objectIDs (`Owner`; shown to follow
from distinct UUIDs by `Generator.GeneratorIsWellBehaved`), content keys are unique and never change type, catalog query
uuids are unique, a record's JSON carries its own type, uuid and aggregation key, no video is filed under the
aggregation key of a record, and the entries of one sync have distinct keys.

Verify with `dafny verify dfyconfig.toml`.

## Model

| member | source | states |
|---|---|---|
| IndexingRuns.RunsStaySound | enterprise_catalog/apps/search/tasks.py:707-800 | over every run of content edits and batches, with any chunk failures, read failures and stamp exceptions: a clean row's tracked ids are hosted with exactly the objects of its last INDEXED run (unless a stamp raised since), a row that tracks anything accounts for everything hosted for its record, save ids the index accepted from a run that was not stamped INDEXED, and the index stays well filed |
| IndexingRuns.StepKeepsSound | enterprise_catalog/apps/search/tasks.py:1378-1504 | any single edit or batch keeps that invariant |
| IndexingRuns.KeepsCleanRows | enterprise_catalog/apps/search/models.py:90-134 | the part about clean rows, record by record, through one batch |
| IndexingRuns.KeepsAccounts | enterprise_catalog/apps/search/tasks.py:1259-1280 | the part about hosted ids being tracked, or accepted by the index from a run that was not stamped INDEXED |
| IndexingRuns.SuccessIsExact | enterprise_catalog/apps/search/tasks.py:1358-1368 | if the index accepted nothing for the record from an unsuccessful run, its next INDEXED run leaves exactly the newly generated objects hosted for it, also after runs all of whose requests were refused |
| IndexingRuns.LeftoversWereWritten | enterprise_catalog/apps/search/tasks.py:1406-1424 | what a batch adds to the account of leftovers is exactly the ids the index accepted for the record from a plan not stamped INDEXED |
| IndexingRuns.AcceptedIsHosted | enterprise_catalog/apps/search/tasks.py:1378-1457 | whatever the index accepted of a record's new objects is hosted when the batch is over |
| IndexingRuns.NothingLeftBehind | enterprise_catalog/apps/search/tasks.py:1406-1424 | over a run in which no batch leaves anything behind for the record, whatever failed, no leftover is on account |
| IndexingRuns.SoundAtDeployment | enterprise_catalog/apps/search/models.py:24-75 | an index filled earlier, with no rows yet, satisfies the invariant |
| IndexingRuns.RememberedExactly | enterprise_catalog/apps/search/tasks.py:780-800 | which records a batch leaves marked as torn, and which objects count as last written, in terms of the stamps that raised and the last stamp that succeeded |
| IndexingRuns.EditExactly | enterprise_catalog/apps/search/models.py:24-75 | an edit deletes the rows of content that is gone and leaves every other row and the index alone |
| IndexingRuns.ExactIffNoLeftovers | enterprise_catalog/apps/search/tasks.py:1259-1280 | in general an INDEXED record hosts exactly its new objects if and only if its row tracked nothing, or every still hosted leftover of an unsuccessful run is tracked or generated again |
| Leftover.ALeftoverOutlivesSuccess | enterprise_catalog/apps/search/tasks.py:1358-1368 | a reachable input at which it is not exact: a second object whose save is accepted but raises, then an INDEXED run without it, which leaves it hosted |
| RaisedStamps.TruthfulIffStampedOrSpared | enterprise_catalog/apps/search/tasks.py:776-790 | which clean rows tell the truth, whatever the stamps of the batch did: exactly those the batch stamped INDEXED, and those whose last INDEXED objects every accepted write left as they were |
| RaisedStamps.RaisedIndexed | enterprise_catalog/apps/search/tasks.py:782-790 | if the stamp of an INDEXED run raised, the row that stayed clean tells the truth exactly when the run wrote every one of the earlier objects again, payload included |
| RaisedStamps.RaisedRemoved | enterprise_catalog/apps/search/tasks.py:782-790 | if the stamp of a REMOVED run raised, the row that stayed clean tells the truth exactly when it tracks nothing |
| RaisedStamps.RaisedWithoutPlan | enterprise_catalog/apps/search/tasks.py:782-790 | if nothing was planned for the record, its clean row tells the truth however the stamp went |
| FirstBatch.ACleanRowMisleads | enterprise_catalog/apps/search/tasks.py:782-790 | a reachable input at which it does not: an edited course indexed again under the id it had, with the stamp raising |
| FirstBatch.TheRoundIsCalm | enterprise_catalog/apps/search/tasks.py:707-800 | the hypotheses of these theorems can be met: a course never indexed before, one accepted object; it is due before the batch and not after it |
| BatchEffects.IndexedExactly | enterprise_catalog/apps/search/tasks.py:1358-1368 | with tracking complete beforehand, an INDEXED record hosts its new objects and nothing else, also when the shard count shrinks |
| BatchEffects.IndexedInGeneral | enterprise_catalog/apps/search/tasks.py:1358-1361 | without that assumption: what an INDEXED record hosts is its new objects and, unchanged, whatever it hosted that was neither tracked nor browsed |
| BatchEffects.ExactIffNothingUnknown | enterprise_catalog/apps/search/tasks.py:1358-1361 | so it hosts exactly its new ids if and only if everything it hosted was known to exist or is generated again |
| BatchEffects.StaysIffSpared | enterprise_catalog/apps/search/tasks.py:1378-1477 | a hosted object is hosted as it was after the batch exactly when every accepted write to its id wrote the object itself |
| BatchEffects.IndexedMeansHosted | enterprise_catalog/apps/search/tasks.py:1378-1457 | INDEXED means every new object is hosted as generated and every orphan is gone, whichever calls failed for other records |
| BatchEffects.DeleteTookEffect | enterprise_catalog/apps/search/tasks.py:1427-1477 | a record whose deletes did not fail hosts none of the ids it set out to delete |
| BatchEffects.AllAcceptedAsPlanned | enterprise_catalog/apps/search/tasks.py:1378-1457 | when the index accepts every request every record ends as it was planned |
| BatchEffects.OnlySavedAppears | enterprise_catalog/apps/search/tasks.py:1378-1477 | an id no accepted save wrote is hosted afterwards only if it was before, and unchanged |
| BatchEffects.NothingElseAppears | enterprise_catalog/apps/search/tasks.py:1378-1477 | nothing appears or changes for a record except objects newly generated for it |
| BatchEffects.NeverBare | enterprise_catalog/apps/search/tasks.py:1388-1424 | at every moment of the writing pass, whichever chunks fail, a record planned INDEXED that hosted something still hosts something |
| BatchEffects.FailedSaveLosesNothing | enterprise_catalog/apps/search/tasks.py:1406-1424 | a record all of whose saves failed keeps every id it hosted, at every moment, also when the batch lists its key twice |
| BatchEffects.DeletesSpareNewObjects | enterprise_catalog/apps/search/tasks.py:1358-1361 | no delete of a task touches an object the same task set out to save |
| BatchEffects.StaysWellFiled | enterprise_catalog/apps/search/tasks.py:1249-1256 | every hosted object stays filed under exactly the record that owns its id |
| BatchOutcomes.PlannedExactly | enterprise_catalog/apps/search/tasks.py:1283-1375 | which of the four outcomes is planned, told from the task, the row and the reads alone: REMOVED for a key that is not indexable, SKIPPED exactly when not forced, indexed no earlier than modified and not failed since, and so on |
| BatchOutcomes.WritesExactly | enterprise_catalog/apps/search/tasks.py:1358-1361 | what a plan saves and deletes: the generated objects, and exactly the tracked ids, or those filed under the record if none are tracked, that are not generated again |
| BatchOutcomes.OkExactly | enterprise_catalog/apps/search/tasks.py:1395-1424 | a record's writes go through exactly when every request of the bulk call is accepted, or every request of its own retry |
| BatchOutcomes.OutcomeExactly | enterprise_catalog/apps/search/tasks.py:1378-1477 | a record ends as planned when its saves and then its deletes go through, and otherwise FAILED for the first that did not |
| BatchOutcomes.RemovedHostsNothing | enterprise_catalog/apps/search/tasks.py:1427-1457 | with tracking complete beforehand, nothing is hosted for a record that ends REMOVED |
| BatchOutcomes.RowExactly | enterprise_catalog/apps/search/tasks.py:1480-1504 | the row after the task, field by field, for each outcome, when the key is listed once and its stamp does not raise |
| BatchOutcomes.RowsExactly | enterprise_catalog/apps/search/tasks.py:1283-1318 | which records have a row after the task: those that had one, and the listed ones that exist and whose row could be read, or made for the stamp of the failure |
| BatchOutcomes.RaisesExactly | enterprise_catalog/apps/search/tasks.py:782-790 | which stamps raise, and that the row is then left as it was |
| BatchOutcomes.UnindexableEndsRemoved | enterprise_catalog/apps/search/tasks.py:1312-1318 | a record that exists and is no longer indexable ends REMOVED when its reads and deletes succeed, forced or not |
| BatchOutcomes.UnindexableHostsNothing | enterprise_catalog/apps/search/tasks.py:1312-1318 | and then hosts nothing, its tracking having been complete |
| BatchOutcomes.UnindexableIsStamped | enterprise_catalog/apps/search/tasks.py:1312-1318 | and its row carries the removal time and is otherwise unchanged |
| BatchOutcomes.SummaryExactly | enterprise_catalog/apps/search/tasks.py:127-155 | each counter of the summary is the number of records that ended so and were stamped; the failed keys are those of the other records, in order |
| BatchIndexer.FallbackRefinesBulk | enterprise_catalog/apps/search/tasks.py:1395-1403 | wherever a bulk call breaks off, if all per-record retries succeed the index equals that of a bulk call that never failed |
| BatchIndexer.OkMeansWritten | enterprise_catalog/apps/search/tasks.py:1406-1424 | a record whose writes are reported as done has every one of them among the accepted writes |
| BatchIndexer.EffectOnlyJobs | enterprise_catalog/apps/search/tasks.py:1378-1477 | nothing is written that no record of the batch asked for |
| BatchIndexer.EachRecordCountedOnce | enterprise_catalog/apps/search/tasks.py:127-155 | every record is counted exactly once and the failed keys are as many as the failures |
| SearchIndex.ReplayAfterPrefix | enterprise_catalog/apps/api_client/algolia.py:190-201 | a whole list of upserts and deletes replayed after any accepted prefix of it ends as the list alone |
| SearchIndex.ConsistentSettles | enterprise_catalog/apps/api_client/algolia.py:166-231 | in a list without conflicting writes every write is visible at the end |
| SearchIndex.DeliveredIffAllAccepted | enterprise_catalog/apps/api_client/algolia.py:190-201 | a chunked call succeeds exactly when each of its ceil(n / chunk) requests is accepted |
| SearchIndex.SentExactly | enterprise_catalog/apps/api_client/algolia.py:190-201 | how far a call gets whose k-th request is the first not accepted: the chunks before it, and its own if only the wait for it raised |
| SearchIndex.AlgoliaIndex.SaveObjectsBatch | enterprise_catalog/apps/api_client/algolia.py:166-201 | the chunks before a failing one take effect, the rest do not, and the failure is reported |
| SearchIndex.AlgoliaIndex.DeleteObjectsBatch | enterprise_catalog/apps/api_client/algolia.py:203-232 | the same for deletes |
| SearchIndex.AlgoliaIndex.ObjectIdsForAggregationKey | enterprise_catalog/apps/api_client/algolia.py:234-267 | the browse returns exactly the hosted ids filed under the aggregation key |
| IndexingStates.OnlyIndexingCleans | enterprise_catalog/apps/search/models.py:80-134 | only a successful stamp makes a row clean; failing or removing leaves staleness and tracked ids alone |
| IndexingStates.StateTable.GetOrCreate | enterprise_catalog/apps/search/models.py:136-143 | an existing row is returned, a missing one is created empty, no other row changes |
| IndexingStates.IndexingState.MarkAsIndexed | enterprise_catalog/apps/search/models.py:90-112 | the fields a successful stamp sets and clears, and what is saved when the save raises |
| IndexingStates.IndexingState.MarkAsFailed | enterprise_catalog/apps/search/models.py:114-124 | only the failure fields are saved, over whatever the table holds |
| IndexingStates.IndexingState.MarkAsRemoved | enterprise_catalog/apps/search/models.py:126-134 | only the removal time is saved |
| BatchTask.ExistingShardIds | enterprise_catalog/apps/search/tasks.py:1259-1280 | the tracked ids, or the browsed ones for a row that tracks none |
| BatchTask.ResolveIndexingDecision | enterprise_catalog/apps/search/tasks.py:1283-1375 | the planned outcome, objects and ids to delete fit what the record, its row and the index say, exceptions included |
| BatchTask.PerRecordSaveFallback | enterprise_catalog/apps/search/tasks.py:1406-1424 | each save retried on its own; exactly the records whose retry raises turn FAILED |
| BatchTask.PerRecordDeleteFallback | enterprise_catalog/apps/search/tasks.py:1460-1477 | the same for deletes, only for records still INDEXED or REMOVED |
| BatchTask.ExecuteSaves | enterprise_catalog/apps/search/tasks.py:1378-1403 | the writes accepted and the fates left by one bulk save and its fallback |
| BatchTask.ExecuteDeletes | enterprise_catalog/apps/search/tasks.py:1427-1457 | the writes accepted and the fates left by one bulk delete and its fallback |
| BatchTask.FatesOnlyFall | enterprise_catalog/apps/search/tasks.py:607-654 | what happened to a record is what was planned, or FAILED |
| BatchTask.FinalizeDecision | enterprise_catalog/apps/search/tasks.py:1480-1504 | the row stamped and the counter raised for each outcome, and nothing counted when the stamp raises |
| BatchTask.IndexContentBatch | enterprise_catalog/apps/search/tasks.py:707-800 | the whole task: the plans it fits, the writes it makes in order, the rows and the summary it leaves |
| ObjectIds.ParseOfPrint | enterprise_catalog/apps/api/tasks.py:554-589 | type, uuid, language, facet kind and slice number are read back from any printed objectID of a record with a UUID |
| ObjectIds.PrintOfParse | enterprise_catalog/apps/api/tasks.py:554-563 | only printed ids parse: what parses is the print of what it parses to |
| ObjectIds.PrintInjective | enterprise_catalog/apps/catalog/algolia_utils.py:422-435 | two objectIDs are equal exactly when every component agrees |
| ObjectIds.IdsAgreeExactly | enterprise_catalog/apps/catalog/algolia_utils.py:422-435 | with or without uuids, two objectIDs are equal exactly when language, facet and slice agree and both records lack a uuid or share type and uuid |
| ObjectIds.MissingUuidsCollide | enterprise_catalog/apps/catalog/algolia_utils.py:422-435 | without a uuid the ids of two records coincide, and cannot be read back |
| ObjectIds.ParseOfDecimal | enterprise_catalog/apps/api/tasks.py:559 | slice numbers survive printing |
| ObjectIds.DecimalDigits | enterprise_catalog/apps/api/tasks.py:559 | digit by digit, most significant first |
| ObjectIds.PrintedAs | enterprise_catalog/apps/api/tasks.py:554-589 | the literal texts an objectID is made of |
| ContentRefs.AggregationKeyRoundTrip | enterprise_catalog/apps/catalog/utils.py:47-54 | type and key are recovered from an aggregation key even when the key contains colons |
| ContentRefs.AggregationKeysAre | enterprise_catalog/apps/search/tasks.py:1249-1256 | the literal aggregation keys |
| ContentRefs.AggregationKeyInjective | enterprise_catalog/apps/search/tasks.py:1249-1256 | two records share an aggregation key only if they are the same |
| Slicing.Batch | enterprise_catalog/apps/catalog/utils.py:92-104 | the generator yields the consecutive slices of the list |
| Slicing.SlicesJoin | enterprise_catalog/apps/catalog/utils.py:92-104 | the slices put together are the list |
| Slicing.SliceOfEntry | enterprise_catalog/apps/catalog/utils.py:92-104 | each entry of a list without repetitions is in exactly one slice |
| Slicing.SliceCount | enterprise_catalog/apps/catalog/utils.py:92-104 | there are ceil(n / size) slices |
| Shards.BatchedMetadata | enterprise_catalog/apps/api/tasks.py:554-563 | one object for each slice of catalogs or customers, with the right id, body and uuids |
| Shards.BatchedMetadataWithQueries | enterprise_catalog/apps/api/tasks.py:566-589 | one object for each slice of queries, with its sorted uuids and titles |
| Shards.ProductTable.AddMetadata | enterprise_catalog/apps/api/tasks.py:883-995 | all objects of a record, in both languages, entered by objectID over what was there |
| Shards.ShardIsSlice | enterprise_catalog/apps/api/tasks.py:554-589 | every object of a record is one slice of one facet in one language |
| Shards.ShardsExactly | enterprise_catalog/apps/api/tasks.py:883-995 | the objects of a record that is not oversize: for each language it has (English always, Spanish when translated), each facet and each slice the object with that id, body and slice, and no other |
| Shards.SlicesAre | enterprise_catalog/apps/api/tasks.py:554-563 | the slices are those of the lists cut at a hundred |
| Shards.ShardIdsIdentify | enterprise_catalog/apps/api/tasks.py:554-589 | an object's id tells the record it belongs to, and no two objects of a record share one |
| Shards.NoShardsIffNowhere | enterprise_catalog/apps/api/tasks.py:883-995 | a record gets no objects exactly when it is oversize or belongs nowhere |
| ShardFacets.UuidSlicesPartition | enterprise_catalog/apps/api/tasks.py:554-563 | catalog and customer uuids fall into ceil(n / 100) slices of 1 to 100, each uuid in exactly one |
| ShardFacets.QuerySliceSays | enterprise_catalog/apps/api/tasks.py:566-589 | a query slice carries exactly the uuids and titles of its queries and every explore title of the record, and no other |
| ShardFacets.QueryInOneSlice | enterprise_catalog/apps/api/tasks.py:566-589 | each query is in exactly one slice, together with its title |
| ShardFacets.ShowsExactlyMemberships | enterprise_catalog/apps/api/tasks.py:554-589 | when exactly a record's objects are hosted, the union of their facets is exactly its memberships |
| ShardFacets.ShowsInEachLanguage | enterprise_catalog/apps/api/tasks.py:967-993 | and so in the part of the index of each language the record has, with that language's body; in any other language it shows nothing |
| ShardFacets.IndexedShowsMemberships | enterprise_catalog/apps/search/tasks.py:1358-1368 | from the batch to the facets: after an INDEXED outcome with complete tracking the index shows the record under exactly its current memberships, none dropped earlier surviving |
| ShardFacets.IndexedShowsEachLanguage | enterprise_catalog/apps/api/tasks.py:967-993 | the same from the batch, language by language |
| ShardFacets.IndexedShowsTitles | enterprise_catalog/apps/api/tasks.py:566-589 | and every hosted query object has the titles of the queries it carries, and the two explore titles if any query of the record has them |
| Sorting.SortedList | enterprise_catalog/apps/api/tasks.py:945-966 | in whatever order a set is listed, sorting the list gives the one strictly sorted list of its elements |
| Sorting.SortedSetSorts | enterprise_catalog/apps/api/tasks.py:584-587 | the sorted set of titles is strictly sorted and has the same elements |
| Sorting.LessExactly | enterprise_catalog/apps/api/tasks.py:945-966 | the order: proper prefixes first, otherwise by the first character that differs |
| Generator.ListingHolds | enterprise_catalog/apps/api/tasks.py:945-966 | the lists handed to the cutting hold exactly the collected sets, each entry once, each query with its title |
| Generator.ProductsForBatch | enterprise_catalog/apps/api/tasks.py:1150-1327 | the passes and the last loop of the generator: the objects of all loaded records entered by objectID into one dictionary |
| Generator.BucketByContentKey | enterprise_catalog/apps/search/tasks.py:1237-1246 | each requested key gets the objects filed under its aggregation key, in order, and no other key gets any |
| Generator.ObjectsByContentKey | enterprise_catalog/apps/search/tasks.py:1210-1246 | both together: each requested key is given exactly the products filed under it, each once |
| Generator.ProductsFiled | enterprise_catalog/apps/api/tasks.py:1265-1289 | what the shared dictionary files under a record's aggregation key is exactly that record's own objects, whatever the other records and videos entered |
| Generator.KeyGetsItsObjects | enterprise_catalog/apps/search/tasks.py:1210-1246 | so a requested key is given exactly the objects of its own record, and nothing if no such record was loaded |
| Generator.GeneratorIsWellBehaved | enterprise_catalog/apps/search/tasks.py:1210-1246 | records with distinct UUIDs give the generator output the indexing laws ask for |
| EndToEnd.IndexShowsResult | enterprise_catalog/apps/search/tasks.py:707-800 | after an INDEXED outcome with complete tracking the index shows a record under exactly the catalogs, customers and queries the facet passes collected for it, each object with the collected academies and titles, over all and in each language the record has |
| EndToEnd.IndexShowsPathway | enterprise_catalog/apps/api/tasks.py:1234-1263 | and a pathway exactly as the table says, in every facet, if and only if the shared catalogs of its programs reach it in this batch |
| EndToEnd.IndexShowsWhatTheTableSays | enterprise_catalog/apps/search/tasks.py:707-800 | from the content table to the index: after an INDEXED outcome with complete tracking a course or program is shown in exactly the catalogs, customers, queries and academies the table says, whatever else is in the batch and whatever failed for other records |
| EndToEnd.IndexShowsEntries | enterprise_catalog/apps/search/tasks.py:707-800 | the same entry by entry in the fields of the rows: a course is in a catalog exactly when its own row or a run counts under a query of that catalog, a program also when all its courses are indexable and in it; so with customers, queries, titles and academies, in each language |
| EndToEnd.IndexShowsPathwayEntries | enterprise_catalog/apps/api/tasks.py:1234-1263 | and for a pathway: exactly its own entries and those of its indexable members as this batch sees them |
| EndToEndExample.TheCourseIsShown | enterprise_catalog/apps/api/tasks.py:1150-1327 | the hypotheses of these can be met together: one course in one catalog, generated, handed over, indexed into an empty index and shown in its catalog |
| FacetTables.FacetCollector.CollectDirect | enterprise_catalog/apps/api/tasks.py:1155-1199 | the first loop, updating the seven dictionaries record by record |
| FacetTables.FacetCollector.Intersect | enterprise_catalog/apps/api/tasks.py:1211-1218 | the running intersection is the set of catalogs common to all courses, none when there are no courses |
| FacetTables.FacetCollector.CollectPrograms | enterprise_catalog/apps/api/tasks.py:1204-1232 | the second loop over programs |
| FacetTables.FacetCollector.CollectPathways | enterprise_catalog/apps/api/tasks.py:1238-1248 | the third loop over pathways |
| FacetLaws.RecordsEntered | enterprise_catalog/apps/api/tasks.py:1155-1199 | closed form of the first pass, at every key and catalog: exactly what the records filed there say |
| FacetLaws.AssociatedExactly | enterprise_catalog/apps/api/tasks.py:1161-1173 | which queries count for a record: the restricted ones exactly for a course that is not advertised while the setting is on, its own queries otherwise |
| FacetInheritance.AllPassesFaithful | enterprise_catalog/apps/api/tasks.py:1155-1248 | through all passes and for every key, customers and academies are the image of the catalogs and the queries include it, whatever the batch and the mappings |
| FacetInheritance.SecondPassAt | enterprise_catalog/apps/api/tasks.py:1204-1232 | a program gains exactly the catalogs common to its courses, with what the tables say of them; nothing else changes |
| FacetInheritance.ThirdPassAt | enterprise_catalog/apps/api/tasks.py:1234-1248 | a pathway gains exactly what its members held; nothing else changes |
| IndexingMappings.PrecalculateContentMappings | enterprise_catalog/apps/api/tasks.py:731-772 | the two mappings hold exactly the associations of the table, with an entry only for what has some |
| IndexingMappings.ComputeIndexingMappings | enterprise_catalog/apps/search/indexing_mappings.py:81-118 | every indexable program and every pathway has an entry, and the indexable set is complete |
| IndexingMappings.LookupsAreDefined | enterprise_catalog/apps/search/indexing_mappings.py:101-111 | the bare dictionary lookups never fail, even with mappings computed from an earlier state of the table |
| BatchIndependence.FirstPassResult | enterprise_catalog/apps/api/tasks.py:1090-1199 | after the first pass a kept key holds the facets of its own record and runs, and any other key nothing |
| BatchIndependence.OwnExactly | enterprise_catalog/apps/api/tasks.py:1155-1199 | those facets, entry by entry: what the rows and runs filed under the key say in their own fields |
| FacetEntries.FirstPassEntries | enterprise_catalog/apps/api/tasks.py:1155-1199 | the state after the first pass in the same terms, for every key of every batch |
| FacetEntries.LoadedExactly | enterprise_catalog/apps/api/tasks.py:1090-1150 | which rows a batch loads: the indexable ones asked for or listed by what was asked for, and the runs under them |
| FacetEntries.RequestedEntries | enterprise_catalog/apps/api/tasks.py:1155-1232 | under what a requested course or program is filed, entry by entry and in the fields of the table alone |
| FacetEntries.PathwayEntries | enterprise_catalog/apps/api/tasks.py:1234-1248 | the same for a requested pathway, with the condition under which a member program shares its catalogs in the batch |
| BatchIndependence.RequestedGetsDeserved | enterprise_catalog/apps/api/tasks.py:1090-1248 | a course or program asked for gets exactly what the content table alone says it should |
| BatchIndependence.SameInEveryBatch | enterprise_catalog/apps/api/tasks.py:1090-1248 | two batches that both ask for a course or program compute the same catalogs, customers, queries and academies for it |
| BatchIndependence.UnindexableCourseBlocks | enterprise_catalog/apps/api/tasks.py:1208-1218 | a program in the batch one of whose courses is not indexable ends with its own facets only, whatever its other courses share |
| BatchIndependence.PathwayResult | enterprise_catalog/apps/api/tasks.py:1234-1248 | exactly what a pathway gets in any batch: a member program contributes its shared catalogs only if all its courses are kept |
| BatchIndependence.PathwayGetsDeservedExactly | enterprise_catalog/apps/api/tasks.py:1234-1248 | a pathway gets all that the table says it should, in catalogs and in every facet, if and only if the catalogs shared by each program left out of the batch in part are the pathway's own or reach it through another member |
| BatchIndependence.PathwayDependsOnItsBatch | enterprise_catalog/apps/api/tasks.py:1146-1150 | a concrete table where a pathway asked for alone misses a catalog it shows when its program is asked for too |
| Dispatcher.CourseKeysForDispatch | enterprise_catalog/apps/search/tasks.py:902-926 | selected, in order, exactly the courses never indexed, edited since, or failed if failures are included; raises when an indexed one has no content record |
| Dispatcher.HasNewerChildIndex | enterprise_catalog/apps/search/tasks.py:1173-1185 | whether some child was indexed strictly later than the parent |
| Dispatcher.ParentKeysForDispatch | enterprise_catalog/apps/search/tasks.py:1075-1118 | the same for programs, selected also when one of their courses was indexed strictly later |
| Dispatcher.PathwayKeysForDispatch | enterprise_catalog/apps/search/tasks.py:1121-1170 | the same for pathways, selected also when a member whose key parses as a UUID was indexed strictly later, and for no other member |
| Dispatcher.SelectInOrder | enterprise_catalog/apps/search/tasks.py:902-926 | selecting keeps the order and every occurrence of what is chosen |
| Dispatcher.CourseDispatchedIffNotSkipped | enterprise_catalog/apps/search/tasks.py:1331-1339 | with failures included, a course is dispatched exactly when the batch step would not skip it |
| Dispatcher.LeavingFailuresOut | enterprise_catalog/apps/search/tasks.py:888-899 | without failures, what is lost is exactly the failed courses not edited since |
| Dispatcher.ParentDispatchedUnlessSkipped | enterprise_catalog/apps/search/tasks.py:1075-1170 | programs and pathways are over-approximated, and one that is dispatched is skipped exactly when only a newer child made it due |
| SkippedRecords.StaysAsItIs | enterprise_catalog/apps/search/tasks.py:1326-1339 | over any run of edits and batches that neither edits, deletes nor forces a current record, nor finds it unindexable or fails to look it up, its row and its hosted objects stay as they are, however often it is listed |
| SkippedRecords.RemovalKeepsTimes | enterprise_catalog/apps/search/models.py:126-134 | a removal is stamped and leaves in the row what it said of the last indexing and of failures |
| SkippedRecords.ComesBackExactly | enterprise_catalog/apps/search/tasks.py:1326-1346 | a removed record that is indexable again is indexed by the next batch that lists it exactly when that is forced, or the record was never indexed, was edited after it was last indexed, or has failed; otherwise it is skipped |
| SkippedRecords.RemovedStaysAway | enterprise_catalog/apps/search/tasks.py:1326-1339 | so a record that was current when it was removed hosts nothing over every such later run, though it is indexable in all of it |
| SkippedRecords.ARemovedCourseStaysAway | enterprise_catalog/apps/search/tasks.py:1312-1339 | a concrete course that is removed, becomes indexable again, is skipped and hosts nothing |
| ParentSkips.ParentIsSkipped | enterprise_catalog/apps/search/tasks.py:1331-1339 | a program or pathway that only a newer child makes due is skipped by every unforced batch that lists it |
| ParentSkips.NeverReindexed | enterprise_catalog/apps/search/tasks.py:1075-1170 | over every run in which it is not edited, forced, failed to be looked up or made unindexable, and its newer child stays, with any failures elsewhere: such a program or pathway keeps its row and its hosted objects, and is as due as before |
| ParentSkips.DispatchedAgain | enterprise_catalog/apps/search/tasks.py:1075-1185 | and in each of those states the dispatcher selects it again |
| ParentSkips.AProgramIsDispatchedAndSkipped | enterprise_catalog/apps/search/tasks.py:1075-1118 | a concrete program indexed at 7 with a course indexed at 9: dispatched, and skipped |
| Dispatcher.GroupByContentType | enterprise_catalog/apps/search/tasks.py:1055-1072 | keys grouped by the type name before the first colon, unsupported types dropped |
| Dispatcher.GroupedIffNamed | enterprise_catalog/apps/search/tasks.py:1055-1072 | grouping undoes naming for every non-empty key |
| Dispatcher.RecordsForCatalogQuery | enterprise_catalog/apps/search/tasks.py:533-570 | the sorted lists dispatched for a refreshed catalog query |
| Dispatcher.DispatchedForCatalogQuery | enterprise_catalog/apps/search/tasks.py:533-570 | a record is dispatched exactly when it is due or is in only one of the query and the index |
| Redispatch.SecondDispatch | enterprise_catalog/apps/search/tasks.py:902-926 | after failure-free course batches stamped no earlier than the edits, a second dispatch selects exactly the courses removed for having no objects |
| Redispatch.StillDueIffNoShards | enterprise_catalog/apps/search/tasks.py:1331-1356 | one such round, one course |
| Redispatch.FailureFreeIffNoneCounted | enterprise_catalog/apps/search/tasks.py:127-155 | failure-free is what the summary reports as zero failures |
| Canvas.Chunked | enterprise_catalog/apps/search/tasks.py:803-813 | consecutive chunks; a size of zero yields none |
| Canvas.BuildOrderedGroups | enterprise_catalog/apps/search/tasks.py:311-369 | one group for each kind that has batches, in order, none on a dry run, and the counts either way |
| Canvas.DispatchedExactlyOnce | enterprise_catalog/apps/search/tasks.py:803-813 | each occurrence of a key is in exactly one batch of its kind, of bounded size |
| Canvas.TallyExactly | enterprise_catalog/apps/search/tasks.py:311-369 | the summary counts each kind's keys and batches, all batches but the last being full |
| Canvas.BuildSequentialCanvas | enterprise_catalog/apps/search/tasks.py:372-399 | the nested chords unroll to the groups in order |
| Canvas.KindsInOrder | enterprise_catalog/apps/search/tasks.py:372-399 | in every schedule, when a batch starts, all batches of every earlier kind have succeeded: courses, then programs, then pathways, then videos |
| Canvas.NoEarlyStart | enterprise_catalog/apps/search/tasks.py:372-399 | the same for any nested canvas, by group |
| Canvas.FailureStopsTheRest | enterprise_catalog/apps/search/tasks.py:388-398 | once a batch fails nothing in a later group ever starts |
| Canvas.StartsOnce | enterprise_catalog/apps/search/tasks.py:372-383 | no batch starts twice |
| Canvas.NoDeadlock | enterprise_catalog/apps/search/tasks.py:372-399 | a schedule is stuck only at the end or after a failure |
| ContentSync.GetDefaults | enterprise_catalog/apps/catalog/models.py:1113-1170 | which fields an entry sets, with the whole entry or the minimal course fields as JSON |
| ContentSync.MinimalHas | enterprise_catalog/apps/catalog/models.py:1149-1164 | an existing course takes exactly the truthy plucked values and `modified` |
| ContentSync.CourseUpdateKeepsOtherFields | enterprise_catalog/apps/catalog/models.py:1303-1313 | updating an existing course changes no field outside the plucked ones and `modified`, and drops none |
| ContentSync.SettledCourseIsSkipped | enterprise_catalog/apps/catalog/models.py:1220-1231 | a course entry whose `modified` parses is skipped the next time |
| EntryEffects.KeyExactly | enterprise_catalog/apps/catalog/utils.py:38-44 | the content key of an entry: its key, or its uuid when that is not given |
| EntryEffects.TypeAndParent | enterprise_catalog/apps/catalog/utils.py:47-80 | its type, and for a run its parent, read off the aggregation key |
| EntryEffects.SkippedExactly | enterprise_catalog/apps/catalog/models.py:1201-1231 | an entry is skipped exactly when the stored record is a course whose `modified` parses to the same time |
| EntryEffects.NewRecord | enterprise_catalog/apps/catalog/models.py:1113-1170 | a new record takes the whole entry |
| EntryEffects.ExistingRecord | enterprise_catalog/apps/catalog/models.py:1283-1334 | an existing record that is not skipped gets a new parent, type and time and keeps its uuid |
| EntryEffects.ExistingFields | enterprise_catalog/apps/catalog/models.py:1147-1170 | field by field: a course takes seven named fields as far as they are given, a program, run or pathway every field of the entry; nothing else changes |
| ContentSync.Partition | enterprise_catalog/apps/catalog/models.py:1234-1280 | the three lists the loops build from a batch |
| ContentSync.PartitionCounts | enterprise_catalog/apps/catalog/models.py:1505-1518 | every entry is updated, created or skipped, so the safeguard never fires |
| ContentSync.ContentStore.UpdateExisting | enterprise_catalog/apps/catalog/models.py:1283-1334 | the records written by an update, JSON merged and the rest replaced |
| ContentSync.ContentStore.CreateNew | enterprise_catalog/apps/catalog/models.py:1337-1362 | all rows go in or none, and the keys handed back either way |
| ContentSync.ContentStore.UpdateOrCreate | enterprise_catalog/apps/catalog/models.py:1462-1479 | one call, with a database error queueing the whole batch |
| BatchSync.ProcessEffect | enterprise_catalog/apps/catalog/models.py:1483-1537 | a batch with distinct keys and no trouble: every record as its entry makes it, no other changed, every key handed back once |
| BatchSync.KeysHandedBack | enterprise_catalog/apps/catalog/models.py:1530-1537 | updated, skipped and created keys together are the batch's keys |
| BatchSync.InsertedExactly | enterprise_catalog/apps/catalog/models.py:1337-1362 | how far the inserts of a batch get: up to the first whose key is missing, stored, used by an earlier one, or taken by a concurrent writer |
| BatchSync.UndoneInsertsAreHandedBack | enterprise_catalog/apps/catalog/models.py:1350-1362 | the created records handed back are all stored exactly when no insert, or the very first, was refused |
| BatchSync.AnUndoneKeyIsHandedBack | enterprise_catalog/apps/catalog/models.py:1350-1362 | the smallest case where they are not: of two new entries the second is refused, and the first is handed back without a row |
| CatalogRefresh.RetryLoop | enterprise_catalog/apps/catalog/models.py:1443-1452 | at most the given number of retries, first entry first |
| CatalogRefresh.CreateContentMetadata | enterprise_catalog/apps/catalog/models.py:1402-1459 | the whole sync, slice by slice and then entry by entry |
| CatalogRefresh.SyncAccountsForAll | enterprise_catalog/apps/catalog/models.py:1402-1479 | conservation: each allowed entry is handed back exactly once or still queued, its record is what it makes of the one found, nothing else changes, wherever the list is cut and whichever updates fail |
| CatalogRefresh.DrainedMeansAll | enterprise_catalog/apps/catalog/models.py:1443-1459 | when the queue drains, the allowed keys are handed back, each once |
| RefreshOutcomes.SyncExactly | enterprise_catalog/apps/catalog/models.py:1402-1479 | after a sync without a refused insert a key is handed back or queued exactly when an entry of the payload that the query allows has it; its record is what the entry makes of it, and any other record is as before |
| RefreshOutcomes.AllowedInOrder | enterprise_catalog/apps/catalog/models.py:1417-1427 | the filter keeps, in order, the entries the query allows |
| RefreshOutcomes.DrainsExactly | enterprise_catalog/apps/catalog/models.py:1443-1459 | the queue drains exactly when as many retries meet no error as there are allowed entries in the batches that failed |
| RefreshOutcomes.RetryTakesFirst | enterprise_catalog/apps/catalog/models.py:1443-1452 | one retry takes the first queued entry, alone; failing again it joins the end |
| RefreshOutcomes.RetriesGoOn | enterprise_catalog/apps/catalog/models.py:1443-1452 | retrying goes on where it stopped, and stops with an empty queue |
| RefreshOutcomes.StampOfSlice | enterprise_catalog/apps/catalog/models.py:1417-1427 | an allowed entry whose batch meets no error is handed back with the record it makes at the time of that call, whatever happens later |
| RefreshOutcomes.StampOfRetry | enterprise_catalog/apps/catalog/models.py:1443-1452 | one whose batch fails is still queued, or handed back with the time of a retry that met no error |
| CatalogRefresh.DrainedSyncsAgree | enterprise_catalog/apps/catalog/models.py:1402-1459 | two drained syncs of one payload leave the same content, whatever batch sizes and errors, but for the time stamps |
| CatalogRefresh.SecondSyncWritesNoCourse | enterprise_catalog/apps/catalog/models.py:1201-1231 | syncing the same payload again leaves every course with a parsable `modified` exactly as it was |
| CatalogRefresh.SecondSyncMakesNothingDue | enterprise_catalog/apps/search/tasks.py:902-926 | so no such course newly becomes due for dispatch |
| CatalogRefresh.SyncKeepsOtherCourseFields | enterprise_catalog/apps/catalog/models.py:1147-1170 | a whole sync changes no field of an existing course outside the plucked ones and `modified` |
| CatalogRefresh.SetRelations | enterprise_catalog/apps/catalog/models.py:1648 | the stored ones of the proposed keys, or the old members when the database refuses a relation to a row that is not stored |
| CatalogRefresh.AssociateWithQuery | enterprise_catalog/apps/catalog/models.py:1620-1651 | the membership left by one refresh: blocked, replaced, or undone because a key handed back has no row and the database refuses the relation |
| CatalogRefresh.GuardrailWindow | enterprise_catalog/apps/catalog/models.py:1574-1617 | what the guardrail lets through: a fifth to nine fifths of a large query not modified today, anything but nothing otherwise |
| RefreshOutcomes.RefreshedExactly | enterprise_catalog/apps/catalog/models.py:1633-1648 | after a refresh a key is a member exactly when it was one and the guardrail objects, or else when an entry of the payload that the query allows has it and is not still queued |
| CatalogRefresh.EmptiedExactly | enterprise_catalog/apps/catalog/models.py:1558-1566 | exactly when one refresh empties a query that has members, the safeguard counting keys and not stored rows |
| CatalogRefresh.ARefreshCanEmpty | enterprise_catalog/apps/catalog/models.py:1350-1362 | an input at which it does: two new entries, the second refused |
| CatalogRefresh.NeverEmptied | enterprise_catalog/apps/catalog/models.py:1558-1566 | over any sequence of refreshes a query with members keeps some, unless a refresh hands back keys none of which is stored and the database lets it pass |
| CatalogRefresh.LargeQueriesChangeSlowly | enterprise_catalog/apps/catalog/models.py:1574-1606 | a query above the floor and not modified today does not change, or is proposed at least eleven keys within eight tenths of its size and takes of them exactly what is stored, which is all of them when the database refuses anything less |
| Semaphore.ResultTable.TaskRecentlyRun | enterprise_catalog/apps/api/tasks.py:122-165 | whether another equivalent task was created since the threshold and neither failed nor was revoked |
| Semaphore.ResultTable.Guard | enterprise_catalog/apps/api/tasks.py:203-225 | uninterrupted, the task runs or its record is revoked |
| Semaphore.PassingMeansAlone | enterprise_catalog/apps/api/tasks.py:148-165 | in every interleaving, when a task passes its check every equivalent one that passed before has failed, been revoked, or is older than the time delta |
| Semaphore.NeverInsideTogether | enterprise_catalog/apps/api/tasks.py:203-225 | two equivalent unforced tasks are never inside at once unless one was created before the other's check looked back |
| Semaphore.RunKeepsSafe | enterprise_catalog/apps/api/tasks.py:203-225 | the invariant behind it, over all interleavings of submitting, entering, checking, revoking, finishing and retrying |
| Semaphore.Lifecycle | enterprise_catalog/apps/api/tasks.py:203-225 | which moves a task can make after each move; only one to be retried may enter again |
| Semaphore.OthersStay | enterprise_catalog/apps/api/tasks.py:203-225 | a move changes the record and the place of no other task |
| Semaphore.GetsInExactly | enterprise_catalog/apps/api/tasks.py:122-165 | uninterrupted, a task gets in exactly when every equivalent one created within the time delta has failed or been revoked |
| Semaphore.FinishDecides | enterprise_catalog/apps/api/tasks.py:148-165 | a task that failed makes way for its successor; one that succeeded or asks to be retried does so only once it is older than the time delta |
| SemaphoreLosers.BothShutOutExactly | enterprise_catalog/apps/api/tasks.py:203-225 | over every run, two equivalent unforced tasks, the only ones of their call, both end revoked without passing exactly when each one's check finds the other submitted, fresh and not yet revoked, and both revoke themselves; equivalently, through a state in which both are turned away |
| SemaphoreLosers.BothShutOutInEveryRun | enterprise_catalog/apps/api/tasks.py:203-225 | the same for a run given by its moves alone |
| SemaphoreLosers.OneGetsThrough | enterprise_catalog/apps/api/tasks.py:207-224 | if no check of one comes between the other's check and its revoking, one of the two gets through |
| Semaphore.BothCanBeRevoked | enterprise_catalog/apps/api/tasks.py:207-224 | a concrete interleaving in which two fresh equivalent tasks shut each other out |
| Pagination.IterQuerysetInBatches | enterprise_catalog/apps/catalog/management/utils.py:5-34 | the pages read by the loop, an error for a batch size below one, and termination under a bound on the keys |
| Pagination.BatchByPk | enterprise_catalog/apps/catalog/utils.py:119-139 | the older loop reads the same pages |
| Pagination.KeysIncrease | enterprise_catalog/apps/catalog/management/utils.py:25-34 | keys come out strictly increasing, whatever happens to the table between pages |
| Pagination.LastingRowReadOnce | enterprise_catalog/apps/catalog/management/utils.py:25-34 | a row that existed and matched throughout is read exactly once |
| Pagination.PagesAreReal | enterprise_catalog/apps/catalog/management/utils.py:25-34 | every row on a page was found by that page's query, and no page is empty or too long |
| Pagination.FixedTableReadWhole | enterprise_catalog/apps/catalog/utils.py:132-139 | on a fixed table the pages concatenate to the whole filtered table |
| Pagination.FixedTablePages | enterprise_catalog/apps/catalog/utils.py:132-139 | on a fixed table the pages are its consecutive slices |

## Left out

- Algolia's asynchronous publication, settings and replicas, HTTP clients and OAuth: a request to the index is one atomic update of a map, or a failure.
- Several index names sharing one row: one index, and one writer per record at a time.
- Django's ORM and locking: tables are maps, and a transaction takes effect as a whole or not at all; the update slices of four records inside one transaction share one clock reading.
- An error other than a refused insert while rows are created: it ends the refresh with the query unchanged.
- Dry runs of the sync, which log instead of writing.
- Replacing a membership with rows that were undone depends on the database, so `Relations.strict` is a parameter; that the identity of an undone row is later given to another record is not modelled.
- `_should_allow_metadata`, date parsing, UUID parsing and the indexability of courses and programs: parameters, since they are lists of settings and library calls.
- JSON payloads: an index object's body is an opaque value per language; size limits appear only as the flag `oversize`.
- Aggregation keys that are not texts, and content keys that are neither texts nor missing: such entries would raise in the source.
- Videos beyond their place in the canvas and in the shared dictionary of products, and academy tags, whose value depends on the rest of the batch.
- The full reindex, which discards objects an earlier batch of the same run generated; the incremental batches never do.
- The mappings cache with its timeout: `LookupsAreDefined` covers mappings of any earlier state of the table instead.
- BatchTask.ResolveIndexingDecision: does not fix the order of the ids to delete, because the source builds the list from a set.
- The death of a worker, or an exception not caught by the task, between or inside its passes: a task always runs to its end.
- Pagination.BatchByPk: reads each page once, so a table that changes between the existence query and the iteration of the same page is not modelled.
- Canvas.KindsInOrder: a batch that Celery retries counts as running until its last attempt ends.
- Semaphore.RunKeepsSafe: revocation of a task from outside and loss of a worker are not among the moves.
- Tracked ids after a failure may miss hosted ones; `IndexingRuns.RunsStaySound` says what does hold.
- Views, serializers, permissions, exports, translations, migrations and the management commands around these functions.
