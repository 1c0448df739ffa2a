# goszakup_agent ETL and analytics, modelled in Dafny

goszakup_agent copies public-procurement data of Kazakhstan (annual plans,
announcements with their lots, contracts with their units, buyer and supplier
organisations, and the unit, KATO region and ENSTRU/KTRU dictionaries) from
the goszakup REST API into a relational store. It then answers three
analytical questions about the stored contract units:
- Is a target price far from the weighted average?
- Did a customer's yearly volume spike?
- What is the Tukey-fence fair price range?

What is modelled:
- The API client: `get`, with bounded retries and two exponential backoff
  schedules, and `paginate`, a walk over `next_page` cursor tokens. The HTTP
  session is an oracle from attempt or page number to reply, and the sleeps
  are an output trace.
- The store: one map per table, keyed by primary key (`Models.Tables`).
  `Store.Session` is a class with fields for what queries see (`live`,
  pending writes included), the last committed state (`durable`) and a
  commit counter. Each loader and enrichment job is a method over a
  `Session`. Its `ensures` equates the new state with a fold over the
  upstream feed. The lemmas are stated about those folds:
  - insert-if-absent idempotence;
  - counters that count exactly the insertions;
  - commit periods;
  - the cutoff that stops a walk or skips a record;
  - snapshot-based nulling of dangling references;
  - referential safety of every table.
- The lot-name sanitiser, a pure string pipeline, and the in-place cleaning
  pass over the lots array.
- The analytics decision logic over exact `real` arithmetic:
  - pandas-style linear quantiles, Tukey fences and the median;
  - weighted average and deviation;
  - the volume-spike rule;
  - link selection by top price or by distance to the median.

Files: one module per source file, plus modules for shared structure:
- `wrappers`: Option;
- `text`: whitespace, truthiness, decimal printing;
- `dates`: datetimes and the fixed `strptime` formats;
- `folds`: left folds and the stop-at-first walk;
- `inserts`: insert-if-absent over a map;
- `models`: rows and tables;
- `store`: the session;
- `upstream`: the API's record shapes;
- `stats`: sorting, quantiles, arg-sort, distinct.

Two behaviours of the code worth knowing:
- `paginate` has no repeated-token, repeated-item or page-count guard. A
  page oracle that repeats a token forever makes the walk run until the
  model's page bound (`Client.NoRepeatedTokenGuard`).
- `enrich_subjects` overwrites both names with the response values, even
  when they are null (`EnrichSubjects.SubjectsKeepAbsentNames`).

## Model

| member | source | states |
|---|---|---|
| Client.BackoffTrace | src/etl/client.py:28-39 | the k-th sleep after a failed attempt is 5·2^k after a 429 and 3·2^k after any other failure |
| Client.StripSlashes | src/etl/client.py:17 | the base URL loses exactly its trailing slashes: the result is a prefix, and what was removed is all `/` |
| Client.Get | src/etl/client.py:20-41 | at most `max_retries` attempts; the first successful attempt's JSON is returned; otherwise the error names the URL and the retry count; one 0.35 s pause first, then one backoff per failed attempt |
| Client.DefaultScheduleOnErrors | src/etl/client.py:37-39 | with the default 4 retries and only transport errors the sleeps are 3, 6, 12, 24 s |
| Client.Walk | src/etl/client.py:43-63 | the walk with a page bound: at most one request per unit of fuel, and the first request carries the given parameters |
| Client.Paginate | src/etl/client.py:43-63 | the loop yields exactly the items, sends exactly the requests, and ends for exactly the reason of `Walk` from the caller's parameters plus `limit=200` |
| Client.WalkNext | src/etl/client.py:56-63 | a non-empty page with a token yields its items and continues with `next_page` set to that token |
| Client.WalkYieldsEveryPage | src/etl/client.py:51-57 | the items yielded are every item of every page requested, in page order; a bare-list body is its own item list, otherwise `items` defaulting to empty |
| Client.WalkFollowsTokens | src/etl/client.py:59-63 | each follow-up request carries the previous page's truthy `next_page` token |
| Client.WalkEnds | src/etl/client.py:53-61 | the walk ends at the first failed request, the first empty page, or the first non-empty page without a truthy token; list bodies never carry a token |
| Client.WalkKeepsParams | src/etl/client.py:44-45 | every request keeps every caller parameter other than `next_page` |
| Client.NoRepeatedTokenGuard | src/etl/client.py:47-63 | a server that repeats the same page and token forever is followed until the page bound: nothing in the client stops it |
| Client.WalkFirstFailure | src/etl/client.py:47-49 | an error from the first `get` propagates with nothing yielded |
| Upstream.FirstRecord | src/etl/enrich_missing_announcements.py:40-42 | the record is the first element of a non-empty list, else the object itself, and only when it has an `id` |
| Upstream.Replied | src/etl/load_historical.py:114-131 | a failed single request contributes no items; a successful one contributes its items |
| Models.PutPlanSafe | src/db/models.py:13-23 | a plan write keeps every table keyed by its primary key and every reference intact |
| Models.PutSubjectSafe | src/etl/load_historical.py:48-50 | writing a subject keeps the store referentially safe |
| Models.PutAnnouncementSafe | src/etl/load_historical.py:102-113 | writing an announcement keeps the store referentially safe |
| Models.PutRefUnitSafe | src/etl/load_historical.py:30-35 | writing a unit-dictionary row keeps the store safe |
| Models.PutRefKatoSafe | src/etl/enrich_kato.py:24-29 | writing a KATO row keeps the store safe |
| Models.PutRefEnstruSafe | src/etl/enrich_enstru.py:38-43 | writing an ENSTRU row keeps the store safe |
| Models.PutUnitSafe | src/db/models.py:52-54 | a unit whose contract exists and whose plan, when set, exists keeps the store referentially safe |
| Models.PutContractSafe | src/etl/load_historical.py:147-148 | a contract whose announcement, when set, exists keeps the store referentially safe |
| Models.PutLotSafe | src/etl/load_historical.py:119-121 | a lot under an existing announcement keeps the store referentially safe |
| Store.Session.constructor | src/etl/load_plans.py:62-64 | a new session sees and has committed exactly the given tables |
| Store.Session.Write | src/etl/load_plans.py:52 | a pending write changes what queries see, not the committed state |
| Store.Session.Commit | src/etl/load_plans.py:59 | the committed state becomes what queries see, and the commit counter grows by one |
| Store.Session.Rollback | src/etl/enrich_missing_announcements.py:73-74 | what queries see returns to the last commit |
| Store.RollbackForgetsPending | src/etl/enrich_missing_announcements.py:73-74 | a rollback forgets every write since the last commit and keeps everything committed |
| Inserts.InsertNewKeys | src/etl/load_historical.py:26-36 | after the insert-if-absent loop a key is present iff it was present or some record carries it |
| Inserts.InsertNewKeeps | src/etl/load_historical.py:29 | rows present before the insert-if-absent loop are never overwritten |
| Inserts.InsertNewFirst | src/etl/load_historical.py:29-35 | a new key gets the row of the first record that carries it |
| Inserts.InsertNewIdempotent | src/etl/load_historical.py:29-36 | running the insert-if-absent loop twice over the same records equals running it once |
| Inserts.InsertNewAllPresent | src/etl/load_historical.py:29 | when every key is already present, nothing changes |
| Inserts.InsertNewKeepsOld | src/etl/load_historical.py:29 | every row present before the loop keeps its key and its value |
| Inserts.InsertNewGrows | src/etl/load_historical.py:29-35 | the loop never removes a key |
| Folds.UntilFirst | src/etl/sync_daily.py:26-29 | the records consumed before a `break`: the longest prefix with no stopping record, and when shorter than the feed, the next record is the one that stops |
| Folds.UntilFirstCut | src/etl/sync_daily.py:26-29 | records after a stopping record change nothing |
| Folds.FoldSkip | src/etl/load_historical.py:70-73 | a record whose step is a `continue` can be dropped from the feed |
| Dates.ParseDateTime | src/etl/load_plans.py:35 | a `%Y-%m-%d %H:%M:%S` parse yields only valid calendar datetimes |
| Dates.ParseDate | src/etl/enrich_missing_announcements.py:19-20 | a `%Y-%m-%d` parse yields only valid calendar dates |
| Dates.ParseFormatDateTime | src/etl/load_plans.py:35 | every valid datetime printed in that format parses back to itself |
| Dates.FormatParseDateTime | src/etl/load_plans.py:35 | every string the parse accepts is the canonical print of its result |
| Dates.StrictDate | src/etl/load_contracts.py:40-41 | an absent or empty value gives None; a value that is not malformed (`BadDate`, on which the loaders raise) gives exactly its strict-format datetime |
| Dates.ReplaceChar | src/etl/load_historical.py:60 | after `replace(c, t)` no `c` remains when `t` has none |
| Dates.ParseDateHistorical | src/etl/load_historical.py:53-63 | empty input gives None, the strict format is tried first, then the ISO fallback with `Z` replaced by `+00:00` |
| Dates.HistoricalReadsCanonical | src/etl/load_historical.py:56-57 | a canonical datetime string is read by the strict format, the ISO fallback never consulted |
| Dates.BeforeFirst | src/etl/enrich_missing_announcements.py:15 | `split('.')[0]`: the prefix before the first `.`, the whole string when there is none |
| Dates.ParseDateBackfill | src/etl/enrich_missing_announcements.py:12-22 | empty input gives None; a result is a valid datetime read by the full or the date-only format from the normalised string |
| Dates.NormalizeIsoWithFraction | src/etl/enrich_missing_announcements.py:15 | `YYYY-MM-DDTHH:MM:SS.ffff` is normalised to `YYYY-MM-DD HH:MM:SS` |
| Dates.BackfillReadsIsoWithFraction | src/etl/enrich_missing_announcements.py:15-17 | an ISO timestamp with fractional seconds is read as its datetime |
| Dates.BackfillReadsDate | src/etl/enrich_missing_announcements.py:19-20 | a bare date is read as midnight of that day |
| Text.NonBlank | src/etl/load_historical.py:142-143 | the supplier BIN is kept exactly when it is present and not all whitespace |
| Cleaners.StripTagsLeavesNoTag | src/utils/cleaners.py:15-16 | after the tag substitution no `<[^>]+>` match remains |
| Cleaners.StripTagsIdentity | src/utils/cleaners.py:15-16 | text without a tag is unchanged by the substitution |
| Cleaners.StripTagsIdempotent | src/utils/cleaners.py:15-16 | substituting tags twice equals substituting once |
| Cleaners.Strip | src/utils/cleaners.py:22 | the stripped text neither starts nor ends with whitespace |
| Cleaners.WordsAreGood | src/utils/cleaners.py:18-19 | the words of a text are non-empty and contain no whitespace |
| Cleaners.JoinWordsNormal | src/utils/cleaners.py:18-22 | words joined by single spaces have no doubled, leading or trailing whitespace, and only plain spaces |
| Cleaners.CollapseIsJoin | src/utils/cleaners.py:18-19 | collapsing whitespace runs of a text that starts with a non-space gives its words joined by single spaces, plus one space when it ended in whitespace |
| Cleaners.NormalizeIsJoinWords | src/utils/cleaners.py:18-22 | collapse-then-strip equals the text's words joined by single spaces |
| Cleaners.SanitizeLotText | src/utils/cleaners.py:5-22 | None and "" come back unchanged; otherwise the result is the words of the unescaped, then tag-stripped, text joined by single spaces |
| Cleaners.SanitizedHasNoTags | src/utils/cleaners.py:15-22 | a sanitised text holds no `<…>` tag: collapsing and stripping whitespace cannot make one |
| Cleaners.SanitizedIsNormal | src/utils/cleaners.py:18-22 | a sanitised text has no two consecutive whitespace characters, none at either end, and only plain spaces |
| CleanExistingLots.CleanedLot | src/etl/clean_existing_lots.py:25-31 | only the Russian name changes, to its sanitised form |
| CleanExistingLots.CleanedLots | src/etl/clean_existing_lots.py:24-32 | every lot, in place, with its name sanitised |
| CleanExistingLots.DifferencesZero | src/etl/clean_existing_lots.py:30-32 | no position differs exactly when the tables are equal |
| CleanExistingLots.Changed | src/etl/clean_existing_lots.py:30-32 | the change count is at most the number of lots |
| CleanExistingLots.ChangedCounts | src/etl/clean_existing_lots.py:30-32 | the lots counted are exactly the positions the cleaning alters |
| CleanExistingLots.CleanLot | src/etl/clean_existing_lots.py:25-32 | lot j takes its cleaned form, and the count advances exactly when that changes the lot |
| CleanExistingLots.CleanBatch | src/etl/clean_existing_lots.py:24-32 | one offset batch is cleaned and counted, the rest of the table untouched |
| CleanExistingLots.CleanDatabaseLots | src/etl/clean_existing_lots.py:10-38 | afterwards every lot carries its sanitised name; `updated_count` is the number of lots that changed; there is one commit per non-empty batch of 5000, and the scan stops at the first empty batch |
| CleanExistingLots.CleanedNamesNormal | src/etl/clean_existing_lots.py:27-31 | after the pass every non-empty name is normalised, and lots with no name are left as they were |
| LoadPlans.PlanAdd | src/etl/load_plans.py:30-57 | one record: nothing after an exception; a malformed `date_approved` raises; a stored id is skipped; otherwise its plan row is written and `records_added` grows by one |
| LoadPlans.AddPlan | src/etl/load_plans.py:41-57 | the insert of one absent plan, the counter and the commit after every 100th insertion |
| LoadPlans.LoadPlansForBin | src/etl/load_plans.py:25-60 | one BIN's loop: the counter starts at zero, and the session and counter end as the fold over the whole feed says |
| LoadPlans.LoadAnnualPlans | src/etl/load_plans.py:22-60 | the BINs in order; an exception ends the run |
| LoadPlans.RunPlans | src/etl/load_plans.py:62-67 | the script over `ALL_BINS`, then the session closed |
| LoadPlans.PlanRaisedStays | src/etl/load_plans.py:34-35 | once a malformed date raised, the rest of the feed changes nothing |
| LoadPlans.BinsRaisedStays | src/etl/load_plans.py:25-35 | once a BIN raised, later BINs change nothing |
| LoadPlans.PlansAreInserts | src/etl/load_plans.py:37-53 | the pass is an insert-if-absent over plan ids, and `records_added` is exactly the number of new plans |
| LoadPlans.PlanAddPending | src/etl/load_plans.py:52-56 | the number of uncommitted plans is always `records_added` mod 100 |
| LoadPlans.PlansPendingBelowBatch | src/etl/load_plans.py:52-59 | at the end of the loop fewer than 100 plans are pending, and the commits never lose a plan |
| LoadPlans.BinPlansComplete | src/etl/load_plans.py:37-52 | every record's id is stored afterwards, and stored plans are never overwritten |
| LoadPlans.BinPlansFirstRecord | src/etl/load_plans.py:31-50 | a new plan's row comes from its first record, with `subject_biin` from the record and `kato_code` from the first `kato` entry or None |
| LoadPlans.BinPlansReloadAddsNothing | src/etl/load_plans.py:37-39 | reloading the same feed adds nothing and counts zero |
| LoadPlans.PlansNeverRaise | src/etl/load_plans.py:34-35 | whether a feed raises does not depend on the store |
| LoadPlans.BinPlansSafe | src/etl/load_plans.py:41-52 | the plan load keeps the store referentially safe |
| LoadPlans.PlanAddSafe | src/etl/load_plans.py:52 | one plan step keeps the store referentially safe |
| LoadContracts.UnitAdd | src/etl/load_contracts.py:62-80 | a unit is added and counted only when its id is truthy and absent; its plan id is kept only if it is in the snapshot |
| LoadContracts.ContractAdded | src/etl/load_contracts.py:43-55 | a contract is inserted and counted only when its id is absent |
| LoadContracts.ContractAdd | src/etl/load_contracts.py:35-87 | nothing happens after an exception or for a record without a truthy id; a malformed `crdate` raises |
| LoadContracts.AddUnits | src/etl/load_contracts.py:62-80 | the unit loop ends as the fold of `UnitAdd` says |
| LoadContracts.LoadContract | src/etl/load_contracts.py:36-87 | one well-formed contract with a truthy id ends as `ContractAdd` says: the contract when absent, then its units, then the modulo commit |
| LoadContracts.LoadContractsForBin | src/etl/load_contracts.py:31-89 | one BIN: the counters start at zero; the final commit happens unless an exception escaped |
| LoadContracts.LoadContractsAndUnits | src/etl/load_contracts.py:22-90 | the plan-id snapshot is taken once before any BIN, then the BINs run in order |
| LoadContracts.RunContracts | src/etl/load_contracts.py:92-97 | the script over `ALL_BINS`, then the session closed |
| LoadContracts.FoldRaisedStays | src/etl/load_contracts.py:40-41 | once a malformed `crdate` raised, the rest of the feed changes nothing |
| LoadContracts.BinsRaisedStays | src/etl/load_contracts.py:28-35 | once a BIN raised, later BINs change nothing |
| LoadContracts.ContractAddCounted | src/etl/load_contracts.py:43-80 | one step keeps the counters equal to the rows added, with no stored row touched |
| LoadContracts.BinContractsCounted | src/etl/load_contracts.py:32-80 | `contracts_added` and `units_added` are exactly the contracts and units a BIN inserted, and no earlier row changes |
| LoadContracts.ContractAddGrows | src/etl/load_contracts.py:43-80 | a step never removes a row, never clears an exception, and leaves its contract stored with every unit of the reply |
| LoadContracts.ContractAddCommits | src/etl/load_contracts.py:85-86 | a handled contract commits exactly when `contracts_added + units_added` is then a multiple of 200, a sum of 0 included; otherwise the committed state stays |
| LoadContracts.BinContractsComplete | src/etl/load_contracts.py:35-80 | every contract with an id is stored afterwards, together with every unit of its reply that has an id |
| LoadContracts.ReloadAddsNothing | src/etl/load_contracts.py:43-66 | contracts already loaded with their units add nothing and count zero |
| LoadContracts.UnitsUnchanged | src/etl/load_contracts.py:63-66 | units whose ids are all stored change nothing |
| LoadContracts.BinContractsReloadAddsNothing | src/etl/load_contracts.py:43-66 | reloading a BIN's feed adds nothing |
| LoadContracts.FoldRaisedFree | src/etl/load_contracts.py:40-41 | a pass that did not raise saw no malformed `crdate` on a contract with an id |
| LoadContracts.ContractAddSafe | src/etl/load_contracts.py:68-69 | because plan ids are filtered by a snapshot of stored plans, one step keeps the store referentially safe |
| LoadContracts.UnitPassSafe | src/etl/load_contracts.py:62-80 | the unit loop keeps the store referentially safe once its contract is stored |
| LoadContracts.BinContractsSafe | src/etl/load_contracts.py:25-89 | one BIN keeps the store safe and the snapshot stored |
| LoadContracts.BinsContractsSafe | src/etl/load_contracts.py:25-89 | every BIN keeps the store safe and the snapshot stored |
| LoadContracts.ContractsScriptSafe | src/etl/load_contracts.py:92-97 | the whole script keeps the store referentially safe |
| LoadHistorical.WithSubject | src/etl/load_historical.py:43-51 | nothing for an empty BIN or a known one; otherwise exactly one subject with the given flags, committed at once |
| LoadHistorical.UpsertSubjectOnce | src/etl/load_historical.py:46-51 | a second upsert of the same BIN changes nothing, whatever its flags |
| LoadHistorical.UpsertSubject | src/etl/load_historical.py:43-51 | returns None for an empty BIN and the stored row, unchanged when it existed, otherwise |
| LoadHistorical.RefUnitsLoaded | src/etl/load_historical.py:23-41 | the unit dictionary becomes the insert-if-absent of the feed's truthy codes, committed once; a walk that raised rolls everything back |
| LoadHistorical.LoadReferenceDictionaries | src/etl/load_historical.py:23-41 | the seen-set loop ends as `RefUnitsLoaded` says |
| LoadHistorical.RefUnitsReloadIdempotent | src/etl/load_historical.py:26-36 | loading the reference units twice equals loading them once |
| LoadHistorical.PlanStep | src/etl/load_historical.py:70-92 | records before 2024-01-01 or already stored change nothing; otherwise the plan is written under the requested BIN with its parsed date, and its truthy unit code is present afterwards; nothing is removed |
| LoadHistorical.PlanPass | src/etl/load_historical.py:70-93 | the plan loop ends as the fold of `PlanStep` says |
| LoadHistorical.WithLots | src/etl/load_historical.py:117-129 | only the lots table changes, and no lot is removed |
| LoadHistorical.AnnStep | src/etl/load_historical.py:96-131 | early or stored announcements change nothing; otherwise the announcement is written with the BIN as organiser and nothing is committed; nothing is removed |
| LoadHistorical.StoreLots | src/etl/load_historical.py:117-129 | the lot loop writes exactly `WithLots` |
| LoadHistorical.AnnouncementPass | src/etl/load_historical.py:96-132 | the announcement loop ends as the fold of `AnnStep` says |
| LoadHistorical.StoreAnnouncement | src/etl/load_historical.py:97-131 | one announcement record ends as `AnnStep` says |
| LoadHistorical.KeepIfIn | src/etl/load_historical.py:148 | a reference is kept exactly when it is in the snapshot, otherwise None |
| LoadHistorical.WithUnits | src/etl/load_historical.py:159-169 | only the units table changes, and no unit is removed |
| LoadHistorical.ContractStep | src/etl/load_historical.py:137-171 | early or settled contracts change nothing; a new one is stored with its announcement kept only if in the snapshot, the non-blank supplier and the BIN as customer; nothing is removed |
| LoadHistorical.StoreUnits | src/etl/load_historical.py:157-169 | the unit loop writes exactly `WithUnits` |
| LoadHistorical.ContractPass | src/etl/load_historical.py:137-172 | the contract loop ends as the fold of `ContractStep` says |
| LoadHistorical.LoadDataForBin | src/etl/load_historical.py:65-172 | the customer upsert, then three committed passes; the snapshots are taken after the announcement pass |
| LoadHistorical.LoadBins | src/etl/load_historical.py:179-180 | the BINs in order until an exception |
| LoadHistorical.RunHistorical | src/etl/load_historical.py:174-183 | reference units, every target BIN, then the session closed |
| LoadHistorical.BinsRaisedStays | src/etl/load_historical.py:179-180 | once a BIN raised, later BINs change nothing |
| LoadHistorical.EarlyPlanIgnored | src/etl/load_historical.py:71-73 | a plan dated before the cutoff is skipped (`continue`) and later records are still loaded |
| LoadHistorical.EarlyAnnouncementIgnored | src/etl/load_historical.py:97-99 | an announcement published before the cutoff is skipped, not a stop |
| LoadHistorical.EarlyContractIgnored | src/etl/load_historical.py:138-140 | a contract created before the cutoff is skipped, not a stop |
| LoadHistorical.PlanPassSettles | src/etl/load_historical.py:70-92 | after the plan pass every record is early or stored, and no row was removed |
| LoadHistorical.AnnPassSettles | src/etl/load_historical.py:96-131 | after the announcement pass every record is early or stored |
| LoadHistorical.ContractPassSettles | src/etl/load_historical.py:137-171 | after the contract pass every record is early or stored with its non-blank supplier stored |
| LoadHistorical.BinLoadedStoresAll | src/etl/load_historical.py:65-172 | a BIN that did not raise leaves everything committed, its customer stored and every record settled |
| LoadHistorical.BinReloadWritesNothing | src/etl/load_historical.py:65-172 | a rerun of the same BIN adds nothing: it only commits three times |
| LoadHistorical.WithSubjectSafe | src/etl/load_historical.py:43-51 | the upsert keeps the store referentially safe |
| LoadHistorical.PlanStepSafe | src/etl/load_historical.py:74-92 | a plan step keeps the store referentially safe |
| LoadHistorical.WithLotsSafe | src/etl/load_historical.py:119-121 | lots under a stored announcement keep the store safe |
| LoadHistorical.WithUnitsSafe | src/etl/load_historical.py:161-169 | units of a stored contract with snapshot-filtered plan ids keep the store safe |
| LoadHistorical.AnnStepSafe | src/etl/load_historical.py:101-131 | an announcement step keeps the store safe |
| LoadHistorical.ContractStepSafe | src/etl/load_historical.py:146-169 | a contract step keeps the store safe while the snapshots name stored rows |
| LoadHistorical.HistPlansSafe | src/etl/load_historical.py:70-93 | the plan pass keeps the store safe |
| LoadHistorical.HistAnnsSafe | src/etl/load_historical.py:96-132 | the announcement pass keeps the store safe |
| LoadHistorical.HistContractsSafe | src/etl/load_historical.py:135-172 | the contract pass keeps the store safe |
| LoadHistorical.BinLoadedSafe | src/etl/load_historical.py:65-172 | a BIN's load keeps the store referentially safe |
| LoadHistorical.BinsLoadedSafe | src/etl/load_historical.py:179-180 | every BIN keeps the store referentially safe |
| LoadHistorical.RefUnitsSafe | src/etl/load_historical.py:23-41 | the reference load keeps the store safe |
| LoadHistorical.HistoricalSafe | src/etl/load_historical.py:174-183 | the whole historical script keeps the store referentially safe |
| SyncDaily.PlanMerge | src/etl/sync_daily.py:30-45 | a plan this BIN had is skipped; any other is merged under the BIN and becomes a valid plan id |
| SyncDaily.MergePlan | src/etl/sync_daily.py:30-45 | one plan record ends as `PlanMerge` says |
| SyncDaily.SyncPlans | src/etl/sync_daily.py:26-46 | the plan loop ends as the fold up to the first stale record says, and it stopped exactly when such a record came |
| SyncDaily.UnitMerge | src/etl/sync_daily.py:80-94 | a unit whose id existed at the start is skipped; any other is merged with its plan id filtered by `valid_plan_ids` |
| SyncDaily.UnitsMerged | src/etl/sync_daily.py:79-94 | only the units table changes, it only grows, and every unit of the reply ends up settled |
| SyncDaily.ContractStored | src/etl/sync_daily.py:60-94 | the contract is merged with its supplier upserted and its units: the announcements are untouched, and nothing is removed |
| SyncDaily.ContractMergeAsWritten | src/etl/sync_daily.py:53-94 | a contract this BIN already had is skipped; one with no announcement id or a stored announcement is stored at once; one whose announcement is fetched is stored, and no row is lost; a failed record request rolls the uncommitted session back, a reply without a record skips it with no change, and a failed lot request leaves only committed rows; committed rows are never lost |
| SyncDaily.ContractMerge | src/etl/sync_daily.py:53-94 | the corrected step (commit before `ensure_announcement`): a contract this BIN had is skipped; one with a truthy announcement id is stored only if the fetch succeeds; one without is stored at once; a coherent session only grows |
| SyncDaily.MergeUnits | src/etl/sync_daily.py:79-94 | the unit loop writes exactly `UnitsMerged` |
| SyncDaily.StoreContract | src/etl/sync_daily.py:60-94 | one stored contract ends as `ContractStored` says |
| SyncDaily.MergeContract | src/etl/sync_daily.py:53-94 | one contract record ends as `ContractMergeAsWritten` says |
| SyncDaily.SyncContracts | src/etl/sync_daily.py:49-97 | the contract loop ends as the fold of `ContractMergeAsWritten` up to the first stale record says, and it stopped exactly when such a record came |
| SyncDaily.SyncDataForBin | src/etl/sync_daily.py:16-97 | the customer upsert; the snapshots of the BIN's plans and contracts and of all unit ids; the plan pass committed before the contract pass |
| SyncDaily.SyncBins | src/etl/sync_daily.py:104-105 | the BINs in order until an exception |
| SyncDaily.RunDaily | src/etl/sync_daily.py:99-110 | every target BIN, then the backfill, then the session closed |
| SyncDaily.BinsSyncedRaisedStays | src/etl/sync_daily.py:104-105 | once a BIN raised, later BINs change nothing |
| SyncDaily.PlanStopIgnoresRest | src/etl/sync_daily.py:27-29 | the first plan whose last update is before the cutoff ends the pass: no later record matters |
| SyncDaily.ContractStopIgnoresRest | src/etl/sync_daily.py:50-52 | the first contract whose last update is before the cutoff ends the pass |
| SyncDaily.PlanMergesValid | src/etl/sync_daily.py:30-45 | the merges add exactly the new plan ids to `valid_plan_ids`; every such plan is stored, and only the plans table changes |
| SyncDaily.PlanPassValid | src/etl/sync_daily.py:23-45 | `valid_plan_ids` is the BIN's existing plans plus the new ones before the stop, all of them stored |
| SyncDaily.ContractPassGrows | src/etl/sync_daily.py:49-97 | the contract pass never loses a committed row, and what is committed stays visible |
| SyncDaily.ContractPassCorrectedGrows | src/etl/sync_daily.py:49-97 | with the corrected step, the pass never loses a row, pending or committed |
| SyncDaily.ContractMergesStoreAll | src/etl/sync_daily.py:49-75 | when every announcement fetch succeeds, every new contract of the pass is stored and no row is lost |
| SyncDaily.ContractPassStoresAll | src/etl/sync_daily.py:49-75 | every new contract before the stop is stored when every announcement fetch succeeds |
| SyncDaily.ContractStepAgrees | src/etl/sync_daily.py:54-75 | when the fetch succeeds, the step as written and the corrected step leave the same pending state from the same pending state |
| SyncDaily.ContractPassAgrees | src/etl/sync_daily.py:49-97 | when every fetch succeeds, the pass as written and the corrected pass leave the same pending state |
| SyncDaily.RollbackDropsEarlierContract | src/etl/sync_daily.py:54-75 | as written, a failing announcement fetch rolls back a contract merged earlier in the same pass |
| SyncDaily.CommitKeepsEarlierContract | src/etl/sync_daily.py:54-75 | with the commit before the fetch, the earlier contract stays |
| SyncDaily.PlanMergeSafe | src/etl/sync_daily.py:44 | a plan merge keeps the store safe |
| SyncDaily.UnitsMergedSafe | src/etl/sync_daily.py:83-94 | units with plan ids filtered by stored valid ids keep the store safe |
| SyncDaily.ContractStoredSafe | src/etl/sync_daily.py:60-94 | storing a contract whose announcement is present keeps the store safe |
| SyncDaily.ContractMergeSafe | src/etl/sync_daily.py:53-94 | a contract step keeps the store safe, a rollback included, when the upstream answers announcement n with announcement n |
| SyncDaily.PlanPassSafe | src/etl/sync_daily.py:26-46 | the plan pass keeps the store safe |
| SyncDaily.ContractPassSafe | src/etl/sync_daily.py:49-97 | the contract pass keeps the store safe, for an upstream that echoes the requested id |
| SyncDaily.PlanPhaseSafe | src/etl/sync_daily.py:18-46 | the upsert and plan pass leave a safe store whose valid plan ids are committed |
| SyncDaily.ContractPhaseSafe | src/etl/sync_daily.py:49-97 | the contract pass and its commit leave a safe, coherent store, for an upstream that echoes the requested id |
| SyncDaily.BinSyncedSafe | src/etl/sync_daily.py:16-97 | one BIN's sync keeps the store safe and coherent, for an upstream that echoes the requested id |
| SyncDaily.BinsSyncedSafe | src/etl/sync_daily.py:104-105 | every BIN keeps the store safe and coherent, for an upstream that echoes the requested id |
| SyncDaily.DailySafe | src/etl/sync_daily.py:99-110 | the whole daily script keeps the store referentially safe, for an upstream that echoes the requested id |
| EnrichMissingAnnouncements.WithBareSubject | src/etl/enrich_missing_announcements.py:24-31 | a truthy unknown BIN gets one bare subject, committed at once; anything else changes nothing |
| EnrichMissingAnnouncements.UpsertBareSubject | src/etl/enrich_missing_announcements.py:24-31 | the session ends as `WithBareSubject` says |
| EnrichMissingAnnouncements.LotMerge | src/etl/enrich_missing_announcements.py:59-70 | a lot is merged under the requested announcement id, with its customer subject upserted |
| EnrichMissingAnnouncements.LotsMergeGrows | src/etl/enrich_missing_announcements.py:59-70 | the lot loop never removes a row and touches neither announcements nor contracts |
| EnrichMissingAnnouncements.FetchAndMerge | src/etl/enrich_missing_announcements.py:38-76 | an exception happens exactly when a request fails; a body without a record with an id is refused with no change; otherwise everything is committed |
| EnrichMissingAnnouncements.MergeLots | src/etl/enrich_missing_announcements.py:59-70 | the lot loop ends as the fold of `LotMerge` says |
| EnrichMissingAnnouncements.MergeRemote | src/etl/enrich_missing_announcements.py:38-76 | one fetch-and-merge ends as `FetchAndMerge` says |
| EnrichMissingAnnouncements.AnnouncementEnsured | src/etl/enrich_missing_announcements.py:33-76 | true with no fetch for a falsy or stored id; otherwise true exactly when both requests succeed and the record has an id; it never raises |
| EnrichMissingAnnouncements.EnsureAnnouncement | src/etl/enrich_missing_announcements.py:33-76 | the session and result end as `AnnouncementEnsured` says |
| EnrichMissingAnnouncements.MissingIds | src/etl/enrich_missing_announcements.py:80-86 | the targets are exactly the distinct non-null contract `trd_buy_id`s with no announcement row |
| EnrichMissingAnnouncements.BackfillAnnouncements | src/etl/enrich_missing_announcements.py:78-130 | the sweep ends as the fold over the ids says: nothing when there are none, and one failure does not stop it |
| EnrichMissingAnnouncements.MergedStoresAll | src/etl/enrich_missing_announcements.py:43-72 | after a merge the announcement, its organiser and every lot, each under the requested id with its customer, are stored |
| EnrichMissingAnnouncements.EnsuredLiveAgrees | src/etl/enrich_missing_announcements.py:33-72 | whether the call succeeds, and what it then leaves pending, depends only on the pending state it starts from |
| EnrichMissingAnnouncements.NonEchoLeavesDanglingLot | src/etl/enrich_missing_announcements.py:45-70 | a reply for n carrying another announcement leaves n missing and a lot referencing it: the store is no longer safe |
| EnrichMissingAnnouncements.EnsuredMeansPresent | src/etl/enrich_missing_announcements.py:33-72 | when it returns true the announcement is present |
| EnrichMissingAnnouncements.LotMergeSafe | src/etl/enrich_missing_announcements.py:62-70 | a lot merge under a stored announcement keeps the store safe |
| EnrichMissingAnnouncements.FetchSafe | src/etl/enrich_missing_announcements.py:38-76 | a fetch-and-merge keeps the store safe |
| EnrichMissingAnnouncements.LotPassSafe | src/etl/enrich_missing_announcements.py:59-70 | the lot loop keeps the store safe |
| EnrichMissingAnnouncements.EnsuredSafe | src/etl/enrich_missing_announcements.py:33-76 | `ensure_announcement` keeps the store safe |
| EnrichMissingAnnouncements.BackfillCounts | src/etl/enrich_missing_announcements.py:91-129 | `added_count` counts only committed ids: at most the number of ids, never more than the commits, and all of them when the upstream answers every id |
| EnrichMissingAnnouncements.BackfillCloses | src/etl/enrich_missing_announcements.py:80-124 | when the upstream answers, the sweep over the missing ids leaves no contract pointing at a missing announcement |
| EnrichMissingAnnouncements.BackfillSafe | src/etl/enrich_missing_announcements.py:78-130 | the sweep keeps the store safe |
| EnrichKato.KatoAdd | src/etl/enrich_kato.py:18-31 | a truthy unseen code is inserted once, added to the seen set and counted; anything else changes nothing |
| EnrichKato.LoadKatoDictionary | src/etl/enrich_kato.py:10-42 | the loop, its commits and the rollback on an exception end as `KatoLoaded` says |
| EnrichKato.KatoAreInserts | src/etl/enrich_kato.py:13-31 | the loop is an insert-if-absent over codes; the seen set is always the stored codes, and `added_count` is the number of new rows |
| EnrichKato.KatoAddPending | src/etl/enrich_kato.py:29-35 | the number of uncommitted rows is always `added_count` mod 50 |
| EnrichKato.KatoPendingNoCommit | src/etl/enrich_kato.py:33-34 | an insertion that is not a 50th leaves one more row pending |
| EnrichKato.KatoPendingBelowBatch | src/etl/enrich_kato.py:29-37 | at the end of the loop fewer than 50 rows are pending |
| EnrichKato.KatoFailureKeepsBatches | src/etl/enrich_kato.py:33-42 | after an exception exactly the full batches of 50 stay committed |
| EnrichKato.KatoDurableGrows | src/etl/enrich_kato.py:33-34 | the periodic commits never remove a committed code |
| EnrichKato.KatoComplete | src/etl/enrich_kato.py:17-31 | every truthy code is stored; stored rows are kept; a new row takes the full names, falling back to the short names |
| EnrichKato.KatoReloadAddsNothing | src/etl/enrich_kato.py:13-20 | a second load adds nothing |
| EnrichKato.KatoSafe | src/etl/enrich_kato.py:10-42 | the dictionary load keeps the store safe |
| EnrichEnstru.MissingEnstru | src/etl/enrich_enstru.py:12-22 | the targets are exactly the non-null plan codes with no dictionary row, each with the largest plan id that carries it |
| EnrichEnstru.EnstruRow | src/etl/enrich_enstru.py:32-42 | a blank or missing name becomes the fixed placeholder; any other name is kept |
| EnrichEnstru.Tick | src/etl/enrich_enstru.py:50-51 | a commit happens after every 50th code, whether or not its fetch succeeded |
| EnrichEnstru.EnrichEnstru | src/etl/enrich_enstru.py:11-55 | the loop ends as the fold over the targets says, with `added_count` counting successes |
| EnrichEnstru.EnstruAreInserts | src/etl/enrich_enstru.py:28-44 | over fresh codes the loop is an insert-if-absent of the successfully fetched codes, and the counter is its growth |
| EnrichEnstru.EnumeratedFresh | src/etl/enrich_enstru.py:12-22 | the targets are distinct codes with no dictionary row |
| EnrichEnstru.EnstruDescribes | src/etl/enrich_enstru.py:28-54 | afterwards everything is committed, only the dictionary changed, and a target is stored exactly when its fetch succeeded, with its placeholder-filled names; a failure moves on |
| EnrichEnstru.EnstruCloses | src/etl/enrich_enstru.py:12-44 | when every fetch succeeds no plan code is left without a dictionary row |
| EnrichEnstru.EnstruBatches | src/etl/enrich_enstru.py:50-52 | during the loop there is one commit per 50 codes processed |
| EnrichEnstru.EnstruCommits | src/etl/enrich_enstru.py:50-54 | the job commits once per 50 codes processed, plus once at the end |
| EnrichEnstru.EnstruSafe | src/etl/enrich_enstru.py:11-55 | the enrichment keeps the store safe |
| EnrichSubjects.ItemOf | src/etl/enrich_subjects.py:25-27 | the item is the first element of a non-empty list, else the body, and names are written only for an object |
| EnrichSubjects.EnrichSubjectNames | src/etl/enrich_subjects.py:10-39 | the loop ends as the fold over the unnamed subjects says |
| EnrichSubjects.SubjectStepShape | src/etl/enrich_subjects.py:17-36 | one subject: both names are overwritten and counted exactly when its profile answers |
| EnrichSubjects.SubjectsFrame | src/etl/enrich_subjects.py:17-30 | only subject names change, and no subject is added or removed |
| EnrichSubjects.SubjectsUntouched | src/etl/enrich_subjects.py:17-30 | a subject whose profile did not answer is left as it was |
| EnrichSubjects.SubjectsRenamedAt | src/etl/enrich_subjects.py:27-30 | an answered subject carries the response's names, which may be None |
| EnrichSubjects.SubjectsCounted | src/etl/enrich_subjects.py:27-30 | for distinct BINs, `updated_count` is the number of subjects whose profile answered |
| EnrichSubjects.SubjectsEnrichedNames | src/etl/enrich_subjects.py:10-39 | afterwards everything is committed; only subjects with a null name and a non-empty BIN whose profile answers are renamed |
| EnrichSubjects.SubjectsCloses | src/etl/enrich_subjects.py:11-30 | when every profile carries a Russian name, only the empty-BIN subject can stay unnamed |
| EnrichSubjects.SubjectsKeepAbsentNames | src/etl/enrich_subjects.py:28-30 | a subject stays unnamed exactly when its BIN is empty, its profile fails, or the response's name is null |
| EnrichSubjects.SubjectsBatches | src/etl/enrich_subjects.py:35-37 | one commit per 50 subjects processed when no BIN is empty |
| EnrichSubjects.SubjectsCommits | src/etl/enrich_subjects.py:35-39 | when no BIN is empty the job commits once per 50 subjects processed plus once at the end |
| EnrichSubjects.SubjectsSafe | src/etl/enrich_subjects.py:10-39 | the enrichment keeps the store safe |
| Engine.ContractLink | src/analytics/engine.py:74 | a link is the contract-show URL prefix followed by the id |
| Engine.ContractLinkInjective | src/analytics/engine.py:74 | different contract ids give different links |
| Engine.Links | src/analytics/engine.py:74 | one link per id, in order |
| Engine.LinksDistinct | src/analytics/engine.py:73-74 | distinct ids give distinct links |
| Engine.PickedContracts | src/analytics/engine.py:73 | `unique()` of the picked rows' contract ids: no repeats, each from a picked row, none missing, in order of first appearance among the picked rows |
| Engine.PriceRows | src/analytics/engine.py:39-51 | the rows are exactly the units joined to a plan of the code with a price and a quantity |
| Engine.Deviation | src/analytics/engine.py:69 | `(target − avg)/avg·100` when avg ≠ 0; otherwise NaN, +inf or −inf as the float division gives |
| Engine.WeightedAverage | src/analytics/engine.py:59-66 | the weighted average times the total quantity is the total value |
| Engine.TopPriced | src/analytics/engine.py:73 | `nlargest(3, 'price')`: min(3, n) distinct rows in non-increasing price order |
| Engine.TopPricedHighest | src/analytics/engine.py:73 | no row left out has a higher price than a picked one |
| Engine.CheckPriceDeviation | src/analytics/engine.py:38-84 | None exactly with no rows or zero total quantity; otherwise the weighted average, the deviation, the 30% flag, the row count and the top-price links |
| Engine.AnomalousIff | src/analytics/engine.py:69-70 | the flag holds iff the deviation exceeds 30% of the average, and with a zero average iff the target is not zero |
| Engine.AnomalousBand | src/analytics/engine.py:69-70 | for a positive average the flag holds iff the target is above 1.3× or below 0.7× the average |
| Engine.WeightedAverageWithin | src/analytics/engine.py:59-66 | the weighted average lies between the lowest and the highest price when quantities are non-negative |
| Engine.YearlyVolumes | src/analytics/engine.py:106 | keys are exactly the years of the rows |
| Engine.YearlyVolumeAt | src/analytics/engine.py:106 | each year maps to its row's total quantity |
| Engine.YearlyVolumesSize | src/analytics/engine.py:106 | one entry per grouped row |
| Engine.LatestYearIsLargest | src/analytics/engine.py:113-115 | the last row's year is the latest year |
| Engine.HistoricalAverage | src/analytics/engine.py:117-118 | the average times the number of earlier years equals the sum of the earlier years' totals |
| Engine.SampleIds | src/analytics/engine.py:107 | exactly the truthy per-year latest contract ids, at most one per year |
| Engine.Last | src/analytics/engine.py:125 | `[-3:]`: the last min(3, n) elements |
| Engine.DetectVolumeAnomaly | src/analytics/engine.py:86-134 | None exactly with no rows; a row with a null year or total is a type error; otherwise the yearly volumes, a spike flag that holds exactly when the description is `Spike(year, latest total, average)` over the earlier years' average (latest total above twice a positive average), and the links of the last up to 3 sample ids |
| Engine.VolumeSpikeOnMean | src/analytics/engine.py:113-121 | anomalous iff there are at least 2 years, the earlier mean is positive and the latest total exceeds twice it |
| Engine.VolumeSpikeIff | src/analytics/engine.py:113-121 | the same rule without division, on the sum of the earlier totals |
| Engine.SpikeWithoutDivision | src/analytics/engine.py:118-120 | the mean-based and sum-based forms of the rule agree |
| Engine.SingleYearNormal | src/analytics/engine.py:110-114 | a single year is never anomalous |
| Engine.FairRows | src/analytics/engine.py:137-154 | the rows are exactly the priced units of the code, region and year asked for |
| Engine.FairFiltersOptional | src/analytics/engine.py:149-152 | a falsy region or year applies no filter |
| Engine.MedianClosest | src/analytics/engine.py:170 | `argsort()[:3]` of the distance to the median: min(3, n) distinct rows in non-decreasing distance |
| Engine.MedianClosestNearest | src/analytics/engine.py:170 | no row left out is closer to the median than a picked one |
| Engine.TimePeriodInjective | src/analytics/engine.py:176 | different year filters give different period labels |
| Engine.PrintedYearNotAllTime | src/analytics/engine.py:176 | a year label is never "All Time" |
| Engine.Confidence | src/analytics/engine.py:180 | "High" iff the row count is at least 30, else "Medium" |
| Engine.GetFairPriceBounds | src/analytics/engine.py:136-182 | None with fewer than 3 rows; otherwise the median, the Tukey fences, the confidence and the median-closest links |
| Engine.FairBoundsBracketMedian | src/analytics/engine.py:161-167 | for non-negative prices, 0 ≤ fair_min ≤ median ≤ fair_max |
| Stats.InsertSorted | src/analytics/engine.py:161-164 | inserting into a sorted list keeps it sorted and adds exactly that element |
| Stats.SortedOf | src/analytics/engine.py:161-164 | the sorted values are sorted and a permutation of the input |
| Stats.SortedUnique | src/analytics/engine.py:161-164 | two sorted permutations of the same values are equal |
| Stats.SortedOfPermutation | src/analytics/engine.py:161-164 | the sorted values do not depend on row order |
| Stats.Position | src/analytics/engine.py:161-162 | the interpolation position `(n−1)·q` lies within the rows |
| Stats.PositionMonotone | src/analytics/engine.py:161-162 | the position grows with q |
| Stats.Lerp | src/analytics/engine.py:161-162 | linear interpolation stays between its ends |
| Stats.QuantileMonotone | src/analytics/engine.py:161-162 | Q1 ≤ Q3, and more generally quantiles grow with q |
| Stats.QuantileEnds | src/analytics/engine.py:161-162 | the 0 and 1 quantiles are the minimum and maximum |
| Stats.QuantileWithin | src/analytics/engine.py:161-164 | every quantile lies between the smallest and the largest value, both of which occur |
| Stats.MedianIsQuantile | src/analytics/engine.py:164 | `median()` equals the 0.5 quantile |
| Stats.QuantilePermutation | src/analytics/engine.py:161-164 | quantiles and median do not depend on row order |
| Stats.SameSorted | src/analytics/engine.py:161-164 | inputs with the same sorted values have the same quantiles |
| Stats.TukeyFences | src/analytics/engine.py:166-167 | `max(0, Q1 − 1.5·IQR)` and `Q3 + 1.5·IQR`: the lower fence is non-negative and at most Q1 when positive; the upper fence is at least Q3 |
| Stats.FencesOrdered | src/analytics/engine.py:161-167 | for non-negative prices fair_min ≤ Q1 ≤ median ≤ Q3 ≤ fair_max |
| Stats.FencesPermutation | src/analytics/engine.py:161-167 | the fences do not depend on row order |
| Stats.ArgSort | src/analytics/engine.py:170 | a ranking of indices by key: a permutation of the indices, ordered by key |
| Stats.ArgSortPrefix | src/analytics/engine.py:170 | no index outside a prefix of the ranking has a smaller key |
| Stats.Distinct | src/analytics/engine.py:171 | `unique()`: the same elements without repeats, in order of first appearance |
| Stats.DistinctOfDistinct | src/analytics/engine.py:171 | distinct input comes back unchanged |
| FairPrice.Times | src/analytics/fair_price.py:50-51 | NaN stays NaN; for a non-negative median a factor of at least 1 never lowers it and a factor in [0, 1] keeps it between 0 and the median |
| FairPrice.MaxZero | src/analytics/fair_price.py:63 | Python's `max(0, x)` on a float: never NaN or negative, and x itself when x ≥ 0 |
| FairPrice.BenchmarkPrices | src/analytics/fair_price.py:22-32 | the prices of exactly the units of the code, and of the region when one is given |
| FairPrice.RegionFilterOptional | src/analytics/fair_price.py:29-30 | the region filter applies only when `kato_code` is truthy |
| FairPrice.Present | src/analytics/fair_price.py:39 | the non-null prices, in order |
| FairPrice.PresentAll | src/analytics/fair_price.py:39 | with no nulls, nothing is dropped |
| FairPrice.MedianOf | src/analytics/fair_price.py:44 | the median of the non-null prices, NaN when every price is null |
| FairPrice.GetFairPriceBenchmark | src/analytics/fair_price.py:17-77 | None with no rows; `sample_size` is the row count; the median of the non-null prices; fewer than 3 rows give 0.9× and 1.1× the median with low confidence; otherwise "High" iff at least 30 rows and the Tukey fences of the non-null prices, or 0 and NaN when every price is null |
| FairPrice.BenchmarkBracketsMedian | src/analytics/fair_price.py:56-64 | for non-negative prices 0 ≤ fair_min ≤ median ≤ fair_max |

## Left out

- HTTP transport: the `requests` session, headers, timeouts and the token are not modelled. Replies are oracles from attempt or page number to reply. `time.sleep` becomes an output trace of durations.
- `paginate` as a generator: the model collects what it yields. Consumers see the items of a walk and whether it ended by raising.
- Client.Paginate: `maxPages` bounds the model's loop. The client itself has none (reason `OutOfPages`), so an endless upstream is modelled only up to that bound.
- `html.unescape` and `datetime.fromisoformat` are parameters of the model (uninterpreted functions).
- `strptime` is modelled for zero-padded fields and a single literal space only. Python also accepts one-digit and space-padded fields, and any whitespace run for the format's space (`"2024-01-05\t10:00:00"`, `"2024-01-05  10:00:00"`); those inputs are treated as malformed here (Dates.ParseDateTime, Dates.ParseDate, Dates.StrictDate, Dates.ParseDateHistorical, Dates.ParseDateBackfill).
- Engine.DetectVolumeAnomaly: the `description` string is modelled as the value `Trend` (`Normal`, or `Spike(year, latest total, historical average)`). The message wording, the float repr of the latest total and the 2-decimal rounding of the average (src/analytics/engine.py:111, 121) are not modelled.
- Dates.ParseDateHistorical: the ISO fallback's timezone handling is inside the `fromisoformat` parameter.
- Python's `\s` and `str.strip()` character set is a fixed whitespace predicate. No Unicode normalisation.
- Floating point: analytics are over exact `real`. NaN and infinity are modelled only where the code can produce them (zero weighted average; all-null prices). Float rounding is not modelled.
- pandas/NumPy tie order: `nlargest` and `argsort` break ties by position in the model. NumPy's default sort is not stable, so its tie order may differ.
- SQL result order: the order of query results is a parameter (the missing announcement ids, the enrichment targets, the unnamed subjects). The closing lemmas require that it enumerates the query's set.
- SQL joins and GROUP BY: the joined rows (`Engine.UnitJoin`) and the per-year rows of `detect_volume_anomaly` are inputs. Grouping and ordering are stated as requirements.
- SQLAlchemy: relationships and back-population, autoflush timing, and merge-versus-add are not modelled. Rows added or merged are visible to later queries in the same session. Database-enforced foreign keys are not modelled. The safety lemmas prove that the loaders write no dangling reference, but those about announcements do so only for an upstream that answers a request for announcement n with announcement n (`Echoes`; see the lines below).
- EnrichMissingAnnouncements.FetchSafe: proved only under `Echoes` (the reply to a request for announcement n is announcement n). The code stores the announcement under the returned id but the lots under the requested one. `EnrichMissingAnnouncements.NonEchoLeavesDanglingLot` shows a lot left referencing a missing announcement without it.
- EnrichMissingAnnouncements.EnsuredMeansPresent: that a successful `ensure_announcement` leaves the requested announcement stored is proved only under `Echoes`. Without it the call can return true while announcement n stays missing.
- EnrichMissingAnnouncements.EnsuredSafe: the safety of `ensure_announcement` is proved only under `Echoes`. Without it a lot can reference a missing announcement (`EnrichMissingAnnouncements.NonEchoLeavesDanglingLot`).
- EnrichMissingAnnouncements.BackfillSafe: the safety of the backfill sweep is proved only under `Echoes`. Without it a lot can reference a missing announcement (`EnrichMissingAnnouncements.NonEchoLeavesDanglingLot`).
- SyncDaily.ContractMergeSafe: the safety of one contract step is proved only under `Echoes`. Without it a contract can be stored with a `trd_buy_id` whose announcement is missing.
- SyncDaily.ContractPassSafe: the safety of the contract pass is proved only under `Echoes`. Without it a contract can be stored with a `trd_buy_id` whose announcement is missing.
- SyncDaily.ContractPhaseSafe: the safety of the contract pass and its commit is proved only under `Echoes`. Without it a contract can be stored with a `trd_buy_id` whose announcement is missing.
- SyncDaily.BinSyncedSafe: the safety of one BIN's sync is proved only under `Echoes`. Without it a contract can be stored with a `trd_buy_id` whose announcement is missing.
- SyncDaily.BinsSyncedSafe: the safety of the loop over the BINs is proved only under `Echoes`. Without it a contract can be stored with a `trd_buy_id` whose announcement is missing.
- SyncDaily.DailySafe: the safety of the whole daily script is proved only under `Echoes`. Without it a contract can be stored with a `trd_buy_id` whose announcement is missing.
- CleanExistingLots.CleanDatabaseLots: the model walks one fixed order of the lots. The code pages with `offset`/`limit` and no `ORDER BY`, and commits between batches, so the database may return the rows of later batches in another order, which could skip or repeat a lot.
- Client.DefaultScheduleOnErrors: one worked instance (the default 4 retries, transport errors only). The statement for every number of retries and every reply is `Client.BackoffTrace`.
- Dates.DateTime: no sub-second part. The cutoff `datetime.now() - timedelta(days=3)` is a parameter at whole seconds, and fractional seconds that the ISO fallback would keep are dropped. A record updated within the same second as the cutoff may therefore compare differently.
- Identifiers are `int`. A record without an `id` key is not modelled (id 0 stands for a falsy id where the code tests it), and `items: null` is not distinguished from a missing `items`.
- Logging is left out, along with the `__main__` blocks other than the session close at the end of each script.
- The agent layer (src/agent/tools.py, src/agent/llm.py), the API (src/api/main.py), the scripts (explore_journal.py, src/analytics/find_top_ktrus.py, reset_db.py), src/config.py and the alembic migration are not part of this model.
- Client.Paginate: there is no repeated-token or repeated-item guard and no page cap in `paginate` (src/etl/client.py), so none is modelled (`Client.NoRepeatedTokenGuard`).
- EnrichSubjects: `enrich_subjects` writes both names from the response even when they are null, and the model does the same (`EnrichSubjects.SubjectsKeepAbsentNames`).

## Findings

| source | as written | input that shows it | evidently intended | confidence | as-written member | corrected member |
|---|---|---|---|---|---|---|
| src/etl/sync_daily.py:54-75 | during the contract pass, `ensure_announcement` rolls the session back on a failed fetch. That rollback also discards every contract and unit merged earlier in the same pass and not yet committed. | contract `a` with no announcement id and no supplier is merged; then contract `b`, whose announcement is missing and whose fetch fails, makes `a` disappear | a contract stored by the pass stays stored. The corrected step commits before the fetch, so a rollback only undoes the announcement's own writes; when every fetch succeeds both passes leave the same pending state (`SyncDaily.ContractPassAgrees`). The daily chain (`SyncContracts` to `RunDaily`) keeps the code's order | not executed | SyncDaily.ContractMergeAsWritten, SyncDaily.RollbackDropsEarlierContract | SyncDaily.ContractMerge, SyncDaily.CommitKeepsEarlierContract, SyncDaily.ContractPassCorrectedGrows |
