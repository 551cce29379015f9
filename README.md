# Ad-serving backend: a verified model

This project models the decision and bookkeeping logic of an ad-serving backend. The service is a FastAPI application over Postgres and Redis. Here it becomes a sequential model over one in-memory store.

`Store.Store` is a class whose fields hold the service's state:
- the simulated day (a natural number, 0 at start-up);
- the client, advertiser and campaign tables (each campaign carries its running impression and click counters);
- the ML-score table, keyed by (client, advertiser);
- the append-only action ledger of impressions and clicks.

Every handler of the five routers is a method on that store. It returns a `Result`, either a value or an error kind:

| error kind | service response |
|---|---|
| `NotFound` | 404 for a missing row |
| `NoInventory` | 404 "No campaigns found" |
| `PrecursorMissing` | 403, a click before any impression |
| `InvalidTransition` | 400 for a date or state rule |
| `ValidationFailure` | 400 for a repeated or taken key in a bulk upsert |
| `SchemaViolation` | 422, a body or query parameter outside its declared bounds |
| `ExternalServiceFailure` | 500, ad-text generation failed |
| `ServerFailure` | 500, an exception the handler does not catch |

Each method's contract states the whole new state: either unchanged, or the old state with the named change.

The store keeps one invariant, `Store.Inv`, which every method preserves over one run from an empty database:
- counters equal ledger counts;
- impressions never exceed their cap;
- at most one impression and one click per (client, campaign);
- every click follows an impression by the same client;
- logins are unique;
- ledger rows refer to stored rows, cost nothing negative and lie no later than the current day.

The modules follow the service's structure:

- `Domain`: the stored records (the ORM models' shapes), the ad, the error kinds and `Result`.
- `Schemas`: the request and response bodies and their declared bounds as predicates. The two range validators that are never registered are kept as separate predicates: `AgeRangeOrdered` and `DateRangeOrdered`.
- `Seqs`: generic sequence facts:
  - a stable insertion sort with its permutation, order and stability lemmas;
  - filtering, distinctness and map upsert;
  - `Enumerate`, the order in which an unordered query returns rows.
- `Ledger`: counts and selections over the action ledger, and how they change when an action is appended or a campaign's actions are deleted.
- `Store`: the state, its invariant, the two billing writes (`AddImpression`, `AddClick`), one preservation lemma per kind of write, and the `Store` class.
- `AdsEngine`: the ad engine as functions. It covers eligibility, the three exposure buckets, the scorer (Laplace-smoothed CTR, max-normalisation, the 0.8/0.2 blend, stable descending sort) and selection.
- `AdsRouter`: the ad and click endpoints as imperative methods proved against `AdsEngine`.
- `Statistics`: the statistics as folds of the ledger: totals, per-day tables sorted by date, and per-advertiser pools.
- `StatsRouter`: the clock and statistics endpoints as loops proved against `Statistics`.
- `CampaignsRouter`: campaign creation, listing, fetch, update and delete, plus the three-attempt retry around the ad-text generator.
- `ClientRouter`, `AdvertisersRouter`: the bulk upserts, the lookups and the ML-score upsert.
- `Scenarios`: the serve-then-click flow end to end.

## Model

| member | source | states |
|---|---|---|
| Store.Store.constructor | solution/main.py:25-29 | a fresh deployment starts with empty tables on day 0, and that state satisfies the invariant |
| Store.AddImpressionKeepsInv | solution/app/routers/ads_router.py:150-162 | a first impression of a started campaign under its cap keeps every part of the invariant: counters equal ledger counts, the cap, one impression per pair |
| Store.AddClickKeepsInv | solution/app/routers/ads_router.py:206-216 | a first click by a client who has seen the campaign keeps the invariant, with no condition on the click cap |
| Store.AdvanceKeepsInv | solution/app/routers/stats_router.py:26-29 | moving the day forward keeps the invariant |
| Store.InsertCampaignKeepsInv | solution/app/db/campaign_model.py:23-24 | storing a new campaign with zero counters under a fresh id keeps the invariant |
| Store.ReplaceCampaignKeepsInv | solution/app/routers/campaigns_router.py:169-201 | replacing a campaign keeps the invariant when counters and owner stay and a started campaign keeps its start day and impression cap |
| Store.DeleteCampaignKeepsInv | solution/app/routers/campaigns_router.py:216-217 | removing a campaign together with its actions keeps the invariant |
| Store.WithoutCampaignKeepsPairs | solution/app/db/campaign_model.py:27-28 | the cascade delete keeps one action per (client, campaign, kind) and keeps every click preceded by an impression |
| Store.ReplaceClientsKeepsInv | solution/app/routers/client_router.py:45-63 | a client table that loses no client and keeps logins unique keeps the invariant |
| Store.ReplaceAdvertisersKeepsInv | solution/app/routers/advertisers_router.py:32-44 | an advertiser table that loses no advertiser keeps the invariant |
| Store.PutScoreKeepsInv | solution/app/routers/advertisers_router.py:72-86 | a non-negative score for a stored client and advertiser keeps the invariant |
| Ledger.ClientKindIds | solution/app/routers/ads_router.py:49-55 | a campaign id is in the set collected from a client's actions of a kind iff the ledger holds such an action by that client |
| Ledger.WithoutCampaignEffect | solution/app/db/campaign_model.py:27-28 | deleting a campaign's actions zeroes its counts and leaves every other campaign's counts, pair counts and existence facts as they were |
| AdsEngine.EligibleCampaigns | solution/app/routers/ads_router.py:122-142 | a row is kept iff the day lies in its window, both ends included, and each targeting key is absent or matches: gender only when MALE or FEMALE, age bounds inclusive, location exact |
| AdsEngine.NullKeyImposesNothing | solution/app/routers/ads_router.py:125-140 | intended reading of the filter: a targeting with every key null admits every client, and clearing any one key never turns a client away |
| AdsEngine.EligibleCampaignsAsWritten | solution/app/routers/ads_router.py:122-142 | the query as written: a row is kept iff the day lies in its window and every targeting key is set and matches, because a stored JSON null fails both arms of its clause |
| AdsEngine.NullKeyNeverServedAsWritten | solution/app/routers/ads_router.py:122-142 | as written, no campaign stored with a null targeting key is ever returned, whatever the client |
| AdsEngine.AsWrittenAgreesOnFullTargeting | solution/app/routers/ads_router.py:122-142 | the written query admits a subset of the intended one, and the two agree exactly on targetings with all four keys set |
| AdsEngine.GenderOnlyCampaignDroppedAsWritten | solution/tests/e2e.py:102-128 | the end-to-end campaign targeting only MALE, requested by a 25-year-old man in Moscow on a day in its window, is eligible under the intended reading and dropped by the query as written |
| AdsEngine.InvertedAgeRangeNeverMatches | solution/app/schemas/campaign_schemas.py:16-22 | a schema-valid targeting with age_from above age_to, which the unregistered validator lets through, matches no client |
| AdsEngine.Bucket | solution/app/routers/ads_router.py:57-69 | a campaign is in a bucket iff it is among the rows and the first applicable rule puts it there |
| AdsEngine.BucketsDisjointAndOrdered | solution/app/routers/ads_router.py:57-69 | each bucket is an order-preserving subsequence of the rows, and two different buckets share no campaign |
| AdsEngine.UnseenCappedCampaignOfferedForClick | solution/app/routers/ads_router.py:61-65 | a campaign the client never saw, at its impression cap and under its click cap, goes to the click bucket |
| AdsEngine.ClickedCampaignRepeats | solution/app/routers/ads_router.py:61-67 | a campaign the client saw and clicked can only be repeated |
| AdsEngine.Ctr | solution/app/routers/ads_router.py:83-85 | the smoothed click-through estimate is positive, and it is at most 1 exactly when clicks exceed impressions by at most one (so always, in a valid store) |
| AdsEngine.MaxProfitIsMaximum | solution/app/routers/ads_router.py:78-97 | the running profit maximum, started at 0, bounds every candidate's profit and is 0 or some candidate's profit |
| AdsEngine.MaxMlIsMaximum | solution/app/routers/ads_router.py:77-96 | the running relevance maximum, started at 0 with missing scores read as 0, bounds every candidate's score and is 0 or attained |
| AdsEngine.NormalizedInUnitInterval | solution/app/routers/ads_router.py:100-101 | dividing by the maximum, or 0 when the maximum is 0, gives a value in [0, 1] |
| AdsEngine.ScoreInUnitInterval | solution/app/routers/ads_router.py:80-102 | with non-negative costs and ML scores every combined score lies in [0, 1] |
| AdsEngine.RankedIsStableDescendingPermutation | solution/app/routers/ads_router.py:104-105 | the ranking is a permutation of the scored candidates, non-increasing by score, and keeps the input order among equal scores |
| AdsEngine.TopIsFirstBest | solution/app/routers/ads_router.py:151-152 | the top of the ranking is a candidate with the highest score and no earlier candidate has that score |
| AdsEngine.SeenAndClickedFromLedger | solution/app/routers/ads_router.py:49-55 | the seen and clicked id sets are exactly the client's impressions and clicks in the ledger |
| AdsEngine.SelectPriority | solution/app/routers/ads_router.py:145-169 | a new impression is billed iff some eligible campaign is in the impression bucket; a click offer iff none is and some is in the click bucket; no ad iff every eligible campaign is dropped |
| AdsEngine.SelectBill | solution/app/routers/ads_router.py:150-153 | a billed campaign is stored, eligible, under both caps and never shown to the client |
| AdsEngine.SelectShow | solution/app/routers/ads_router.py:163-165 | a campaign offered for a click is stored, eligible, under its click cap and not clicked by the client |
| AdsEngine.SelectRepeat | solution/app/routers/ads_router.py:166-167 | the repeat pool is non-empty and holds stored, eligible campaigns the client has clicked |
| AdsEngine.ClickedCampaignNeverBilledAgain | solution/app/routers/ads_router.py:57-67 | once a client clicked a campaign, no request of theirs bills it or offers it for a click again |
| AdsRouter.FilterCampaigns | solution/app/routers/ads_router.py:44-69 | the two loops return exactly the three buckets for the ids the client's actions have seen and clicked |
| AdsRouter.CalcCombinedScores | solution/app/routers/ads_router.py:72-105 | the running-maximum loop, the normalising loop and the sort return the ranking |
| AdsRouter.GetAdForClient | solution/app/routers/ads_router.py:108-172 | NotFound for an unknown client; otherwise the outcome of the selection for the order the rows come in: the billed ad with one more impression and one ledger row, the same store for a click offer or repeat, NoInventory for nothing |
| AdsRouter.ServeAmong | solution/app/routers/ads_router.py:148-169 | the bucket-and-rank step ends as the selection among the eligible campaigns prescribes, and keeps the invariant |
| AdsRouter.RecordImpression | solution/app/routers/ads_router.py:152-162 | billing adds one to the chosen campaign's impressions and appends one impression at its cost on the current day, nothing else |
| AdsRouter.SetEdClick | solution/app/routers/ads_router.py:175-216 | NotFound for an unknown campaign or client, PrecursorMissing without an impression; otherwise success, with one more click and one click row the first time and no change after |
| AdsRouter.ClickRecordedOnce | solution/app/routers/ads_router.py:200-216 | after a first confirmation the ledger holds exactly one click for the pair |
| AdsRouter.ConfirmationIgnoresClickCap | solution/app/routers/ads_router.py:206-216 | confirming a click at the click cap keeps the invariant and takes the counter past the cap |
| Statistics.TallyOfAppend | solution/app/routers/stats_router.py:123-128 | the totals of two runs of actions add up |
| Statistics.Conversion | solution/app/routers/stats_router.py:57-60 | conversion is clicks over impressions when there are impressions and 0 otherwise; it is non-negative and at most 1 when clicks do not exceed impressions |
| Statistics.StatsOfValid | solution/app/schemas/stats_schemas.py:4-10 | non-negative totals give a record inside the Stats bounds that carries exactly those totals |
| Statistics.CampaignActionsTally | solution/app/routers/stats_router.py:45-49 | counting a campaign's actions by kind gives its ledger counts |
| Statistics.CountIsClients | solution/app/routers/ads_router.py:191-206 | with one action per pair and kind, a campaign's count of a kind is the number of distinct clients with such an action |
| Statistics.LedgerClicksAtMostImpressions | solution/app/routers/ads_router.py:197-198 | since every click follows an impression of the same client, a campaign's ledger never holds more clicks than impressions |
| Statistics.ClicksAtMostImpressions | solution/app/routers/ads_router.py:197-198 | in a valid store a campaign's click counter never exceeds its impression counter |
| Statistics.CampaignStatsFromLedger | solution/app/routers/stats_router.py:43-61 | in a valid store the campaign statistics are the totals of its ledger rows, lie inside the Stats bounds and convert at most 1 |
| Statistics.KeysSpec | solution/app/routers/stats_router.py:74-82 | the days of the per-day dictionary, in insertion order, are distinct and are exactly the days of the actions |
| Statistics.DailyTableSums | solution/app/routers/stats_router.py:76-88 | the records of a per-day table add up to the totals of all the actions |
| Statistics.DailyTableRecords | solution/app/routers/stats_router.py:89-104 | each record of a per-day table counts and sums exactly the actions of its own day, a day on which some action happened |
| Statistics.DailyTableCovers | solution/app/routers/stats_router.py:74-104 | every day with an action has its record in the table |
| Statistics.DailyTableStrictlyIncreasing | solution/app/routers/stats_router.py:104 | the table is sorted by strictly increasing date, one record per day |
| Statistics.DailyTableValid | solution/app/schemas/stats_schemas.py:13-14 | with no negative cost every daily record lies inside the DailyStats bounds |
| Statistics.LedgerDailyTablesValid | solution/app/routers/stats_router.py:64-104 | in a well-formed ledger the per-day tables of a campaign and of an advertiser hold only records inside the DailyStats bounds |
| Statistics.PoolTally | solution/app/routers/stats_router.py:123-130 | the advertiser totals (counters for counts, ledger for spend) are the totals of its campaigns' pooled actions |
| Statistics.AdvertiserStatsFromLedger | solution/app/routers/stats_router.py:118-143 | in a valid store the advertiser totals are those of exactly the ledger rows of its campaigns, inside the Stats bounds, converting at most 1 |
| Statistics.AdvertiserTallyBounds | solution/app/routers/stats_router.py:118-130 | the advertiser counts are non-negative with clicks at most impressions, and its spend is non-negative |
| Statistics.CampaignDailyMatchesTotals | solution/app/routers/stats_router.py:74-88 | in a valid store a campaign's per-day table adds up to its totals |
| Statistics.AdvertiserDailyMatchesTotals | solution/app/routers/stats_router.py:157-172 | in a valid store an advertiser's pooled per-day table adds up to its totals |
| StatsRouter.SetNewDay | solution/app/routers/stats_router.py:23-30 | a negative day is a SchemaViolation, an earlier day an InvalidTransition with the day unchanged; otherwise the day becomes the new one and is echoed |
| StatsRouter.GetCampaignStats | solution/app/routers/stats_router.py:33-61 | NotFound for an unknown campaign; otherwise the counters for counts and the ledger spend by kind, with a non-click counted as an impression |
| StatsRouter.AddToDaily | solution/app/routers/stats_router.py:75-88 | adding one action keeps the dictionary equal to the per-day totals of the actions so far, its keys in first-appearance order |
| StatsRouter.AddAllToDaily | solution/app/routers/stats_router.py:159-172 | folding a campaign's actions into the dictionary gives the per-day totals of the pooled actions |
| StatsRouter.DailyResult | solution/app/routers/stats_router.py:89-104 | turning the dictionary into records and sorting them by date gives the per-day table |
| StatsRouter.GetCampaignDailyStats | solution/app/routers/stats_router.py:64-104 | NotFound for an unknown campaign; otherwise the per-day table of its actions |
| StatsRouter.GetAdvertiserStats | solution/app/routers/stats_router.py:107-143 | NotFound for an unknown advertiser; otherwise the totals over its campaigns in the order they are listed |
| StatsRouter.GetAdvertiserDailyStats | solution/app/routers/stats_router.py:146-188 | NotFound for an unknown advertiser; otherwise the per-day table of its campaigns' pooled actions |
| StatsRouter.AdvertiserStatsFailAsWritten | solution/app/routers/stats_router.py:110-113 | as written, both advertiser statistics requests end in a server failure for every state and advertiser: the second eager-load option names a path starting at the campaign, which the ORM refuses for a query over advertisers (the daily handler repeats this at lines 149-152) |
| StatsRouter.ChainedOptionsGiveModelledStats | solution/app/routers/stats_router.py:107-188 | with the eager loads chained from the advertiser, the statement is accepted and the two requests give NotFound for an unknown advertiser and otherwise the totals and the per-day table that `GetAdvertiserStats` and `GetAdvertiserDailyStats` return |
| CampaignsRouter.FirstReply | solution/app/routers/campaigns_router.py:78-87 | a text comes back iff one of the three attempts succeeds, and it is the earliest success |
| CampaignsRouter.GenerateAdText | solution/app/routers/campaigns_router.py:79-87 | the retry loop asks at most three times, stops at the first success, and gives up after three failures |
| CampaignsRouter.CreateCampaign | solution/app/routers/campaigns_router.py:40-91 | in order: SchemaViolation, NotFound for an unknown advertiser, InvalidTransition unless day ≤ start ≤ end, ExternalServiceFailure when generation fails; otherwise the request's fields, targeting and text with zero counters are stored under the fresh id |
| CampaignsRouter.CreatedCampaignStartsIdle | solution/app/db/campaign_model.py:23-24 | a created campaign keeps the invariant and has no actions of either kind |
| CampaignsRouter.UnorderedDatesFailWindow | solution/app/schemas/campaign_schemas.py:38-44 | a request whose start lies after its end, which the unregistered validator lets through, fails the handler's window check on any day |
| CampaignsRouter.GetCampaignsByAuthor | solution/app/routers/campaigns_router.py:94-118 | SchemaViolation for a size or page not above 1, NotFound for an unknown advertiser; otherwise its campaigns sorted stably by start day, paginated |
| CampaignsRouter.PageIsSlice | solution/app/routers/campaigns_router.py:115-117 | a page is the run of the ordered list starting at (page − 1) · size, at most size long |
| CampaignsRouter.PagesTile | solution/app/routers/campaigns_router.py:112-117 | the size-only listing followed by pages 2 to n is exactly the first n · size campaigns |
| CampaignsRouter.FirstPageRefused | solution/app/routers/campaigns_router.py:96-97 | the page bound refuses page 1 |
| CampaignsRouter.GetCampaign | solution/app/routers/campaigns_router.py:121-132 | a campaign is returned iff it exists and belongs to the advertiser; otherwise NotFound |
| CampaignsRouter.ReviseCampaign | solution/app/routers/campaigns_router.py:149-200 | the field-by-field update gives the update rules' outcome: frozen fields, then the merged window, then generation |
| CampaignsRouter.UpdateCampaign | solution/app/routers/campaigns_router.py:135-202 | SchemaViolation, then NotFound unless the pair exists, then the rules; only an accepted update replaces the campaign |
| CampaignsRouter.PersistedAsWritten | solution/app/routers/campaigns_router.py:197-201 | the row an accepted update leaves as written keeps its stored targeting and takes every other revised field |
| CampaignsRouter.TargetingEditLostAsWritten | solution/app/routers/campaigns_router.py:197-202 | as written, an update that changes the targeting answers with the new targeting while the stored row keeps the old one |
| CampaignsRouter.UpdateKeepsInv | solution/app/routers/campaigns_router.py:169-201 | an accepted update keeps the invariant |
| CampaignsRouter.StartedCampaignFrozen | solution/app/routers/campaigns_router.py:151-156 | once a campaign has started, giving its dates or caps is an InvalidTransition |
| CampaignsRouter.StartedBeforeTodayNeverUpdates | solution/app/routers/campaigns_router.py:151-167 | a campaign that started before today cannot be updated at all |
| CampaignsRouter.UpdateFieldEffects | solution/app/routers/campaigns_router.py:169-200 | each given field takes the request's value and each omitted one keeps its own; the targeting is replaced whole; id, owner and counters stay; the result's window holds |
| CampaignsRouter.DeleteCampaign | solution/app/routers/campaigns_router.py:205-217 | success iff the (campaign, advertiser) pair exists; it removes the campaign and its actions, otherwise NotFound and no change |
| CampaignsRouter.DeleteLeavesOtherCampaigns | solution/app/db/campaign_model.py:27-28 | the cascade removes exactly the deleted campaign's actions and keeps every other campaign's actions in order |
| ClientRouter.CreateClients | solution/app/routers/client_router.py:21-64 | SchemaViolation for a malformed entry; ValidationFailure for a login held by another id or a login or id repeated in the batch, with no change; otherwise each entry is upserted in order and the batch is echoed |
| ClientRouter.CollectBatchKeys | solution/app/routers/client_router.py:25-39 | the first loop stops at the first login held by a different id, and otherwise collects the batch's logins and ids in order |
| ClientRouter.UpsertClients | solution/app/routers/client_router.py:45-63 | the second loop leaves the client table as the batch's writes applied in order |
| ClientRouter.BatchStoresEachClient | solution/app/routers/client_router.py:45-63 | after an accepted batch each entry's client holds exactly its fields, clients outside the batch are unchanged and none disappears |
| ClientRouter.BatchKeepsUniqueLogins | solution/app/routers/client_router.py:32-43 | an accepted batch keeps logins unique across all stored clients |
| ClientRouter.BatchKeepsInv | solution/app/routers/client_router.py:21-64 | an accepted batch keeps the invariant |
| ClientRouter.TakenLoginRefused | solution/app/routers/client_router.py:32-36 | a batch giving another client's login to some id is refused |
| ClientRouter.GetClient | solution/app/routers/client_router.py:67-75 | a client is returned iff it exists; otherwise NotFound |
| AdvertisersRouter.CreateAdvertisers | solution/app/routers/advertisers_router.py:23-45 | SchemaViolation for a malformed entry, ValidationFailure with no change for a repeated id; otherwise each entry is upserted in order and the batch is echoed |
| AdvertisersRouter.UpsertAdvertisers | solution/app/routers/advertisers_router.py:32-44 | the upsert loop leaves the advertiser table as the batch's writes applied in order |
| AdvertisersRouter.AdvertiserBatchStores | solution/app/routers/advertisers_router.py:32-44 | after an accepted batch each entry's advertiser carries its name, others are unchanged and none disappears |
| AdvertisersRouter.GetAdvertiser | solution/app/routers/advertisers_router.py:48-57 | an advertiser is returned iff it exists; otherwise NotFound |
| AdvertisersRouter.CreateMlScore | solution/app/routers/advertisers_router.py:60-87 | SchemaViolation for a negative score, NotFound unless both client and advertiser exist; otherwise the pair's one score is set and the stored record returned |
| AdvertisersRouter.ScoreReachesRanking | solution/app/routers/ads_router.py:80-91 | the scorer reads back the score last written for the pair, 0 for a pair never scored, and other pairs are unaffected |
| Scenarios.NoTrafficYet | solution/app/db/campaign_model.py:23-24 | a campaign without actions has zero counters and no client has seen or clicked it |
| Scenarios.ServedOnce | solution/tests/e2e.py:128-131 | serving a fresh, started campaign keeps the invariant and leaves the client having seen but not clicked it |
| Scenarios.ServeThenClick | solution/tests/e2e.py:98-143 | a fresh campaign served once and clicked once keeps the invariant and reports one impression, one click, conversion 1 and both prices as spend |
| Scenarios.ServeThenClickStats | solution/tests/e2e.py:140-143 | the statistics after one impression and one click of a campaign without traffic |

## Left out

- StatsRouter.GetAdvertiserStats: gives the intended totals. As written, the handler's statement is refused by the ORM and every request ends in a server failure (see Findings); `StatsRouter.AdvertiserStatsWith` models both.
- StatsRouter.GetAdvertiserDailyStats: gives the intended per-day table. As written, it fails the same way; `StatsRouter.AdvertiserDailyStatsWith` models both.
- Restarts: every start resets the day to 0 while the tables persist. The model covers one run from an empty database, and `Store.Inv` need not hold after a restart: ledger rows may be dated after the day, and a campaign already served counts as not started, so an update may lower its impression cap below its impressions.
- Concurrency: requests are modelled one at a time. Races between simultaneous requests, such as double billing or overselling a cap, are not expressible.
- Floating point: costs, CTR, scores and conversion are real numbers. Nothing is claimed about rounding or about float ties in the sort.
- `random.choice` over the repeat bucket: any element of the bucket may be returned (`AdsRouter.Outcome`).
- The ad-text generator (a remote chat-completion call) is a function parameter giving the reply to each attempt. Only the three-attempt retry is modelled.
- Redis, HTTP routing, the ORM and sessions are replaced by the in-memory store. The order of rows from a query without `ORDER BY` is any enumeration (`Seqs.Enumerate`), returned as a ghost out-parameter.
- Campaign ids come from `uuid4`. Freshness is a precondition of `CreateCampaign` (`newId` not stored).
- AdsEngine.EligibleCampaigns: a targeting key stored as JSON `null` imposes no condition here. The query as written drops every campaign with such a key, and the create handler stores `null` for each key a request leaves out. The model serves the intended behaviour; the written behaviour is `AdsEngine.EligibleCampaignsAsWritten` (see Findings).
- The two range validators in the campaign schema are stacked under `@classmethod`, so they are never registered. They are not part of the schema predicates. `AgeRangeOrdered` and `DateRangeOrdered` state their rules, and two lemmas state the consequences.
- The bulk upserts commit row by row. The model applies an accepted batch as one step; a failure part-way through a commit is not modelled.
- Gender enumerations come from a schema module that is not part of this model. They are an abstract two-value `Gender`, plus a target that is either one gender or "all".
- CampaignsRouter.UpdateCampaign: the model stores the request's targeting in the updated row. The handler assigns into the loaded targeting dictionary of a plain JSON column, which the ORM does not track, so the row most likely keeps its old targeting while the response shows the new one. The written behaviour is `CampaignsRouter.PersistedAsWritten` (see Findings).
- The click endpoint does not check the click cap, and the model does not either (`AdsRouter.ConfirmationIgnoresClickCap`).
- The page and size bounds are "greater than 1", so page 1 is refused (`CampaignsRouter.FirstPageRefused`). This is modelled as written.
- The tests that call a live server are not modelled. The serve-then-click scenario is a lemma. That scenario's advertiser name "A" would be refused by the three-character bound, and the model keeps the bound.

## Findings

| source | as written | input that shows it | evidently intended | confidence | as-written member | corrected member |
|---|---|---|---|---|---|---|
| solution/app/routers/ads_router.py:125-140 | each targeting clause is `key IS NULL` on the JSON value or a comparison of its text or integer; a key stored as JSON `null` is not SQL NULL and makes the comparison unknown, so the campaign is never returned | the end-to-end campaign with targeting `{"gender": "MALE"}` (stored with age_from, age_to and location null), a 25-year-old MALE client in Moscow, day 2: the query returns no row and the request gets 404 | a null key imposes no condition | high for PostgreSQL's `->` semantics; not executed | AdsEngine.EligibleCampaignsAsWritten, AdsEngine.NullKeyNeverServedAsWritten, AdsEngine.GenderOnlyCampaignDroppedAsWritten | AdsEngine.EligibleCampaigns, AdsEngine.NullKeyImposesNothing |
| solution/app/routers/campaigns_router.py:197-201 | the new targeting is written into the loaded dictionary of a plain JSON column in place, which the ORM does not flush | an update of a campaign stored with gender MALE that sends gender FEMALE: the response shows FEMALE, the row keeps MALE | the row takes the request's targeting | high for untracked JSON mutation; not executed | CampaignsRouter.PersistedAsWritten, CampaignsRouter.TargetingEditLostAsWritten | CampaignsRouter.UpdateCampaign, CampaignsRouter.UpdateFieldEffects |
| solution/app/routers/stats_router.py:110-113 | the statement over `Advertiser` (and its copy at lines 149-152) carries a second eager-load option `selectinload(Campaign.actions)`, a path that neither starts at the queried entity nor continues `Advertiser.campaigns`; the ORM refuses to build it (ArgumentError), so the request ends in a 500 | any request to either advertiser statistics endpoint, for example a stored advertiser with one campaign: a 500, not the totals or the table | the actions of each campaign are loaded through the advertiser, as `selectinload(Advertiser.campaigns).selectinload(Campaign.actions)` would | high for the ORM's loader-path rule; not executed | StatsRouter.AdvertiserStatsWith, StatsRouter.AdvertiserDailyStatsWith, StatsRouter.AdvertiserStatsFailAsWritten | StatsRouter.GetAdvertiserStats, StatsRouter.GetAdvertiserDailyStats, StatsRouter.ChainedOptionsGiveModelledStats |
