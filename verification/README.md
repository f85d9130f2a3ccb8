# ProcureSignal: a verified model of its state machines

ProcureSignal ingests procurement news, enriches it with rules and a language model, alerts buyers,
and holds their sessions and personal data. This project models the parts of it whose correctness
depends on many steps together, and proves what those steps keep. `dafny verify dfyconfig.toml`
checks everything.

How the model is laid out:

- **Enrichment.** `RawArticles` holds the lifecycle columns of a raw article and the statements that
  change them. `EnrichmentPolicy`, `EnrichmentOutput` and `LlmSpend` hold the routing table with the
  per-run budget, the validated output with its cache, and the durable daily counter.
  `EnrichmentPipeline` is one batch as functions on values with its accounting laws,
  `EnrichmentOutcome` says for each case of the reply, the scores and the caps what one article's step
  leaves in the tables, and `PipelineRun.Runner` is the object whose methods compute exactly those functions over mutable
  tables. `EnrichmentLease` is the distributed protocol: any number of workers, each step one
  committed transaction or the passing of time. `EnrichmentProgress` adds the deployment, with its
  policy and an analysis that is a fixed function of the article, and proves what the protocol then
  achieves. `EnrichmentWorker` is one worker's loop over the table. `Categories` and `Text` give
  category names and stripping.
- **Sessions.** `RefreshTokens` is the server with its two tables, `BrowserSession` the tabs of one
  browser, with one cookie jar, talking to it through requests and answers that travel separately
  and may be lost.
- **Throttling.** `RateLimiter` relates the held windows to the full log of attempts.
- **Agent analyses.** `AgentLoop` is the bounded loop with its transcript, `Evidence` the search for
  event keys and the citation check, `SupplierAnalysis` the two put together.
- **Personal data, alerts, migration, audit, ranking.** `SubjectErasure`, `AlertRules`, `Outbox`,
  `ProcessedConsolidation`, `NpmAudit`, `RankingMetrics`.

A class method states the new value of its fields as a specification function of the old ones, or
states outright what it computes; the laws are lemmas about those functions, over every run. What a
specification function computes is stated once more without it, in a lemma named `...Exactly` or one
beside it: read off the input fields, the literal limits and the positions in the tables.
Histories (owners seen, put-backs, tokens ever exchanged, attempts ever recorded, commits) are ghost
or history fields no step reads.

Assumptions, stated once: a committed transaction is one atomic step; a minted digest, family id,
claim owner or notification key is new when it is minted; the clock never goes back; the signal
taxonomy, the JSON reader, the spelling of non-text values and what the model, the tools and the
transports answer are arbitrary parameters. Only `EnrichmentProgress` also takes an article's text,
the verdicts normalization can give on it, the policy, the daily cap and whether a client can be built
not to change during a history.

What turned out to need a condition:

- Mutual exclusion of enrichment runs, and the attempt count being the number of put-backs, hold for
  all runs exactly when the run limit is shorter than the lease; two concrete runs show both failing
  otherwise. The configured 3600 s and 3900 s meet the condition. Below the
  lease length no claimed article is ever found already processed either. Uniqueness of results and
  the owner guard need no condition.
- An article that arrived is not always settled. Some continuation settles it exactly when
  normalization may reject it, or may pass it and it is irrelevant enough to skip, or its content is
  cached, or some article with that content is not rejected, may pass and can be enriched: the rules
  are sure of it, or its estimate fits the run's token cap and the daily one and a client can be
  built. This is exact for all deployments and histories if and only if runs end before their leases
  (`EnrichmentProgress.SettlesExactlyWhenHopeful`); a longer run can put a rejected article back
  (`EnrichmentProgress.StalledRunRevivesTwin`). A relevant article that is never rejected, that the
  rules are not sure of and that is too long for any call is deferred forever under any timing
  (`EnrichmentProgress.ArrivesAndIsNeverSettled`). Normalization need not give one verdict on one
  article: it detects the language of the title, which is not repeatable.
- A refresh presents a spent token, and so signs the whole family out, exactly when it was posted
  while a granted answer for the cookie was lost or still on its way, or another tab had the same
  token exchanged while it travelled (`BrowserSession.ReplaysExactly`). One page whose answers arrive
  never does, whatever requests are lost; two tabs that meet a 401 together do although every answer
  arrives (`BrowserSession.TwoTabsSignOut`), and so does a page reloaded during a refresh.
- Waiting as told is enough exactly when the attempt that must expire, the one that many from the end
  of the held window as the limit allows, is out of the window one second after the wait
  (`RateLimiting.WaitIsExact`). It is for a key whose last record was admitted; two records without a
  check in between reach a window for which it is not (`RateLimiting.UncheckedRecordsOutlastTheWait`).
- nDCG stays within 1 under every discount exactly when the first k results hold no more hits,
  repeats included, than there are relevant documents (`RankingMetrics.BoundIsExact`).
- A citation list given as text is walked character by character, and one given as a number raises;
  the run then stays marked completed with nothing stored (`SupplierAnalysis.Analysis.AnalyseSupplier`).

## Model

| member | source | states |
|---|---|---|
| EnrichmentLease.RunsNeverShareAnArticle | worker/tasks.py:178-242 | over every interleaving of claims, normalizations, commits, failures, crashes and ticks, no two live runs work on one article, if and only if runs end before a lease taken at their start would |
| EnrichmentLease.ConfiguredRunsNeverShare | worker/tasks.py:428-434 | the configured time limit is short enough, so exclusion and the attempt count hold in every reachable state |
| EnrichmentLease.AttemptsCountPutBacks | worker/tasks.py:245-258 | the attempt count of every article equals the times it was put back, under the same if-and-only-if; it never exceeds them under any timing |
| EnrichmentLease.NoWorkIsWasted | shared/procuresignal/enrichment/pipeline.py:110-148 | below the lease length a run selects everything it holds, nothing it commits was processed by anybody else, and every article it holds is settled under one outcome |
| EnrichmentLease.RunsKeepWaiting | worker/tasks.py:197-242 | below the lease length what a live run holds is due, marked as being processed and without a processed row |
| EnrichmentLease.EachArticleIsSavedOnce | shared/procuresignal/enrichment/pipeline.py:415-433 | with no timing assumption, no article ever has two processed rows, and the saved counts of all committed runs sum to the rows there are |
| EnrichmentLease.TakenOverRowsAreLeftAlone | shared/procuresignal/enrichment/pipeline.py:370-392 | a run that lost a row to another owner changes nothing of it when it commits |
| EnrichmentLease.WakesUp | worker/tasks.py:178-194 | in every reachable state an unfinished row is claimable exactly from the later of its next attempt and lease expiry on |
| EnrichmentLease.EveryRow | worker/tasks.py:197-321 | what a claim, a normalization, a failed run and every other step but a commit writes into each raw row: status, attempts, next attempt, owner and expiry |
| EnrichmentLease.ClaimsExactly | worker/tasks.py:178-242 | a claim can take exactly rows that are unfinished, due, under no running lease, unprocessed and not looked at yet |
| EnrichmentProgress.SettlesExactlyWhenHopeful | worker/tasks.py:435-480 | in every reachable state of every deployment some continuation settles an unsettled article if and only if normalization may reject it, or may pass it and it is skippable, cached, or shares its content with an unrejected article that may pass and that the rules are sure of or a call fits both token caps for; exact if and only if runs end before their leases |
| EnrichmentProgress.HopefulSettles | worker/tasks.py:435-480 | the if-half needs no assumption on time |
| EnrichmentProgress.StalledRunRevivesTwin | worker/tasks.py:312-321 | when runs outlive their leases a stalled one puts a rejected article back, which settles another one with its content that had no hope |
| EnrichmentProgress.TooLongIsNeverSettled | shared/procuresignal/enrichment/pipeline.py:435-440 | a relevant uncached article that normalization never rejects, that the rules are not sure of and whose estimate passes the run's cap is settled in no continuation, under any timing |
| EnrichmentProgress.ArrivesAndIsNeverSettled | shared/procuresignal/enrichment/pipeline.py:196-296 | the same from its arrival on, for every run of the deployment |
| EnrichmentProgress.UnenrichableIsDeferred | shared/procuresignal/enrichment/router.py:45-55 | at every attempt an uncached article that no rule is sure of and no cap has room for is skipped or deferred, and nothing is stored, spent or called |
| EnrichmentProgress.ContentSharesOneOutput | shared/procuresignal/enrichment/pipeline.py:169-194 | after every history of any number of workers under one policy and taxonomy version, processed articles with one content carry one output, the one in the cache, and all but the first were served from it |
| EnrichmentProgress.DurableSpendAddsUp | shared/procuresignal/enrichment/budget.py:56-85 | after every history each day's counter is the sum of what committed batches charged that day and of what agent turns and embeddings charged to the same row |
| EnrichmentLease.RunsStaySane | worker/tasks.py:197-258 | every step keeps: a leased row has an expiry and a known owner, a completed row has a processed row |
| EnrichmentLease.RunsStayTimed | worker/tasks.py:197-242 | below the lease length every live run still owns what it works on and has read the current attempt count |
| EnrichmentLease.LosesCount | worker/tasks.py:312-320 | the run in which a stalled worker writes back a stale attempt count |
| EnrichmentWorker.Worker.Claim | worker/tasks.py:197-242 | exactly the newest eligible rows up to the limit are leased, nothing else changes |
| EnrichmentWorker.Worker.ReleaseAfterFailure | worker/tasks.py:245-258 | exactly the rows still owned are put back a minute on with one more attempt |
| EnrichmentWorker.Worker.NormalizeBatch | worker/tasks.py:279-321 | each row is kept, rejected or put back, and the counters say how many |
| EnrichmentWorker.Worker.NormalizeCandidates | worker/tasks.py:323-343 | the claim loop looks at a prefix of the eligible articles, stops at enough good ones or at the end, and touches no other row |
| EnrichmentWorker.QualitiesPartition | worker/tasks.py:345-351 | everything looked at is counted as normalized, rejected or failed |
| RawArticles.DelayIsMonotone | worker/tasks.py:314-318 | the put-back delay grows with the attempt count, from 15 to at most 360 minutes |
| RawArticles.DelayExactly | worker/tasks.py:314-318 | 15 minutes first, then twice as long each time up to 360 |
| RawArticles.ClaimableExactly | worker/tasks.py:178-194 | claimable are the rows without a status or with an unfinished one, due, with no owner or an expired lease |
| PipelineRun.CommittedBatchAddsUp | shared/procuresignal/enrichment/pipeline.py:137-334 | every candidate of a committed batch is counted under one outcome, every saved row under one route, calls made equal calls reserved, both caps hold |
| PipelineRun.CommittedBatchIsCharged | shared/procuresignal/enrichment/pipeline.py:248-260 | each day's stored counter grows by what the batch charged that day, and those charges sum to the tokens the batch reports |
| PipelineRun.SelectedExactly | shared/procuresignal/enrichment/pipeline.py:110-148 | exactly the offered articles that are neither processed nor unavailable are processed, each once |
| PipelineRun.SelectedInOrder | shared/procuresignal/enrichment/pipeline.py:110-148 | the selected works are, in the order offered, the first candidate of each article that no processed row, ending status, later attempt or running foreign lease leaves out |
| PipelineRun.Runner.ProcessRawArticles | shared/procuresignal/enrichment/pipeline.py:91-334 | the loop computes the specified batch over its tables, or restores every table when anything raises |
| PipelineRun.Runner.ProcessArticle | shared/procuresignal/enrichment/pipeline.py:149-330 | one pass computes the specified step |
| PipelineRun.Runner.CallModel | shared/procuresignal/enrichment/pipeline.py:223-276 | once the router chose the model the reservation is never refused; the call is charged and its reply, the fallback or a retry follows |
| PipelineRun.Runner.TakeRoute | shared/procuresignal/enrichment/pipeline.py:211-296 | without a client a chosen call becomes a deferral |
| PipelineRun.Runner.TransitionRaw | shared/procuresignal/enrichment/pipeline.py:370-392 | the guarded update of one row |
| PipelineRun.Runner.AddProcessed | shared/procuresignal/enrichment/pipeline.py:415-433 | inserts exactly when the article has no row |
| PipelineRun.Runner.CacheGet | shared/procuresignal/enrichment/cache.py:39-68 | the validated stored output, with the hit counted only when it validates |
| PipelineRun.Runner.CachePut | shared/procuresignal/enrichment/cache.py:70-116 | inserts or overwrites one entry, keeping its hit count |
| EnrichmentPipeline.RunBalances | shared/procuresignal/enrichment/pipeline.py:149-334 | the loop invariant: outcomes, routes, reservations and tokens add up after every article |
| EnrichmentPipeline.RunCountsRoutes | shared/procuresignal/enrichment/pipeline.py:175-330 | each route counter is the number of rows the batch added by that route |
| EnrichmentPipeline.StepHasShape | shared/procuresignal/enrichment/pipeline.py:149-330 | one article makes one guarded transition, adds at most its own row, and moves exactly the counter that names what happened to it |
| EnrichmentPipeline.RunOfFresh | shared/procuresignal/enrichment/pipeline.py:415-433 | articles offered once and without a row are never found already processed, and nobody else gains a row |
| EnrichmentPipeline.RunGrowsSpend | shared/procuresignal/enrichment/pipeline.py:248-260 | on every day the tenant's counter grows by what the batch charged that day; other tenants' counters do not move |
| EnrichmentPipeline.RunInserts | shared/procuresignal/enrichment/pipeline.py:415-433 | a batch appends as many rows as it says it saved and never a second one for an article |
| EnrichmentPipeline.RunRows | shared/procuresignal/enrichment/pipeline.py:370-392 | a batch changes only rows its run holds: completed beside a processed row, skipped, or put back |
| EnrichmentPipeline.RunServes | shared/procuresignal/enrichment/pipeline.py:169-194 | within one batch, articles with one content share one output, and only the first was not served from the cache |
| EnrichmentPipeline.CachedIsFree | shared/procuresignal/enrichment/pipeline.py:169-194 | a cached article makes no call, spends nothing and gets the stored output |
| EnrichmentPipeline.CachedStaysCached | shared/procuresignal/enrichment/cache.py:70-116 | no later batch changes or loses what the cache holds for a content |
| EnrichmentOutcome.FailsExactly | shared/procuresignal/enrichment/pipeline.py:149-334 | a batch fails on an article exactly when something raises, or its scores matter and are out of range |
| EnrichmentOutcome.ServedFromCache | shared/procuresignal/enrichment/pipeline.py:169-194 | a validated cached payload is stored for the article as it is, with its hit counted and no call |
| EnrichmentOutcome.IrrelevantIsSkipped | shared/procuresignal/enrichment/pipeline.py:276-279 | an article below the relevance threshold is skipped for good: no row, no call, no cache entry |
| EnrichmentOutcome.SureIsStored | shared/procuresignal/enrichment/pipeline.py:221-222 | a relevant article the rules are sure of gets and caches the local analysis without a call |
| EnrichmentOutcome.UnaffordableIsDeferred | shared/procuresignal/enrichment/pipeline.py:199-244 | one they are not sure of, where the daily cap, either run cap or a missing client forbids the call, waits two hours with nothing stored or spent |
| EnrichmentOutcome.ReplyIsStored | shared/procuresignal/enrichment/pipeline.py:260-262 | a reply is stored and cached with its own summary, category, tags and priority and the stripped non-blank entities of both outputs in order, each once; the call and its tokens are charged |
| EnrichmentOutcome.FallbackIsStored | shared/procuresignal/enrichment/pipeline.py:263-270 | with no reply and confidence at or above the fallback threshold the local analysis is stored and cached as deterministic, and the call is charged |
| EnrichmentOutcome.UnansweredIsRetried | shared/procuresignal/enrichment/pipeline.py:271-296 | with no reply and confidence below it nothing is stored, the call is charged, and the article is retried in two hours |
| EnrichmentPolicy.EnrichmentBudget.Reserve | shared/procuresignal/enrichment/policy.py:112-127 | grants exactly when both caps allow it, and reserves only then |
| EnrichmentOutput.ValidatedRoundTrips | shared/procuresignal/enrichment/output_parser.py:23-69 | what validation produces is unchanged by dumping and validating it again |
| EnrichmentOutput.MergeKeepsValid | shared/procuresignal/enrichment/pipeline.py:394-413 | merging local evidence into a valid output leaves it valid although the merge is not validated |
| EnrichmentOutput.MergedExactly | shared/procuresignal/enrichment/pipeline.py:394-413 | the merge keeps the text, category, tags and priority of the reply; its entities are the stripped non-blank texts of both outputs, and the category of the reply among the categories, in order, each once |
| EnrichmentOutput.ValidationExactly | shared/procuresignal/enrichment/output_parser.py:11-69 | which payloads validate, and what becomes of each field: summaries of 10 to 1000 characters, the category in the taxonomy or general, known tags in order and each once, stripped entities in order and each once |
| EnrichmentOutput.PutThenGet | shared/procuresignal/enrichment/cache.py:39-116 | a valid output put under a key is what the next lookup returns; other keys are untouched |
| EnrichmentOutput.NormalizeEntityList | shared/procuresignal/enrichment/output_parser.py:40-53 | stripped texts in order, without blanks or repeats |
| Categories.CanonicalCategoryIdempotent | shared/procuresignal/personalization/categories.py:324-343 | canonicalising twice is canonicalising once, on every string |
| Categories.CanonicalIsFixed | shared/procuresignal/personalization/categories.py:5-27 | every canonical name is a fixed point although the key turns underscores into spaces |
| Categories.CategoryMeans | shared/procuresignal/personalization/categories.py:324-343 | the key is the words in lower case with single spaces; a canonical key stays, an alias is replaced, and any other goes to the first topic sharing the most words, or stays if none does |
| Categories.CanonicalCategoryList | shared/procuresignal/personalization/categories.py:346-354 | the non-empty canonical categories at the positions where each first occurs, in order |
| Categories.CanonicalListIdempotent | shared/procuresignal/personalization/categories.py:346-354 | a canonical list is unchanged by canonicalising it again |
| LlmSpend.OvershootIsBounded | shared/procuresignal/agents/loop.py:88-99 | with any number of interleaving workers each day's stored total is the sum of all turns charged and passes cap less the checked estimate by at most one turn per worker |
| LlmSpend.OvershootIsReached | shared/procuresignal/enrichment/budget.py:56-135 | no smaller bound holds |
| LlmSpend.EveryEvent | shared/procuresignal/enrichment/budget.py:56-135 | a worker gets its turn exactly when its estimate still fits the day, and what a turn cost is stored in full on that day and no other |
| LlmSpend.SpendStore.ChargeSpent | shared/procuresignal/enrichment/budget.py:105-135 | tokens already spent are always recorded in full |
| LlmSpend.SpendStore.Consume | shared/procuresignal/enrichment/budget.py:105-123 | records exactly what fits and refuses the rest unchanged |
| LlmSpend.SpendStore.RemainingTokens | shared/procuresignal/enrichment/budget.py:87-94 | what is left of the cap, never negative |
| RefreshTokens.HistoryKeepsInv | shared/procuresignal/auth/service.py:188-224 | in every history a family has at most one live token and one user, and a token revoked without being exchanged takes its family with it |
| RefreshTokens.DeadFamilyStaysDead | shared/procuresignal/auth/service.py:377-384 | a family without a live token never gains one again |
| RefreshTokens.ReplayKillsFamily | shared/procuresignal/auth/service.py:340-345 | presenting a revoked token leaves its family, and only it, without a live token |
| RefreshTokens.SecondPresentationSignsOut | shared/procuresignal/auth/service.py:319-374 | presenting a token twice revokes the successor of the first presentation |
| RefreshTokens.RevokedStaysRevoked | shared/procuresignal/auth/service.py:319-374 | a revoked token is never live again |
| RefreshTokens.RevokeAllIsFinal | shared/procuresignal/auth/service.py:402-416 | after signing out everywhere no earlier access token resolves and no earlier refresh token is live, in any continuation |
| RefreshTokens.VersionsNeverFall | api/dependencies.py:120-122 | the token version a request is compared with never falls |
| RefreshTokens.ExchangedInTime | shared/procuresignal/auth/service.py:340-364 | in every history an exchanged token was presented before its stored expiry, and one minted in that history less than thirty days after its minting |
| RefreshTokens.MintedExactly | shared/procuresignal/auth/service.py:188-224 | a minted token lives thirty days for the user who signed in, or for the user and in the family of the token exchanged |
| RefreshTokens.EveryToken | shared/procuresignal/auth/service.py:319-416 | every other token is what it was, but revoked now if it was live and was exchanged, logged out, of a replayed family or of a user signed out everywhere |
| RefreshTokens.EveryUser | shared/procuresignal/auth/service.py:402-416 | a user changes only by administration, and by one version when signed out everywhere |
| RefreshTokens.SessionService.Authenticate | shared/procuresignal/auth/service.py:277-316 | a session is issued exactly for a matching password of a usable user |
| RefreshTokens.SessionService.RotateRefreshToken | shared/procuresignal/auth/service.py:319-374 | a session is granted if and only if the token is stored, unrevoked, before its expiry, and its user active and a member; a revoked token revokes its whole family; anything else changes nothing |
| RefreshTokens.SessionService.RevokeToken | shared/procuresignal/auth/service.py:387-399 | revokes one live token and says whether it did |
| RefreshTokens.SessionService.RevokeAllSessions | shared/procuresignal/auth/service.py:402-416 | revokes every token of one user and no other |
| BrowserSession.ReplaysExactly | frontend/lib/auth.ts:49-70 | in every run of any number of tabs, with lost requests and answers, a refresh presents an exchanged token, and signs the family out, if and only if it was posted while a granted answer for the cookie was overdue or was raced by another tab |
| BrowserSession.NeverReplays | frontend/lib/auth.ts:49-70 | when tabs take turns and no answer is lost, a refresh never presents an exchanged token and never signs out another one, whatever requests are lost |
| BrowserSession.OnePageTakesTurns | frontend/lib/auth.ts:27-50 | one page alone takes turns with itself, however its callers overlap |
| BrowserSession.TwoTabsSignOut | frontend/lib/auth.ts:155-163 | two tabs refreshing at once sign the family out although every answer arrives |
| BrowserSession.RunKeepsSafe | frontend/lib/auth.ts:49-70 | every run keeps: the cookie is spent exactly while a granted answer for it is overdue, and what is still on its way to the browser is unspent |
| BrowserSession.ParallelUnauthorized | frontend/lib/auth.ts:49-50 | any number of parallel 401s in a tab post one refresh and touch no other tab |
| BrowserSession.ExchangedExactly | api/routers/auth.py:216-248 | the endpoint grants exactly for a stored, unrevoked, unexpired token of a usable user, with the new token and the current version |
| BrowserSession.LostAnswerSignsOut | shared/procuresignal/auth/service.py:340-345 | losing the answer to a granted refresh signs the family out at the next one |
| BrowserSession.AuthModule.OnError | frontend/lib/auth.ts:86-100 | only a first 401 of an ordinary request waits for the shared refresh, and no request waits twice |
| BrowserSession.AuthModule.Resume | frontend/lib/auth.ts:100-105 | a request that waited is sent again exactly when the refresh brought a token |
| BrowserSession.AuthModule.Settle | frontend/lib/auth.ts:52-67 | an answer, or its loss, always clears the shared refresh, and a token remains exactly after a granted one |
| RateLimiting.RateLimiter.Check | api/rate_limit.py:56-63 | a throttled answer is backed by the full log, the log decides unless a capacity eviction dropped an attempt of the key that is still live, and the wait is enough exactly when the attempt that must expire will have, as for every key whose last record was admitted |
| RateLimiting.RateLimiter.Record | api/rate_limit.py:65-83 | the attempt is logged, expired keys go, held keys stay within capacity and the one dropped has the oldest last attempt |
| RateLimiting.PrunedCounts | api/rate_limit.py:95-106 | pruning from the front keeps exactly the attempts inside the window, as a suffix |
| RateLimiting.PrunedDecides | api/rate_limit.py:95-106 | what a pruned window says about the full log |
| RateLimiting.RecordKeepsTable | api/rate_limit.py:65-118 | recording keeps every held window a suffix of its log that lacks only expired attempts |
| RateLimiting.RecordedExactly | api/rate_limit.py:65-106 | after a record other keys are kept as they were unless their last attempt has expired, and the own window is its log with the new attempt less the expired front |
| RateLimiting.WaitIsExact | api/rate_limit.py:56-63 | a second after the wait the window admits from then on if and only if its attempt that many from the end as the limit allows has expired; always, when the window is no longer than the limit |
| RateLimiting.UncheckedRecordsOutlastTheWait | api/rate_limit.py:65-83 | two records of one key in a row, from an empty table, reach a window whose wait is not enough |
| AgentLoop.RunLoop | shared/procuresignal/agents/loop.py:126-195 | at most the given number of turns, each asked with the whole conversation; the transcript is exactly the calls carried out plus the one message of a completed run; tokens are charged in full; every commit is sound |
| AgentLoop.HandleCall | shared/procuresignal/agents/loop.py:156-190 | a call is committed before it is carried out and its result directly after |
| AgentLoop.BoundTools.RunTool | shared/procuresignal/agents/loop.py:102-123 | an unknown name is refused without dispatch, a failure stores no internal message, and the known keys grow by exactly those of what is stored |
| AgentLoop.RecordedIsSound | shared/procuresignal/agents/loop.py:58-76 | ordinals 0 to n-1, step count n, and each call directly before its result |
| AgentLoop.RecordedExactly | shared/procuresignal/agents/loop.py:156-190 | row 2k holds the name, id and arguments of the k-th call, row 2k+1 what was stored for it |
| AgentLoop.ConversationExactly | shared/procuresignal/agents/loop.py:126-190 | the model is told every call and directly after it its own output |
| AgentLoop.TurnsCalls | shared/procuresignal/agents/loop.py:156-190 | the calls of every turn are carried out, all of them and in order |
| AgentLoop.OneRowAfter | shared/procuresignal/agents/loop.py:149-152 | a pending call or the final message keeps the transcript sound |
| AgentLoop.OnlyKnownAreDispatched | shared/procuresignal/agents/loop.py:107-112 | exactly the calls with names in the catalogue are dispatched |
| AgentLoop.AgentRun.Charge | shared/procuresignal/agents/loop.py:88-99 | a turn's tokens are added to the run and to the day's total in full |
| Evidence.KeysAreThoseThatOccur | shared/procuresignal/agents/analysis.py:65-82 | the recursive walk finds exactly the keys that occur at some path of a payload |
| Evidence.CitationsAreConserved | shared/procuresignal/agents/analysis.py:108-147 | every string citation of a titled proposal is in exactly one of stored evidence and dropped |
| Evidence.StoredIsSound | shared/procuresignal/agents/analysis.py:128-145 | stored rows are numbered without gaps and rest on verified citations, at least one |
| Evidence.SupportedIsStored | shared/procuresignal/agents/analysis.py:119-145 | no proposal with a title and a verified citation is lost |
| Evidence.StoreRecommendations | shared/procuresignal/agents/analysis.py:108-147 | the loop stores exactly the supported proposals and returns exactly the citations outside the verified keys |
| Evidence.StoredExactly | shared/procuresignal/agents/analysis.py:108-147 | told from the items of the payload: the rows are, in order and numbered, exactly those of the titled proposals citing a verified key, with title cut at 300, rationale and verified citations; each other citation is dropped as often as it occurs, and no verified one is |
| Evidence.CitedExactly | shared/procuresignal/agents/analysis.py:126 | the citations of a list are its strings at their positions, of a text its characters, of an object its names; true and non-zero numbers cannot be walked |
| Evidence.FailsExactly | shared/procuresignal/agents/analysis.py:108-147 | storing raises exactly when some titled proposal cites what cannot be walked |
| SupplierAnalysis.VerifiedIsReturned | shared/procuresignal/agents/analysis.py:184-194 | the known keys are exactly those occurring in the recorded tool results |
| SupplierAnalysis.Analysis.AnalyseSupplier | shared/procuresignal/agents/analysis.py:150-241 | how every analysis ends; every stored recommendation rests on events a tool of that run returned |
| SupplierAnalysis.Analysis.CheckEvidence | shared/procuresignal/agents/analysis.py:218-241 | the check is the next step of the transcript and lists the dropped citations |
| SupplierAnalysis.CheckPayloadExactly | shared/procuresignal/agents/analysis.py:218-241 | the check holds the verified keys, the dropped citations and the findings, each under its own name |
| SupplierAnalysis.FindingsExactly | shared/procuresignal/agents/analysis.py:218-241 | at most the first twenty findings, as text; what cannot be listed raises |
| SupplierAnalysis.FencesDoNotMatter | shared/procuresignal/agents/analysis.py:85-105 | an answer wrapped in a code fence is read like the bare answer |
| SupplierAnalysis.BareAnswer | shared/procuresignal/agents/analysis.py:85-105 | an answer without a fence is read as it stands, and only an object is an analysis |
| NpmAudit.AdvisoryIds | scripts/audit_npm.py:68-89 | on every graph, cycles included, the walk terminates and finds exactly the advisories on packages reachable outside what was seen |
| NpmAudit.BehindUnfolds | scripts/audit_npm.py:68-89 | reachability unfolds along the path-local recursion |
| NpmAudit.IdExactly | scripts/audit_npm.py:84-88 | the advisory of a link is its last part once closing slashes are gone, when that begins with GHSA- |
| NpmAudit.UnapprovedVulnerabilities | scripts/audit_npm.py:92-126 | every failing package and advisory pair is reported once and nothing else |
| NpmAudit.GatePasses | scripts/audit_npm.py:92-126 | the gate is clean exactly when no entry is malformed and every package whose severity reads high or critical has advisories behind it, all approved for it by name and up to its severity |
| NpmAudit.ProductionGatePasses | scripts/audit_npm.py:151-180 | without exceptions the gate is clean if and only if every entry is well-formed with a severity that reads neither high nor critical |
| RankingMetrics.NdcgBounds | shared/procuresignal/evaluation/metrics.py:77-100 | with no more hits than relevant documents the score is in [0, 1], and 1 exactly when the first min(k, number relevant) are all relevant |
| RankingMetrics.NdcgExactly | shared/procuresignal/evaluation/metrics.py:77-100 | the weights of the ranks within the cut-off that hold a relevant result over those of as many first ranks as could; 1 or 0 when nothing is relevant; an error without a cut-off |
| RankingMetrics.BoundIsExact | shared/procuresignal/evaluation/metrics.py:77-100 | the score is at most 1 under every discount if and only if the first k results hold no more hits, repeats included, than there are relevant documents |
| RankingMetrics.DistinctResultsAreBounded | shared/procuresignal/evaluation/metrics.py:77-100 | distinct results meet that condition |
| RankingMetrics.PackedIsBest | shared/procuresignal/evaluation/metrics.py:96-100 | among lists with as many hits, packing the hits first is the unique best |
| RankingMetrics.PromotionNeverHurts | shared/procuresignal/evaluation/metrics.py:96-100 | moving a relevant result up past an irrelevant one never lowers the score, and raises it exactly inside the cut-off |
| RankingMetrics.DuplicatesBreakTheBound | shared/procuresignal/evaluation/metrics.py:96-100 | the only relevant document returned twice, with k = 2, scores above 1 under every discount |
| SubjectErasure.SubjectStore.EraseSubject | shared/procuresignal/privacy/subject.py:115-167 | the registry loop, with its cascades and the account last, comes to one table-by-table erasure, and each count is the rows matched when the table was reached |
| SubjectErasure.SubjectStore.ExportSubject | shared/procuresignal/privacy/subject.py:69-95 | every linked table is in the export with exactly the subject's rows |
| SubjectErasure.ErasedExactly | shared/procuresignal/privacy/inventory.py:76-285 | table by table which rows go, which stay without the name and which stay as they are, read off the policy of each table and the runs the subject asked for |
| SubjectErasure.ExportedExactly | shared/procuresignal/privacy/subject.py:69-95 | of every table but the two that name nobody, exactly the rows that name the subject |
| SubjectErasure.CountedExactly | shared/procuresignal/privacy/subject.py:115-167 | the receipt counts the rows of a table that named the subject and did not go with a run, under the one heading that says what became of them |
| SubjectErasure.ExportAfterErasure | shared/procuresignal/privacy/inventory.py:76-285 | an export after an erasure is empty except in retained tables, which are unchanged |
| SubjectErasure.OthersAreUntouched | shared/procuresignal/privacy/inventory.py:180-205 | somebody else's row is unchanged unless it belonged to a run the subject asked for |
| SubjectErasure.SecondErasureFindsNothing | shared/procuresignal/privacy/subject.py:115-167 | a second erasure deletes and anonymises nothing and changes nothing |
| SubjectErasure.AccountGoesAlone | shared/procuresignal/privacy/subject.py:155-166 | when the account is deleted its foreign keys have nothing left to act on |
| AlertRules.MatchedExactlyOnce | shared/procuresignal/notifications/rules.py:119-146 | each pair of a rule and an event is matched exactly when the event satisfies the rule, with exactly the watched suppliers it affects, and then exactly once |
| AlertRules.EventMatchesExactly | shared/procuresignal/notifications/rules.py:133-144 | the matches of one event are exactly the rules it satisfies, each once |
| AlertRules.EvaluatedExactly | shared/procuresignal/notifications/rules.py:99-146 | a match is a rule that is on, an event whose kind, severity and suppliers it asks for, and exactly the watched suppliers affected |
| AlertRules.EvaluateRules | shared/procuresignal/notifications/rules.py:99-146 | the double loop, with each watchlist read once, returns exactly the pairs of a rule that is on and an event that satisfies it, with exactly the watched suppliers affected, each once |
| AlertRules.MatchEvent | shared/procuresignal/notifications/rules.py:127-144 | the inner loop computes the matches of one event |
| Outbox.OutboxIsSound | shared/procuresignal/notifications/outbox.py:77-172 | over any mix of evaluations and drains there is one notification per rule, event and recipient, at most five failed attempts, and a settled one never changes |
| Outbox.EveryNotificationSettles | shared/procuresignal/notifications/transports/in_app.py:30-58 | however evaluations fall between drains, a notification ends delivered or failed once there were as many drains as attempts left to the rows up to it, whatever the transport does |
| Outbox.DrainedExactly | shared/procuresignal/notifications/transports/in_app.py:30-58 | a drain touches exactly the pending rows with fewer pending ones before them than the limit: delivered if the transport works, else one attempt more and failed at the fifth |
| Outbox.QueuedExactly | shared/procuresignal/notifications/outbox.py:77-126 | everything owed is queued once, nothing else is, and nothing queued before is touched |
| Outbox.QueueingAgainCreatesNothing | shared/procuresignal/notifications/outbox.py:77-126 | repeating an evaluation creates nothing |
| Outbox.OutboxTable.EnqueueMatches | shared/procuresignal/notifications/outbox.py:77-126 | a key is stored afterwards if and only if it was before or some match owes it to a member of the organization of its rule; the rows before stay, and one pending row is added and counted for each key not stored before |
| Outbox.OutboxTable.DeliverPending | shared/procuresignal/notifications/transports/in_app.py:30-58 | the oldest pending rows up to the limit are each attempted once, failures included |
| Outbox.OutboxTable.MarkFailed | shared/procuresignal/notifications/outbox.py:153-172 | the fifth failed attempt gives up |
| ProcessedConsolidation.OneRowPerArticle | migrations/versions/f6a7b8_enrichment_cache.py:88-128 | each raw article keeps exactly one of its rows, unchanged, and a completed one if any was |
| ProcessedConsolidation.BestRowStays | migrations/versions/f6a7b8_enrichment_cache.py:88-102 | the row that stays is completed before any other, then has more columns filled, then was processed later, then has the higher id |
| ProcessedConsolidation.DependentsArePreserved | migrations/versions/f6a7b8_enrichment_cache.py:103-120 | no dependent row of the four tables is lost and each points at a surviving row of the same raw article |
| ProcessedConsolidation.SecondTimeChangesNothing | migrations/versions/f6a7b8_enrichment_cache.py:67-129 | consolidating again changes nothing |
| ProcessedConsolidation.Migration.FirstOfPartition | migrations/versions/f6a7b8_enrichment_cache.py:91-102 | finds the first row of a partition and whether it has others |
| ProcessedConsolidation.Migration.Consolidate | migrations/versions/f6a7b8_enrichment_cache.py:67-129 | map, repointing and deletion come to the specified consolidation |

## Left out

- Text is ASCII where it is lowered or stripped; Unicode case mapping and white space are not modelled.
- Values that are not text are not turned into category names or entities.
- The signal taxonomy is a parameter that stands for itself on its own tags; its tables are not part of this model.
- RunServes: the analysis and the reply are taken to be validated outputs, which their construction checks.
- NormalizeCandidates: the clock is read once for the whole loop, where the worker task reads it at every claim.
- RunsNeverShareAnArticle: a claim takes any eligible rows, newest first or not, and reads and writes of the unleased normalization are one step, as the worker task intends.
- Partial column updates of the object mapper: a normalization writes all lifecycle columns, where the mapper omits those it did not change.
- RunLoop: one loop runs within one day and alone on its counter; interleaving and midnight are in LlmSpend, for agent loops, whose charges are committed as they go.
- AnalyseSupplier: looking the supplier up is a parameter, and a process killed in the middle of a tool call is seen only as the last commit.
- EraseSubject: credential columns are not redacted and timestamps are left out of the receipt; the tables without personal data stand as one.
- UnapprovedVulnerabilities: the order of failures and their wording.
- EvaluateRules: the sorted order of the suppliers in a match.
- Deletion of expired rows by retention, so a raw article never disappears.
- Personalized feeds and their scoring, precision, recall and reciprocal rank, which add only easy laws.
- The Redis window, whose behaviour is that of Redis.
- Whether a refusal's deletion of the cookie reaches the browser is left open: the response it is set on is replaced by the raised error.
- Fairness: that some continuation settles an article does not make every fair one do so; batches are limited, the day's tokens may be spent, and the normalizer and the model may fail.
- Password hashing, token signing and expiry, registration by invitation, HTTP routes and cookies' attributes.
- Backend failures inside a database statement other than as a raised exception that rolls back.
