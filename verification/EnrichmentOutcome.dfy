/** What becomes of one article of a batch, told from its scores, the caps, the stored rows and the
    model's reply alone: which row is added, where the raw row goes, what is cached, what is spent. */
module EnrichmentOutcome {
  import opened EnrichmentOutput
  import opened EnrichmentPipeline
  import opened EnrichmentPolicy
  import opened LlmSpend
  import opened RawArticles
  import opened Sequences
  import opened Text
  import opened Wrappers

  /** Nothing is cached for this content under these versions, or nothing that still validates. */
  ghost predicate Misses(cfg: Config, b: Batch, work: Work) {
    var key := CacheKey(work.fingerprint, cfg.policy.policyVersion, cfg.policy.taxonomyVersion);
    key in b.db.cache && b.db.cache[key].payload.Some? ==>
      var payload := b.db.cache[key].payload.value;
      payload.summary.None? || |payload.summary.value| < 10 || |payload.summary.value| > 1000 || payload.signalTags.None?
  }

  ghost function SpentOnDay(cfg: Config, b: Batch, work: Work): int {
    var key := SpendKey(if cfg.tenant.None? || cfg.tenant.value == "" then "__global__" else cfg.tenant.value, work.world.day);
    if key in b.db.spend then b.db.spend[key].tokens else 0
  }

  /** The estimate fits the day's rest and both caps of the run, and a client is there or can be built. */
  ghost predicate CanPay(cfg: Config, b: Batch, work: Work) {
    var estimate := work.chars / 4 + 400;
    && SpentOnDay(cfg, b, work) + estimate <= cfg.dailyBudget
    && b.callsReserved + 1 <= cfg.policy.maxLlmCalls
    && b.tokensReserved + estimate <= cfg.policy.maxLlmTokens
    && (b.clientReady || (cfg.hasFactory && work.world.clientWorks))
  }

  /** The raw row, if the run may write it, gets this status, without a lease and due after the delay;
      every other row stays as it is. */
  ghost predicate Moves(cfg: Config, b: Batch, b': Batch, work: Work, status: Status, delay: Option<int>) {
    && b'.db.raw.Keys == b.db.raw.Keys
    && forall id :: id in b.db.raw ==>
         b'.db.raw[id] ==
           if id == work.id && (cfg.owner.None? || b.db.raw[id].owner == cfg.owner)
           then Row(Some(status), b.db.raw[id].attempts + if delay.Some? then 1 else 0,
                    if delay.Some? then Some(work.world.now + delay.value) else None, None, None)
           else b.db.raw[id]
  }

  ghost predicate HasRow(b: Batch, id: int) {
    exists k :: 0 <= k < |b.db.processed| && b.db.processed[k].rawId == id
  }

  /** The article's row is added unless it has one, and counted as saved or as already processed. */
  ghost predicate Adds(b: Batch, b': Batch, work: Work, origin: Origin, output: Output) {
    && b'.db.processed == (if HasRow(b, work.id) then b.db.processed else b.db.processed + [ProcessedRow(work.id, origin, output, work.fingerprint)])
    && b'.saved == b.saved + (if HasRow(b, work.id) then 0 else 1)
    && b'.alreadyProcessed == b.alreadyProcessed + (if HasRow(b, work.id) then 1 else 0)
    && b'.metrics.cached == b.metrics.cached + (if origin == FromCache && !HasRow(b, work.id) then 1 else 0)
    && b'.metrics.deterministic == b.metrics.deterministic + (if origin == FromRules && !HasRow(b, work.id) then 1 else 0)
    && b'.metrics.llm == b.metrics.llm + (if origin == FromLlm && !HasRow(b, work.id) then 1 else 0)
    && b'.metrics.skipped == b.metrics.skipped && b'.metrics.deferred == b.metrics.deferred && b'.metrics.failed == b.metrics.failed
  }

  /** No row is added; one counter says why. */
  ghost predicate AddsNothing(b: Batch, b': Batch, skipped: nat, deferred: nat, failed: nat) {
    && b'.db.processed == b.db.processed && b'.saved == b.saved && b'.alreadyProcessed == b.alreadyProcessed
    && b'.metrics.cached == b.metrics.cached && b'.metrics.deterministic == b.metrics.deterministic && b'.metrics.llm == b.metrics.llm
    && b'.metrics.skipped == b.metrics.skipped + skipped && b'.metrics.deferred == b.metrics.deferred + deferred
    && b'.metrics.failed == b.metrics.failed + failed
  }

  /** The output is what is stored for the content from now on; other contents are untouched. */
  ghost predicate Caches(cfg: Config, b: Batch, b': Batch, work: Work, output: Output, original: EnrichmentOutput.Method) {
    var key := CacheKey(work.fingerprint, cfg.policy.policyVersion, cfg.policy.taxonomyVersion);
    && b'.db.cache.Keys == b.db.cache.Keys + {key}
    && (forall other :: other in b.db.cache && other != key ==> b'.db.cache[other] == b.db.cache[other])
    && b'.db.cache[key].original == original
    && b'.db.cache[key].hits == (if key in b.db.cache then b.db.cache[key].hits else 0)
    && b'.db.cache[key].payload.Some?
    && IsPayloadOf(b'.db.cache[key].payload.value, output)
  }

  ghost predicate IsPayloadOf(payload: Payload, output: Output) {
    && payload.summary == Some(output.summary) && payload.category == Some(output.category)
    && payload.signalTags == Some(output.signalTags) && payload.prioritySignal == output.prioritySignal
    && AreTexts(payload.suppliers, output.suppliers) && AreTexts(payload.regions, output.regions) && AreTexts(payload.categories, output.categories)
  }

  ghost predicate AreTexts(items: Option<seq<Option<string>>>, texts: seq<string>) {
    items.Some? && |items.value| == |texts| && forall i :: 0 <= i < |texts| ==> items.value[i] == Some(texts[i])
  }

  /** Nothing is called, so nothing is reserved, used or charged. */
  ghost predicate CallsNobody(b: Batch, b': Batch) {
    && b'.db.spend == b.db.spend && b'.spent == b.spent
    && b'.callsReserved == b.callsReserved && b'.tokensReserved == b.tokensReserved && b'.tokensUsed == b.tokensUsed
    && b'.metrics.llmCalls == b.metrics.llmCalls && b'.metrics.llmTokens == b.metrics.llmTokens
    && b'.clientReady == b.clientReady
  }

  /** One call and its estimate are reserved, and what the token counter grew by is charged to the day. */
  ghost predicate CallsModel(cfg: Config, b: Batch, b': Batch, work: Work) {
    var used := if work.world.tokenDelta > 0 then work.world.tokenDelta else 0;
    var key := SpendKey(if cfg.tenant.None? || cfg.tenant.value == "" then "__global__" else cfg.tenant.value, work.world.day);
    && b'.callsReserved == b.callsReserved + 1 && b'.tokensReserved == b.tokensReserved + work.chars / 4 + 400
    && b'.tokensUsed == b.tokensUsed + used
    && b'.metrics.llmCalls == b.metrics.llmCalls + 1 && b'.metrics.llmTokens == b.metrics.llmTokens + used
    && b'.clientReady
    && (forall other :: other != key ==> (other in b'.db.spend <==> other in b.db.spend) && (other in b.db.spend ==> b'.db.spend[other] == b.db.spend[other]))
    && (used == 0 ==> b'.db.spend == b.db.spend)
    && (used > 0 && key !in b.db.spend ==> key in b'.db.spend && b'.db.spend[key] == Spend(used, 1))
    && (used > 0 && key in b.db.spend ==>
          key in b'.db.spend && b'.db.spend[key] == Spend(b.db.spend[key].tokens + used, b.db.spend[key].calls + 1))
  }

  // ----- The ways an article can go

  lemma MovesExactly(cfg: Config, b: Batch, work: Work, status: Status, delay: Option<int>, raw: Rows)
    requires raw == Transition(b.db.raw, work.id, cfg.owner, status, delay, work.world.now)
    ensures forall b': Batch :: b'.db.raw == raw ==> Moves(cfg, b, b', work, status, delay)
  {}

  lemma HasRowExactly(b: Batch, id: int)
    ensures id in ProcessedIds(b.db.processed) <==> HasRow(b, id)
  {
    if id in ProcessedIds(b.db.processed) {
      var row :| row in b.db.processed && row.rawId == id;
      var k :| 0 <= k < |b.db.processed| && b.db.processed[k] == row;
    }
    if k :| 0 <= k < |b.db.processed| && b.db.processed[k].rawId == id {
      assert b.db.processed[k] in b.db.processed;
    }
  }

  lemma StoreExactly(cfg: Config, b: Batch, work: Work, output: Output, origin: Origin)
    ensures var b' := Store(cfg, b, work, output, origin);
            && Adds(b, b', work, origin, output) && Moves(cfg, b, b', work, Completed, None) && CallsNobody(b, b')
            && b'.db.cache == b.db.cache && b'.metrics.cacheMisses == b.metrics.cacheMisses
  {
    HasRowExactly(b, work.id);
    MovesExactly(cfg, b, work, Completed, None, Store(cfg, b, work, output, origin).db.raw);
    hide Transition, ProcessedIds, HasRow, Moves;
  }

  lemma PutExactly(cfg: Config, b: Batch, work: Work, output: Output, original: EnrichmentOutput.Method)
    ensures var cache := Put(b.db.cache, KeyOf(cfg, work), output, original);
            forall b': Batch :: b'.db.cache == cache ==> Caches(cfg, b, b', work, output, original)
  {
    hide Validate;
  }

  lemma StoreFreshExactly(cfg: Config, b: Batch, work: Work, output: Output, origin: Origin)
    requires origin != FromCache
    ensures var b' := StoreFresh(cfg, b, work, output, origin);
            && Adds(b, b', work, origin, output) && Moves(cfg, b, b', work, Completed, None) && CallsNobody(b, b')
            && Caches(cfg, b, b', work, output, if origin == FromRules then Deterministic else Llm)
            && b'.metrics.cacheMisses == b.metrics.cacheMisses
  {
    var original := if origin == FromRules then Deterministic else Llm;
    var put := b.(db := b.db.(cache := Put(b.db.cache, KeyOf(cfg, work), output, original)));
    PutExactly(cfg, b, work, output, original);
    StoreExactly(cfg, put, work, output, origin);
    hide Put, Store, Caches;
    assert HasRow(put, work.id) == HasRow(b, work.id);
  }

  lemma CallExactly(cfg: Config, b: Batch, work: Work)
    ensures var missed := b.(metrics := b.metrics.(cacheMisses := b.metrics.cacheMisses + 1));
            var called := Call(cfg, missed.(clientReady := true), work);
            && CallsModel(cfg, b, called, work)
            && called.db.raw == b.db.raw && called.db.processed == b.db.processed && called.db.cache == b.db.cache
            && called.saved == b.saved && called.alreadyProcessed == b.alreadyProcessed
            && called.metrics.cacheMisses == b.metrics.cacheMisses + 1
            && called.metrics == b.metrics.(cacheMisses := called.metrics.cacheMisses, llmCalls := called.metrics.llmCalls, llmTokens := called.metrics.llmTokens)
  {}

  lemma MissesExactly(cfg: Config, b: Batch, work: Work)
    ensures Misses(cfg, b, work) <==> Lookup(cfg.taxonomy, b.db.cache, KeyOf(cfg, work)).None?
  {
    var key := KeyOf(cfg, work);
    if key in b.db.cache && b.db.cache[key].payload.Some? {
      ValidationExactly(cfg.taxonomy, b.db.cache[key].payload.value);
    }
    hide Validate, ValidCategory;
  }

  lemma CanPayExactly(cfg: Config, b: Batch, work: Work)
    ensures CanPay(cfg, b, work) <==> BudgetAvailable(cfg, b, work) && (b.clientReady || work.world.clientWorks)
  {}

  /** A batch fails on an article exactly when a call raises, or its scores matter and are out of range. */
  lemma FailsExactly(cfg: Config, b: Batch, work: Work)
    ensures Step(cfg, b, work).Err? <==>
              work.world.raises || (Misses(cfg, b, work) && !(0.0 <= work.relevance <= 1.0 && 0.0 <= work.confidence <= 1.0))
  {
    MissesExactly(cfg, b, work);
    hide Lookup, Misses, Store, Follow, BudgetAvailable;
  }

  /** What is cached is stored for the article as it is, without a call, and counted as a hit. */
  lemma ServedFromCache(cfg: Config, b: Batch, work: Work)
    requires !work.world.raises && !Misses(cfg, b, work)
    ensures Step(cfg, b, work).Ok?
    ensures var b', key := Step(cfg, b, work).value, CacheKey(work.fingerprint, cfg.policy.policyVersion, cfg.policy.taxonomyVersion);
            && key in b.db.cache && b.db.cache[key].payload.Some?
            && Validate(cfg.taxonomy, b.db.cache[key].payload.value).Some?
            && Adds(b, b', work, FromCache, Validate(cfg.taxonomy, b.db.cache[key].payload.value).value)
            && Moves(cfg, b, b', work, Completed, None) && CallsNobody(b, b')
            && b'.db.cache == b.db.cache[key := b.db.cache[key].(hits := b.db.cache[key].hits + 1)]
            && b'.metrics.cacheMisses == b.metrics.cacheMisses
  {
    MissesExactly(cfg, b, work);
    var key := KeyOf(cfg, work);
    var hit := b.(db := b.db.(cache := Hit(b.db.cache, key)));
    StoreExactly(cfg, hit, work, Validate(cfg.taxonomy, b.db.cache[key].payload.value).value, FromCache);
    assert HasRow(hit, work.id) == HasRow(b, work.id);
    hide Misses, Store, Follow, BudgetAvailable, Validate, HasRow;
  }

  lemma FollowsRoute(cfg: Config, b: Batch, work: Work)
    requires !work.world.raises && Misses(cfg, b, work) && 0.0 <= work.relevance <= 1.0 && 0.0 <= work.confidence <= 1.0
    ensures var missed := b.(metrics := b.metrics.(cacheMisses := b.metrics.cacheMisses + 1));
            Step(cfg, b, work) == Ok(
              if work.relevance < cfg.policy.minRelevance then SkipWork(cfg, missed, work)
              else if work.confidence >= cfg.policy.minDeterministicConfidence then StoreFresh(cfg, missed, work, work.local, FromRules)
              else if CanPay(cfg, b, work) then CallAndStore(cfg, missed.(clientReady := true), work)
              else DeferWork(cfg, missed, work))
  {
    MissesExactly(cfg, b, work);
    var missed := b.(metrics := b.metrics.(cacheMisses := b.metrics.cacheMisses + 1));
    CanPayExactly(cfg, missed, work);
    assert CanPay(cfg, missed, work) == CanPay(cfg, b, work);
    hide Lookup, Misses, Store, StoreFresh, CallAndStore, SkipWork, DeferWork, BudgetAvailable, CanPay;
  }

  /** What is not relevant enough is skipped for good, whatever the caps allow. */
  lemma IrrelevantIsSkipped(cfg: Config, b: Batch, work: Work)
    requires !work.world.raises && Misses(cfg, b, work) && 0.0 <= work.relevance <= 1.0 && 0.0 <= work.confidence <= 1.0
    requires work.relevance < cfg.policy.minRelevance
    ensures Step(cfg, b, work).Ok?
    ensures var b' := Step(cfg, b, work).value;
            && AddsNothing(b, b', 1, 0, 0) && Moves(cfg, b, b', work, Skipped, None) && CallsNobody(b, b')
            && b'.db.cache == b.db.cache && b'.metrics.cacheMisses == b.metrics.cacheMisses + 1
  {
    FollowsRoute(cfg, b, work);
    MovesExactly(cfg, b, work, Skipped, None, Transition(b.db.raw, work.id, cfg.owner, Skipped, None, work.world.now));
    hide Step, Transition, Misses, Moves;
  }

  /** What the rules are sure of is stored as they have it, without a call. */
  lemma SureIsStored(cfg: Config, b: Batch, work: Work)
    requires !work.world.raises && Misses(cfg, b, work) && 0.0 <= work.relevance <= 1.0 && 0.0 <= work.confidence <= 1.0
    requires work.relevance >= cfg.policy.minRelevance && work.confidence >= cfg.policy.minDeterministicConfidence
    ensures Step(cfg, b, work).Ok?
    ensures var b' := Step(cfg, b, work).value;
            && Adds(b, b', work, FromRules, work.local) && Moves(cfg, b, b', work, Completed, None) && CallsNobody(b, b')
            && Caches(cfg, b, b', work, work.local, Deterministic) && b'.metrics.cacheMisses == b.metrics.cacheMisses + 1
  {
    FollowsRoute(cfg, b, work);
    hide Step, StoreFresh, Misses;
    var missed := b.(metrics := b.metrics.(cacheMisses := b.metrics.cacheMisses + 1));
    StoreFreshExactly(cfg, missed, work, work.local, FromRules);
    assert HasRow(missed, work.id) == HasRow(b, work.id);
  }

  /** What the rules are not sure of waits two hours where no call can be paid for or made. */
  lemma UnaffordableIsDeferred(cfg: Config, b: Batch, work: Work)
    requires !work.world.raises && Misses(cfg, b, work) && 0.0 <= work.relevance <= 1.0 && 0.0 <= work.confidence <= 1.0
    requires work.relevance >= cfg.policy.minRelevance && work.confidence < cfg.policy.minDeterministicConfidence
    requires !CanPay(cfg, b, work)
    ensures Step(cfg, b, work).Ok?
    ensures var b' := Step(cfg, b, work).value;
            && AddsNothing(b, b', 0, 1, 0) && Moves(cfg, b, b', work, Status.Deferred, Some(7200)) && CallsNobody(b, b')
            && b'.db.cache == b.db.cache && b'.metrics.cacheMisses == b.metrics.cacheMisses + 1
  {
    FollowsRoute(cfg, b, work);
    MovesExactly(cfg, b, work, Status.Deferred, Some(7200), Transition(b.db.raw, work.id, cfg.owner, Status.Deferred, Some(7200), work.world.now));
    hide Step, Transition, Misses, Moves, CanPay;
  }

  /** A reply is stored with its own summary, category, tags and priority, and with the entities of
      both the reply and the local evidence, in order and each once. */
  lemma ReplyIsStored(cfg: Config, b: Batch, work: Work) returns (output: Output)
    requires !work.world.raises && Misses(cfg, b, work) && 0.0 <= work.relevance <= 1.0 && 0.0 <= work.confidence <= 1.0
    requires work.relevance >= cfg.policy.minRelevance && work.confidence < cfg.policy.minDeterministicConfidence
    requires CanPay(cfg, b, work) && work.world.reply.Some?
    ensures var reply := work.world.reply.value;
            && output.summary == reply.summary && output.category == reply.category
            && output.signalTags == reply.signalTags && output.prioritySignal == reply.prioritySignal
            && KeptInOrder(reply.suppliers + work.local.suppliers, output.suppliers)
            && KeptInOrder(reply.regions + work.local.regions, output.regions)
            && KeptInOrder(reply.categories + [reply.category] + work.local.categories, output.categories)
    ensures Step(cfg, b, work).Ok?
    ensures var b' := Step(cfg, b, work).value;
            && Adds(b, b', work, FromLlm, output) && Moves(cfg, b, b', work, Completed, None) && CallsModel(cfg, b, b', work)
            && Caches(cfg, b, b', work, output, Llm) && b'.metrics.cacheMisses == b.metrics.cacheMisses + 1
  {
    output := MergeEvidence(work.world.reply.value, work.local);
    MergedExactly(work.world.reply.value, work.local);
    FollowsRoute(cfg, b, work);
    hide Step, StoreFresh, Misses, CanPay, MergeEvidence, KeptInOrder;
    CalledAndStored(cfg, b, work, output, FromLlm);
  }

  /** Without a reply the local analysis is stored when it is sure enough to fall back on ... */
  lemma FallbackIsStored(cfg: Config, b: Batch, work: Work)
    requires !work.world.raises && Misses(cfg, b, work) && 0.0 <= work.relevance <= 1.0 && 0.0 <= work.confidence <= 1.0
    requires work.relevance >= cfg.policy.minRelevance && work.confidence < cfg.policy.minDeterministicConfidence
    requires CanPay(cfg, b, work) && work.world.reply.None? && work.confidence >= cfg.policy.minFallbackConfidence
    ensures Step(cfg, b, work).Ok?
    ensures var b' := Step(cfg, b, work).value;
            && Adds(b, b', work, FromRules, work.local) && Moves(cfg, b, b', work, Completed, None) && CallsModel(cfg, b, b', work)
            && Caches(cfg, b, b', work, work.local, Deterministic) && b'.metrics.cacheMisses == b.metrics.cacheMisses + 1
  {
    FollowsRoute(cfg, b, work);
    hide Step, StoreFresh, Misses, CanPay;
    CalledAndStored(cfg, b, work, work.local, FromRules);
  }

  /** ... and otherwise the call is charged, nothing is stored, and the article is tried again in two hours. */
  lemma UnansweredIsRetried(cfg: Config, b: Batch, work: Work)
    requires !work.world.raises && Misses(cfg, b, work) && 0.0 <= work.relevance <= 1.0 && 0.0 <= work.confidence <= 1.0
    requires work.relevance >= cfg.policy.minRelevance && work.confidence < cfg.policy.minDeterministicConfidence
    requires CanPay(cfg, b, work) && work.world.reply.None? && work.confidence < cfg.policy.minFallbackConfidence
    ensures Step(cfg, b, work).Ok?
    ensures var b' := Step(cfg, b, work).value;
            && AddsNothing(b, b', 0, 0, 1) && Moves(cfg, b, b', work, EnrichmentRetry, Some(7200)) && CallsModel(cfg, b, b', work)
            && b'.db.cache == b.db.cache && b'.metrics.cacheMisses == b.metrics.cacheMisses + 1
  {
    FollowsRoute(cfg, b, work);
    var missed := b.(metrics := b.metrics.(cacheMisses := b.metrics.cacheMisses + 1));
    CallExactly(cfg, b, work);
    MovesExactly(cfg, b, work, EnrichmentRetry, Some(7200), Transition(b.db.raw, work.id, cfg.owner, EnrichmentRetry, Some(7200), work.world.now));
    hide Step, Transition, Misses, Moves, CanPay, Call;
  }

  /** Being added, moved and cached do not depend on what a call changed. */
  lemma SameTables(cfg: Config, b: Batch, called: Batch, b': Batch, work: Work, output: Output, origin: Origin, original: EnrichmentOutput.Method)
    requires called.db.raw == b.db.raw && called.db.processed == b.db.processed && called.db.cache == b.db.cache
    requires called.saved == b.saved && called.alreadyProcessed == b.alreadyProcessed
    requires called.metrics == b.metrics.(cacheMisses := called.metrics.cacheMisses, llmCalls := called.metrics.llmCalls, llmTokens := called.metrics.llmTokens)
    requires Adds(called, b', work, origin, output) && Moves(cfg, called, b', work, Completed, None) && Caches(cfg, called, b', work, output, original)
    ensures Adds(b, b', work, origin, output) && Moves(cfg, b, b', work, Completed, None) && Caches(cfg, b, b', work, output, original)
  {
    assert HasRow(called, work.id) == HasRow(b, work.id);
    hide HasRow, IsPayloadOf;
  }

  lemma CalledThenStored(cfg: Config, b: Batch, called: Batch, b': Batch, work: Work)
    requires CallsModel(cfg, b, called, work) && CallsNobody(called, b')
    ensures CallsModel(cfg, b, b', work)
  {}

  lemma CalledAndStored(cfg: Config, b: Batch, work: Work, output: Output, origin: Origin)
    requires origin != FromCache
    ensures var missed := b.(metrics := b.metrics.(cacheMisses := b.metrics.cacheMisses + 1));
            var b' := StoreFresh(cfg, Call(cfg, missed.(clientReady := true), work), work, output, origin);
            && Adds(b, b', work, origin, output) && Moves(cfg, b, b', work, Completed, None) && CallsModel(cfg, b, b', work)
            && Caches(cfg, b, b', work, output, if origin == FromRules then Deterministic else Llm)
            && b'.metrics.cacheMisses == b.metrics.cacheMisses + 1
  {
    var missed := b.(metrics := b.metrics.(cacheMisses := b.metrics.cacheMisses + 1));
    var called := Call(cfg, missed.(clientReady := true), work);
    var b' := StoreFresh(cfg, called, work, output, origin);
    hide Call, StoreFresh, Adds, Moves, Caches, CallsNobody, CallsModel;
    CallExactly(cfg, b, work);
    StoreFreshExactly(cfg, called, work, output, origin);
    CalledThenStored(cfg, b, called, b', work);
    SameTables(cfg, b, called, b', work, output, origin, if origin == FromRules then Deterministic else Llm);
  }
}
