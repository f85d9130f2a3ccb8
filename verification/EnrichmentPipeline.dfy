/** One enrichment batch: selection, routing, the two budgets, the processed rows and the lifecycle
    of the raw rows, with exact accounting. */
module EnrichmentPipeline {
  import opened EnrichmentOutput
  import opened EnrichmentPolicy
  import opened LlmSpend
  import opened RawArticles
  import opened Wrappers

  /** How a stored row was produced. */
  datatype Origin = FromCache | FromRules | FromLlm

  datatype ProcessedRow = ProcessedRow(rawId: int, origin: Origin, output: Output, fingerprint: string)

  datatype Db = Db(raw: Rows, processed: seq<ProcessedRow>, cache: Entries, spend: Table)

  /** What the outside world answers while one article is processed: whether a client can be built,
      the model's reply and the change of its token counter, the date and time, and whether any call raises. */
  datatype World = World(clientWorks: bool, reply: Option<Output>, tokenDelta: int, day: int, now: int, raises: bool)

  /** An article with its local analysis. */
  datatype Work = Work(id: int, fingerprint: string, chars: nat, relevance: real, confidence: real, local: Output, world: World)

  datatype Config = Config(policy: Policy, taxonomy: Taxonomy, tenant: Option<string>, dailyBudget: int, owner: Option<Owner>, hasFactory: bool)

  datatype Metrics = Metrics(
    cached: nat, deterministic: nat, llm: nat, skipped: nat, deferred: nat, failed: nat,
    cacheMisses: nat, llmCalls: nat, llmTokens: nat)

  datatype Spent = Spent(day: int, tokens: nat)

  /** A batch under way; `spent` is the history of its charges. */
  datatype Batch = Batch(
    db: Db, callsReserved: nat, tokensReserved: nat, tokensUsed: nat, clientReady: bool,
    metrics: Metrics, saved: nat, alreadyProcessed: nat, spent: seq<Spent>)

  const NO_METRICS := Metrics(0, 0, 0, 0, 0, 0, 0, 0, 0)

  function Start(db: Db, clientReady: bool, alreadyProcessed: nat): Batch {
    Batch(db, 0, 0, 0, clientReady, NO_METRICS, 0, alreadyProcessed, [])
  }

  function ProcessedIds(processed: seq<ProcessedRow>): set<int> {
    set row | row in processed :: row.rawId
  }

  function KeyOf(cfg: Config, work: Work): CacheKey {
    CacheKey(work.fingerprint, cfg.policy.policyVersion, cfg.policy.taxonomyVersion)
  }

  function EstimatedTokens(chars: nat): nat {
    if chars / 4 + 400 > 1 then chars / 4 + 400 else 1
  }

  function SpendDay(cfg: Config, day: int): SpendKey {
    SpendKey(Bucket(cfg.tenant), day)
  }

  function Counted(metrics: Metrics, origin: Origin): Metrics {
    match origin
    case FromCache => metrics.(cached := metrics.cached + 1)
    case FromRules => metrics.(deterministic := metrics.deterministic + 1)
    case FromLlm => metrics.(llm := metrics.llm + 1)
  }

  /** Insert under the uniqueness constraint, count the outcome, and complete the raw row. */
  function Store(cfg: Config, b: Batch, work: Work, output: Output, origin: Origin): Batch {
    var raw := Transition(b.db.raw, work.id, cfg.owner, Completed, None, work.world.now);
    if work.id in ProcessedIds(b.db.processed) then
      b.(db := b.db.(raw := raw), alreadyProcessed := b.alreadyProcessed + 1)
    else
      b.(db := b.db.(raw := raw, processed := b.db.processed + [ProcessedRow(work.id, origin, output, work.fingerprint)]),
         saved := b.saved + 1, metrics := Counted(b.metrics, origin))
  }

  function StoreFresh(cfg: Config, b: Batch, work: Work, output: Output, origin: Origin): Batch
    requires origin != FromCache
  {
    var original := if origin == FromRules then Deterministic else Llm;
    Store(cfg, b.(db := b.db.(cache := Put(b.db.cache, KeyOf(cfg, work), output, original))), work, output, origin)
  }

  function Settle(cfg: Config, b: Batch, work: Work, status: Status, delay: Option<int>): Db {
    b.db.(raw := Transition(b.db.raw, work.id, cfg.owner, status, delay, work.world.now))
  }

  function SkipWork(cfg: Config, b: Batch, work: Work): Batch {
    b.(db := Settle(cfg, b, work, Skipped, None), metrics := b.metrics.(skipped := b.metrics.skipped + 1))
  }

  function DeferWork(cfg: Config, b: Batch, work: Work): Batch {
    b.(db := Settle(cfg, b, work, Status.Deferred, Some(RETRY_DELAY)), metrics := b.metrics.(deferred := b.metrics.deferred + 1))
  }

  function FailWork(cfg: Config, b: Batch, work: Work): Batch {
    b.(db := Settle(cfg, b, work, EnrichmentRetry, Some(RETRY_DELAY)), metrics := b.metrics.(failed := b.metrics.failed + 1))
  }

  function TokensUsed(work: Work): nat {
    if work.world.tokenDelta > 0 then work.world.tokenDelta else 0
  }

  /** Reserve the estimate, make the call, and charge what it used to the durable counter. */
  function Call(cfg: Config, b: Batch, work: Work): Batch {
    var used := TokensUsed(work);
    b.(callsReserved := b.callsReserved + 1,
       tokensReserved := b.tokensReserved + EstimatedTokens(work.chars),
       tokensUsed := b.tokensUsed + used,
       metrics := b.metrics.(llmCalls := b.metrics.llmCalls + 1, llmTokens := b.metrics.llmTokens + used),
       db := if used == 0 then b.db else b.db.(spend := Increment(b.db.spend, SpendDay(cfg, work.world.day), used, 1)),
       spent := b.spent + [Spent(work.world.day, used)])
  }

  function CallAndStore(cfg: Config, b: Batch, work: Work): Batch {
    var called := Call(cfg, b, work);
    if work.world.reply.Some? then StoreFresh(cfg, called, work, MergeEvidence(work.world.reply.value, work.local), FromLlm)
    else if work.confidence >= cfg.policy.minFallbackConfidence then StoreFresh(cfg, called, work, work.local, FromRules)
    else FailWork(cfg, called, work)
  }

  predicate BudgetAvailable(cfg: Config, b: Batch, work: Work) {
    && Within(b.db.spend, SpendDay(cfg, work.world.day), EstimatedTokens(work.chars), cfg.dailyBudget)
    && b.callsReserved < cfg.policy.maxLlmCalls
    && b.tokensReserved + EstimatedTokens(work.chars) <= cfg.policy.maxLlmTokens
    && (b.clientReady || cfg.hasFactory)
  }

  /** What a route leads to. Without a client the article is deferred. */
  function Follow(cfg: Config, b: Batch, work: Work, route: Route): Batch {
    match route
    case Skip => SkipWork(cfg, b, work)
    case ByRules => StoreFresh(cfg, b, work, work.local, FromRules)
    case ByLlm =>
      if b.clientReady || work.world.clientWorks then CallAndStore(cfg, b.(clientReady := true), work)
      else DeferWork(cfg, b, work)
    case _ => DeferWork(cfg, b, work)
  }

  /** One article; `Err` when any call raises. */
  function Step(cfg: Config, b: Batch, work: Work): Result<Batch, ()> {
    if work.world.raises then Err(())
    else
      var cached := Lookup(cfg.taxonomy, b.db.cache, KeyOf(cfg, work));
      if cached.Some? then
        Ok(Store(cfg, b.(db := b.db.(cache := Hit(b.db.cache, KeyOf(cfg, work)))), work, cached.value, FromCache))
      else
        var missed := b.(metrics := b.metrics.(cacheMisses := b.metrics.cacheMisses + 1));
        var route := Decide(false, work.relevance, work.confidence, cfg.policy, BudgetAvailable(cfg, missed, work));
        if route.Err? then Err(()) else Ok(Follow(cfg, missed, work, route.value))
  }

  /** The batch loop over a prefix of the selected articles. */
  function Run(cfg: Config, b: Batch, works: seq<Work>): Result<Batch, ()> {
    if works == [] then Ok(b)
    else
      var before := Run(cfg, b, works[..|works| - 1]);
      if before.Err? then before else Step(cfg, before.value, works[|works| - 1])
  }

  // ----- Accounting

  function SpentTotal(spent: seq<Spent>): nat {
    if spent == [] then 0 else SpentTotal(spent[..|spent| - 1]) + spent[|spent| - 1].tokens
  }

  function SpentOn(spent: seq<Spent>, day: int): nat {
    if spent == [] then 0
    else SpentOn(spent[..|spent| - 1], day) + if spent[|spent| - 1].day == day then spent[|spent| - 1].tokens else 0
  }

  /** Every article so far is accounted for exactly once, and so is every reserved call and every token. */
  ghost predicate Balanced(cfg: Config, b: Batch, articles: nat) {
    var m := b.metrics;
    && articles == b.saved + b.alreadyProcessed + m.skipped + m.deferred + m.failed
    && b.saved == m.cached + m.deterministic + m.llm
    && m.llmCalls == b.callsReserved <= cfg.policy.maxLlmCalls
    && b.tokensReserved <= cfg.policy.maxLlmTokens
    && m.llmTokens == b.tokensUsed == SpentTotal(b.spent)
    && |b.spent| == m.llmCalls
  }

  lemma SpentOneMore(spent: seq<Spent>, last: Spent)
    ensures SpentTotal(spent + [last]) == SpentTotal(spent) + last.tokens
    ensures forall day :: SpentOn(spent + [last], day) == SpentOn(spent, day) + if last.day == day then last.tokens else 0
  {
    assert (spent + [last])[..|spent|] == spent;
  }

  lemma StoreBalances(cfg: Config, b: Batch, work: Work, output: Output, origin: Origin, articles: nat)
    requires Balanced(cfg, b, articles)
    ensures Balanced(cfg, Store(cfg, b, work, output, origin), articles + 1)
  {}

  lemma CallBalances(cfg: Config, b: Batch, work: Work, articles: nat)
    requires Balanced(cfg, b, articles) && b.callsReserved < cfg.policy.maxLlmCalls
    requires b.tokensReserved + EstimatedTokens(work.chars) <= cfg.policy.maxLlmTokens
    ensures Balanced(cfg, Call(cfg, b, work), articles)
  {
    SpentOneMore(b.spent, Spent(work.world.day, TokensUsed(work)));
  }

  lemma CallAndStoreBalances(cfg: Config, b: Batch, work: Work, articles: nat)
    requires Balanced(cfg, b, articles) && b.callsReserved < cfg.policy.maxLlmCalls
    requires b.tokensReserved + EstimatedTokens(work.chars) <= cfg.policy.maxLlmTokens
    ensures Balanced(cfg, CallAndStore(cfg, b, work), articles + 1)
  {
    hide Store, Call;
    CallBalances(cfg, b, work, articles);
    var called := Call(cfg, b, work);
    if work.world.reply.Some? {
      var output := MergeEvidence(work.world.reply.value, work.local);
      var stored := called.(db := called.db.(cache := Put(called.db.cache, KeyOf(cfg, work), output, Llm)));
      StoreBalances(cfg, stored, work, output, FromLlm, articles);
    } else if work.confidence >= cfg.policy.minFallbackConfidence {
      var stored := called.(db := called.db.(cache := Put(called.db.cache, KeyOf(cfg, work), work.local, Deterministic)));
      StoreBalances(cfg, stored, work, work.local, FromRules, articles);
    }
  }

  lemma FollowBalances(cfg: Config, b: Batch, work: Work, route: Route, articles: nat)
    requires Balanced(cfg, b, articles) && (route == ByLlm ==> BudgetAvailable(cfg, b, work))
    ensures Balanced(cfg, Follow(cfg, b, work, route), articles + 1)
  {
    hide Store, CallAndStore, LlmSpend.Within, Put, Transition;
    if route == ByRules {
      var stored := b.(db := b.db.(cache := Put(b.db.cache, KeyOf(cfg, work), work.local, Deterministic)));
      StoreBalances(cfg, stored, work, work.local, FromRules, articles);
    } else if route == ByLlm {
      CallAndStoreBalances(cfg, b.(clientReady := true), work, articles);
    }
  }

  lemma StepBalances(cfg: Config, b: Batch, work: Work, articles: nat)
    requires Balanced(cfg, b, articles) && Step(cfg, b, work).Ok?
    ensures Balanced(cfg, Step(cfg, b, work).value, articles + 1)
  {
    hide Store, Follow, BudgetAvailable, Lookup;
    var cached := Lookup(cfg.taxonomy, b.db.cache, KeyOf(cfg, work));
    if cached.Some? {
      StoreBalances(cfg, b.(db := b.db.(cache := Hit(b.db.cache, KeyOf(cfg, work)))), work, cached.value, FromCache, articles);
    } else {
      var missed := b.(metrics := b.metrics.(cacheMisses := b.metrics.cacheMisses + 1));
      var available := BudgetAvailable(cfg, missed, work);
      var route := Decide(false, work.relevance, work.confidence, cfg.policy, available).value;
      FollowBalances(cfg, missed, work, route, articles);
    }
  }

  /** For every batch that commits, the counters add up and both per-run caps are respected. */
  lemma {:induction false} RunBalances(cfg: Config, b: Batch, works: seq<Work>, articles: nat)
    requires Balanced(cfg, b, articles) && Run(cfg, b, works).Ok?
    ensures Balanced(cfg, Run(cfg, b, works).value, articles + |works|)
  {
    if works != [] {
      RunBalances(cfg, b, works[..|works| - 1], articles);
      StepBalances(cfg, Run(cfg, b, works[..|works| - 1]).value, works[|works| - 1], articles + |works| - 1);
    }
  }

  // ----- The durable spend

  /** From b0 to b the tenant's counter grew, on every day, by exactly the tokens charged on it. */
  ghost predicate SpendGrew(cfg: Config, b0: Batch, b: Batch) {
    && (forall day :: Used(b.db.spend, SpendDay(cfg, day)) - SpentOn(b.spent, day)
                   == Used(b0.db.spend, SpendDay(cfg, day)) - SpentOn(b0.spent, day))
    && (forall key: SpendKey :: key.tenant != Bucket(cfg.tenant) ==> Used(b.db.spend, key) == Used(b0.db.spend, key))
  }

  lemma CallGrowsSpend(cfg: Config, b0: Batch, b: Batch, work: Work)
    requires SpendGrew(cfg, b0, b)
    ensures SpendGrew(cfg, b0, Call(cfg, b, work))
  {
    SpentOneMore(b.spent, Spent(work.world.day, TokensUsed(work)));
  }

  lemma StoreSpendsNothing(cfg: Config, b: Batch, work: Work, output: Output, origin: Origin)
    ensures Store(cfg, b, work, output, origin).db.spend == b.db.spend && Store(cfg, b, work, output, origin).spent == b.spent
    ensures Store(cfg, b, work, output, origin).db.cache == b.db.cache
  {}

  lemma CallAndStoreSpends(cfg: Config, b: Batch, work: Work)
    ensures CallAndStore(cfg, b, work).db.spend == Call(cfg, b, work).db.spend
    ensures CallAndStore(cfg, b, work).spent == Call(cfg, b, work).spent
  {
    hide Store, Call;
    var called := Call(cfg, b, work);
    var merged := if work.world.reply.Some? then MergeEvidence(work.world.reply.value, work.local) else work.local;
    StoreSpendsNothing(cfg, called.(db := called.db.(cache := Put(called.db.cache, KeyOf(cfg, work), merged, Llm))), work, merged, FromLlm);
    StoreSpendsNothing(cfg, called.(db := called.db.(cache := Put(called.db.cache, KeyOf(cfg, work), work.local, Deterministic))),
                       work, work.local, FromRules);
  }

  lemma CallSpendsAlike(cfg: Config, b: Batch, b': Batch, work: Work)
    requires b'.db == b.db && b'.spent == b.spent
    ensures Call(cfg, b', work).db == Call(cfg, b, work).db && Call(cfg, b', work).spent == Call(cfg, b, work).spent
  {}

  /** Only a model call touches the counter. */
  lemma StepSpends(cfg: Config, b: Batch, work: Work)
    requires Step(cfg, b, work).Ok?
    ensures var b' := Step(cfg, b, work).value;
            || (b'.db.spend == b.db.spend && b'.spent == b.spent)
            || (b'.db.spend == Call(cfg, b, work).db.spend && b'.spent == Call(cfg, b, work).spent)
  {
    hide Store, Call, CallAndStore, BudgetAvailable, Decide, Lookup;
    var cached := Lookup(cfg.taxonomy, b.db.cache, KeyOf(cfg, work));
    if cached.Some? {
      StoreSpendsNothing(cfg, b.(db := b.db.(cache := Hit(b.db.cache, KeyOf(cfg, work)))), work, cached.value, FromCache);
    } else {
      var missed := b.(metrics := b.metrics.(cacheMisses := b.metrics.cacheMisses + 1));
      var route := Decide(false, work.relevance, work.confidence, cfg.policy, BudgetAvailable(cfg, missed, work)).value;
      if route == ByRules {
        StoreSpendsNothing(cfg, missed.(db := missed.db.(cache := Put(missed.db.cache, KeyOf(cfg, work), work.local, Deterministic))),
                           work, work.local, FromRules);
      } else if route == ByLlm && (missed.clientReady || work.world.clientWorks) {
        var ready := missed.(clientReady := true);
        CallSpendsAlike(cfg, b, ready, work);
        CallAndStoreSpends(cfg, ready, work);
      }
    }
  }

  lemma StepGrowsSpend(cfg: Config, b0: Batch, b: Batch, work: Work)
    requires SpendGrew(cfg, b0, b) && Step(cfg, b, work).Ok?
    ensures SpendGrew(cfg, b0, Step(cfg, b, work).value)
  {
    StepSpends(cfg, b, work);
    CallGrowsSpend(cfg, b0, b, work);
    hide Step, Call;
    assert SpendGrew(cfg, b0, Call(cfg, b, work));
  }

  lemma {:induction false} RunGrowsSpend(cfg: Config, b: Batch, works: seq<Work>)
    requires Run(cfg, b, works).Ok?
    ensures SpendGrew(cfg, b, Run(cfg, b, works).value)
  {
    if works != [] {
      RunGrowsSpend(cfg, b, works[..|works| - 1]);
      StepGrowsSpend(cfg, b, Run(cfg, b, works[..|works| - 1]).value, works[|works| - 1]);
    }
  }

  // ----- Processed rows and raw rows

  ghost predicate UniqueRaw(processed: seq<ProcessedRow>) {
    forall i, j :: 0 <= i < j < |processed| ==> processed[i].rawId != processed[j].rawId
  }

  /** The ways one article can leave its raw row. */
  ghost predicate MayLeave(status: Status, delay: Option<int>) {
    || (delay.None? && (status == Completed || status == Skipped))
    || (delay == Some(RETRY_DELAY) && (status == Status.Deferred || status == EnrichmentRetry))
  }

  /** One article attempts one guarded transition and inserts at most one processed row, its own
      and only if it has none; a completed article has one. */
  ghost predicate RowsShape(cfg: Config, b: Batch, b': Batch, work: Work, status: Status, delay: Option<int>) {
    && b'.db.raw == Transition(b.db.raw, work.id, cfg.owner, status, delay, work.world.now)
    && (status == Completed ==> work.id in ProcessedIds(b'.db.processed))
    && if b'.saved == b.saved then b'.db.processed == b.db.processed
       else && b'.saved == b.saved + 1
            && work.id !in ProcessedIds(b.db.processed)
            && |b'.db.processed| == |b.db.processed| + 1
            && b'.db.processed[..|b.db.processed|] == b.db.processed
            && b'.db.processed[|b.db.processed|].rawId == work.id
            && b'.db.processed[|b.db.processed|].fingerprint == work.fingerprint
  }

  function RouteCount(m: Metrics, origin: Origin): nat {
    match origin
    case FromCache => m.cached
    case FromRules => m.deterministic
    case FromLlm => m.llm
  }

  /** The counter that moves is the one that names what happened to the article. */
  ghost predicate CountsShape(b: Batch, b': Batch, work: Work, status: Status) {
    var stored := work.id in ProcessedIds(b.db.processed);
    && b'.saved == b.saved + (if status == Completed && !stored then 1 else 0)
    && b'.alreadyProcessed == b.alreadyProcessed + (if status == Completed && stored then 1 else 0)
    && b'.metrics.skipped == b.metrics.skipped + (if status == Skipped then 1 else 0)
    && b'.metrics.deferred == b.metrics.deferred + (if status == Status.Deferred then 1 else 0)
    && b'.metrics.failed == b.metrics.failed + (if status == EnrichmentRetry then 1 else 0)
    && forall origin :: RouteCount(b'.metrics, origin) == RouteCount(b.metrics, origin)
         + if |b'.db.processed| == |b.db.processed| + 1 && b'.db.processed[|b.db.processed|].origin == origin then 1 else 0
  }

  ghost predicate StepShape(cfg: Config, b: Batch, b': Batch, work: Work, status: Status, delay: Option<int>) {
    MayLeave(status, delay) && RowsShape(cfg, b, b', work, status, delay) && CountsShape(b, b', work, status)
  }

  lemma StoreHasShape(cfg: Config, b: Batch, work: Work, output: Output, origin: Origin)
    ensures StepShape(cfg, b, Store(cfg, b, work, output, origin), work, Completed, None)
  {
    var row := ProcessedRow(work.id, origin, output, work.fingerprint);
    assert row in b.db.processed + [row];
  }

  lemma StepHasShape(cfg: Config, b: Batch, work: Work) returns (status: Status, delay: Option<int>)
    requires Step(cfg, b, work).Ok?
    ensures StepShape(cfg, b, Step(cfg, b, work).value, work, status, delay)
  {
    hide Store, BudgetAvailable, Decide, Lookup, Follow, StepShape;
    var cached := Lookup(cfg.taxonomy, b.db.cache, KeyOf(cfg, work));
    if cached.Some? {
      status, delay := Completed, None;
      var hit := b.(db := b.db.(cache := Hit(b.db.cache, KeyOf(cfg, work))));
      StoreHasShape(cfg, hit, work, cached.value, FromCache);
      SameShape(cfg, b, hit, Store(cfg, hit, work, cached.value, FromCache), work, status, delay);
    } else {
      var missed := b.(metrics := b.metrics.(cacheMisses := b.metrics.cacheMisses + 1));
      var route := Decide(false, work.relevance, work.confidence, cfg.policy, BudgetAvailable(cfg, missed, work)).value;
      status, delay := FollowHasShape(cfg, missed, work, route);
      SameShape(cfg, b, missed, Follow(cfg, missed, work, route), work, status, delay);
    }
  }

  /** The shape speaks of the rows only. */
  lemma SameShape(cfg: Config, a: Batch, b: Batch, b': Batch, work: Work, status: Status, delay: Option<int>)
    requires StepShape(cfg, b, b', work, status, delay)
    requires a.db.raw == b.db.raw && a.db.processed == b.db.processed && a.saved == b.saved && a.alreadyProcessed == b.alreadyProcessed
    requires SameOutcomes(a.metrics, b.metrics)
    ensures StepShape(cfg, a, b', work, status, delay)
  {
    hide Transition, Transitioned, ProcessedIds;
  }

  /** Counters other than those of cache misses and calls agree. */
  ghost predicate SameOutcomes(m: Metrics, m': Metrics) {
    && m.cached == m'.cached && m.deterministic == m'.deterministic && m.llm == m'.llm
    && m.skipped == m'.skipped && m.deferred == m'.deferred && m.failed == m'.failed
  }

  lemma FollowHasShape(cfg: Config, b: Batch, work: Work, route: Route) returns (status: Status, delay: Option<int>)
    ensures StepShape(cfg, b, Follow(cfg, b, work, route), work, status, delay)
  {
    hide Store, CallAndStore, Put, Transition;
    if route == Skip {
      status, delay := Skipped, None;
    } else if route == ByRules {
      status, delay := Completed, None;
      FreshHasShape(cfg, b, work, work.local, FromRules);
    } else if route == ByLlm && (b.clientReady || work.world.clientWorks) {
      hide StepShape;
      status, delay := CallHasShape(cfg, b.(clientReady := true), work);
      SameShape(cfg, b, b.(clientReady := true), CallAndStore(cfg, b.(clientReady := true), work), work, status, delay);
    } else {
      status, delay := Status.Deferred, Some(RETRY_DELAY);
    }
  }

  lemma FreshHasShape(cfg: Config, b: Batch, work: Work, output: Output, origin: Origin)
    requires origin != FromCache
    ensures StepShape(cfg, b, StoreFresh(cfg, b, work, output, origin), work, Completed, None)
  {
    hide Store, Put, StepShape;
    var original := if origin == FromRules then Deterministic else Llm;
    var put := b.(db := b.db.(cache := Put(b.db.cache, KeyOf(cfg, work), output, original)));
    StoreHasShape(cfg, put, work, output, origin);
    SameShape(cfg, b, put, Store(cfg, put, work, output, origin), work, Completed, None);
  }

  lemma CallHasShape(cfg: Config, b: Batch, work: Work) returns (status: Status, delay: Option<int>)
    ensures StepShape(cfg, b, CallAndStore(cfg, b, work), work, status, delay)
  {
    hide Store, StoreFresh, StepShape, Transition, MergeEvidence;
    var called := Call(cfg, b, work);
    if work.world.reply.Some? {
      status, delay := Completed, None;
      FreshHasShape(cfg, called, work, MergeEvidence(work.world.reply.value, work.local), FromLlm);
    } else if work.confidence >= cfg.policy.minFallbackConfidence {
      status, delay := Completed, None;
      FreshHasShape(cfg, called, work, work.local, FromRules);
    } else {
      status, delay := EnrichmentRetry, Some(RETRY_DELAY);
      FailHasShape(cfg, called, work);
    }
    SameShape(cfg, b, called, CallAndStore(cfg, b, work), work, status, delay);
  }

  lemma FailHasShape(cfg: Config, b: Batch, work: Work)
    ensures StepShape(cfg, b, FailWork(cfg, b, work), work, EnrichmentRetry, Some(RETRY_DELAY))
  {
    hide Transition;
  }

  function OriginCount(rows: seq<ProcessedRow>, origin: Origin): nat {
    if rows == [] then 0
    else OriginCount(rows[..|rows| - 1], origin) + if rows[|rows| - 1].origin == origin then 1 else 0
  }

  /** The route counters are the numbers of rows the batch added by each route. */
  lemma {:induction false} RunCountsRoutes(cfg: Config, b: Batch, works: seq<Work>, origin: Origin)
    requires Run(cfg, b, works).Ok?
    ensures var b' := Run(cfg, b, works).value;
            RouteCount(b'.metrics, origin) - RouteCount(b.metrics, origin)
              == OriginCount(b'.db.processed, origin) - OriginCount(b.db.processed, origin)
  {
    if works != [] {
      var before := Run(cfg, b, works[..|works| - 1]).value;
      RunCountsRoutes(cfg, b, works[..|works| - 1], origin);
      var status, delay := StepHasShape(cfg, before, works[|works| - 1]);
      hide Step, Transition, ProcessedIds, RouteCount;
    }
  }

  function Ids(works: seq<Work>): set<int> {
    set work | work in works :: work.id
  }

  lemma IdsOneMore(works: seq<Work>, work: Work)
    ensures Ids(works + [work]) == Ids(works) + {work.id}
  {
    var more := works + [work];
    assert more[|works|] == work;
    forall w | w in works ensures w in more {}
  }

  ghost predicate EachOnce(works: seq<Work>) {
    forall i, j :: 0 <= i < j < |works| ==> works[i].id != works[j].id
  }

  lemma LastIsNew(works: seq<Work>)
    requires works != [] && EachOnce(works)
    ensures EachOnce(works[..|works| - 1]) && works[|works| - 1].id !in Ids(works[..|works| - 1])
    ensures Ids(works) == Ids(works[..|works| - 1]) + {works[|works| - 1].id}
  {
    var init := works[..|works| - 1];
    assert works == init + [works[|works| - 1]];
    IdsOneMore(init, works[|works| - 1]);
    forall work | work in init ensures work.id != works[|works| - 1].id {
      var i :| 0 <= i < |init| && init[i] == work;
      assert works[i].id != works[|works| - 1].id;
    }
  }

  lemma StepOfFresh(cfg: Config, b: Batch, work: Work)
    requires Step(cfg, b, work).Ok? && work.id !in ProcessedIds(b.db.processed)
    ensures Step(cfg, b, work).value.alreadyProcessed == b.alreadyProcessed
    ensures ProcessedIds(Step(cfg, b, work).value.db.processed) <= ProcessedIds(b.db.processed) + {work.id}
  {
    var status, delay := StepHasShape(cfg, b, work);
    hide Step, Transition, RouteCount;
    OneMoreId(b.db.processed, Step(cfg, b, work).value.db.processed, work.id);
  }

  /** Articles offered once and without a row are never found already processed, and a batch gives
      rows to no others. */
  lemma {:induction false} RunOfFresh(cfg: Config, b: Batch, works: seq<Work>)
    requires Run(cfg, b, works).Ok? && EachOnce(works) && Ids(works) !! ProcessedIds(b.db.processed)
    ensures Run(cfg, b, works).value.alreadyProcessed == b.alreadyProcessed
    ensures ProcessedIds(Run(cfg, b, works).value.db.processed) <= ProcessedIds(b.db.processed) + Ids(works)
  {
    if works != [] {
      LastIsNew(works);
      hide Step, EachOnce, Ids, ProcessedIds;
      RunOfFresh(cfg, b, works[..|works| - 1]);
      StepOfFresh(cfg, Run(cfg, b, works[..|works| - 1]).value, works[|works| - 1]);
    }
  }

  lemma OneMoreId(before: seq<ProcessedRow>, after: seq<ProcessedRow>, id: int)
    requires after == before || (|after| == |before| + 1 && after[..|before|] == before && after[|before|].rawId == id)
    ensures ProcessedIds(after) <= ProcessedIds(before) + {id}
  {
    forall row | row in after ensures row in before || row.rawId == id {
      var i :| 0 <= i < |after| && after[i] == row;
      if i < |before| { assert before[i] == row; }
    }
  }

  /** What a batch may do to the processed rows: append new ones, as many as it saved, never a second
      one for an article that has one. */
  ghost predicate Inserted(b0: Batch, b: Batch) {
    && UniqueRaw(b.db.processed)
    && |b0.db.processed| <= |b.db.processed|
    && b.db.processed[..|b0.db.processed|] == b0.db.processed
    && b.saved - b0.saved == |b.db.processed| - |b0.db.processed|
  }

  lemma OneMoreIsUnique(before: seq<ProcessedRow>, after: seq<ProcessedRow>)
    requires UniqueRaw(before) && |after| == |before| + 1 && after[..|before|] == before
    requires after[|before|].rawId !in ProcessedIds(before)
    ensures UniqueRaw(after)
  {
    forall i, j | 0 <= i < j < |after| ensures after[i].rawId != after[j].rawId {
      assert after[i] == before[i];
      assert j < |before| ==> after[j] == before[j];
    }
  }

  lemma StepInserts(cfg: Config, b0: Batch, b: Batch, work: Work)
    requires Inserted(b0, b) && Step(cfg, b, work).Ok?
    ensures Inserted(b0, Step(cfg, b, work).value)
  {
    var status, delay := StepHasShape(cfg, b, work);
    var b' := Step(cfg, b, work).value;
    hide Step, UniqueRaw;
    if b'.saved != b.saved {
      OneMoreIsUnique(b.db.processed, b'.db.processed);
      assert b'.db.processed[..|b0.db.processed|] == b'.db.processed[..|b.db.processed|][..|b0.db.processed|];
    }
  }

  lemma {:induction false} RunInserts(cfg: Config, b: Batch, works: seq<Work>)
    requires UniqueRaw(b.db.processed) && Run(cfg, b, works).Ok?
    ensures Inserted(b, Run(cfg, b, works).value)
  {
    if works != [] {
      RunInserts(cfg, b, works[..|works| - 1]);
      StepInserts(cfg, b, Run(cfg, b, works[..|works| - 1]).value, works[|works| - 1]);
    }
  }

  /** What a claimed batch may do to one raw row: nothing at all unless the run holds it; otherwise
      complete it beside a processed row, skip it, or put it back two hours on with one more attempt. */
  ghost predicate RowOutcome(row: Row, row': Row, id: int, owner: Owner, processed: set<int>) {
    || row' == row
    || (&& row.owner == Some(owner)
        && row'.owner.None? && row'.leaseExpires.None?
        && match row'.status {
             case Some(Completed) => id in processed && row'.attempts == row.attempts && row'.nextAttempt.None?
             case Some(Skipped) => row'.attempts == row.attempts && row'.nextAttempt.None?
             case Some(Deferred) => row'.attempts == row.attempts + 1 && row'.nextAttempt.Some?
             case Some(EnrichmentRetry) => row'.attempts == row.attempts + 1 && row'.nextAttempt.Some?
             case _ => false
           })
  }

  ghost predicate RowOutcomes(raw: Rows, raw': Rows, owner: Owner, processed: set<int>) {
    raw'.Keys == raw.Keys && forall id :: id in raw ==> RowOutcome(raw[id], raw'[id], id, owner, processed)
  }

  /** One guarded transition, seen from where the batch began. */
  lemma TransitionOutcome(row0: Row, row: Row, row': Row, id: int, owner: Owner, status: Status, delay: Option<int>, now: int, processed: set<int>)
    requires RowOutcome(row0, row, id, owner, processed) && MayLeave(status, delay)
    requires row' == row || (row.owner == Some(owner) && row' == Transitioned(row, status, delay, now))
    requires row' != row && status == Completed ==> id in processed
    ensures RowOutcome(row0, row', id, owner, processed)
  {}

  lemma RowsOnlyGrow(before: seq<ProcessedRow>, after: seq<ProcessedRow>)
    requires |before| <= |after| && after[..|before|] == before
    ensures ProcessedIds(before) <= ProcessedIds(after)
  {
    forall row | row in before ensures row in after {
      assert row in after[..|before|];
    }
  }

  lemma StepRows(cfg: Config, raw: Rows, b: Batch, work: Work)
    requires cfg.owner.Some? && Step(cfg, b, work).Ok?
    requires RowOutcomes(raw, b.db.raw, cfg.owner.value, ProcessedIds(b.db.processed))
    ensures RowOutcomes(raw, Step(cfg, b, work).value.db.raw, cfg.owner.value, ProcessedIds(Step(cfg, b, work).value.db.processed))
  {
    var status, delay := StepHasShape(cfg, b, work);
    var b' := Step(cfg, b, work).value;
    var processed := ProcessedIds(b'.db.processed);
    RowsOnlyGrow(b.db.processed, b'.db.processed);
    RowOutcomesGrow(raw, b.db.raw, cfg.owner.value, ProcessedIds(b.db.processed), processed);
    hide Step, ProcessedIds, RowOutcome, Transitioned, MayLeave;
    forall id | id in raw {
      TransitionOutcome(raw[id], b.db.raw[id], b'.db.raw[id], id, cfg.owner.value, status, delay, work.world.now, processed);
    }
  }

  lemma RowOutcomesGrow(raw: Rows, raw': Rows, owner: Owner, processed: set<int>, more: set<int>)
    requires RowOutcomes(raw, raw', owner, processed) && processed <= more
    ensures RowOutcomes(raw, raw', owner, more)
  {}

  /** A whole batch changes no lifecycle field of a row whose lease it does not hold. */
  lemma {:induction false} RunRows(cfg: Config, b: Batch, works: seq<Work>)
    requires cfg.owner.Some? && Run(cfg, b, works).Ok?
    ensures RowOutcomes(b.db.raw, Run(cfg, b, works).value.db.raw, cfg.owner.value,
                        ProcessedIds(Run(cfg, b, works).value.db.processed))
  {
    if works != [] {
      RunRows(cfg, b, works[..|works| - 1]);
      StepRows(cfg, b.db.raw, Run(cfg, b, works[..|works| - 1]).value, works[|works| - 1]);
    }
  }

  // ----- What the cache serves

  function RowKey(cfg: Config, row: ProcessedRow): CacheKey {
    CacheKey(row.fingerprint, cfg.policy.policyVersion, cfg.policy.taxonomyVersion)
  }

  ghost predicate NoRowFor(cfg: Config, db: Db, from: nat, key: CacheKey) {
    forall k :: from <= k < |db.processed| ==> RowKey(cfg, db.processed[k]) != key
  }

  /** Every row stored since position `from` carries what the cache holds for its content now, and
      of the rows with one content only the first was not a copy. */
  ghost predicate Served(cfg: Config, db: Db, from: nat) {
    && (forall k :: from <= k < |db.processed| ==>
          Lookup(cfg.taxonomy, db.cache, RowKey(cfg, db.processed[k])) == Some(db.processed[k].output))
    && (forall j, k :: from <= j < k < |db.processed| && db.processed[j].fingerprint == db.processed[k].fingerprint ==>
          db.processed[k].origin == FromCache)
  }

  /** The analysis and the model's reply are validated outputs. */
  ghost predicate ValidWork(cfg: Config, work: Work) {
    Valid(cfg.taxonomy, work.local) && (work.world.reply.Some? ==> Valid(cfg.taxonomy, work.world.reply.value))
  }

  lemma StoreServes(cfg: Config, b: Batch, work: Work, output: Output, origin: Origin, from: nat)
    requires Served(cfg, b.db, from) && from <= |b.db.processed|
    requires Lookup(cfg.taxonomy, b.db.cache, KeyOf(cfg, work)) == Some(output)
    requires origin != FromCache ==> NoRowFor(cfg, b.db, from, KeyOf(cfg, work))
    ensures Served(cfg, Store(cfg, b, work, output, origin).db, from)
    ensures from <= |Store(cfg, b, work, output, origin).db.processed|
  {
    hide Lookup;
    var rows := b.db.processed;
    forall k | from <= k < |rows| && rows[k].fingerprint == work.fingerprint ensures origin == FromCache {
      assert RowKey(cfg, rows[k]) == KeyOf(cfg, work);
    }
  }

  /** Storing a new content disturbs no row, and no row has that content yet. */
  lemma PutServes(cfg: Config, db: Db, key: CacheKey, output: Output, original: Method, from: nat)
    requires Served(cfg, db, from) && Lookup(cfg.taxonomy, db.cache, key).None? && Valid(cfg.taxonomy, output)
    ensures Served(cfg, db.(cache := Put(db.cache, key, output, original)), from) && NoRowFor(cfg, db, from, key)
    ensures Lookup(cfg.taxonomy, Put(db.cache, key, output, original), key) == Some(output)
  {
    hide Lookup, Put, Valid, RowKey;
    PutThenGet(cfg.taxonomy, db.cache, key, output, original, key);
    forall k | from <= k < |db.processed|
      ensures RowKey(cfg, db.processed[k]) != key
      ensures Lookup(cfg.taxonomy, Put(db.cache, key, output, original), RowKey(cfg, db.processed[k])) == Some(db.processed[k].output)
    {
      PutThenGet(cfg.taxonomy, db.cache, key, output, original, RowKey(cfg, db.processed[k]));
    }
  }

  lemma FreshServes(cfg: Config, b: Batch, work: Work, output: Output, origin: Origin, from: nat)
    requires Served(cfg, b.db, from) && from <= |b.db.processed| && origin != FromCache
    requires Lookup(cfg.taxonomy, b.db.cache, KeyOf(cfg, work)).None? && Valid(cfg.taxonomy, output)
    ensures Served(cfg, StoreFresh(cfg, b, work, output, origin).db, from)
    ensures from <= |StoreFresh(cfg, b, work, output, origin).db.processed|
  {
    hide Lookup, Put, Store, Served, NoRowFor, Valid, KeyOf;
    var original := if origin == FromRules then Deterministic else Llm;
    PutServes(cfg, b.db, KeyOf(cfg, work), output, original, from);
    SameRows(cfg, b.db, b.db.(cache := Put(b.db.cache, KeyOf(cfg, work), output, original)), from, KeyOf(cfg, work));
    StoreServes(cfg, b.(db := b.db.(cache := Put(b.db.cache, KeyOf(cfg, work), output, original))), work, output, origin, from);
  }

  lemma SameRows(cfg: Config, db: Db, db': Db, from: nat, key: CacheKey)
    requires NoRowFor(cfg, db, from, key) && db'.processed == db.processed
    ensures NoRowFor(cfg, db', from, key)
  {}

  lemma HitIsInvisible(taxonomy: Taxonomy, entries: Entries, key: CacheKey, other: CacheKey)
    ensures Lookup(taxonomy, Hit(entries, key), other) == Lookup(taxonomy, entries, other)
  {}

  lemma HitServes(cfg: Config, b: Batch, work: Work, from: nat)
    requires Served(cfg, b.db, from) && from <= |b.db.processed|
    requires Lookup(cfg.taxonomy, b.db.cache, KeyOf(cfg, work)).Some?
    ensures var hit := b.(db := b.db.(cache := Hit(b.db.cache, KeyOf(cfg, work))));
            var after := Store(cfg, hit, work, Lookup(cfg.taxonomy, b.db.cache, KeyOf(cfg, work)).value, FromCache);
            Served(cfg, after.db, from) && from <= |after.db.processed|
  {
    hide Lookup, Hit, Store;
    var hit := b.(db := b.db.(cache := Hit(b.db.cache, KeyOf(cfg, work))));
    HitIsInvisible(cfg.taxonomy, b.db.cache, KeyOf(cfg, work), KeyOf(cfg, work));
    forall k | from <= k < |b.db.processed| {
      HitIsInvisible(cfg.taxonomy, b.db.cache, KeyOf(cfg, work), RowKey(cfg, b.db.processed[k]));
    }
    StoreServes(cfg, hit, work, Lookup(cfg.taxonomy, b.db.cache, KeyOf(cfg, work)).value, FromCache, from);
  }

  lemma CallServes(cfg: Config, b: Batch, work: Work, from: nat)
    requires Served(cfg, b.db, from) && from <= |b.db.processed|
    requires Lookup(cfg.taxonomy, b.db.cache, KeyOf(cfg, work)).None? && ValidWork(cfg, work)
    ensures Served(cfg, CallAndStore(cfg, b, work).db, from) && from <= |CallAndStore(cfg, b, work).db.processed|
  {
    hide Lookup, StoreFresh, Valid, MergeEvidence;
    var called := Call(cfg, b, work);
    if work.world.reply.Some? {
      MergeKeepsValid(cfg.taxonomy, work.world.reply.value, work.local);
      FreshServes(cfg, called, work, MergeEvidence(work.world.reply.value, work.local), FromLlm, from);
    } else if work.confidence >= cfg.policy.minFallbackConfidence {
      FreshServes(cfg, called, work, work.local, FromRules, from);
    }
  }

  lemma StepServes(cfg: Config, b: Batch, work: Work, from: nat)
    requires Served(cfg, b.db, from) && from <= |b.db.processed| && ValidWork(cfg, work) && Step(cfg, b, work).Ok?
    ensures Served(cfg, Step(cfg, b, work).value.db, from) && from <= |Step(cfg, b, work).value.db.processed|
  {
    hide Lookup, Served, Store, StoreFresh, CallAndStore, BudgetAvailable, Decide, ValidWork;
    var cached := Lookup(cfg.taxonomy, b.db.cache, KeyOf(cfg, work));
    if cached.Some? {
      HitServes(cfg, b, work, from);
    } else {
      var missed := b.(metrics := b.metrics.(cacheMisses := b.metrics.cacheMisses + 1));
      var route := Decide(false, work.relevance, work.confidence, cfg.policy, BudgetAvailable(cfg, missed, work)).value;
      if route == ByRules {
        ValidWorkIsLocal(cfg, work);
        FreshServes(cfg, missed, work, work.local, FromRules, from);
      } else if route == ByLlm && (missed.clientReady || work.world.clientWorks) {
        CallServes(cfg, missed.(clientReady := true), work, from);
      } else {
        RowsAreNotServed(cfg, b.db, Step(cfg, b, work).value.db, from);
      }
    }
  }

  lemma RowsAreNotServed(cfg: Config, db: Db, db': Db, from: nat)
    requires Served(cfg, db, from) && db'.processed == db.processed && db'.cache == db.cache
    ensures Served(cfg, db', from)
  {}

  lemma ValidWorkIsLocal(cfg: Config, work: Work)
    requires ValidWork(cfg, work)
    ensures Valid(cfg.taxonomy, work.local)
  {}

  /** Any run of batches that started at row `from`: articles with the same content share one output,
      and only the first of them was not served from the cache. */
  lemma {:induction false} RunServes(cfg: Config, b: Batch, works: seq<Work>, from: nat)
    requires Served(cfg, b.db, from) && from <= |b.db.processed| && Run(cfg, b, works).Ok?
    requires forall k :: 0 <= k < |works| ==> ValidWork(cfg, works[k])
    ensures Served(cfg, Run(cfg, b, works).value.db, from) && from <= |Run(cfg, b, works).value.db.processed|
  {
    hide Served, ValidWork;
    if works != [] {
      var init := works[..|works| - 1];
      assert forall k :: 0 <= k < |init| ==> init[k] == works[k];
      RunServes(cfg, b, init, from);
      StepServes(cfg, Run(cfg, b, init).value, works[|works| - 1], from);
    }
  }

  /** An article whose content is in the cache costs no call and no tokens, and its row, if it had
      none, carries the cached output. */
  lemma CachedIsFree(cfg: Config, b: Batch, work: Work)
    requires Lookup(cfg.taxonomy, b.db.cache, KeyOf(cfg, work)).Some? && !work.world.raises
    ensures Step(cfg, b, work).Ok?
    ensures var b' := Step(cfg, b, work).value;
            && b'.callsReserved == b.callsReserved && b'.db.spend == b.db.spend && b'.spent == b.spent
            && (work.id !in ProcessedIds(b.db.processed) ==>
                  b'.db.processed == b.db.processed + [ProcessedRow(work.id, FromCache,
                    Lookup(cfg.taxonomy, b.db.cache, KeyOf(cfg, work)).value, work.fingerprint)])
  {
    hide Lookup;
  }

  /** What the cache holds for a content is not lost or changed by later batches. */
  lemma {:induction false} CachedStaysCached(cfg: Config, b: Batch, works: seq<Work>, key: CacheKey)
    requires Run(cfg, b, works).Ok? && Lookup(cfg.taxonomy, b.db.cache, key).Some?
    ensures Lookup(cfg.taxonomy, Run(cfg, b, works).value.db.cache, key) == Lookup(cfg.taxonomy, b.db.cache, key)
  {
    if works != [] {
      CachedStaysCached(cfg, b, works[..|works| - 1], key);
      StepKeepsCached(cfg, Run(cfg, b, works[..|works| - 1]).value, works[|works| - 1], key);
    }
  }

  lemma StepKeepsCached(cfg: Config, b: Batch, work: Work, key: CacheKey)
    requires Step(cfg, b, work).Ok? && Lookup(cfg.taxonomy, b.db.cache, key).Some?
    ensures Lookup(cfg.taxonomy, Step(cfg, b, work).value.db.cache, key) == Lookup(cfg.taxonomy, b.db.cache, key)
  {
    var output, original := StepCaches(cfg, b, work);
    HitIsInvisible(cfg.taxonomy, b.db.cache, KeyOf(cfg, work), key);
    hide Step;
    if key != KeyOf(cfg, work) {
      PutThenGet(cfg.taxonomy, b.db.cache, KeyOf(cfg, work), output, original, key);
    }
  }

  /** One article touches the cache only under its own content, and stores only what was not there. */
  lemma StepCaches(cfg: Config, b: Batch, work: Work) returns (output: Output, original: Method)
    requires Step(cfg, b, work).Ok?
    ensures var cache' := Step(cfg, b, work).value.db.cache;
            || cache' == b.db.cache
            || cache' == Hit(b.db.cache, KeyOf(cfg, work))
            || (Lookup(cfg.taxonomy, b.db.cache, KeyOf(cfg, work)).None? && cache' == Put(b.db.cache, KeyOf(cfg, work), output, original))
  {
    hide Lookup, Put, Hit, Store, CallAndStore, BudgetAvailable, Decide;
    output, original := work.local, Deterministic;
    var cached := Lookup(cfg.taxonomy, b.db.cache, KeyOf(cfg, work));
    if cached.Some? {
      StoreSpendsNothing(cfg, b.(db := b.db.(cache := Hit(b.db.cache, KeyOf(cfg, work)))), work, cached.value, FromCache);
    } else {
      var missed := b.(metrics := b.metrics.(cacheMisses := b.metrics.cacheMisses + 1));
      var route := Decide(false, work.relevance, work.confidence, cfg.policy, BudgetAvailable(cfg, missed, work)).value;
      if route == ByRules {
        StoreSpendsNothing(cfg, missed.(db := missed.db.(cache := Put(missed.db.cache, KeyOf(cfg, work), work.local, Deterministic))),
                           work, work.local, FromRules);
      } else if route == ByLlm && (missed.clientReady || work.world.clientWorks) {
        output, original := CallCaches(cfg, missed.(clientReady := true), work);
      }
    }
  }

  lemma CallCaches(cfg: Config, b: Batch, work: Work) returns (output: Output, original: Method)
    ensures var cache' := CallAndStore(cfg, b, work).db.cache;
            cache' == b.db.cache || cache' == Put(b.db.cache, KeyOf(cfg, work), output, original)
  {
    hide Store, Put;
    var called := Call(cfg, b, work);
    if work.world.reply.Some? {
      output, original := MergeEvidence(work.world.reply.value, work.local), Llm;
      StoreSpendsNothing(cfg, called.(db := called.db.(cache := Put(called.db.cache, KeyOf(cfg, work), output, Llm))), work, output, FromLlm);
    } else {
      output, original := work.local, Deterministic;
      StoreSpendsNothing(cfg, called.(db := called.db.(cache := Put(called.db.cache, KeyOf(cfg, work), output, original))), work, output, FromRules);
    }
  }
}
