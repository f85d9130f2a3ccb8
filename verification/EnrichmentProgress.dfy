/** What the lease protocol achieves at one deployment, where the policy is configured and the analysis
    of an article is a fixed function of the article: the durable counter is the sum of all charges,
    articles with one content share one output, and an article can still be settled under an exact condition. */
module EnrichmentProgress {
  import opened EnrichmentLease
  import opened EnrichmentOutput
  import opened EnrichmentPipeline
  import opened EnrichmentPolicy
  import LlmSpend
  import opened PipelineRun
  import opened RawArticles
  import opened Wrappers

  /** What the pipeline computes from an article alone, and the verdicts normalization may give on it:
      language detection is not repeatable, so one title can pass at one attempt and fail at another. */
  datatype Article = Article(fingerprint: string, chars: nat, relevance: real, confidence: real, local: Output, verdicts: set<Quality>)

  datatype Site = Site(articles: int -> Article, policy: Policy, taxonomy: Taxonomy, tenant: Option<string>, dailyBudget: int, hasClient: bool)

  const DAY := 24 * 3600

  /** Scores are bounded and the local output is validated when the analysis builds it. */
  ghost predicate ValidSite(site: Site) {
    && ValidPolicy(site.policy)
    && forall id :: ValidArticle(site, site.articles(id))
  }

  ghost predicate ValidArticle(site: Site, a: Article) {
    UnitInterval(a.relevance) && UnitInterval(a.confidence) && Valid(site.taxonomy, a.local)
  }

  function ConfigOf(site: Site, r: Owner): Config {
    Config(site.policy, site.taxonomy, site.tenant, site.dailyBudget, Some(r), true)
  }

  /** A work item is the article with its own analysis; only what the outside answers is free, the
      date being that of the clock and a reply being validated. */
  ghost predicate Agrees(site: Site, work: Work) {
    var a := site.articles(work.id);
    && Good in a.verdicts
    && work == Work(work.id, a.fingerprint, a.chars, a.relevance, a.confidence, a.local, work.world)
    && work.world.clientWorks == site.hasClient && work.world.day == work.world.now / DAY
    && (work.world.reply.Some? ==> Valid(site.taxonomy, work.world.reply.value))
  }

  ghost predicate AllAgree(site: Site, works: seq<Work>) {
    forall k :: 0 <= k < |works| ==> Agrees(site, works[k])
  }

  /** An action of this deployment. Normalization gives one of the article's verdicts, or fails for a while. */
  ghost predicate Follows(site: Site, action: Action) {
    match action
    case Normalize(_, id, quality) => quality in site.articles(id).verdicts || quality == Broken
    case NormalizeUnleased(qualities) => forall id :: id in qualities ==> qualities[id] in site.articles(id).verdicts || qualities[id] == Broken
    case Select(r, cfg, candidates) => cfg == ConfigOf(site, r) && AllAgree(site, candidates)
    case Commit(_, works) => AllAgree(site, works)
    case _ => true
  }

  ghost predicate AllFollow(site: Site, actions: seq<Action>) {
    forall k :: 0 <= k < |actions| ==> Follows(site, actions[k])
  }

  // ----- What every history of a deployment keeps

  ghost predicate Configured(site: Site, s: State) {
    forall r :: r in s.runs && s.runs[r].selection.Some? ==> s.runs[r].selection.value.cfg == ConfigOf(site, r)
  }

  function DayKey(site: Site, day: int): LlmSpend.SpendKey {
    LlmSpend.SpendKey(LlmSpend.Bucket(site.tenant), day)
  }

  /** What others charged to one row of the counter. */
  function OutsideOn(charges: seq<OutsideCharge>, key: LlmSpend.SpendKey): nat {
    if charges == [] then 0
    else
      var last := charges[|charges| - 1];
      OutsideOn(charges[..|charges| - 1], key) + if last.key == key then last.tokens else 0
  }

  /** Each day's counter is what committed batches charged that day and what others did. */
  ghost predicate SpendAddsUp(site: Site, s: State) {
    forall day :: LlmSpend.Used(s.db.spend, DayKey(site, day)) == SpentOn(s.spent, day) + OutsideOn(s.outside, DayKey(site, day))
  }

  predicate Skippable(site: Site, id: int) {
    site.articles(id).relevance < site.policy.minRelevance
  }

  /** Only what may be skipped or rejected is, and what is rejected has no owner. */
  ghost predicate RowGivenUpRightly(site: Site, row: Row, id: int) {
    && (row.status == Some(Skipped) ==> Skippable(site, id))
    && (row.status == Some(QualityRejected) ==> Bad in site.articles(id).verdicts && row.owner.None?)
  }

  ghost predicate GivenUpRightly(site: Site, s: State) {
    forall id :: id in s.db.raw ==> RowGivenUpRightly(site, s.db.raw[id], id)
  }

  ghost predicate Lawful(site: Site, s: State) {
    Sane(s) && Configured(site, s) && SpendAddsUp(site, s) && Served(ConfigOf(site, 0), s.db, 0) && GivenUpRightly(site, s)
    && RowsMatch(site, s.db.processed)
  }

  /** Every processed row carries the content of its article. */
  ghost predicate RowsMatch(site: Site, rows: seq<ProcessedRow>) {
    forall k :: 0 <= k < |rows| ==> rows[k].fingerprint == site.articles(rows[k].rawId).fingerprint
  }

  lemma OneMoreMatches(site: Site, rows: seq<ProcessedRow>, rows': seq<ProcessedRow>)
    requires RowsMatch(site, rows)
    requires rows' == rows || (|rows'| == |rows| + 1 && rows'[..|rows|] == rows && rows'[|rows|].fingerprint == site.articles(rows'[|rows|].rawId).fingerprint)
    ensures RowsMatch(site, rows')
  {
    forall k | 0 <= k < |rows'| ensures rows'[k].fingerprint == site.articles(rows'[k].rawId).fingerprint {
      if k < |rows| { assert rows'[k] == rows[k]; }
    }
  }

  lemma StepMatches(site: Site, cfg: Config, b: Batch, work: Work)
    requires RowsMatch(site, b.db.processed) && Agrees(site, work) && Step(cfg, b, work).Ok?
    ensures RowsMatch(site, Step(cfg, b, work).value.db.processed)
  {
    var status, delay := StepHasShape(cfg, b, work);
    assert work.fingerprint == site.articles(work.id).fingerprint;
    hide Step, Transition, CountsShape, ProcessedIds, Agrees, MayLeave, RowsMatch;
    OneMoreMatches(site, b.db.processed, Step(cfg, b, work).value.db.processed);
  }

  lemma {:induction false} RunMatches(site: Site, cfg: Config, b: Batch, works: seq<Work>)
    requires RowsMatch(site, b.db.processed) && AllAgree(site, works) && EnrichmentPipeline.Run(cfg, b, works).Ok?
    ensures RowsMatch(site, EnrichmentPipeline.Run(cfg, b, works).value.db.processed)
  {
    if works != [] {
      hide Step, RowsMatch, Agrees;
      var init := works[..|works| - 1];
      assert forall k :: 0 <= k < |init| ==> init[k] == works[k];
      RunMatches(site, cfg, b, init);
      StepMatches(site, cfg, EnrichmentPipeline.Run(cfg, b, init).value, works[|works| - 1]);
    }
  }

  lemma {:induction false} SpentConcat(a: seq<Spent>, b: seq<Spent>, day: int)
    ensures SpentOn(a + b, day) == SpentOn(a, day) + SpentOn(b, day)
  {
    if b == [] {
      assert a + b == a;
    } else {
      assert (a + b)[..|a + b| - 1] == a + b[..|b| - 1];
      SpentConcat(a, b[..|b| - 1], day);
    }
  }

  lemma OwnerIsIrrelevant(site: Site, r: Owner, r': Owner, db: Db)
    requires Served(ConfigOf(site, r), db, 0)
    ensures Served(ConfigOf(site, r'), db, 0)
  {
    hide Lookup;
    forall k | 0 <= k < |db.processed|
      ensures RowKey(ConfigOf(site, r), db.processed[k]) == RowKey(ConfigOf(site, r'), db.processed[k])
    {
      assert RowKey(ConfigOf(site, r), db.processed[k]) == RowKey(ConfigOf(site, r'), db.processed[k]);
    }
  }

  lemma AgreeingIsValid(site: Site, works: seq<Work>, r: Owner)
    requires ValidSite(site) && AllAgree(site, works)
    ensures forall k :: 0 <= k < |works| ==> ValidWork(ConfigOf(site, r), works[k])
  {
    hide Valid;
    forall k | 0 <= k < |works| ensures ValidWork(ConfigOf(site, r), works[k]) {
      assert Agrees(site, works[k]) && ValidArticle(site, site.articles(works[k].id));
    }
  }

  /** What one commit adds to the counter, the rows and the cache. */
  lemma CommittingIsLawful(site: Site, s: State, limit: nat, r: Owner, works: seq<Work>)
    requires ValidSite(site) && Lawful(site, s) && Enabled(s, Commit(r, works), limit) && AllAgree(site, works)
    ensures SpendAddsUp(site, Committing(s, r, works)) && Served(ConfigOf(site, 0), Committing(s, r, works).db, 0)
    ensures RowsMatch(site, Committing(s, r, works).db.processed)
  {
    var cfg := ConfigOf(site, r);
    assert s.runs[r].selection.value.cfg == cfg;
    var start := Start(s.db, false, s.runs[r].selection.value.already);
    CommittingTables(s, r, works);
    AgreeingIsValid(site, works, r);
    OwnerIsIrrelevant(site, 0, r, s.db);
    hide EnrichmentPipeline.Run, Served, Committing, ValidWork, Sane;
    RunServes(cfg, start, works, 0);
    RunMatches(site, cfg, start, works);
    hide RowsMatch;
    RunGrowsSpend(cfg, start, works);
    OwnerIsIrrelevant(site, r, 0, Outcome(s, r, works).value.db);
    CommitSpends(site, s, r, works);
  }

  lemma CommitSpends(site: Site, s: State, r: Owner, works: seq<Work>)
    requires SpendAddsUp(site, s) && r in s.runs && s.runs[r].selection.Some? && s.runs[r].selection.value.cfg == ConfigOf(site, r)
    requires Outcome(s, r, works).Ok?
    requires SpendGrew(ConfigOf(site, r), Start(s.db, false, s.runs[r].selection.value.already), Outcome(s, r, works).value)
    ensures SpendAddsUp(site, Committing(s, r, works))
  {
    CommittingTables(s, r, works);
    hide Committing, Outcome;
    var s', batch := Committing(s, r, works), Outcome(s, r, works).value;
    forall day ensures LlmSpend.Used(s'.db.spend, DayKey(site, day)) == SpentOn(s'.spent, day) + OutsideOn(s'.outside, DayKey(site, day)) {
      SpentConcat(s.spent, batch.spent, day);
      assert DayKey(site, day) == SpendDay(ConfigOf(site, r), day);
      assert LlmSpend.Used(batch.db.spend, SpendDay(ConfigOf(site, r), day)) - SpentOn(batch.spent, day) == LlmSpend.Used(s.db.spend, SpendDay(ConfigOf(site, r), day)) - SpentOn([], day);
    }
  }

  /** A batch skips only what is below the relevance threshold. */
  lemma StepSkipsRightly(site: Site, cfg: Config, b: Batch, work: Work, id: int)
    requires cfg.policy == site.policy && Agrees(site, work) && Step(cfg, b, work).Ok?
    requires id in b.db.raw && (b.db.raw[id].status == Some(Skipped) ==> Skippable(site, id))
    ensures var raw := Step(cfg, b, work).value.db.raw; id in raw && (raw[id].status == Some(Skipped) ==> Skippable(site, id))
  {
    hide Lookup, BudgetAvailable, StoreFresh, CallAndStore, Store;
    var status, delay := StepHasShape(cfg, b, work);
    if status == Skipped && work.id == id {
      SkippedBelow(cfg, b, work, status, delay);
    }
  }

  lemma StoringSkipsNothing(cfg: Config, b: Batch, work: Work, output: Output, origin: Origin)
    ensures Store(cfg, b, work, output, origin).metrics.skipped == b.metrics.skipped
    ensures origin != FromCache ==> StoreFresh(cfg, b, work, output, origin).metrics.skipped == b.metrics.skipped
  {}

  lemma CallingSkipsNothing(cfg: Config, b: Batch, work: Work)
    ensures CallAndStore(cfg, b, work).metrics.skipped == b.metrics.skipped
  {
    hide StoreFresh, Transition;
    var called := Call(cfg, b, work);
    StoringSkipsNothing(cfg, called, work, if work.world.reply.Some? then MergeEvidence(work.world.reply.value, work.local) else work.local, FromLlm);
    StoringSkipsNothing(cfg, called, work, work.local, FromRules);
  }

  /** The skip counter only moves below the threshold. */
  lemma SkippedBelow(cfg: Config, b: Batch, work: Work, status: Status, delay: Option<int>)
    requires Step(cfg, b, work).Ok? && StepShape(cfg, b, Step(cfg, b, work).value, work, status, delay) && status == Skipped
    ensures work.relevance < cfg.policy.minRelevance
  {
    hide Lookup, BudgetAvailable, Store, StoreFresh, CallAndStore, RowsShape, ProcessedIds;
    var cached := Lookup(cfg.taxonomy, b.db.cache, KeyOf(cfg, work));
    if cached.Some? {
      StoringSkipsNothing(cfg, b.(db := b.db.(cache := Hit(b.db.cache, KeyOf(cfg, work)))), work, cached.value, FromCache);
    } else {
      var missed := b.(metrics := b.metrics.(cacheMisses := b.metrics.cacheMisses + 1));
      StoringSkipsNothing(cfg, missed, work, work.local, FromRules);
      CallingSkipsNothing(cfg, missed.(clientReady := true), work);
    }
  }

  lemma {:induction false} RunSkipsRightly(site: Site, cfg: Config, b: Batch, works: seq<Work>, id: int)
    requires cfg.policy == site.policy && AllAgree(site, works) && EnrichmentPipeline.Run(cfg, b, works).Ok?
    requires id in b.db.raw && (b.db.raw[id].status == Some(Skipped) ==> Skippable(site, id))
    ensures var raw := EnrichmentPipeline.Run(cfg, b, works).value.db.raw; id in raw && (raw[id].status == Some(Skipped) ==> Skippable(site, id))
  {
    if works != [] {
      hide Agrees, Step;
      var init := works[..|works| - 1];
      assert forall k :: 0 <= k < |init| ==> init[k] == works[k];
      RunSkipsRightly(site, cfg, b, init, id);
      StepSkipsRightly(site, cfg, EnrichmentPipeline.Run(cfg, b, init).value, works[|works| - 1], id);
    }
  }

  lemma BatchesDoNotReject(row: Row, row': Row, id: int, r: Owner, processed: set<int>)
    requires RowOutcome(row, row', id, r, processed)
    ensures row'.status == Some(QualityRejected) ==> row' == row
  {}

  lemma CommittingGivesUpRightly(site: Site, s: State, limit: nat, r: Owner, works: seq<Work>)
    requires Lawful(site, s) && Enabled(s, Commit(r, works), limit) && AllAgree(site, works)
    ensures GivenUpRightly(site, Committing(s, r, works))
  {
    var selection := s.runs[r].selection.value;
    CommitFacts(s, r, works);
    CommittingTables(s, r, works);
    hide Committing, EnrichmentPipeline.Run, Sane, Served, SpendAddsUp, Inserted, AllAgree, RowsMatch, ProcessedIds, RowOutcome, Enabled;
    var s' := Committing(s, r, works);
    forall id | id in s'.db.raw ensures RowGivenUpRightly(site, s'.db.raw[id], id) {
      assert RowGivenUpRightly(site, s.db.raw[id], id);
      RunSkipsRightly(site, selection.cfg, Start(s.db, false, selection.already), works, id);
      BatchesDoNotReject(s.db.raw[id], s'.db.raw[id], id, r, ProcessedIds(s'.db.processed));
    }
  }

  lemma OthersGiveUpRightly(site: Site, s: State, action: Action, limit: nat)
    requires GivenUpRightly(site, s) && Follows(site, action) && !action.Commit?
    ensures GivenUpRightly(site, Next(s, action, limit))
  {
    forall id | id in Next(s, action, limit).db.raw ensures RowGivenUpRightly(site, Next(s, action, limit).db.raw[id], id) {
      assert id in s.db.raw ==> RowGivenUpRightly(site, s.db.raw[id], id);
      hide NormalizationDelay, Skippable, Selected, GivenUpRightly, ProcessedIds, Claimable;
    }
  }

  lemma OthersKeepTables(site: Site, s: State, action: Action, limit: nat)
    requires !action.Commit?
    ensures var s' := Next(s, action, limit);
            && (!action.SpendElsewhere? ==> s'.db.spend == s.db.spend && s'.spent == s.spent && s'.outside == s.outside)
            && s'.db.processed == s.db.processed && s'.db.cache == s.db.cache
  {
    hide Enabled;
  }

  lemma SameChargesAddUp(site: Site, s: State, s': State)
    requires SpendAddsUp(site, s) && s'.db.spend == s.db.spend && s'.spent == s.spent && s'.outside == s.outside
    ensures SpendAddsUp(site, s')
  {}

  lemma ChargingAddsUp(site: Site, s: State, charge: Action, limit: nat)
    requires SpendAddsUp(site, s) && charge.SpendElsewhere?
    ensures SpendAddsUp(site, Next(s, charge, limit))
  {
    var s', key := Next(s, charge, limit), LlmSpend.SpendKey(LlmSpend.Bucket(charge.tenant), charge.day);
    assert s'.spent == s.spent && s'.outside == s.outside + [OutsideCharge(key, charge.tokens)];
    assert s'.outside[..|s.outside|] == s.outside;
    assert s'.db.spend == LlmSpend.Increment(s.db.spend, key, charge.tokens, 1);
    hide SpentOn, Next;
    forall day ensures LlmSpend.Used(s'.db.spend, DayKey(site, day)) == SpentOn(s'.spent, day) + OutsideOn(s'.outside, DayKey(site, day)) {
      assert LlmSpend.Used(s.db.spend, DayKey(site, day)) == SpentOn(s.spent, day) + OutsideOn(s.outside, DayKey(site, day));
    }
  }

  lemma NextStaysConfigured(site: Site, s: State, action: Action, limit: nat)
    requires Configured(site, s) && Follows(site, action)
    ensures Configured(site, Next(s, action, limit))
  {
    hide Outcome, Selected;
  }

  lemma CommitStaysLawful(site: Site, s: State, limit: nat, r: Owner, works: seq<Work>)
    requires ValidSite(site) && Lawful(site, s) && Enabled(s, Commit(r, works), limit) && AllAgree(site, works)
    ensures Lawful(site, Next(s, Commit(r, works), limit))
  {
    NextStaysSane(s, Commit(r, works), limit);
    NextStaysConfigured(site, s, Commit(r, works), limit);
    CommittingIsLawful(site, s, limit, r, works);
    CommittingGivesUpRightly(site, s, limit, r, works);
    hide Sane, Configured, SpendAddsUp, Served, GivenUpRightly, RowsMatch, Committing;
  }

  lemma OthersStayLawful(site: Site, s: State, action: Action, limit: nat)
    requires Lawful(site, s) && Follows(site, action) && !action.Commit?
    ensures Lawful(site, Next(s, action, limit))
  {
    NextStaysSane(s, action, limit);
    NextStaysConfigured(site, s, action, limit);
    OthersKeepTables(site, s, action, limit);
    OthersGiveUpRightly(site, s, action, limit);
    SameTablesServe(site, s.db, Next(s, action, limit).db);
    if action.SpendElsewhere? {
      ChargingAddsUp(site, s, action, limit);
    } else {
      SameChargesAddUp(site, s, Next(s, action, limit));
    }
    hide Sane, Configured, GivenUpRightly, RowsMatch, Next, Served, Enabled, Follows, SpendAddsUp;
  }

  lemma SameTablesServe(site: Site, db: Db, db': Db)
    requires Served(ConfigOf(site, 0), db, 0) && db'.processed == db.processed && db'.cache == db.cache
    ensures Served(ConfigOf(site, 0), db', 0)
  {
    hide Lookup;
  }

  lemma NextStaysLawful(site: Site, s: State, action: Action, limit: nat)
    requires ValidSite(site) && Lawful(site, s) && Follows(site, action)
    ensures Lawful(site, Next(s, action, limit))
  {
    hide Lawful, ValidSite, AllAgree;
    if !action.Commit? {
      OthersStayLawful(site, s, action, limit);
    } else if Enabled(s, action, limit) {
      CommitStaysLawful(site, s, limit, action.r, action.works);
    }
  }

  lemma {:induction false} StepsAreLawful(site: Site, s: State, actions: seq<Action>, limit: nat)
    requires ValidSite(site) && Lawful(site, s) && AllFollow(site, actions)
    ensures Lawful(site, Steps(s, actions, limit))
  {
    if actions != [] {
      hide Lawful, ValidSite, Next, Follows;
      var init := actions[..|actions| - 1];
      assert forall k :: 0 <= k < |init| ==> init[k] == actions[k];
      StepsAreLawful(site, s, init, limit);
      NextStaysLawful(site, Steps(s, init, limit), actions[|actions| - 1], limit);
    }
  }

  lemma HistoriesAreLawful(site: Site, actions: seq<Action>, limit: nat)
    requires ValidSite(site) && AllFollow(site, actions)
    ensures Lawful(site, After(actions, limit))
  {
    assert Lawful(site, NOTHING);
    StepsAreLawful(site, NOTHING, actions, limit);
  }

  /** After every history each day's durable counter is the sum of what committed batches spent that
      day and of what agent turns and embeddings charged to the same row. */
  lemma DurableSpendAddsUp(site: Site, actions: seq<Action>, limit: nat, day: int)
    requires ValidSite(site) && AllFollow(site, actions)
    ensures var s := After(actions, limit);
            LlmSpend.Used(s.db.spend, DayKey(site, day)) == SpentOn(s.spent, day) + OutsideOn(s.outside, DayKey(site, day))
  {
    HistoriesAreLawful(site, actions, limit);
  }

  /** After every history of any number of workers, all rows with one content carry one output, which
      is the one in the cache, and only the first of them was not a copy. */
  lemma ContentSharesOneOutput(site: Site, actions: seq<Action>, limit: nat, j: nat, k: nat)
    requires ValidSite(site) && AllFollow(site, actions)
    requires var rows := After(actions, limit).db.processed; j < k < |rows| && rows[j].fingerprint == rows[k].fingerprint
    ensures var s := After(actions, limit); var rows := s.db.processed;
            && rows[j].output == rows[k].output && rows[k].origin == FromCache
            && Lookup(site.taxonomy, s.db.cache, RowKey(ConfigOf(site, 0), rows[k])) == Some(rows[k].output)
  {
    HistoriesAreLawful(site, actions, limit);
    hide Lookup, Steps, Sane;
    var rows := After(actions, limit).db.processed;
    assert RowKey(ConfigOf(site, 0), rows[j]) == RowKey(ConfigOf(site, 0), rows[k]);
  }

  // ----- Which articles can still be settled

  function KeyFor(site: Site, id: int): CacheKey {
    CacheKey(site.articles(id).fingerprint, site.policy.policyVersion, site.policy.taxonomyVersion)
  }

  predicate Cached(site: Site, s: State, id: int) {
    Lookup(site.taxonomy, s.db.cache, KeyFor(site, id)).Some?
  }

  /** The rules are sure of it, or a call for it fits both caps and there is somebody to call. */
  predicate Enrichable(site: Site, id: int) {
    var a := site.articles(id);
    && !Skippable(site, id)
    && (a.confidence >= site.policy.minDeterministicConfidence
        || (EstimatedTokens(a.chars) <= site.policy.maxLlmTokens && EstimatedTokens(a.chars) <= site.dailyBudget && site.hasClient))
  }

  /** An article with the same content that can pass and that a batch can enrich; it may be the article itself. */
  predicate IsTwin(site: Site, id: int, twin: int) {
    site.articles(twin).fingerprint == site.articles(id).fingerprint && Good in site.articles(twin).verdicts && Enrichable(site, twin)
  }

  ghost predicate HasTwin(site: Site, id: int) {
    exists twin :: IsTwin(site, id, twin)
  }

  /** Such an article that was not rejected at an earlier attempt. */
  ghost predicate HasOpenTwin(site: Site, s: State, id: int) {
    exists twin :: IsTwin(site, id, twin) && !SettledIn(s, twin)
  }

  ghost predicate Hopeful(site: Site, s: State, id: int) {
    || Bad in site.articles(id).verdicts
    || (Good in site.articles(id).verdicts && (Skippable(site, id) || Cached(site, s, id) || HasOpenTwin(site, s, id)))
  }

  ghost predicate SettledDb(db: Db, id: int) {
    id in ProcessedIds(db.processed) || (id in db.raw && Final(db.raw[id].status))
  }

  ghost predicate SettledIn(s: State, id: int) {
    SettledDb(s.db, id)
  }

  // ----- A hopeful article is settled by some continuation

  ghost predicate HoldsOnly(s: State, r: Owner, id: int) {
    && r in s.runs && s.runs[r].selection.None? && s.runs[r].held.Keys == {id}
    && id in s.db.raw && id !in ProcessedIds(s.db.processed)
    && s.db.raw[id].owner == Some(r) && s.db.raw[id].status == Some(Processing)
    && (s.db.raw[id].nextAttempt.None? || s.db.raw[id].nextAttempt.value <= s.clock)
  }

  /** A new worker can claim one claimable article. */
  lemma IdleCanClaim(s: State, limit: nat, r: Owner, id: int)
    requires s.runs == map[] && r !in s.used
    requires id in s.db.raw && Claimable(s.db.raw[id], s.clock) && id !in ProcessedIds(s.db.processed)
    ensures var s' := Steps(s, [Begin(r), Claim(r, {id})], limit);
            && s'.clock == s.clock && HoldsOnly(s', r, id)
            && s'.db.spend == s.db.spend && s'.db.cache == s.db.cache
  {
    hide Committing, Failing, Normalizing, NormalizingUnleased, Selecting, Outcome;
    var s1 := Next(s, Begin(r), limit);
    assert s1 == s.(runs := map[r := LiveRun(s.clock, map[], {}, None)], used := s.used + {r});
    assert CanClaim(s1, s1.runs[r], id);
    assert Enabled(s1, Claim(r, {id}), limit);
    assert Next(s1, Claim(r, {id}), limit) == Claiming(s1, r, {id});
    OneMore(s, [], Begin(r), limit);
    OneMore(s, [Begin(r)], Claim(r, {id}), limit);
    assert [] + [Begin(r)] == [Begin(r)];
    assert [Begin(r)] + [Claim(r, {id})] == [Begin(r), Claim(r, {id})];
  }

  /** What a batch of its own makes of an article on a day nothing was spent on. */
  lemma LoneArticle(site: Site, r: Owner, b: Batch, work: Work)
    requires ValidSite(site) && Agrees(site, work) && !work.world.raises
    requires work.world.reply.Some? && b.callsReserved == 0 && b.tokensReserved == 0
    requires LlmSpend.Used(b.db.spend, SpendDay(ConfigOf(site, r), work.world.day)) == 0
    requires work.id in b.db.raw && b.db.raw[work.id].owner == Some(r)
    requires Skippable(site, work.id) || Enrichable(site, work.id) || Lookup(site.taxonomy, b.db.cache, KeyFor(site, work.id)).Some?
    ensures Step(ConfigOf(site, r), b, work).Ok? && LeavesSettled(site, Step(ConfigOf(site, r), b, work).value.db, work.id)
    ensures Enrichable(site, work.id) || Lookup(site.taxonomy, b.db.cache, KeyFor(site, work.id)).Some? ==>
              LeavesCached(site, Step(ConfigOf(site, r), b, work).value.db, work.id)
  {
    var cfg := ConfigOf(site, r);
    assert ValidArticle(site, site.articles(work.id));
    assert KeyOf(cfg, work) == KeyFor(site, work.id);
    hide Lookup, Step, Valid, ProcessedIds, Agrees, LlmSpend.Used, KeyOf;
    assert work.relevance == site.articles(work.id).relevance && work.confidence == site.articles(work.id).confidence by {
      AgreesMeans(site, work);
    }
    AgreesMeans(site, work);
    if Lookup(site.taxonomy, b.db.cache, KeyFor(site, work.id)).Some? {
      CachedArticle(cfg, b, work);
    } else if Skippable(site, work.id) {
      SkippedArticle(cfg, b, work);
    } else if work.confidence >= cfg.policy.minDeterministicConfidence {
      SureArticle(cfg, b, work);
    } else {
      CalledArticle(cfg, b, work);
    }
  }

  lemma AgreesMeans(site: Site, work: Work)
    requires Agrees(site, work)
    ensures var a := site.articles(work.id);
            && work.relevance == a.relevance && work.confidence == a.confidence && work.chars == a.chars && work.local == a.local
            && work.fingerprint == a.fingerprint && work.world.clientWorks == site.hasClient
            && (work.world.reply.Some? ==> Valid(site.taxonomy, work.world.reply.value))
  {}

  ghost predicate LeavesCached(site: Site, db: Db, id: int) {
    id in ProcessedIds(db.processed) && Lookup(site.taxonomy, db.cache, KeyFor(site, id)).Some?
  }

  ghost predicate LeavesSettled(site: Site, db: Db, id: int) {
    id in ProcessedIds(db.processed) || (id in db.raw && db.raw[id].status == Some(Skipped))
  }

  lemma SkippedArticle(cfg: Config, b: Batch, work: Work)
    requires Lookup(cfg.taxonomy, b.db.cache, KeyOf(cfg, work)).None? && !work.world.raises
    requires UnitInterval(work.relevance) && UnitInterval(work.confidence) && work.relevance < cfg.policy.minRelevance
    requires work.id in b.db.raw && b.db.raw[work.id].owner == cfg.owner
    ensures Step(cfg, b, work).Ok?
    ensures var raw := Step(cfg, b, work).value.db.raw; work.id in raw && raw[work.id].status == Some(Skipped)
  {
    hide Lookup, StoreFresh, CallAndStore, BudgetAvailable;
  }

  lemma CachedArticle(cfg: Config, b: Batch, work: Work)
    requires Lookup(cfg.taxonomy, b.db.cache, KeyOf(cfg, work)).Some? && !work.world.raises
    ensures Step(cfg, b, work).Ok? && work.id in ProcessedIds(Step(cfg, b, work).value.db.processed)
    ensures Lookup(cfg.taxonomy, Step(cfg, b, work).value.db.cache, KeyOf(cfg, work)).Some?
  {
    var hit := b.(db := b.db.(cache := Hit(b.db.cache, KeyOf(cfg, work))));
    var output := Lookup(cfg.taxonomy, b.db.cache, KeyOf(cfg, work)).value;
    StoreHasShape(cfg, hit, work, output, FromCache);
    StepKeepsCached(cfg, b, work, KeyOf(cfg, work));
    hide Lookup, Hit, Store;
  }

  lemma FreshIsCached(cfg: Config, b: Batch, work: Work, output: Output, origin: Origin)
    requires origin != FromCache && Valid(cfg.taxonomy, output)
    ensures work.id in ProcessedIds(StoreFresh(cfg, b, work, output, origin).db.processed)
    ensures Lookup(cfg.taxonomy, StoreFresh(cfg, b, work, output, origin).db.cache, KeyOf(cfg, work)) == Some(output)
  {
    hide Lookup, Put, Store, Valid;
    var original := if origin == FromRules then Deterministic else Llm;
    var put := b.(db := b.db.(cache := Put(b.db.cache, KeyOf(cfg, work), output, original)));
    PutThenGet(cfg.taxonomy, b.db.cache, KeyOf(cfg, work), output, original, KeyOf(cfg, work));
    StoreHasShape(cfg, put, work, output, origin);
    StoreSpendsNothing(cfg, put, work, output, origin);
  }

  lemma SureArticle(cfg: Config, b: Batch, work: Work)
    requires Lookup(cfg.taxonomy, b.db.cache, KeyOf(cfg, work)).None? && !work.world.raises && Valid(cfg.taxonomy, work.local)
    requires UnitInterval(work.relevance) && UnitInterval(work.confidence)
    requires work.relevance >= cfg.policy.minRelevance && work.confidence >= cfg.policy.minDeterministicConfidence
    ensures Step(cfg, b, work).Ok? && work.id in ProcessedIds(Step(cfg, b, work).value.db.processed)
    ensures Lookup(cfg.taxonomy, Step(cfg, b, work).value.db.cache, KeyOf(cfg, work)).Some?
  {
    hide Lookup, StoreFresh, CallAndStore, Valid, ProcessedIds, BudgetAvailable;
    var missed := b.(metrics := b.metrics.(cacheMisses := b.metrics.cacheMisses + 1));
    FreshIsCached(cfg, missed, work, work.local, FromRules);
  }

  lemma CalledArticle(cfg: Config, b: Batch, work: Work)
    requires Lookup(cfg.taxonomy, b.db.cache, KeyOf(cfg, work)).None? && !work.world.raises
    requires UnitInterval(work.relevance) && UnitInterval(work.confidence) && ValidPolicy(cfg.policy)
    requires work.relevance >= cfg.policy.minRelevance && work.confidence < cfg.policy.minDeterministicConfidence
    requires work.world.reply.Some? && Valid(cfg.taxonomy, work.world.reply.value)
    requires cfg.hasFactory && work.world.clientWorks && b.callsReserved == 0 && b.tokensReserved == 0
    requires EstimatedTokens(work.chars) <= cfg.policy.maxLlmTokens && EstimatedTokens(work.chars) <= cfg.dailyBudget
    requires LlmSpend.Used(b.db.spend, SpendDay(cfg, work.world.day)) == 0
    ensures Step(cfg, b, work).Ok? && work.id in ProcessedIds(Step(cfg, b, work).value.db.processed)
    ensures Lookup(cfg.taxonomy, Step(cfg, b, work).value.db.cache, KeyOf(cfg, work)).Some?
  {
    hide Lookup, StoreFresh, Call, Valid, ProcessedIds, MergeEvidence;
    var missed := b.(metrics := b.metrics.(cacheMisses := b.metrics.cacheMisses + 1));
    assert BudgetAvailable(cfg, missed, work);
    assert Decide(false, work.relevance, work.confidence, cfg.policy, true) == Ok(ByLlm);
    MergeKeepsValid(cfg.taxonomy, work.world.reply.value, work.local);
    FreshIsCached(cfg, Call(cfg, missed.(clientReady := true), work), work, MergeEvidence(work.world.reply.value, work.local), FromLlm);
  }

  function LoneWork(site: Site, id: int, now: int): Work {
    var a := site.articles(id);
    Work(id, a.fingerprint, a.chars, a.relevance, a.confidence, a.local,
         EnrichmentPipeline.World(site.hasClient, Some(a.local), 0, now / DAY, now, false))
  }

  lemma LoneWorkAgrees(site: Site, id: int, now: int)
    requires ValidSite(site) && Good in site.articles(id).verdicts
    ensures Agrees(site, LoneWork(site, id, now))
  {
    assert ValidArticle(site, site.articles(id));
    hide Valid;
  }

  /** On this day the tenant has spent nothing. */
  predicate Unspent(site: Site, db: Db, day: int) {
    LlmSpend.Used(db.spend, DayKey(site, day)) == 0
  }

  ghost predicate CanSettleNow(site: Site, db: Db, id: int) {
    Skippable(site, id) || Enrichable(site, id) || Lookup(site.taxonomy, db.cache, KeyFor(site, id)).Some?
  }

  lemma ClaimedIsSelected(site: Site, s: State, limit: nat, r: Owner, id: int)
    requires HoldsOnly(s, r, id)
    ensures var work := LoneWork(site, id, s.clock);
            Next(s, Select(r, ConfigOf(site, r), [work]), limit)
              == s.(runs := s.runs[r := s.runs[r].(selection := Some(Selection(ConfigOf(site, r), [work], 0)))])
  {
    var work, cfg := LoneWork(site, id, s.clock), ConfigOf(site, r);
    assert Ids([work]) == {id};
    assert [work][..0] == [] && Selected(cfg, s.db, [], s.clock) == [];
    assert Selected(cfg, s.db, [work], s.clock) == [work];
    assert Enabled(s, Select(r, cfg, [work]), limit);
  }

  lemma BatchOfOne(cfg: Config, b: Batch, work: Work)
    ensures EnrichmentPipeline.Run(cfg, b, [work]) == Step(cfg, b, work)
  {
    hide Step;
    assert [work][..0] == [] && EnrichmentPipeline.Run(cfg, b, []) == Ok(b);
  }

  lemma CommitHappens(s: State, limit: nat, r: Owner, works: seq<Work>)
    requires Enabled(s, Commit(r, works), limit)
    ensures Next(s, Commit(r, works), limit).db == Outcome(s, r, works).value.db
  {
    CommittingTables(s, r, works);
    hide Outcome, Committing;
  }

  lemma CommitOne(s: State, limit: nat, r: Owner, cfg: Config, work: Work)
    requires r in s.runs && s.runs[r].selection == Some(Selection(cfg, [work], 0)) && work.world.now == s.clock
    requires EnrichmentPipeline.Run(cfg, Start(s.db, false, 0), [work]).Ok?
    ensures Next(s, Commit(r, [work]), limit).db == EnrichmentPipeline.Run(cfg, Start(s.db, false, 0), [work]).value.db
  {
    hide EnrichmentPipeline.Run, Start;
    assert Outcome(s, r, [work]) == EnrichmentPipeline.Run(cfg, Start(s.db, false, 0), [work]);
    assert Enabled(s, Commit(r, [work]), limit);
    CommitHappens(s, limit, r, [work]);
  }

  lemma LoneStep(site: Site, r: Owner, b: Batch, id: int, now: int)
    requires ValidSite(site) && Good in site.articles(id).verdicts && CanSettleNow(site, b.db, id) && Unspent(site, b.db, now / DAY)
    requires b.callsReserved == 0 && b.tokensReserved == 0 && id in b.db.raw && b.db.raw[id].owner == Some(r)
    ensures var batch := EnrichmentPipeline.Run(ConfigOf(site, r), b, [LoneWork(site, id, now)]);
            && batch.Ok? && LeavesSettled(site, batch.value.db, id)
            && (Enrichable(site, id) || Lookup(site.taxonomy, b.db.cache, KeyFor(site, id)).Some? ==> LeavesCached(site, batch.value.db, id))
  {
    var work := LoneWork(site, id, now);
    LoneWorkAgrees(site, id, now);
    BatchOfOne(ConfigOf(site, r), b, work);
    hide Step, Lookup, Agrees, ValidSite, LeavesSettled, LeavesCached, LlmSpend.Used, Skippable, Enrichable, EnrichmentPipeline.Run;
    LoneArticle(site, r, b, work);
  }

  lemma SelectedIsCommitted(site: Site, s: State, limit: nat, r: Owner, id: int)
    requires ValidSite(site) && Good in site.articles(id).verdicts && CanSettleNow(site, s.db, id) && Unspent(site, s.db, s.clock / DAY)
    requires r in s.runs && s.runs[r].selection == Some(Selection(ConfigOf(site, r), [LoneWork(site, id, s.clock)], 0))
    requires id in s.db.raw && s.db.raw[id].owner == Some(r)
    ensures var db' := Next(s, Commit(r, [LoneWork(site, id, s.clock)]), limit).db;
            LeavesSettled(site, db', id) && (Enrichable(site, id) || Cached(site, s, id) ==> LeavesCached(site, db', id))
  {
    LoneStep(site, r, Start(s.db, false, 0), id, s.clock);
    CommitOne(s, limit, r, ConfigOf(site, r), LoneWork(site, id, s.clock));
    hide Lookup, ValidSite, LeavesSettled, LeavesCached, Unspent, Skippable, Enrichable, EnrichmentPipeline.Run, ConfigOf, LoneWork, Next;
  }

  /** A worker that has claimed one article that can be settled settles it. */
  lemma ClaimedCanSettle(site: Site, s: State, limit: nat, r: Owner, id: int)
    requires ValidSite(site) && Good in site.articles(id).verdicts && CanSettleNow(site, s.db, id) && Unspent(site, s.db, s.clock / DAY)
    requires HoldsOnly(s, r, id)
    ensures var work := LoneWork(site, id, s.clock);
            var db' := Steps(s, [Select(r, ConfigOf(site, r), [work]), Commit(r, [work])], limit).db;
            LeavesSettled(site, db', id) && (Enrichable(site, id) || Cached(site, s, id) ==> LeavesCached(site, db', id))
  {
    var work := LoneWork(site, id, s.clock);
    var select, commit := Select(r, ConfigOf(site, r), [work]), Commit(r, [work]);
    ClaimedIsSelected(site, s, limit, r, id);
    SelectedIsCommitted(site, Next(s, select, limit), limit, r, id);
    hide Next, ProcessedIds, LoneWork, ConfigOf, LeavesCached, LeavesSettled, ValidSite, Lookup;
    OneMore(s, [], select, limit);
    OneMore(s, [select], commit, limit);
    assert [] + [select] == [select];
    assert [select] + [commit] == [select, commit];
  }

  lemma WakesFrom(s: State, id: int, time: int)
    requires Sane(s) && id in s.db.raw && !Final(s.db.raw[id].status) && WakeTime(s.db.raw[id], s.clock) <= time
    ensures Claimable(s.db.raw[id], time) && s.clock <= time
  {}

  lemma UnspentDay(site: Site, db: Db) returns (first: int)
    ensures first >= 0 && forall day :: day >= first ==> Unspent(site, db, day)
  {
    var days := set key | key in db.spend :: key.day;
    first := Bounded(days);
    if first < 0 { first := 0; }
    forall day | day >= first ensures Unspent(site, db, day) {
      assert DayKey(site, day) in db.spend ==> day in days;
    }
  }

  /** All live runs crash, time passes until the article is due and a new day has begun, and a new
      worker claims it. */
  lemma Reclaim(site: Site, s: State, limit: nat, id: int) returns (more: seq<Action>, r: Owner)
    requires Sane(s) && id in s.db.raw && !SettledIn(s, id)
    ensures AllFollow(site, more)
    ensures var s' := Steps(s, more, limit);
            && HoldsOnly(s', r, id) && Unspent(site, s'.db, s'.clock / DAY) && s'.db.cache == s.db.cache
  {
    var first := UnspentDay(site, s.db);
    var time := Later(WakeTime(s.db.raw[id], s.clock), Some(first * DAY));
    WakesFrom(s, id, time);
    assert time / DAY >= first && Unspent(site, s.db, time / DAY);
    var idle := s.(runs := map[], clock := time);
    var rest := Resting(site, s, limit, time);
    r := Bounded(s.used);
    IdleCanClaim(idle, limit, r, id);
    hide Steps, Next, Claimable, HoldsOnly, Sane;
    StepsCompose(s, rest, [Begin(r), Claim(r, {id})], limit);
    more := rest + [Begin(r), Claim(r, {id})];
  }

  /** Every run crashes and then time passes. */
  lemma Resting(site: Site, s: State, limit: nat, time: int) returns (rest: seq<Action>)
    requires s.clock <= time
    ensures Steps(s, rest, limit) == s.(runs := map[], clock := time) && AllFollow(site, rest)
  {
    var crashes := AllCrash(s, limit);
    var tick := Tick(time - s.clock);
    TickHappens(s.(runs := map[]), limit, time);
    CrashesFollow(site, crashes, tick);
    hide Next, Steps, AllFollow;
    OneMore(s, crashes, tick, limit);
    rest := crashes + [tick];
  }

  lemma CrashesFollow(site: Site, crashes: seq<Action>, tick: Action)
    requires tick.Tick? && forall k :: 0 <= k < |crashes| ==> crashes[k].Crash?
    ensures AllFollow(site, crashes + [tick])
  {}

  lemma TickHappens(s: State, limit: nat, time: int)
    requires s.runs == map[] && s.clock <= time
    ensures Next(s, Tick(time - s.clock), limit) == s.(clock := time)
  {}

  lemma FollowConcat(site: Site, a: seq<Action>, b: seq<Action>)
    requires AllFollow(site, a) && AllFollow(site, b)
    ensures AllFollow(site, a + b)
  {
    hide Follows;
  }

  lemma SettleNow(site: Site, s: State, limit: nat, id: int) returns (more: seq<Action>)
    requires ValidSite(site) && Sane(s) && id in s.db.raw && !SettledIn(s, id)
    requires Good in site.articles(id).verdicts && CanSettleNow(site, s.db, id)
    ensures AllFollow(site, more) && SettledIn(Steps(s, more, limit), id)
    ensures Enrichable(site, id) || Cached(site, s, id) ==> Cached(site, Steps(s, more, limit), id)
  {
    var claim, r := Reclaim(site, s, limit, id);
    var s1 := Steps(s, claim, limit);
    var work := LoneWork(site, id, s1.clock);
    var settle := [Select(r, ConfigOf(site, r), [work]), Commit(r, [work])];
    ClaimedCanSettle(site, s1, limit, r, id);
    LoneWorkAgrees(site, id, s1.clock);
    SettleFollows(site, r, work);
    hide Steps, Lookup, Agrees, ValidSite, Unspent, HoldsOnly, Skippable, Enrichable, LoneWork, Sane, AllFollow;
    StepsCompose(s, claim, settle, limit);
    FollowConcat(site, claim, settle);
    more := claim + settle;
  }

  lemma SettleFollows(site: Site, r: Owner, work: Work)
    requires Agrees(site, work)
    ensures AllFollow(site, [Select(r, ConfigOf(site, r), [work]), Commit(r, [work])])
  {
    hide Agrees;
  }

  lemma RejectNow(site: Site, s: State, limit: nat, id: int) returns (more: seq<Action>)
    requires Sane(s) && id in s.db.raw && !SettledIn(s, id) && Bad in site.articles(id).verdicts
    ensures AllFollow(site, more) && SettledIn(Steps(s, more, limit), id)
  {
    var claim, r := Reclaim(site, s, limit, id);
    var s1 := Steps(s, claim, limit);
    OneMore(s, claim, Normalize(r, id, Bad), limit);
    NormalizeHappens(s1, r, id, Bad, limit);
    hide Steps, Next, Sane, Unspent;
    more := claim + [Normalize(r, id, Bad)];
  }

  /** In a lawful state a processed article left its output in the cache. */
  lemma ProcessedIsCached(site: Site, s: State, id: int)
    requires Lawful(site, s) && id in ProcessedIds(s.db.processed)
    ensures Cached(site, s, id)
  {
    hide Lookup, Sane, Configured, SpendAddsUp, GivenUpRightly;
    var k :| 0 <= k < |s.db.processed| && s.db.processed[k].rawId == id;
    assert RowKey(ConfigOf(site, 0), s.db.processed[k]) == KeyFor(site, id);
  }

  /** Without an open one, all twins of an uncached article were rejected. */
  lemma ClosedTwinsAreGone(site: Site, s: State, id: int)
    requires Lawful(site, s) && !Cached(site, s, id) && !HasOpenTwin(site, s, id)
    ensures TwinsGone(site, s, id)
  {
    forall twin | IsTwin(site, id, twin) ensures RejectedIn(s, twin) {
      assert SettledIn(s, twin);
      TwinsShareTheCache(site, s, id, twin);
      if twin in ProcessedIds(s.db.processed) { ProcessedIsCached(site, s, twin); }
    }
  }

  ghost predicate RejectedIn(s: State, id: int) {
    && id in s.db.raw && s.db.raw[id].status == Some(QualityRejected) && s.db.raw[id].owner.None?
    && id !in ProcessedIds(s.db.processed)
  }

  ghost predicate TwinsGone(site: Site, s: State, id: int) {
    forall twin :: IsTwin(site, id, twin) ==> RejectedIn(s, twin)
  }

  lemma CommitKeepsRows(s: State, limit: nat, r: Owner, works: seq<Work>)
    requires Sane(s) && Enabled(s, Commit(r, works), limit)
    ensures s.db.raw.Keys <= Next(s, Commit(r, works), limit).db.raw.Keys
  {
    CommitFacts(s, r, works);
    CommitHappens(s, limit, r, works);
    hide Outcome, Next, Sane, Inserted, ProcessedIds;
  }

  lemma RowsRemain(s: State, action: Action, limit: nat)
    requires Sane(s)
    ensures s.db.raw.Keys <= Next(s, action, limit).db.raw.Keys
  {
    hide Sane, Committing, Released, Claimed, NormalizedRow;
    if action.Commit? && Enabled(s, action, limit) {
      hide Next, Enabled;
      CommitKeepsRows(s, limit, action.r, action.works);
    }
  }

  lemma {:induction false} RowsAlwaysRemain(s: State, actions: seq<Action>, limit: nat)
    requires Sane(s)
    ensures s.db.raw.Keys <= Steps(s, actions, limit).db.raw.Keys
  {
    if actions != [] {
      hide Sane, Next;
      RowsAlwaysRemain(s, actions[..|actions| - 1], limit);
      RunsStaySane(s, actions[..|actions| - 1], limit);
      RowsRemain(Steps(s, actions[..|actions| - 1], limit), actions[|actions| - 1], limit);
    }
  }

  lemma TwinsShareTheCache(site: Site, s: State, id: int, twin: int)
    requires site.articles(twin).fingerprint == site.articles(id).fingerprint
    ensures Cached(site, s, twin) == Cached(site, s, id)
  {}

  /** Once an article is in the cache, it is settled or can be. */
  lemma CachedCanSettle(site: Site, s: State, limit: nat, id: int) returns (more: seq<Action>)
    requires ValidSite(site) && Sane(s) && id in s.db.raw && Good in site.articles(id).verdicts && Cached(site, s, id)
    ensures AllFollow(site, more) && SettledIn(Steps(s, more, limit), id)
  {
    more := [];
    if !SettledIn(s, id) {
      hide Sane, Lookup, ValidSite;
      more := SettleNow(site, s, limit, id);
    }
  }

  /** The twin arrives if it has not. */
  lemma TwinArrives(site: Site, s: State, limit: nat, twin: int) returns (first: seq<Action>)
    requires Sane(s) && !SettledIn(s, twin)
    ensures AllFollow(site, first)
    ensures var s1 := Steps(s, first, limit); Sane(s1) && s.db.raw.Keys <= s1.db.raw.Keys && twin in s1.db.raw && !SettledIn(s1, twin)
  {
    first := if twin in s.db.raw then [] else [Arrive(twin)];
    RunsStaySane(s, first, limit);
    hide Sane;
    if twin in s.db.raw {
      assert Steps(s, first, limit) == s;
    } else {
      assert [] + first == first;
      OneMore(s, [], Arrive(twin), limit);
      assert Steps(s, first, limit).db.raw == s.db.raw[twin := ARRIVED];
    }
  }

  /** First the twin is settled, which puts the content in the cache; then the article. */
  lemma TwinCanSettle(site: Site, s: State, limit: nat, id: int, twin: int) returns (more: seq<Action>)
    requires ValidSite(site) && Sane(s) && id in s.db.raw && Good in site.articles(id).verdicts
    requires IsTwin(site, id, twin) && !SettledIn(s, twin)
    ensures AllFollow(site, more) && SettledIn(Steps(s, more, limit), id)
  {
    hide Steps, Lookup, ValidSite, Enrichable, Sane, AllFollow, SettledIn;
    var first := TwinArrives(site, s, limit, twin);
    var s1 := Steps(s, first, limit);
    var second := SettleNow(site, s1, limit, twin);
    var s2 := Steps(s1, second, limit);
    RunsStaySane(s1, second, limit);
    RowsAlwaysRemain(s1, second, limit);
    TwinsShareTheCache(site, s2, id, twin);
    var third := CachedCanSettle(site, s2, limit, id);
    StepsCompose(s1, second, third, limit);
    StepsCompose(s, first, second + third, limit);
    FollowConcat(site, second, third);
    FollowConcat(site, first, second + third);
    more := first + (second + third);
  }

  lemma HopefulCanSettle(site: Site, s: State, limit: nat, id: int) returns (more: seq<Action>)
    requires ValidSite(site) && Sane(s) && id in s.db.raw && !SettledIn(s, id) && Hopeful(site, s, id)
    ensures AllFollow(site, more) && SettledIn(Steps(s, more, limit), id)
  {
    hide Lookup, ValidSite, SettledIn, Steps, AllFollow, Sane, IsTwin;
    if Bad in site.articles(id).verdicts {
      more := RejectNow(site, s, limit, id);
    } else if Skippable(site, id) || Cached(site, s, id) {
      more := SettleNow(site, s, limit, id);
    } else {
      var twin :| IsTwin(site, id, twin) && !SettledIn(s, twin);
      more := TwinCanSettle(site, s, limit, id, twin);
    }
  }

  // ----- An article without hope is never settled

  /** It cannot be rejected, and not skipped once it passes. */
  ghost predicate Hopeless(site: Site, id: int) {
    Bad !in site.articles(id).verdicts && (Good in site.articles(id).verdicts ==> !Skippable(site, id))
  }

  /** No work item of this batch can put the content in the cache. */
  ghost predicate NoTwinAmong(site: Site, works: seq<Work>, id: int) {
    Good in site.articles(id).verdicts ==> forall k :: 0 <= k < |works| ==> !IsTwin(site, id, works[k].id)
  }

  /** It is not settled and its content is not in the cache, and no client can be ready that cannot be built. */
  ghost predicate StuckIn(site: Site, b: Batch, id: int) {
    && !SettledDb(b.db, id)
    && (Good in site.articles(id).verdicts ==> Lookup(site.taxonomy, b.db.cache, KeyFor(site, id)).None?)
    && (b.clientReady ==> site.hasClient)
    && forall day :: LlmSpend.Used(b.db.spend, DayKey(site, day)) >= 0
  }

  /** For what it need not skip but cannot enrich, a batch has no tokens or nobody to call. */
  lemma CannotBeCalled(site: Site, r: Owner, b: Batch, work: Work)
    requires Agrees(site, work) && (b.clientReady ==> site.hasClient)
    requires LlmSpend.Used(b.db.spend, DayKey(site, work.world.day)) >= 0
    requires !Enrichable(site, work.id)
    ensures Skippable(site, work.id) ||
            (work.confidence < site.policy.minDeterministicConfidence
             && (!BudgetAvailable(ConfigOf(site, r), b, work) || !(b.clientReady || work.world.clientWorks)))
  {
    AgreesMeans(site, work);
    hide Agrees;
    assert DayKey(site, work.world.day) == SpendDay(ConfigOf(site, r), work.world.day);
  }

  /** A batch defers, and stores nothing for, an article it cannot enrich and need not skip. */
  lemma UnenrichableIsDeferred(site: Site, r: Owner, b: Batch, work: Work)
    requires Agrees(site, work) && Step(ConfigOf(site, r), b, work).Ok? && (b.clientReady ==> site.hasClient)
    requires LlmSpend.Used(b.db.spend, DayKey(site, work.world.day)) >= 0
    requires Lookup(site.taxonomy, b.db.cache, KeyFor(site, work.id)).None? && !Enrichable(site, work.id)
    ensures var missed := b.(metrics := b.metrics.(cacheMisses := b.metrics.cacheMisses + 1));
            Step(ConfigOf(site, r), b, work).value ==
              if Skippable(site, work.id) then SkipWork(ConfigOf(site, r), missed, work) else DeferWork(ConfigOf(site, r), missed, work)
  {
    var cfg := ConfigOf(site, r);
    var missed := b.(metrics := b.metrics.(cacheMisses := b.metrics.cacheMisses + 1));
    assert KeyOf(cfg, work) == KeyFor(site, work.id);
    AgreesMeans(site, work);
    CannotBeCalled(site, r, missed, work);
    hide Lookup, Agrees, KeyOf, StoreFresh, CallAndStore, SkipWork, DeferWork, Store, BudgetAvailable;
  }

  lemma CallKeepsCounting(site: Site, r: Owner, b: Batch, work: Work)
    requires Step(ConfigOf(site, r), b, work).Ok?
    requires forall day :: LlmSpend.Used(b.db.spend, DayKey(site, day)) >= 0
    ensures forall day :: LlmSpend.Used(Step(ConfigOf(site, r), b, work).value.db.spend, DayKey(site, day)) >= 0
  {
    StepSpends(ConfigOf(site, r), b, work);
    hide Step;
  }

  lemma StoringKeepsClient(cfg: Config, b: Batch, work: Work, output: Output, origin: Origin)
    ensures Store(cfg, b, work, output, origin).clientReady == b.clientReady
    ensures origin != FromCache ==> StoreFresh(cfg, b, work, output, origin).clientReady == b.clientReady
  {}

  lemma CallingKeepsClient(cfg: Config, b: Batch, work: Work)
    ensures CallAndStore(cfg, b, work).clientReady == b.clientReady
  {
    hide StoreFresh, Transition, LlmSpend.Increment;
    var called := Call(cfg, b, work);
    StoringKeepsClient(cfg, called, work, if work.world.reply.Some? then MergeEvidence(work.world.reply.value, work.local) else work.local, FromLlm);
    StoringKeepsClient(cfg, called, work, work.local, FromRules);
  }

  lemma ClientStaysHonest(site: Site, r: Owner, b: Batch, work: Work)
    requires Step(ConfigOf(site, r), b, work).Ok? && Agrees(site, work) && (b.clientReady ==> site.hasClient)
    ensures Step(ConfigOf(site, r), b, work).value.clientReady ==> site.hasClient
  {
    var cfg := ConfigOf(site, r);
    AgreesMeans(site, work);
    hide Agrees, Lookup, BudgetAvailable, Store, StoreFresh, CallAndStore, Settle, Decide;
    var cached := Lookup(cfg.taxonomy, b.db.cache, KeyOf(cfg, work));
    if cached.Some? {
      StoringKeepsClient(cfg, b.(db := b.db.(cache := Hit(b.db.cache, KeyOf(cfg, work)))), work, cached.value, FromCache);
    } else {
      var missed := b.(metrics := b.metrics.(cacheMisses := b.metrics.cacheMisses + 1));
      StoringKeepsClient(cfg, missed, work, work.local, FromRules);
      CallingKeepsClient(cfg, missed.(clientReady := true), work);
    }
  }

  lemma OthersLeaveItUnsettled(cfg: Config, b: Batch, work: Work, id: int)
    requires Step(cfg, b, work).Ok? && work.id != id && !SettledDb(b.db, id)
    ensures !SettledDb(Step(cfg, b, work).value.db, id)
  {
    var status, delay := StepHasShape(cfg, b, work);
    var b' := Step(cfg, b, work).value;
    hide Step, CountsShape;
    OneMoreId(b.db.processed, b'.db.processed, work.id);
  }

  lemma OtherContentLeavesItUncached(site: Site, r: Owner, b: Batch, work: Work, id: int)
    requires Step(ConfigOf(site, r), b, work).Ok? && KeyOf(ConfigOf(site, r), work) != KeyFor(site, id)
    ensures Lookup(site.taxonomy, Step(ConfigOf(site, r), b, work).value.db.cache, KeyFor(site, id)) == Lookup(site.taxonomy, b.db.cache, KeyFor(site, id))
  {
    var cfg := ConfigOf(site, r);
    var output, original := StepCaches(cfg, b, work);
    HitIsInvisible(site.taxonomy, b.db.cache, KeyOf(cfg, work), KeyFor(site, id));
    hide Step;
    PutThenGet(site.taxonomy, b.db.cache, KeyOf(cfg, work), output, original, KeyFor(site, id));
  }

  lemma StepStaysStuck(site: Site, r: Owner, b: Batch, work: Work, id: int)
    requires Hopeless(site, id) && StuckIn(site, b, id) && Agrees(site, work) && Step(ConfigOf(site, r), b, work).Ok?
    requires Good in site.articles(id).verdicts ==> !IsTwin(site, id, work.id)
    ensures StuckIn(site, Step(ConfigOf(site, r), b, work).value, id)
  {
    var cfg := ConfigOf(site, r);
    var a := site.articles(id);
    CallKeepsCounting(site, r, b, work);
    ClientStaysHonest(site, r, b, work);
    AgreesMeans(site, work);
    assert Good in site.articles(work.id).verdicts;
    assert KeyOf(cfg, work) == KeyFor(site, work.id);
    hide Agrees, Lookup, Step, KeyOf;
    if work.id != id {
      OthersLeaveItUnsettled(cfg, b, work, id);
    }
    if Good in a.verdicts {
      if KeyFor(site, work.id) == KeyFor(site, id) {
        UnenrichableIsDeferred(site, r, b, work);
      } else {
        OtherContentLeavesItUncached(site, r, b, work, id);
      }
    }
  }

  lemma {:induction false} RunStaysStuck(site: Site, r: Owner, b: Batch, works: seq<Work>, id: int)
    requires Hopeless(site, id) && StuckIn(site, b, id) && AllAgree(site, works) && NoTwinAmong(site, works, id)
    requires EnrichmentPipeline.Run(ConfigOf(site, r), b, works).Ok?
    ensures StuckIn(site, EnrichmentPipeline.Run(ConfigOf(site, r), b, works).value, id)
  {
    if works != [] {
      hide Step, Agrees, StuckIn, Hopeless, IsTwin;
      var init := works[..|works| - 1];
      assert forall k :: 0 <= k < |init| ==> init[k] == works[k];
      RunStaysStuck(site, r, b, init, id);
      StepStaysStuck(site, r, EnrichmentPipeline.Run(ConfigOf(site, r), b, init).value, works[|works| - 1], id);
    }
  }

  ghost predicate Stuck(site: Site, s: State, id: int) {
    id in s.db.raw && !SettledIn(s, id) && (Good in site.articles(id).verdicts ==> !Cached(site, s, id))
  }

  lemma CommitStaysStuck(site: Site, s: State, limit: nat, r: Owner, works: seq<Work>, id: int)
    requires Lawful(site, s) && Hopeless(site, id) && Stuck(site, s, id) && Enabled(s, Commit(r, works), limit)
    requires AllAgree(site, works) && NoTwinAmong(site, works, id)
    ensures Stuck(site, Next(s, Commit(r, works), limit), id)
  {
    var start := Start(s.db, false, s.runs[r].selection.value.already);
    assert s.runs[r].selection.value.cfg == ConfigOf(site, r);
    assert StuckIn(site, start, id) by { hide Lookup, Sane, Served, RowsMatch; }
    CommitHappens(s, limit, r, works);
    RowsRemain(s, Commit(r, works), limit);
    hide Hopeless, EnrichmentPipeline.Run, AllAgree, NoTwinAmong, Next, Lawful, Lookup;
    RunStaysStuck(site, r, start, works, id);
  }

  lemma OthersStayStuck(site: Site, s: State, action: Action, limit: nat, id: int)
    requires Sane(s) && Hopeless(site, id) && Stuck(site, s, id) && Follows(site, action) && !action.Commit?
    ensures Stuck(site, Next(s, action, limit), id)
  {
    OthersKeepTables(site, s, action, limit);
    RowsRemain(s, action, limit);
    StatusStaysOpen(site, s, action, limit, id);
    hide Next, Sane, Lookup, Follows;
  }

  lemma StatusStaysOpen(site: Site, s: State, action: Action, limit: nat, id: int)
    requires id in s.db.raw && !Final(s.db.raw[id].status) && Bad !in site.articles(id).verdicts && Follows(site, action) && !action.Commit?
    ensures id in Next(s, action, limit).db.raw ==> !Final(Next(s, action, limit).db.raw[id].status)
  {
    hide NormalizationDelay, Selected;
  }

  /** No batch can put the content in the cache any more: there is no twin, or, when runs end before
      their leases, every twin was rejected. */
  ghost predicate Barred(site: Site, s: State, limit: nat, id: int) {
    || Good !in site.articles(id).verdicts
    || !HasTwin(site, id)
    || (limit < ENRICH_LEASE && Timed(s, limit) && AllAwait(s) && TwinsGone(site, s, id))
  }

  lemma RejectedIsNotHeld(s: State, r: Owner, id: int)
    requires AllAwait(s) && r in s.runs && RejectedIn(s, id)
    ensures id !in s.runs[r].held
  {
    assert id in s.runs[r].held ==> Awaits(s, id);
  }

  lemma BarredHasNoTwinAmong(site: Site, s: State, limit: nat, r: Owner, works: seq<Work>, id: int)
    requires Barred(site, s, limit, id) && Enabled(s, Commit(r, works), limit)
    ensures NoTwinAmong(site, works, id)
  {
    hide Outcome, IsTwin, Timed, RejectedIn;
    if Good in site.articles(id).verdicts && HasTwin(site, id) {
      var todo := s.runs[r].selection.value.todo;
      assert SelectedAll(s.runs[r]);
      forall k | 0 <= k < |works| ensures !IsTwin(site, id, works[k].id) {
        assert works[k].id == todo[k].id && todo[k] in todo;
        assert works[k].id in s.runs[r].held;
        if IsTwin(site, id, works[k].id) { RejectedIsNotHeld(s, r, works[k].id); }
      }
    }
  }

  lemma CommitKeepsRejected(s: State, limit: nat, r: Owner, works: seq<Work>, id: int)
    requires Sane(s) && AllAwait(s) && RejectedIn(s, id) && Enabled(s, Commit(r, works), limit)
    ensures RejectedIn(Next(s, Commit(r, works), limit), id)
  {
    RejectedIsNotHeld(s, r, id);
    CommitFacts(s, r, works);
    CommitOfFresh(s, limit, r, works);
    CommitHappens(s, limit, r, works);
    hide Outcome, Sane, Inserted, ProcessedIds, Next, AllAwait;
    assert RowOutcome(s.db.raw[id], Outcome(s, r, works).value.db.raw[id], id, r, ProcessedIds(Outcome(s, r, works).value.db.processed));
  }

  lemma OthersKeepFree(s: State, action: Action, limit: nat, id: int)
    requires RejectedIn(s, id) && !action.Commit?
    requires action.Normalize? && action.r in s.runs ==> id !in s.runs[action.r].held
    ensures var s' := Next(s, action, limit); id in s'.db.raw && s'.db.raw[id] == s.db.raw[id]
  {
    hide NormalizedRow, Selected, ProcessedIds, Reached;
  }

  /** A run on time leaves rejected articles alone, so they stay rejected. */
  lemma RejectedStaysRejected(site: Site, s: State, action: Action, limit: nat, id: int)
    requires Sane(s) && AllAwait(s) && RejectedIn(s, id)
    ensures RejectedIn(Next(s, action, limit), id)
  {
    if action.Commit? {
      if Enabled(s, action, limit) { CommitKeepsRejected(s, limit, action.r, action.works, id); }
    } else {
      OthersKeepTables(site, s, action, limit);
      if action.Normalize? && action.r in s.runs { RejectedIsNotHeld(s, action.r, id); }
      OthersKeepFree(s, action, limit, id);
      hide Next, Sane, AllAwait, ProcessedIds;
    }
  }

  lemma NextStaysBarred(site: Site, s: State, action: Action, limit: nat, id: int)
    requires Sane(s) && Barred(site, s, limit, id)
    ensures Barred(site, Next(s, action, limit), limit, id)
  {
    if Good in site.articles(id).verdicts && HasTwin(site, id) {
      NextStaysTimed(s, action, limit);
      NextKeepsWaiting(s, action, limit);
      hide Next, Timed, AllAwait, Sane, IsTwin, RejectedIn;
      forall twin | IsTwin(site, id, twin) ensures RejectedIn(Next(s, action, limit), twin) {
        RejectedStaysRejected(site, s, action, limit, twin);
      }
    }
  }

  lemma NextStaysStuck(site: Site, s: State, action: Action, limit: nat, id: int)
    requires Lawful(site, s) && Hopeless(site, id) && Stuck(site, s, id) && Barred(site, s, limit, id) && Follows(site, action)
    ensures Stuck(site, Next(s, action, limit), id)
  {
    if !action.Commit? {
      hide Stuck, Hopeless, Next, Barred;
      OthersStayStuck(site, s, action, limit, id);
    } else if Enabled(s, action, limit) {
      BarredHasNoTwinAmong(site, s, limit, action.r, action.works, id);
      hide Stuck, Hopeless, Lawful, Next, Barred, NoTwinAmong;
      CommitStaysStuck(site, s, limit, action.r, action.works, id);
    }
  }

  lemma {:induction false} StepsStayStuck(site: Site, s: State, actions: seq<Action>, limit: nat, id: int)
    requires ValidSite(site) && Lawful(site, s) && Hopeless(site, id) && Stuck(site, s, id) && Barred(site, s, limit, id)
    requires AllFollow(site, actions)
    ensures Stuck(site, Steps(s, actions, limit), id) && Barred(site, Steps(s, actions, limit), limit, id)
  {
    if actions != [] {
      hide ValidSite, Next, Stuck, Hopeless, Barred, Sane, Configured, SpendAddsUp, Served, GivenUpRightly, RowsMatch;
      var init, last := actions[..|actions| - 1], actions[|actions| - 1];
      assert forall k :: 0 <= k < |init| ==> init[k] == actions[k];
      assert Follows(site, last);
      StepsAreLawful(site, s, init, limit);
      StepsStayStuck(site, s, init, limit, id);
      NextStaysStuck(site, Steps(s, init, limit), last, limit, id);
      NextStaysBarred(site, Steps(s, init, limit), last, limit, id);
    }
  }

  /** The article has arrived at this deployment and is not settled. */
  ghost predicate Waiting(site: Site, actions: seq<Action>, limit: nat, id: int) {
    ValidSite(site) && AllFollow(site, actions) && id in After(actions, limit).db.raw && !SettledIn(After(actions, limit), id)
  }

  ghost predicate SettledBy(site: Site, actions: seq<Action>, more: seq<Action>, limit: nat, id: int) {
    AllFollow(site, more) && SettledIn(After(actions + more, limit), id)
  }

  /** Some continuation settles it. */
  ghost predicate CanSettle(site: Site, actions: seq<Action>, limit: nat, id: int) {
    exists more :: SettledBy(site, actions, more, limit, id)
  }

  /** Some continuation settles a hopeful article, with no assumption on time. */
  lemma HopefulSettles(site: Site, actions: seq<Action>, limit: nat, id: int)
    requires Waiting(site, actions, limit, id) && Hopeful(site, After(actions, limit), id)
    ensures CanSettle(site, actions, limit, id)
  {
    HistoriesAreLawful(site, actions, limit);
    var s := After(actions, limit);
    hide ValidSite, Lookup, SettledIn, Steps, Hopeful, Sane, Configured, SpendAddsUp, Served, GivenUpRightly, RowsMatch;
    var more := HopefulCanSettle(site, s, limit, id);
    StepsCompose(NOTHING, actions, more, limit);
    assert SettledBy(site, actions, more, limit, id);
  }

  /** Where runs end before their leases, none settles any other. */
  lemma OnlyHopefulSettles(site: Site, actions: seq<Action>, limit: nat, id: int)
    requires Waiting(site, actions, limit, id) && limit < ENRICH_LEASE && !Hopeful(site, After(actions, limit), id)
    ensures !CanSettle(site, actions, limit, id)
  {
    var s := After(actions, limit);
    HistoriesAreLawful(site, actions, limit);
    RunsStayTimed(actions, limit);
    RunsKeepWaiting(actions, limit);
    if Good in site.articles(id).verdicts { ClosedTwinsAreGone(site, s, id); }
    hide Lawful, ValidSite, Lookup, SettledIn, Steps, Timed, AllAwait, TwinsGone, HasTwin, HasOpenTwin;
    NeverSettles(site, actions, limit, id);
  }

  /** From every state of every deployment: an article that is not settled still can be, by some
      continuation, if and only if normalization may reject it, or may pass it and it is irrelevant
      enough to skip, or its content is in the cache, or some article with that content is not rejected,
      may pass and can be enriched: the rules are sure of it, or a call fits the run's token cap and the
      daily one. This is exact exactly when runs end before their leases do. */
  lemma SettlesExactlyWhenHopeful(limit: nat)
    ensures (forall site: Site, actions: seq<Action>, id: int :: Waiting(site, actions, limit, id) ==>
               (CanSettle(site, actions, limit, id) <==> Hopeful(site, After(actions, limit), id)))
            <==> limit < ENRICH_LEASE
  {
    hide Waiting, CanSettle, Hopeful, After;
    if limit < ENRICH_LEASE {
      forall site: Site, actions: seq<Action>, id: int | Waiting(site, actions, limit, id)
        ensures CanSettle(site, actions, limit, id) <==> Hopeful(site, After(actions, limit), id)
      {
        if Hopeful(site, After(actions, limit), id) {
          HopefulSettles(site, actions, limit, id);
        } else {
          OnlyHopefulSettles(site, actions, limit, id);
        }
      }
    } else {
      StalledRunRevivesTwin(limit);
    }
  }

  // ----- When runs outlive their leases, a stalled one can put a rejected twin back

  const SUMMARY := Payload(Some("no summary"), None, Some([]), None, None, None, None)

  /** The rules are sure of article 1, which may or may not pass, and not of article 2 with the same content. */
  function Twins(): Site {
    Site(id => if id == 1 then Article("a", 0, 1.0, 1.0, Validate(NoTags, SUMMARY).value, {Good, Bad})
               else Article(if id == 2 then "a" else "b", 0, 1.0, 0.0, Validate(NoTags, SUMMARY).value, {Good}),
         Policy(0.0, 1.0, 0.0, 1, 1, "", ""), NoTags, None, 1, false)
  }

  function NoTags(term: string): Option<string> {
    None
  }

  /** Both claim article 1; the second rejects it, and article 2 arrives. */
  function Rejection(): seq<Action> {
    OVERRUN + [Normalize(20, 1, Bad), Arrive(2)]
  }

  lemma TwinsAreValid()
    ensures ValidSite(Twins())
  {
    assert |"no summary"| == 10;
    ValidatedRoundTrips(NoTags, SUMMARY);
    hide Valid, Validate;
  }

  lemma OneIsTheTwin(twin: int)
    ensures IsTwin(Twins(), 2, twin) <==> twin == 1
  {
    hide Validate;
    assert "a" != "b" by { assert "a"[0] != "b"[0]; }
  }

  /** The state after it, with article 1 rejected while the stalled first run still holds it. */
  lemma AfterRejection(limit: nat)
    requires limit >= ENRICH_LEASE
    ensures var s := After(Rejection(), limit);
            && s.db.raw.Keys == {1, 2} && s.db.raw[1].status == Some(QualityRejected) && s.db.raw[2] == ARRIVED
            && s.db.processed == [] && s.db.cache == map[]
            && 10 in s.runs && s.runs[10] == LiveRun(0, map[1 := 0], {1}, None)
  {
    OverrunUnfolds(6, limit);
    assert OVERRUN[..6] == OVERRUN;
    hide Next, Steps;
    NormalizeHappens(Overrun(6), 20, 1, Bad, limit);
    OneMore(NOTHING, OVERRUN, Normalize(20, 1, Bad), limit);
    var s := Normalizing(Overrun(6), 20, 1, Bad);
    ArriveHappens(s, 2, limit);
    OneMore(NOTHING, OVERRUN + [Normalize(20, 1, Bad)], Arrive(2), limit);
    assert OVERRUN + [Normalize(20, 1, Bad)] + [Arrive(2)] == Rejection();
  }

  lemma ArriveHappens(s: State, id: int, limit: nat)
    requires id !in s.db.raw
    ensures Next(s, Arrive(id), limit) == WithRaw(s, s.db.raw[id := ARRIVED]).(putBacks := s.putBacks[id := 0])
  {}

  lemma RejectedFollows()
    ensures AllFollow(Twins(), Rejection()) && AllFollow(Twins(), [Normalize(10, 1, Broken)])
  {
    hide Validate;
  }

  lemma TwoCanOnlyPass()
    ensures Twins().articles(2).verdicts == {Good} && !Skippable(Twins(), 2)
  {
    hide Validate;
  }

  /** An article whose only twin is settled has no hope, and one whose twin is open has. */
  lemma OnlyTwinDecides(site: Site, s: State, id: int, twin: int)
    requires site.articles(id).verdicts == {Good} && !Skippable(site, id) && s.db.cache == map[]
    requires forall t :: IsTwin(site, id, t) <==> t == twin
    ensures Hopeful(site, s, id) <==> !SettledIn(s, twin)
  {
    NothingIsCached(site, s, id);
    hide IsTwin, SettledIn, Cached, Skippable;
    if !SettledIn(s, twin) { assert IsTwin(site, id, twin); }
  }

  lemma SettledByOneMore(site: Site, actions: seq<Action>, action: Action, more: seq<Action>, limit: nat, id: int)
    requires AllFollow(site, [action]) && SettledBy(site, actions + [action], more, limit, id)
    ensures SettledBy(site, actions, [action] + more, limit, id)
  {
    hide After, AllFollow, SettledIn;
    FollowConcat(site, [action], more);
    assert actions + [action] + more == actions + ([action] + more);
  }

  /** What can be settled one step later can be settled. */
  lemma LaterHope(site: Site, actions: seq<Action>, action: Action, limit: nat, id: int)
    requires AllFollow(site, [action]) && Waiting(site, actions + [action], limit, id) && Hopeful(site, After(actions + [action], limit), id)
    ensures CanSettle(site, actions, limit, id)
  {
    hide Waiting, Hopeful, After, AllFollow, SettledBy;
    HopefulSettles(site, actions + [action], limit, id);
    var more :| SettledBy(site, actions + [action], more, limit, id);
    SettledByOneMore(site, actions, action, more, limit, id);
  }

  lemma TwoHasNoHope(limit: nat)
    requires limit >= ENRICH_LEASE
    ensures Waiting(Twins(), Rejection(), limit, 2) && !Hopeful(Twins(), After(Rejection(), limit), 2)
  {
    AfterRejection(limit);
    TwinsAreValid();
    RejectedFollows();
    TwoCanOnlyPass();
    forall twin { OneIsTheTwin(twin); }
    hide Twins, Rejection, ValidSite, After, AllFollow, Hopeful, IsTwin, Skippable;
    OnlyTwinDecides(Twins(), After(Rejection(), limit), 2, 1);
  }

  lemma BrokenReopens(s: State, limit: nat)
    requires s.db.raw.Keys == {1, 2} && s.db.raw[2] == ARRIVED && s.db.processed == [] && s.db.cache == map[]
    requires 10 in s.runs && s.runs[10] == LiveRun(0, map[1 := 0], {1}, None)
    ensures var s' := Next(s, Normalize(10, 1, Broken), limit);
            2 in s'.db.raw && s'.db.cache == map[] && !SettledIn(s', 1) && !SettledIn(s', 2)
  {
    NormalizeHappens(s, 10, 1, Broken, limit);
    hide Next, NormalizationDelay;
  }

  lemma PutBackReopens(limit: nat)
    requires limit >= ENRICH_LEASE
    ensures var actions := Rejection() + [Normalize(10, 1, Broken)];
            Waiting(Twins(), actions, limit, 2) && Hopeful(Twins(), After(actions, limit), 2)
  {
    AfterRejection(limit);
    BrokenReopens(After(Rejection(), limit), limit);
    TwinsAreValid();
    RejectedFollows();
    TwoCanOnlyPass();
    forall twin { OneIsTheTwin(twin); }
    OneMore(NOTHING, Rejection(), Normalize(10, 1, Broken), limit);
    hide Twins, Rejection, ValidSite, Steps, Next, AllFollow, Hopeful, IsTwin, Skippable, SettledIn;
    FollowConcat(Twins(), Rejection(), [Normalize(10, 1, Broken)]);
    OnlyTwinDecides(Twins(), After(Rejection() + [Normalize(10, 1, Broken)], limit), 2, 1);
  }

  lemma StalledRunRevivesTwin(limit: nat)
    requires limit >= ENRICH_LEASE
    ensures Waiting(Twins(), Rejection(), limit, 2) && CanSettle(Twins(), Rejection(), limit, 2)
    ensures !Hopeful(Twins(), After(Rejection(), limit), 2)
  {
    TwoHasNoHope(limit);
    PutBackReopens(limit);
    RejectedFollows();
    hide Waiting, Hopeful, After, AllFollow, CanSettle, Twins, Rejection;
    LaterHope(Twins(), Rejection(), Normalize(10, 1, Broken), limit, 2);
  }

  lemma NothingIsCached(site: Site, s: State, id: int)
    requires s.db.cache == map[]
    ensures !Cached(site, s, id)
  {}

  // ----- An article that is never settled

  lemma NeverSettles(site: Site, actions: seq<Action>, limit: nat, id: int)
    requires ValidSite(site) && AllFollow(site, actions) && Hopeless(site, id)
    requires Stuck(site, After(actions, limit), id) && Barred(site, After(actions, limit), limit, id)
    ensures forall more :: AllFollow(site, more) ==> !SettledIn(After(actions + more, limit), id)
  {
    var s := After(actions, limit);
    HistoriesAreLawful(site, actions, limit);
    hide Lawful, ValidSite, Lookup, SettledIn, Steps, AllFollow, Barred, Hopeless;
    forall more | AllFollow(site, more) ensures !SettledIn(After(actions + more, limit), id) {
      StepsCompose(NOTHING, actions, more, limit);
      StepsStayStuck(site, s, more, limit, id);
    }
  }

  /** The rules are not sure of this content and it is too long for a call, whichever article has it. */
  ghost predicate TooLong(site: Site, id: int) {
    forall twin :: site.articles(twin).fingerprint == site.articles(id).fingerprint ==>
      && site.articles(twin).confidence < site.policy.minDeterministicConfidence
      && EstimatedTokens(site.articles(twin).chars) > site.policy.maxLlmTokens
  }

  /** A relevant article the rules are not sure of, too long for any call and never rejected, is
      deferred forever, however long runs may take. */
  lemma TooLongIsNeverSettled(site: Site, actions: seq<Action>, limit: nat, id: int, more: seq<Action>)
    requires ValidSite(site) && AllFollow(site, actions) && AllFollow(site, more)
    requires id in After(actions, limit).db.raw && !SettledIn(After(actions, limit), id) && !Cached(site, After(actions, limit), id)
    requires Bad !in site.articles(id).verdicts && !Skippable(site, id) && TooLong(site, id)
    ensures !SettledIn(After(actions + more, limit), id)
  {
    hide ValidSite, Lookup, SettledIn, Steps, AllFollow, Timed, AllAwait, TwinsGone;
    assert !HasTwin(site, id);
    NeverSettles(site, actions, limit, id);
  }

  lemma JustArrived(site: Site, limit: nat, id: int)
    ensures var s := After([Arrive(id)], limit); id in s.db.raw && !SettledIn(s, id) && !Cached(site, s, id)
  {
    hide ValidSite, Skippable;
    assert [] + [Arrive(id)] == [Arrive(id)];
    OneMore(NOTHING, [], Arrive(id), limit);
    var s := Next(NOTHING, Arrive(id), limit);
    assert After([Arrive(id)], limit) == s;
    assert s.db.raw[id] == ARRIVED && s.db.cache == map[] && s.db.processed == [];
  }

  /** So such an article, once it has arrived, is claimed and deferred again and again. */
  lemma ArrivesAndIsNeverSettled(site: Site, limit: nat, id: int, more: seq<Action>)
    requires ValidSite(site) && AllFollow(site, more)
    requires Bad !in site.articles(id).verdicts && !Skippable(site, id) && TooLong(site, id)
    ensures !SettledIn(After([Arrive(id)] + more, limit), id)
  {
    JustArrived(site, limit, id);
    hide ValidSite, SettledIn, Cached, Steps, Skippable, After, TooLong;
    TooLongIsNeverSettled(site, [Arrive(id)], limit, id, more);
  }
}
