/** The object that runs a batch: it selects the articles that still need work, processes them one
    by one over its tables, and either keeps everything or puts every table back. */
module PipelineRun {
  import opened EnrichmentOutput
  import opened EnrichmentPipeline
  import opened EnrichmentPolicy
  import opened LlmSpend
  import opened RawArticles
  import opened Wrappers

  /** A candidate the batch has no business with: it has a processed row, or its raw row says so. */
  predicate Excluded(cfg: Config, db: Db, id: int, now: int) {
    id in ProcessedIds(db.processed) || (id in db.raw && Unavailable(db.raw[id], cfg.owner, now))
  }

  /** The candidates to process, each article once, in the order given. */
  function Selected(cfg: Config, db: Db, candidates: seq<Work>, now: int): (todo: seq<Work>)
    ensures |todo| <= |candidates|
  {
    if candidates == [] then []
    else
      var before := Selected(cfg, db, candidates[..|candidates| - 1], now);
      var last := candidates[|candidates| - 1];
      if Excluded(cfg, db, last.id, now) || last.id in Ids(before) then before else before + [last]
  }

  /** A whole call: select, process, and commit or fail as one. */
  function Process(cfg: Config, db: Db, clientReady: bool, candidates: seq<Work>, now: int): Result<Batch, ()> {
    var todo := Selected(cfg, db, candidates, now);
    Run(cfg, Start(db, clientReady, |candidates| - |todo|), todo)
  }

  /** Exactly the articles that were offered and not excluded are selected, none of them twice. */
  lemma {:induction false} SelectedExactly(cfg: Config, db: Db, candidates: seq<Work>, now: int)
    ensures forall id :: id in Ids(Selected(cfg, db, candidates, now)) <==> id in Ids(candidates) && !Excluded(cfg, db, id, now)
    ensures EachOnce(Selected(cfg, db, candidates, now))
    ensures forall work :: work in Selected(cfg, db, candidates, now) ==> work in candidates
  {
    hide Excluded;
    if candidates != [] {
      var init, last := candidates[..|candidates| - 1], candidates[|candidates| - 1];
      SelectedExactly(cfg, db, init, now);
      var before, after := Selected(cfg, db, init, now), Selected(cfg, db, candidates, now);
      assert candidates == init + [last];
      IdsOneMore(init, last);
      IdsOneMore(before, last);
      forall i, j | 0 <= i < j < |after| ensures after[i].id != after[j].id {
        if j == |before| { assert before[i] in before; }
      }
    }
  }

  /** What leaves a candidate out is a processed row, a status that ends it, a next attempt still to
      come, or somebody else's running lease. */
  ghost predicate Offered(cfg: Config, db: Db, id: int, now: int) {
    && (forall row :: row in db.processed ==> row.rawId != id)
    && (id in db.raw ==>
          var row := db.raw[id];
          && row.status != Some(Skipped) && row.status != Some(QualityRejected)
          && (row.nextAttempt.Some? ==> row.nextAttempt.value <= now)
          && (row.leaseExpires.Some? && row.leaseExpires.value > now && row.owner.Some? ==> row.owner == cfg.owner))
  }

  lemma OfferedExactly(cfg: Config, db: Db, id: int, now: int)
    ensures Offered(cfg, db, id, now) <==> !Excluded(cfg, db, id, now)
  {}

  /** The first candidate with its id, and nothing leaves it out. */
  ghost predicate Chosen(cfg: Config, db: Db, candidates: seq<Work>, now: int, i: nat)
    requires i < |candidates|
  {
    (forall j :: 0 <= j < i ==> candidates[j].id != candidates[i].id) && Offered(cfg, db, candidates[i].id, now)
  }

  lemma IdsAre(works: seq<Work>, id: int)
    ensures id in Ids(works) <==> exists j :: 0 <= j < |works| && works[j].id == id
  {
    if id in Ids(works) {
      var work :| work in works && work.id == id;
      var j :| 0 <= j < |works| && works[j] == work;
    }
    if j :| 0 <= j < |works| && works[j].id == id {
      assert works[j] in works;
    }
  }

  lemma ChosenInPrefix(cfg: Config, db: Db, candidates: seq<Work>, now: int, i: nat)
    requires i < |candidates| - 1
    ensures Chosen(cfg, db, candidates[..|candidates| - 1], now, i) == Chosen(cfg, db, candidates, now, i)
  {
    hide Offered;
  }

  lemma LastIsChosen(cfg: Config, db: Db, candidates: seq<Work>, now: int)
    requires candidates != []
    ensures var init, last := candidates[..|candidates| - 1], candidates[|candidates| - 1];
            Chosen(cfg, db, candidates, now, |init|) <==>
              !Excluded(cfg, db, last.id, now) && last.id !in Ids(Selected(cfg, db, init, now))
  {
    var init, last := candidates[..|candidates| - 1], candidates[|candidates| - 1];
    OfferedExactly(cfg, db, last.id, now);
    SelectedExactly(cfg, db, init, now);
    IdsAre(init, last.id);
    hide Offered, Excluded, Ids, Selected;
  }

  /** These works are the candidates at these positions, in order. */
  ghost predicate TakenAt(candidates: seq<Work>, works: seq<Work>, at: seq<nat>) {
    && |at| == |works|
    && (forall j, k :: 0 <= j < k < |at| ==> at[j] < at[k])
    && forall k :: 0 <= k < |at| ==> at[k] < |candidates| && works[k] == candidates[at[k]]
  }

  lemma TakenOneMore(candidates: seq<Work>, last: Work, works: seq<Work>, at: seq<nat>)
    requires TakenAt(candidates, works, at)
    ensures TakenAt(candidates + [last], works, at)
    ensures TakenAt(candidates + [last], works + [last], at + [|candidates|])
  {}

  ghost predicate AreChosen(cfg: Config, db: Db, candidates: seq<Work>, now: int, at: seq<nat>) {
    forall i :: 0 <= i < |candidates| ==> (i in at <==> Chosen(cfg, db, candidates, now, i))
  }

  lemma ChosenOneMore(cfg: Config, db: Db, candidates: seq<Work>, now: int, at: seq<nat>)
    requires candidates != [] && AreChosen(cfg, db, candidates[..|candidates| - 1], now, at) && |candidates| - 1 !in at
    ensures AreChosen(cfg, db, candidates, now, if Chosen(cfg, db, candidates, now, |candidates| - 1) then at + [|candidates| - 1] else at)
  {
    hide Chosen;
    var n := |candidates| - 1;
    forall i | 0 <= i < n ensures i in at <==> Chosen(cfg, db, candidates, now, i) {
      ChosenInPrefix(cfg, db, candidates, now, i);
    }
    assert forall i :: 0 <= i < n ==> (i in at + [n] <==> i in at);
    assert n in at + [n];
  }

  /** The chosen candidates are selected, in the order they were offered. */
  lemma {:induction false} SelectedInOrder(cfg: Config, db: Db, candidates: seq<Work>, now: int) returns (at: seq<nat>)
    ensures TakenAt(candidates, Selected(cfg, db, candidates, now), at)
    ensures AreChosen(cfg, db, candidates, now, at)
  {
    hide Chosen, Excluded, Ids;
    at := [];
    if candidates != [] {
      var init, last := candidates[..|candidates| - 1], candidates[|candidates| - 1];
      assert candidates == init + [last];
      at := SelectedInOrder(cfg, db, init, now);
      assert |init| !in at;
      hide TakenAt, AreChosen;
      TakenOneMore(init, last, Selected(cfg, db, init, now), at);
      LastIsChosen(cfg, db, candidates, now);
      ChosenOneMore(cfg, db, candidates, now, at);
      at := if Chosen(cfg, db, candidates, now, |init|) then at + [|init|] else at;
    }
  }

  /** For every batch that commits: each candidate is counted under exactly one outcome, each saved
      row under one route, the model calls equal the calls reserved, and both caps hold. */
  lemma CommittedBatchAddsUp(cfg: Config, db: Db, clientReady: bool, candidates: seq<Work>, now: int)
    requires ValidPolicy(cfg.policy) && Process(cfg, db, clientReady, candidates, now).Ok?
    ensures var b := Process(cfg, db, clientReady, candidates, now).value;
            && |candidates| == b.saved + b.alreadyProcessed + b.metrics.skipped + b.metrics.deferred + b.metrics.failed
            && b.saved == b.metrics.cached + b.metrics.deterministic + b.metrics.llm
            && b.metrics.llmCalls == b.callsReserved <= cfg.policy.maxLlmCalls
            && b.tokensReserved <= cfg.policy.maxLlmTokens
            && b.metrics.llmTokens == b.tokensUsed == SpentTotal(b.spent)
  {
    hide Run;
    var todo := Selected(cfg, db, candidates, now);
    SelectedExactly(cfg, db, candidates, now);
    var start := Start(db, clientReady, |candidates| - |todo|);
    RunBalances(cfg, start, todo, |candidates| - |todo|);
  }

  /** The durable counter grows, day by day, by exactly what the batch charged that day, and those
      charges sum to the tokens the batch reports: all of them on a batch's only day. */
  lemma CommittedBatchIsCharged(cfg: Config, db: Db, clientReady: bool, candidates: seq<Work>, now: int, day: int)
    requires ValidPolicy(cfg.policy) && Process(cfg, db, clientReady, candidates, now).Ok?
    ensures var b := Process(cfg, db, clientReady, candidates, now).value;
            && Used(b.db.spend, SpendDay(cfg, day)) == Used(db.spend, SpendDay(cfg, day)) + SpentOn(b.spent, day)
            && b.metrics.llmTokens == SpentTotal(b.spent)
            && ((forall k :: 0 <= k < |b.spent| ==> b.spent[k].day == day) ==> SpentOn(b.spent, day) == b.metrics.llmTokens)
  {
    hide Run;
    var todo := Selected(cfg, db, candidates, now);
    CommittedBatchAddsUp(cfg, db, clientReady, candidates, now);
    SelectedExactly(cfg, db, candidates, now);
    var start := Start(db, clientReady, |candidates| - |todo|);
    RunGrowsSpend(cfg, start, todo);
    var spent := Run(cfg, start, todo).value.spent;
    if forall k :: 0 <= k < |spent| ==> spent[k].day == day { OneDaySpends(spent, day); }
  }

  lemma {:induction false} OneDaySpends(spent: seq<Spent>, day: int)
    requires forall k :: 0 <= k < |spent| ==> spent[k].day == day
    ensures SpentOn(spent, day) == SpentTotal(spent)
  {
    if spent != [] { OneDaySpends(spent[..|spent| - 1], day); }
  }

  lemma {:induction false} FailedStaysFailed(cfg: Config, b: Batch, works: seq<Work>, n: nat)
    requires n <= |works| && Run(cfg, b, works[..n]).Err?
    ensures Run(cfg, b, works).Err?
  {
    if n < |works| {
      var init := works[..|works| - 1];
      assert init[..n] == works[..n];
      FailedStaysFailed(cfg, b, init, n);
    } else {
      assert works[..n] == works;
    }
  }

  lemma ReadyStaysAffordable(cfg: Config, b: Batch, work: Work)
    requires BudgetAvailable(cfg, b, work)
    ensures BudgetAvailable(cfg, b.(clientReady := true), work)
  {}

  /** The counters of a run under way. */
  class Tally {
    var metrics: Metrics
    var saved: nat
    var alreadyProcessed: nat
    ghost var spent: seq<Spent>

    constructor (alreadyProcessed: nat)
      ensures metrics == NO_METRICS && saved == 0 && this.alreadyProcessed == alreadyProcessed && spent == []
    {
      metrics, saved, spent := NO_METRICS, 0, [];
      this.alreadyProcessed := alreadyProcessed;
    }
  }

  class Runner {
    const cfg: Config
    const spendStore: SpendStore
    var raw: Rows
    var processed: seq<ProcessedRow>
    var cache: Entries
    var clientReady: bool

    ghost predicate Valid() {
      ValidPolicy(cfg.policy) && spendStore.dailyTokenBudget == cfg.dailyBudget
    }

    ghost function Tables(): Db
      reads this, spendStore
    {
      Db(raw, processed, cache, spendStore.rows)
    }

    ghost function State(budget: EnrichmentBudget, tally: Tally): Batch
      reads this, spendStore, budget, tally
    {
      Batch(Tables(), budget.callsReserved, budget.tokensReserved, budget.tokensUsed, clientReady,
            tally.metrics, tally.saved, tally.alreadyProcessed, tally.spent)
    }

    constructor (cfg: Config, spendStore: SpendStore, clientReady: bool)
      requires ValidPolicy(cfg.policy) && spendStore.dailyTokenBudget == cfg.dailyBudget
      ensures Valid() && this.cfg == cfg && this.spendStore == spendStore && this.clientReady == clientReady
      ensures raw == map[] && processed == [] && cache == map[]
    {
      this.cfg, this.spendStore, this.clientReady := cfg, spendStore, clientReady;
      raw, processed, cache := map[], [], map[];
    }

    method TransitionRaw(id: int, status: Status, delay: Option<int>, now: int)
      modifies this`raw
      ensures raw == Transition(old(raw), id, cfg.owner, status, delay, now)
    {
      if id in raw {
        var row := raw[id];
        if cfg.owner.None? || row.owner == cfg.owner {
          var next := if delay.Some? then Some(now + delay.value) else None;
          var attempts := if delay.Some? then row.attempts + 1 else row.attempts;
          raw := raw[id := Row(Some(status), attempts, next, None, None)];
        }
      }
    }

    /** The cached output for an article, counting the hit. */
    method CacheGet(work: Work) returns (cached: Option<Output>)
      modifies this`cache
      ensures cached == Lookup(cfg.taxonomy, old(cache), KeyOf(cfg, work))
      ensures cache == if cached.Some? then Hit(old(cache), KeyOf(cfg, work)) else old(cache)
    {
      var key := KeyOf(cfg, work);
      if key !in cache || cache[key].payload.None? {
        return None;
      }
      cached := Validate(cfg.taxonomy, cache[key].payload.value);
      if cached.Some? {
        cache := cache[key := cache[key].(hits := cache[key].hits + 1)];
      }
    }

    method CachePut(work: Work, output: Output, original: EnrichmentOutput.Method)
      modifies this`cache
      ensures cache == Put(old(cache), KeyOf(cfg, work), output, original)
    {
      var key := KeyOf(cfg, work);
      var hits := if key in cache then cache[key].hits else 0;
      cache := cache[key := Entry(Some(Dump(output)), original, hits)];
    }

    /** Insert unless the article has a row already. */
    method AddProcessed(row: ProcessedRow) returns (inserted: bool)
      modifies this`processed
      ensures inserted == (row.rawId !in ProcessedIds(old(processed)))
      ensures processed == if inserted then old(processed) + [row] else old(processed)
    {
      var i := 0;
      while i < |processed|
        invariant i <= |processed|
        invariant forall k :: 0 <= k < i ==> processed[k].rawId != row.rawId
      {
        if processed[i].rawId == row.rawId {
          assert processed[i] in processed;
          return false;
        }
        i := i + 1;
      }
      processed := processed + [row];
      return true;
    }

    method StoreOutput(ghost budget: EnrichmentBudget, tally: Tally, work: Work, output: Output, origin: Origin)
      modifies this`raw, this`processed, tally
      ensures State(budget, tally) == Store(cfg, old(State(budget, tally)), work, output, origin)
    {
      var inserted := AddProcessed(ProcessedRow(work.id, origin, output, work.fingerprint));
      TransitionRaw(work.id, Completed, None, work.world.now);
      if inserted {
        tally.saved := tally.saved + 1;
        tally.metrics := Counted(tally.metrics, origin);
      } else {
        tally.alreadyProcessed := tally.alreadyProcessed + 1;
      }
    }

    method StoreFreshOutput(ghost budget: EnrichmentBudget, tally: Tally, work: Work, output: Output, origin: Origin)
      requires origin != FromCache
      modifies this`raw, this`processed, this`cache, tally
      ensures State(budget, tally) == StoreFresh(cfg, old(State(budget, tally)), work, output, origin)
    {
      hide Store, Put;
      CachePut(work, output, if origin == FromRules then Deterministic else Llm);
      StoreOutput(budget, tally, work, output, origin);
    }

    /** Whether a call may be made: the durable cap, both caps of the run, and a client to make it with. */
    method CanAfford(budget: EnrichmentBudget, ghost tally: Tally, work: Work) returns (available: bool)
      requires Valid() && budget.maxCalls == cfg.policy.maxLlmCalls && budget.maxTokens == cfg.policy.maxLlmTokens
      ensures available == BudgetAvailable(cfg, State(budget, tally), work)
    {
      var estimate := EstimatedTokens(work.chars);
      var affordable := spendStore.WithinBudget(cfg.tenant, estimate, work.world.day);
      available := affordable && budget.callsReserved < budget.maxCalls && budget.tokensReserved + estimate <= budget.maxTokens
        && (clientReady || cfg.hasFactory);
    }

    /** The call itself, once it is reserved, and what follows from its reply. */
    method CallModel(budget: EnrichmentBudget, tally: Tally, work: Work)
      requires Valid() && budget.Valid() && budget.maxCalls == cfg.policy.maxLlmCalls && budget.maxTokens == cfg.policy.maxLlmTokens
      requires BudgetAvailable(cfg, State(budget, tally), work)
      modifies this`raw, this`processed, this`cache, spendStore, budget, tally
      ensures budget.Valid()
      ensures State(budget, tally) == CallAndStore(cfg, old(State(budget, tally)), work)
    {
      hide Store, StoreFresh, MergeEvidence;
      ghost var before := State(budget, tally);
      var granted := budget.Reserve(EstimatedTokens(work.chars));
      if granted != Ok(true) {
        assert false;
      }
      tally.metrics := tally.metrics.(llmCalls := tally.metrics.llmCalls + 1);
      var used := TokensUsed(work);
      budget.RecordUsage(used);
      tally.metrics := tally.metrics.(llmTokens := tally.metrics.llmTokens + used);
      spendStore.ChargeSpent(cfg.tenant, used, work.world.day);
      tally.spent := tally.spent + [Spent(work.world.day, used)];
      assert State(budget, tally) == Call(cfg, before, work);
      if work.world.reply.Some? {
        StoreFreshOutput(budget, tally, work, MergeEvidence(work.world.reply.value, work.local), FromLlm);
      } else if work.confidence >= cfg.policy.minFallbackConfidence {
        StoreFreshOutput(budget, tally, work, work.local, FromRules);
      } else {
        tally.metrics := tally.metrics.(failed := tally.metrics.failed + 1);
        TransitionRaw(work.id, EnrichmentRetry, Some(RETRY_DELAY), work.world.now);
      }
    }

    method EnsureClient(work: Work) returns (ready: bool)
      modifies this`clientReady
      ensures ready == (old(clientReady) || (cfg.hasFactory && work.world.clientWorks))
      ensures clientReady == ready
    {
      ready := clientReady || (cfg.hasFactory && work.world.clientWorks);
      clientReady := ready;
    }

    method TakeRoute(budget: EnrichmentBudget, tally: Tally, work: Work, available: bool, route: Route)
      requires Valid() && budget.Valid() && budget.maxCalls == cfg.policy.maxLlmCalls && budget.maxTokens == cfg.policy.maxLlmTokens
      requires available == BudgetAvailable(cfg, State(budget, tally), work)
      requires Decide(false, work.relevance, work.confidence, cfg.policy, available) == Ok(route)
      modifies this, spendStore, budget, tally
      ensures budget.Valid() && State(budget, tally) == Follow(cfg, old(State(budget, tally)), work, route)
    {
      hide Store, StoreFresh, CallAndStore, Within;
      ghost var before := State(budget, tally);
      var decision := route;
      if decision == ByLlm {
        var ready := EnsureClient(work);
        if ready {
          ReadyStaysAffordable(cfg, before, work);
          CallModel(budget, tally, work);
          return;
        }
        decision := Decide(false, work.relevance, work.confidence, cfg.policy, false).value;
        assert decision == Defer && State(budget, tally) == before;
      }
      if decision == ByRules {
        StoreFreshOutput(budget, tally, work, work.local, FromRules);
      } else if decision == Skip {
        tally.metrics := tally.metrics.(skipped := tally.metrics.skipped + 1);
        TransitionRaw(work.id, Skipped, None, work.world.now);
      } else {
        tally.metrics := tally.metrics.(deferred := tally.metrics.deferred + 1);
        TransitionRaw(work.id, Status.Deferred, Some(RETRY_DELAY), work.world.now);
      }
    }

    /** One pass of the loop; false where a call raised. */
    method ProcessArticle(budget: EnrichmentBudget, tally: Tally, work: Work) returns (ok: bool)
      requires Valid() && budget.Valid() && budget.maxCalls == cfg.policy.maxLlmCalls && budget.maxTokens == cfg.policy.maxLlmTokens
      modifies this, spendStore, budget, tally
      ensures ok == Step(cfg, old(State(budget, tally)), work).Ok?
      ensures budget.Valid()
      ensures ok ==> State(budget, tally) == Step(cfg, old(State(budget, tally)), work).value
    {
      hide Store, Follow, BudgetAvailable, Lookup, Hit, Decide;
      if work.world.raises {
        return false;
      }
      var cached := CacheGet(work);
      if cached.Some? {
        StoreOutput(budget, tally, work, cached.value, FromCache);
        return true;
      }
      tally.metrics := tally.metrics.(cacheMisses := tally.metrics.cacheMisses + 1);
      var available := CanAfford(budget, tally, work);
      var decision := Decide(false, work.relevance, work.confidence, cfg.policy, available);
      if decision.Err? {
        return false;
      }
      TakeRoute(budget, tally, work, available, decision.value);
      return true;
    }

    /** The candidates to process: the loop with its set of ids seen so far. */
    method SelectArticles(candidates: seq<Work>, now: int) returns (todo: seq<Work>, already: nat)
      ensures todo == Selected(cfg, Tables(), candidates, now) && already == |candidates| - |todo|
    {
      var seen := set row | row in processed :: row.rawId;
      todo, already := [], 0;
      var i := 0;
      while i < |candidates|
        invariant i <= |candidates|
        invariant todo == Selected(cfg, Tables(), candidates[..i], now) && already == i - |todo|
        invariant seen == ProcessedIds(processed) + Ids(todo)
      {
        var candidate := candidates[i];
        assert candidates[..i + 1][..i] == candidates[..i];
        if candidate.id in seen || (candidate.id in raw && Unavailable(raw[candidate.id], cfg.owner, now)) {
          already := already + 1;
        } else {
          IdsOneMore(todo, candidate);
          seen := seen + {candidate.id};
          todo := todo + [candidate];
        }
        i := i + 1;
      }
      assert candidates[..i] == candidates;
    }

    /** The whole call. A batch in which anything raises leaves every table as it was. */
    method ProcessRawArticles(candidates: seq<Work>, now: int) returns (budget: EnrichmentBudget, tally: Tally, ok: bool)
      requires Valid()
      modifies this, spendStore
      ensures fresh(budget) && fresh(tally)
      ensures ok == Process(cfg, old(Tables()), old(clientReady), candidates, now).Ok?
      ensures ok ==> State(budget, tally) == Process(cfg, old(Tables()), old(clientReady), candidates, now).value
      ensures !ok ==> Tables() == old(Tables())
    {
      hide Step, Selected;
      var raw0, processed0, cache0, spend0 := raw, processed, cache, spendStore.rows;
      budget := new EnrichmentBudget(cfg.policy.maxLlmCalls, cfg.policy.maxLlmTokens);
      var todo, already := SelectArticles(candidates, now);
      tally := new Tally(already);
      ghost var start := State(budget, tally);
      var i := 0;
      while i < |todo|
        invariant i <= |todo| && budget.Valid()
        invariant Run(cfg, start, todo[..i]) == Ok(State(budget, tally))
      {
        assert todo[..i + 1][..i] == todo[..i];
        ok := ProcessArticle(budget, tally, todo[i]);
        if !ok {
          FailedStaysFailed(cfg, start, todo, i + 1);
          raw, processed, cache, spendStore.rows := raw0, processed0, cache0, spend0;
          return;
        }
        i := i + 1;
      }
      assert todo[..i] == todo;
      ok := true;
    }
  }
}
