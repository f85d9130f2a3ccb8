/** The lease protocol of the enrichment workers as a state machine. A step is one committed
    transaction or the passing of time; steps of different workers interleave freely. `limit` is the
    longest a run may live, so time does not pass a live run's limit. */
module EnrichmentLease {
  import opened EnrichmentOutput
  import opened EnrichmentPipeline
  import opened EnrichmentPolicy
  import LlmSpend
  import opened PipelineRun
  import opened RawArticles
  import opened Sequences
  import opened Wrappers

  datatype Selection = Selection(cfg: Config, todo: seq<Work>, already: nat)

  /** A live run: the articles it is working on, with the attempt count it read for each, and every
      article it has looked at. */
  datatype LiveRun = LiveRun(began: int, held: map<int, nat>, scanned: set<int>, selection: Option<Selection>)

  /** A charge to the durable counter by anything but an enrichment batch. */
  datatype OutsideCharge = OutsideCharge(key: LlmSpend.SpendKey, tokens: nat)

  /** `used`, `saved`, `putBacks`, `spent` and `outside` are history: the owners ever seen, what committed
      runs reported as saved and charged, how often each article was put back, and what others charged. */
  datatype State = State(
    clock: int, db: Db, runs: map<Owner, LiveRun>,
    used: set<Owner>, saved: nat, putBacks: map<int, nat>, spent: seq<Spent>, outside: seq<OutsideCharge>)

  datatype Quality = Good | Bad | Broken

  datatype Action =
    | Tick(seconds: nat)
    | Arrive(id: int)
    | Begin(r: Owner)
    | Claim(r: Owner, ids: set<int>)
    | Normalize(r: Owner, id: int, quality: Quality)
    | NormalizeUnleased(qualities: map<int, Quality>)
    | Select(r: Owner, cfg: Config, candidates: seq<Work>)
    | Commit(r: Owner, works: seq<Work>)
    | Fail(r: Owner)
    | Finish(r: Owner)
    | Crash(r: Owner)
    | SpendElsewhere(tenant: Option<string>, day: int, tokens: nat)

  const NOTHING := State(0, Db(map[], [], map[], map[]), map[], {}, 0, map[], [], [])

  /** The same articles in the same order; what the outside world answers may differ. */
  ghost predicate SameArticles(works: seq<Work>, todo: seq<Work>) {
    |works| == |todo| && forall k :: 0 <= k < |works| ==> works[k].id == todo[k].id
  }

  ghost predicate CanClaim(s: State, run: LiveRun, id: int) {
    id in s.db.raw && Claimable(s.db.raw[id], s.clock) && id !in ProcessedIds(s.db.processed) && id !in run.scanned
  }

  function Outcome(s: State, r: Owner, works: seq<Work>): Result<Batch, ()>
    requires r in s.runs && s.runs[r].selection.Some?
  {
    var selection := s.runs[r].selection.value;
    EnrichmentPipeline.Run(selection.cfg, Start(s.db, false, selection.already), works)
  }

  ghost predicate Enabled(s: State, action: Action, limit: nat) {
    match action
    case Tick(seconds) => forall r :: r in s.runs ==> s.clock + seconds <= s.runs[r].began + limit
    case Arrive(id) => id !in s.db.raw
    case Begin(r) => r !in s.used
    case Claim(r, ids) => r in s.runs && s.runs[r].selection.None? && forall id :: id in ids ==> CanClaim(s, s.runs[r], id)
    case Normalize(r, id, _) => r in s.runs && s.runs[r].selection.None? && id in s.runs[r].held && id in s.db.raw
    case NormalizeUnleased(qualities) => forall id :: id in qualities ==> id in s.db.raw && Claimable(s.db.raw[id], s.clock)
    case Select(r, cfg, candidates) =>
      r in s.runs && s.runs[r].selection.None? && cfg.owner == Some(r) && EachOnce(candidates) && Ids(candidates) == s.runs[r].held.Keys
    case Commit(r, works) =>
      && r in s.runs && s.runs[r].selection.Some? && SameArticles(works, s.runs[r].selection.value.todo)
      && (forall k :: 0 <= k < |works| ==> works[k].world.now == s.clock)
      && Outcome(s, r, works).Ok?
    case Fail(r) => r in s.runs
    case Finish(r) => r in s.runs && s.runs[r].held.Keys == {}
    case Crash(r) => r in s.runs
    case SpendElsewhere(_, _, _) => true
  }

  function ClaimedRows(raw: Rows, ids: set<int>, r: Owner, now: int): Rows {
    map id | id in raw :: if id in ids then Claimed(raw[id], r, now) else raw[id]
  }

  function ReleasedRows(raw: Rows, r: Owner, now: int): Rows {
    map id | id in raw :: Released(raw[id], r, now)
  }

  function NormalizedRow(row: Row, quality: Quality, attemptsRead: nat, now: int): Row {
    match quality
    case Good => row
    case Bad => Rejected(row)
    case Broken => PutBackAfterError(row, attemptsRead, now)
  }

  function NormalizedRows(raw: Rows, qualities: map<int, Quality>, now: int): Rows {
    map id | id in raw :: if id in qualities then NormalizedRow(raw[id], qualities[id], raw[id].attempts, now) else raw[id]
  }

  /** A batch put this row back for another attempt. */
  predicate WasPutBack(row: Row, row': Row) {
    row' != row && (row'.status == Some(EnrichmentRetry) || row'.status == Some(Status.Deferred))
  }

  function WithRaw(s: State, raw: Rows): State {
    s.(db := s.db.(raw := raw))
  }

  function Ended(s: State, r: Owner): State {
    s.(runs := s.runs - {r})
  }

  function Claiming(s: State, r: Owner, ids: set<int>): State
    requires r in s.runs
  {
    var run := s.runs[r];
    var read := map id | id in ids && id in s.db.raw :: s.db.raw[id].attempts;
    WithRaw(s, ClaimedRows(s.db.raw, ids, r, s.clock)).(
      runs := s.runs[r := run.(held := run.held + read, scanned := run.scanned + ids)])
  }

  function Normalizing(s: State, r: Owner, id: int, quality: Quality): State
    requires r in s.runs && id in s.runs[r].held && id in s.db.raw
  {
    var run := s.runs[r];
    if quality == Good then s
    else
      WithRaw(s, s.db.raw[id := NormalizedRow(s.db.raw[id], quality, run.held[id], s.clock)]).(
        runs := s.runs[r := run.(held := run.held - {id})],
        putBacks := if quality == Broken && id in s.putBacks then s.putBacks[id := s.putBacks[id] + 1] else s.putBacks)
  }

  function NormalizingUnleased(s: State, qualities: map<int, Quality>): State {
    WithRaw(s, NormalizedRows(s.db.raw, qualities, s.clock)).(
      putBacks := map id | id in s.putBacks :: s.putBacks[id] + if id in qualities && qualities[id] == Broken then 1 else 0)
  }

  function Selecting(s: State, r: Owner, cfg: Config, candidates: seq<Work>): State
    requires r in s.runs
  {
    var todo := Selected(cfg, s.db, candidates, s.clock);
    s.(runs := s.runs[r := s.runs[r].(selection := Some(Selection(cfg, todo, |candidates| - |todo|)))])
  }

  function Committing(s: State, r: Owner, works: seq<Work>): State
    requires r in s.runs && s.runs[r].selection.Some? && Outcome(s, r, works).Ok?
  {
    var batch := Outcome(s, r, works).value;
    Ended(s, r).(
      db := batch.db,
      saved := s.saved + batch.saved,
      spent := s.spent + batch.spent,
      putBacks := map id | id in s.putBacks :: s.putBacks[id] +
        if id in s.db.raw && id in batch.db.raw && WasPutBack(s.db.raw[id], batch.db.raw[id]) then 1 else 0)
  }

  function Failing(s: State, r: Owner): State {
    Ended(WithRaw(s, ReleasedRows(s.db.raw, r, s.clock)), r).(
      putBacks := map id | id in s.putBacks :: s.putBacks[id] + if id in s.db.raw && s.db.raw[id].owner == Some(r) then 1 else 0)
  }

  /** An agent turn or an embedding call charges the counter it shares with enrichment. */
  function Charging(s: State, tenant: Option<string>, day: int, tokens: nat): State {
    var key := LlmSpend.SpendKey(LlmSpend.Bucket(tenant), day);
    s.(db := s.db.(spend := LlmSpend.Increment(s.db.spend, key, tokens, 1)), outside := s.outside + [OutsideCharge(key, tokens)])
  }

  /** A step that is not enabled does nothing, so every sequence of actions is a run. */
  ghost function Next(s: State, action: Action, limit: nat): State {
    if !Enabled(s, action, limit) then s
    else
      match action
      case Tick(seconds) => s.(clock := s.clock + seconds)
      case Arrive(id) => WithRaw(s, s.db.raw[id := ARRIVED]).(putBacks := s.putBacks[id := 0])
      case Begin(r) => s.(runs := s.runs[r := LiveRun(s.clock, map[], {}, None)], used := s.used + {r})
      case Claim(r, ids) => Claiming(s, r, ids)
      case Normalize(r, id, quality) => Normalizing(s, r, id, quality)
      case NormalizeUnleased(qualities) => NormalizingUnleased(s, qualities)
      case Select(r, cfg, candidates) => Selecting(s, r, cfg, candidates)
      case Commit(r, works) => Committing(s, r, works)
      case Fail(r) => Failing(s, r)
      case Finish(r) => Ended(s, r)
      case Crash(r) => Ended(s, r)
      case SpendElsewhere(tenant, day, tokens) => Charging(s, tenant, day, tokens)
  }

  /** What each step writes into a raw row. Steps that are not about this row, or not enabled, leave it. */
  lemma EveryRow(s: State, action: Action, limit: nat, id: int)
    requires id in s.db.raw && Enabled(s, action, limit) && !action.Commit?
    ensures id in Next(s, action, limit).db.raw
    ensures var row, row' := s.db.raw[id], Next(s, action, limit).db.raw[id];
            match action
            case Claim(r, ids) =>
              row' == if id in ids then Row(Some(Processing), row.attempts, row.nextAttempt, Some(r), Some(s.clock + 3900)) else row
            case Normalize(r, n, quality) =>
              row' == if n != id || quality == Good then row
                      else if quality == Bad then Row(Some(QualityRejected), row.attempts, None, None, None)
                      else Row(Some(NormalizationRetry), s.runs[r].held[id] + 1, Some(s.clock + 60 * NormalizationDelay(s.runs[r].held[id] + 1)), None, None)
            case NormalizeUnleased(qualities) =>
              row' == if id !in qualities || qualities[id] == Good then row
                      else if qualities[id] == Bad then Row(Some(QualityRejected), row.attempts, None, None, None)
                      else Row(Some(NormalizationRetry), row.attempts + 1, Some(s.clock + 60 * NormalizationDelay(row.attempts + 1)), None, None)
            case Fail(r) => row' == if row.owner == Some(r) then Row(Some(EnrichmentRetry), row.attempts + 1, Some(s.clock + 60), None, None) else row
            case _ => row' == row
  {
    hide NormalizationDelay, Selected, Claimable;
  }

  /** Only rows that are unfinished, due, under no running lease, unprocessed and not yet looked at can be
      claimed, by a run that has not selected yet. */
  lemma ClaimsExactly(s: State, r: Owner, ids: set<int>, limit: nat)
    ensures Enabled(s, Claim(r, ids), limit) <==>
              r in s.runs && s.runs[r].selection.None? && forall id :: id in ids ==>
                && id in s.db.raw && id !in s.runs[r].scanned
                && (forall row :: row in s.db.processed ==> row.rawId != id)
                && IsUnfinished(s.db.raw[id].status)
                && (s.db.raw[id].nextAttempt.Some? ==> s.db.raw[id].nextAttempt.value <= s.clock)
                && (s.db.raw[id].owner.Some? ==> s.db.raw[id].leaseExpires.Some? && s.db.raw[id].leaseExpires.value <= s.clock)
  {
    forall id | id in s.db.raw {
      ClaimableExactly(s.db.raw[id], s.clock);
    }
    hide Claimable;
  }

  /** What holds with no assumption on time. */
  ghost predicate Sane(s: State) {
    && SaneRows(s)
    && SaneRuns(s)
    && UniqueRaw(s.db.processed) && s.saved == |s.db.processed|
  }

  /** A leased row has an expiry and a known owner, a completed one has a processed row, and no row
      counts more attempts than it was put back. */
  ghost predicate SaneRows(s: State) {
    && s.putBacks.Keys == s.db.raw.Keys
    && forall id :: id in s.db.raw ==>
         && (s.db.raw[id].owner.Some? ==> s.db.raw[id].leaseExpires.Some? && s.db.raw[id].owner.value in s.used)
         && (s.db.raw[id].status == Some(Completed) ==> id in ProcessedIds(s.db.processed))
         && s.db.raw[id].attempts <= s.putBacks[id]
  }

  ghost predicate SaneRuns(s: State) {
    && s.runs.Keys <= s.used
    && (forall r, id :: r in s.runs && id in s.runs[r].held ==> id in s.putBacks && s.runs[r].held[id] <= s.putBacks[id])
    && (forall r :: r in s.runs && s.runs[r].selection.Some? ==> s.runs[r].selection.value.cfg.owner == Some(r))
  }

  lemma ClaimingStaysSane(s: State, r: Owner, ids: set<int>)
    requires Sane(s) && r in s.runs
    ensures Sane(Claiming(s, r, ids))
  {
    hide UniqueRaw, ProcessedIds, Claimable;
  }

  lemma NormalizingStaysSane(s: State, r: Owner, id: int, quality: Quality)
    requires Sane(s) && r in s.runs && id in s.runs[r].held && id in s.db.raw
    ensures Sane(Normalizing(s, r, id, quality))
  {
    hide UniqueRaw, ProcessedIds, NormalizationDelay;
  }

  lemma NormalizingUnleasedStaysSane(s: State, qualities: map<int, Quality>)
    requires Sane(s)
    ensures Sane(NormalizingUnleased(s, qualities))
  {
    hide UniqueRaw, ProcessedIds, NormalizationDelay;
  }

  lemma FailingStaysSane(s: State, r: Owner)
    requires Sane(s) && r in s.runs
    ensures Sane(Failing(s, r))
  {
    hide UniqueRaw, ProcessedIds;
  }

  /** A commit follows `Inserted` and `RowOutcomes`, so it inserts what it says it saved and changes
      only rows its run holds. */
  lemma CommitFacts(s: State, r: Owner, works: seq<Work>)
    requires Sane(s) && r in s.runs && s.runs[r].selection.Some? && Outcome(s, r, works).Ok?
    ensures Inserted(Start(s.db, false, s.runs[r].selection.value.already), Outcome(s, r, works).value)
    ensures RowOutcomes(s.db.raw, Outcome(s, r, works).value.db.raw, r, ProcessedIds(Outcome(s, r, works).value.db.processed))
    ensures ProcessedIds(s.db.processed) <= ProcessedIds(Outcome(s, r, works).value.db.processed)
  {
    var selection := s.runs[r].selection.value;
    var start := Start(s.db, false, selection.already);
    hide EnrichmentPipeline.Run;
    RunInserts(selection.cfg, start, works);
    RunRows(selection.cfg, start, works);
    forall row | row in s.db.processed ensures row in Outcome(s, r, works).value.db.processed {
      assert row in Outcome(s, r, works).value.db.processed[..|s.db.processed|];
    }
  }

  /** What a batch did to a row shows in its attempt count. */
  lemma OutcomeCounts(row: Row, row': Row, id: int, r: Owner, processed: set<int>)
    requires RowOutcome(row, row', id, r, processed)
    ensures row'.attempts == row.attempts + if WasPutBack(row, row') then 1 else 0
    ensures row' == row || (row.owner == Some(r) && row'.owner.None?)
    ensures row'.status == Some(Completed) ==> row' == row || id in processed
  {}

  lemma CommittingTables(s: State, r: Owner, works: seq<Work>)
    requires r in s.runs && s.runs[r].selection.Some? && Outcome(s, r, works).Ok?
    ensures var s', batch := Committing(s, r, works), Outcome(s, r, works).value;
            && s'.db == batch.db && s'.used == s.used && s'.clock == s.clock && s'.runs == s.runs - {r} && s'.saved == s.saved + batch.saved
            && s'.spent == s.spent + batch.spent && s'.outside == s.outside
            && s'.putBacks.Keys == s.putBacks.Keys
            && forall id :: id in s.putBacks && id in s.db.raw && id in batch.db.raw ==>
                 s'.putBacks[id] == s.putBacks[id] + if WasPutBack(s.db.raw[id], batch.db.raw[id]) then 1 else 0
  {
    hide Outcome, WasPutBack;
  }

  lemma CommittingKeepsRows(s: State, r: Owner, works: seq<Work>)
    requires Sane(s) && r in s.runs && s.runs[r].selection.Some? && Outcome(s, r, works).Ok?
    ensures SaneRows(Committing(s, r, works))
  {
    CommitFacts(s, r, works);
    CommittingTables(s, r, works);
    hide Outcome, UniqueRaw, SaneRuns, ProcessedIds, Inserted, RowOutcome, WasPutBack, Committing;
    var s' := Committing(s, r, works);
    forall id | id in s'.db.raw {
      OutcomeCounts(s.db.raw[id], s'.db.raw[id], id, r, ProcessedIds(s'.db.processed));
    }
  }

  lemma SameKeys(s: State, r: Owner, works: seq<Work>)
    requires Sane(s) && r in s.runs && s.runs[r].selection.Some? && Outcome(s, r, works).Ok?
    requires RowOutcomes(s.db.raw, Outcome(s, r, works).value.db.raw, r, ProcessedIds(Outcome(s, r, works).value.db.processed))
    ensures s.putBacks.Keys == s.db.raw.Keys == Outcome(s, r, works).value.db.raw.Keys
  {
    hide Outcome;
  }

  lemma CommittingStaysSane(s: State, r: Owner, works: seq<Work>)
    requires Sane(s) && r in s.runs && s.runs[r].selection.Some? && Outcome(s, r, works).Ok?
    ensures Sane(Committing(s, r, works))
  {
    CommittingKeepsRows(s, r, works);
    CommitFacts(s, r, works);
    CommittingTables(s, r, works);
    hide Outcome, UniqueRaw, SaneRows, RowOutcomes, Committing;
    assert SaneRows(s);
    SameKeys(s, r, works);
  }

  lemma NextStaysSane(s: State, action: Action, limit: nat)
    requires Sane(s)
    ensures Sane(Next(s, action, limit))
  {
    if Enabled(s, action, limit) {
      hide Sane, Committing, Claiming, Failing, Normalizing, NormalizingUnleased, Selecting, Ended, WithRaw, Charging;
      match action {
        case Tick(seconds) => TickingStaysSane(s, s.clock + seconds);
        case Arrive(id) => ArrivingStaysSane(s, id);
        case Begin(r) => BeginningStaysSane(s, r);
        case Claim(r, ids) => ClaimingStaysSane(s, r, ids);
        case Normalize(r, id, quality) => NormalizingStaysSane(s, r, id, quality);
        case NormalizeUnleased(qualities) => NormalizingUnleasedStaysSane(s, qualities);
        case Select(r, cfg, candidates) => SelectingStaysSane(s, r, cfg, candidates);
        case Commit(r, works) => CommittingStaysSane(s, r, works);
        case Fail(r) => FailingStaysSane(s, r);
        case Finish(r) => EndingStaysSane(s, r);
        case Crash(r) => EndingStaysSane(s, r);
        case SpendElsewhere(tenant, day, tokens) => ChargingStaysSane(s, tenant, day, tokens);
      }
    }
  }

  lemma ArrivingStaysSane(s: State, id: int)
    requires Sane(s) && id !in s.db.raw
    ensures Sane(WithRaw(s, s.db.raw[id := ARRIVED]).(putBacks := s.putBacks[id := 0]))
  {
    hide UniqueRaw, ProcessedIds;
  }

  lemma BeginningStaysSane(s: State, r: Owner)
    requires Sane(s) && r !in s.used
    ensures Sane(s.(runs := s.runs[r := LiveRun(s.clock, map[], {}, None)], used := s.used + {r}))
  {
    hide UniqueRaw, ProcessedIds;
  }

  lemma SelectingStaysSane(s: State, r: Owner, cfg: Config, candidates: seq<Work>)
    requires Sane(s) && r in s.runs && cfg.owner == Some(r)
    ensures Sane(Selecting(s, r, cfg, candidates))
  {
    hide UniqueRaw, ProcessedIds, Selected;
  }

  lemma EndingStaysSane(s: State, r: Owner)
    requires Sane(s)
    ensures Sane(Ended(s, r))
  {
    hide UniqueRaw, ProcessedIds;
  }

  lemma ChargingStaysSane(s: State, tenant: Option<string>, day: int, tokens: nat)
    requires Sane(s)
    ensures Sane(Charging(s, tenant, day, tokens))
  {
    hide UniqueRaw, ProcessedIds;
  }

  lemma TickingStaysSane(s: State, clock: int)
    requires Sane(s)
    ensures Sane(s.(clock := clock))
  {
    hide UniqueRaw, ProcessedIds;
  }

  ghost function Steps(s: State, actions: seq<Action>, limit: nat): State {
    if actions == [] then s else Next(Steps(s, actions[..|actions| - 1], limit), actions[|actions| - 1], limit)
  }

  /** The state after a run of the whole system from an empty database. */
  ghost function After(actions: seq<Action>, limit: nat): State {
    Steps(NOTHING, actions, limit)
  }

  lemma OneMore(s: State, actions: seq<Action>, action: Action, limit: nat)
    ensures Steps(s, actions + [action], limit) == Next(Steps(s, actions, limit), action, limit)
  {
    assert (actions + [action])[..|actions|] == actions;
  }

  lemma {:induction false} RunsStaySane(s: State, actions: seq<Action>, limit: nat)
    requires Sane(s)
    ensures Sane(Steps(s, actions, limit))
  {
    if actions != [] {
      hide Sane, Next;
      RunsStaySane(s, actions[..|actions| - 1], limit);
      NextStaysSane(Steps(s, actions[..|actions| - 1], limit), actions[|actions| - 1], limit);
    }
  }

  /** With no assumption on time, even when leases expire under a live run: no article ever gets a
      second processed row, and what committed runs report as saved is what is there. */
  lemma EachArticleIsSavedOnce(actions: seq<Action>, limit: nat)
    ensures UniqueRaw(After(actions, limit).db.processed)
    ensures After(actions, limit).saved == |After(actions, limit).db.processed|
  {
    RunsStaySane(NOTHING, actions, limit);
  }

  /** A run that lost a row to another owner does not touch it when it commits. */
  lemma TakenOverRowsAreLeftAlone(actions: seq<Action>, limit: nat, r: Owner, works: seq<Work>, id: int)
    requires var s := After(actions, limit); Enabled(s, Commit(r, works), limit) && id in s.db.raw && s.db.raw[id].owner != Some(r)
    ensures var s' := After(actions + [Commit(r, works)], limit); id in s'.db.raw && s'.db.raw[id] == After(actions, limit).db.raw[id]
  {
    var s := After(actions, limit);
    RunsStaySane(NOTHING, actions, limit);
    OneMore(NOTHING, actions, Commit(r, works), limit);
    CommitFacts(s, r, works);
    hide Outcome, Sane, Inserted, Steps, ProcessedIds;
    assert RowOutcome(s.db.raw[id], Outcome(s, r, works).value.db.raw[id], id, r, ProcessedIds(Outcome(s, r, works).value.db.processed));
  }

  // ----- Under a run limit shorter than the lease

  ghost predicate OnTime(s: State, limit: nat) {
    forall r :: r in s.runs ==> s.runs[r].began <= s.clock <= s.runs[r].began + limit
  }

  /** A live run still owns what it works on, under a lease that outlasts it, and has read the
      current attempt count. */
  ghost predicate Holds(s: State, r: Owner, id: int)
    requires r in s.runs && id in s.runs[r].held
  {
    && id in s.db.raw
    && s.db.raw[id].owner == Some(r)
    && s.db.raw[id].leaseExpires.Some? && s.db.raw[id].leaseExpires.value >= s.runs[r].began + ENRICH_LEASE
    && s.db.raw[id].attempts == s.runs[r].held[id]
  }

  ghost predicate AllHeld(s: State) {
    forall r, id :: r in s.runs && id in s.runs[r].held ==> Holds(s, r, id)
  }

  ghost predicate Counted(s: State) {
    forall id :: id in s.db.raw ==> id in s.putBacks && s.db.raw[id].attempts == s.putBacks[id]
  }

  ghost predicate Timed(s: State, limit: nat) {
    OnTime(s, limit) && AllHeld(s) && Counted(s)
  }

  lemma HeldIsNotClaimable(s: State, limit: nat, r: Owner, id: int)
    requires Timed(s, limit) && limit < ENRICH_LEASE && r in s.runs && id in s.runs[r].held
    ensures id in s.db.raw && !Claimable(s.db.raw[id], s.clock)
  {
    assert Holds(s, r, id);
  }

  lemma ClaimingStaysTimed(s: State, limit: nat, r: Owner, ids: set<int>)
    requires Sane(s) && Timed(s, limit) && limit < ENRICH_LEASE && Enabled(s, Claim(r, ids), limit)
    ensures Timed(Claiming(s, r, ids), limit)
  {
    var s' := Claiming(s, r, ids);
    forall r', id | r' in s'.runs && id in s'.runs[r'].held ensures Holds(s', r', id) {
      if id in ids {
        if id in s.runs[r'].held { HeldIsNotClaimable(s, limit, r', id); }
      } else {
        assert Holds(s, r', id);
      }
    }
  }

  lemma NormalizingStaysTimed(s: State, limit: nat, r: Owner, id: int, quality: Quality)
    requires Sane(s) && Timed(s, limit) && r in s.runs && id in s.runs[r].held && id in s.db.raw
    ensures Timed(Normalizing(s, r, id, quality), limit)
  {
    assert Holds(s, r, id);
    var s' := Normalizing(s, r, id, quality);
    forall r', id' | r' in s'.runs && id' in s'.runs[r'].held ensures Holds(s', r', id') {
      assert Holds(s, r', id');
    }
  }

  lemma NormalizingUnleasedStaysTimed(s: State, limit: nat, qualities: map<int, Quality>)
    requires Sane(s) && Timed(s, limit) && limit < ENRICH_LEASE && Enabled(s, NormalizeUnleased(qualities), limit)
    ensures Timed(NormalizingUnleased(s, qualities), limit)
  {
    var s' := NormalizingUnleased(s, qualities);
    forall r, id | r in s'.runs && id in s'.runs[r].held ensures Holds(s', r, id) {
      assert Holds(s, r, id);
      HeldIsNotClaimable(s, limit, r, id);
    }
  }

  lemma FailingStaysTimed(s: State, limit: nat, r: Owner)
    requires Sane(s) && Timed(s, limit) && r in s.runs
    ensures Timed(Failing(s, r), limit)
  {
    var s' := Failing(s, r);
    forall r', id | r' in s'.runs && id in s'.runs[r'].held ensures Holds(s', r', id) {
      assert Holds(s, r', id);
    }
  }

  lemma CommittingStaysTimed(s: State, limit: nat, r: Owner, works: seq<Work>)
    requires Sane(s) && Timed(s, limit) && r in s.runs && s.runs[r].selection.Some? && Outcome(s, r, works).Ok?
    ensures Timed(Committing(s, r, works), limit)
  {
    CommitFacts(s, r, works);
    CommittingTables(s, r, works);
    hide Outcome, UniqueRaw, ProcessedIds, Inserted, RowOutcome, WasPutBack, Committing;
    var s' := Committing(s, r, works);
    forall id | id in s'.db.raw {
      OutcomeCounts(s.db.raw[id], s'.db.raw[id], id, r, ProcessedIds(s'.db.processed));
    }
    forall r', id | r' in s'.runs && id in s'.runs[r'].held ensures Holds(s', r', id) {
      assert Holds(s, r', id);
    }
  }

  lemma OtherStaysTimed(s: State, action: Action, limit: nat)
    requires Sane(s) && Timed(s, limit) && Enabled(s, action, limit)
    requires action.Tick? || action.Arrive? || action.Begin? || action.Select? || action.Finish? || action.Crash? || action.SpendElsewhere?
    ensures Timed(Next(s, action, limit), limit)
  {
    var s' := Next(s, action, limit);
    forall r, id | r in s'.runs && id in s'.runs[r].held ensures Holds(s', r, id) {
      assert Holds(s, r, id);
    }
  }

  lemma NextStaysTimed(s: State, action: Action, limit: nat)
    requires Sane(s) && Timed(s, limit) && limit < ENRICH_LEASE
    ensures Timed(Next(s, action, limit), limit)
  {
    if Enabled(s, action, limit) {
      hide Sane, Timed, Committing, Claiming, Failing, Normalizing, NormalizingUnleased;
      match action {
        case Claim(r, ids) => ClaimingStaysTimed(s, limit, r, ids);
        case Normalize(r, id, quality) => NormalizingStaysTimed(s, limit, r, id, quality);
        case NormalizeUnleased(qualities) => NormalizingUnleasedStaysTimed(s, limit, qualities);
        case Commit(r, works) => CommittingStaysTimed(s, limit, r, works);
        case Fail(r) => FailingStaysTimed(s, limit, r);
        case _ => OtherStaysTimed(s, action, limit);
      }
    }
  }

  lemma {:induction false} RunsStayTimed(actions: seq<Action>, limit: nat)
    requires limit < ENRICH_LEASE
    ensures Timed(After(actions, limit), limit)
  {
    if actions != [] {
      hide Next, Timed, Sane;
      RunsStaySane(NOTHING, actions[..|actions| - 1], limit);
      RunsStayTimed(actions[..|actions| - 1], limit);
      NextStaysTimed(After(actions[..|actions| - 1], limit), actions[|actions| - 1], limit);
    } else {
      assert Timed(NOTHING, limit);
    }
  }

  // ----- No work is wasted

  /** What a live run holds is still waiting for it: marked as being processed, due, and without a
      processed row; and what it selected is all it holds. */
  ghost predicate Awaits(s: State, id: int) {
    && id in s.db.raw && s.db.raw[id].status == Some(Processing)
    && (s.db.raw[id].nextAttempt.None? || s.db.raw[id].nextAttempt.value <= s.clock)
    && id !in ProcessedIds(s.db.processed)
  }

  ghost predicate AllAwait(s: State) {
    && (forall r, id :: r in s.runs && id in s.runs[r].held ==> Awaits(s, id))
    && (forall r :: r in s.runs && s.runs[r].selection.Some? ==> SelectedAll(s.runs[r]))
  }

  ghost predicate SelectedAll(run: LiveRun)
    requires run.selection.Some?
  {
    EachOnce(run.selection.value.todo) && Ids(run.selection.value.todo) == run.held.Keys && run.selection.value.already == 0
  }

  lemma {:induction false} IdsCount(works: seq<Work>)
    requires EachOnce(works)
    ensures |Ids(works)| == |works|
  {
    if works != [] {
      LastIsNew(works);
      IdsCount(works[..|works| - 1]);
    }
  }

  lemma SameArticlesSameIds(works: seq<Work>, todo: seq<Work>)
    requires SameArticles(works, todo) && EachOnce(todo)
    ensures EachOnce(works) && Ids(works) == Ids(todo)
  {
    forall id ensures id in Ids(works) <==> id in Ids(todo) {
      if id in Ids(works) {
        var k :| 0 <= k < |works| && works[k].id == id;
        assert todo[k] in todo;
      }
      if id in Ids(todo) {
        var k :| 0 <= k < |todo| && todo[k].id == id;
        assert works[k] in works;
      }
    }
  }

  /** A run on time selects everything it holds. */
  lemma SelectingTakesAll(s: State, limit: nat, r: Owner, cfg: Config, candidates: seq<Work>)
    requires Timed(s, limit) && AllAwait(s) && Enabled(s, Select(r, cfg, candidates), limit)
    ensures SelectedAll(Selecting(s, r, cfg, candidates).runs[r])
  {
    var todo := Selected(cfg, s.db, candidates, s.clock);
    SelectedExactly(cfg, s.db, candidates, s.clock);
    forall id | id in Ids(candidates) ensures !Excluded(cfg, s.db, id, s.clock) {
      assert Holds(s, r, id) && Awaits(s, id);
    }
    hide Selected, Excluded, Ids;
    assert Ids(todo) == Ids(candidates);
    IdsCount(todo);
    IdsCount(candidates);
  }

  lemma SelectingKeepsWaiting(s: State, limit: nat, r: Owner, cfg: Config, candidates: seq<Work>)
    requires Timed(s, limit) && AllAwait(s) && Enabled(s, Select(r, cfg, candidates), limit)
    ensures AllAwait(Selecting(s, r, cfg, candidates))
  {
    SelectingTakesAll(s, limit, r, cfg, candidates);
    hide SelectedAll, Selected, ProcessedIds;
    var s' := Selecting(s, r, cfg, candidates);
    forall r', id | r' in s'.runs && id in s'.runs[r'].held ensures Awaits(s', id) {
      assert Awaits(s, id);
    }
  }

  lemma ClaimingKeepsWaiting(s: State, limit: nat, r: Owner, ids: set<int>)
    requires Timed(s, limit) && limit < ENRICH_LEASE && AllAwait(s) && Enabled(s, Claim(r, ids), limit)
    ensures AllAwait(Claiming(s, r, ids))
  {
    hide SelectedAll, ProcessedIds;
    var s' := Claiming(s, r, ids);
    forall r', id | r' in s'.runs && id in s'.runs[r'].held ensures Awaits(s', id) {
      if id in ids {
        assert CanClaim(s, s.runs[r], id);
      } else {
        assert Awaits(s, id);
      }
    }
  }

  lemma NormalizingKeepsWaiting(s: State, limit: nat, r: Owner, id: int, quality: Quality)
    requires Timed(s, limit) && AllAwait(s) && Enabled(s, Normalize(r, id, quality), limit)
    ensures AllAwait(Normalizing(s, r, id, quality))
  {
    hide SelectedAll, ProcessedIds;
    assert Holds(s, r, id);
    var s' := Normalizing(s, r, id, quality);
    forall r', id' | r' in s'.runs && id' in s'.runs[r'].held ensures Awaits(s', id') {
      assert Awaits(s, id') && Holds(s, r', id');
    }
  }

  lemma NormalizingUnleasedKeepsWaiting(s: State, limit: nat, qualities: map<int, Quality>)
    requires Timed(s, limit) && limit < ENRICH_LEASE && AllAwait(s) && Enabled(s, NormalizeUnleased(qualities), limit)
    ensures AllAwait(NormalizingUnleased(s, qualities))
  {
    hide SelectedAll, ProcessedIds;
    var s' := NormalizingUnleased(s, qualities);
    forall r, id | r in s'.runs && id in s'.runs[r].held ensures Awaits(s', id) {
      assert Awaits(s, id);
      HeldIsNotClaimable(s, limit, r, id);
    }
  }

  lemma FailingKeepsWaiting(s: State, limit: nat, r: Owner)
    requires Timed(s, limit) && AllAwait(s) && r in s.runs
    ensures AllAwait(Failing(s, r))
  {
    hide SelectedAll, ProcessedIds;
    var s' := Failing(s, r);
    forall r', id | r' in s'.runs && id in s'.runs[r'].held ensures Awaits(s', id) {
      assert Awaits(s, id) && Holds(s, r', id);
    }
  }

  /** A run on time commits without finding anything already processed, and gives rows only to what it holds. */
  lemma CommitOfFresh(s: State, limit: nat, r: Owner, works: seq<Work>)
    requires AllAwait(s) && Enabled(s, Commit(r, works), limit)
    ensures Outcome(s, r, works).value.alreadyProcessed == 0 && |works| == |s.runs[r].held|
    ensures ProcessedIds(Outcome(s, r, works).value.db.processed) <= ProcessedIds(s.db.processed) + s.runs[r].held.Keys
  {
    var selection := s.runs[r].selection.value;
    assert SelectedAll(s.runs[r]);
    SameArticlesSameIds(works, selection.todo);
    IdsCount(works);
    assert |s.runs[r].held.Keys| == |s.runs[r].held|;
    hide EnrichmentPipeline.Run, Ids;
    assert Ids(works) !! ProcessedIds(s.db.processed) by {
      forall id | id in s.runs[r].held ensures id !in ProcessedIds(s.db.processed) { assert Awaits(s, id); }
    }
    RunOfFresh(selection.cfg, Start(s.db, false, selection.already), works);
  }

  lemma CommittingKeepsWaiting(s: State, limit: nat, r: Owner, works: seq<Work>)
    requires Sane(s) && Timed(s, limit) && AllAwait(s) && Enabled(s, Commit(r, works), limit)
    ensures AllAwait(Committing(s, r, works))
  {
    CommitFacts(s, r, works);
    CommittingTables(s, r, works);
    CommitOfFresh(s, limit, r, works);
    hide Outcome, Sane, Inserted, RowOutcome, WasPutBack, Committing, ProcessedIds, SelectedAll, Ids;
    var s' := Committing(s, r, works);
    forall r', id | r' in s'.runs && id in s'.runs[r'].held ensures Awaits(s', id) {
      assert Awaits(s, id) && Holds(s, r', id) && (id in s.runs[r].held ==> Holds(s, r, id));
      OutcomeCounts(s.db.raw[id], s'.db.raw[id], id, r, ProcessedIds(s'.db.processed));
    }
  }

  lemma OtherKeepsWaiting(s: State, action: Action, limit: nat)
    requires AllAwait(s) && Enabled(s, action, limit)
    requires action.Tick? || action.Arrive? || action.Begin? || action.Finish? || action.Crash? || action.SpendElsewhere?
    ensures AllAwait(Next(s, action, limit))
  {
    hide SelectedAll, ProcessedIds;
    var s' := Next(s, action, limit);
    forall r, id | r in s'.runs && id in s'.runs[r].held ensures Awaits(s', id) {
      assert Awaits(s, id);
    }
  }

  lemma NextKeepsWaiting(s: State, action: Action, limit: nat)
    requires Sane(s) && Timed(s, limit) && AllAwait(s) && limit < ENRICH_LEASE
    ensures AllAwait(Next(s, action, limit))
  {
    if Enabled(s, action, limit) {
      hide Sane, Timed, AllAwait, Committing, Claiming, Failing, Normalizing, NormalizingUnleased, Selecting;
      match action {
        case Claim(r, ids) => ClaimingKeepsWaiting(s, limit, r, ids);
        case Normalize(r, id, quality) => NormalizingKeepsWaiting(s, limit, r, id, quality);
        case NormalizeUnleased(qualities) => NormalizingUnleasedKeepsWaiting(s, limit, qualities);
        case Select(r, cfg, candidates) => SelectingKeepsWaiting(s, limit, r, cfg, candidates);
        case Commit(r, works) => CommittingKeepsWaiting(s, limit, r, works);
        case Fail(r) => FailingKeepsWaiting(s, limit, r);
        case _ => OtherKeepsWaiting(s, action, limit);
      }
    }
  }

  lemma {:induction false} RunsKeepWaiting(actions: seq<Action>, limit: nat)
    requires limit < ENRICH_LEASE
    ensures AllAwait(After(actions, limit))
  {
    if actions != [] {
      hide Next, Timed, Sane, AllAwait;
      RunsStaySane(NOTHING, actions[..|actions| - 1], limit);
      RunsStayTimed(actions[..|actions| - 1], limit);
      RunsKeepWaiting(actions[..|actions| - 1], limit);
      NextKeepsWaiting(After(actions[..|actions| - 1], limit), actions[|actions| - 1], limit);
    }
  }

  /** Below the lease length every article a run holds is selected and settled by its commit, each
      under one outcome; nothing it commits was already processed by anybody. */
  lemma NoWorkIsWasted(actions: seq<Action>, limit: nat, r: Owner, works: seq<Work>)
    requires limit < ENRICH_LEASE && Enabled(After(actions, limit), Commit(r, works), limit)
    requires ValidPolicy(After(actions, limit).runs[r].selection.value.cfg.policy)
    ensures var s := After(actions, limit); var batch := Outcome(s, r, works).value;
            && batch.alreadyProcessed == 0
            && |s.runs[r].held| == batch.saved + batch.metrics.skipped + batch.metrics.deferred + batch.metrics.failed
  {
    var s := After(actions, limit);
    var selection := s.runs[r].selection.value;
    RunsKeepWaiting(actions, limit);
    CommitOfFresh(s, limit, r, works);
    assert SelectedAll(s.runs[r]);
    hide EnrichmentPipeline.Run, Steps, AllAwait, SelectedAll;
    RunBalances(selection.cfg, Start(s.db, false, selection.already), works, selection.already);
  }

  /** Two live runs work on the same article. */
  ghost predicate Clash(s: State) {
    exists r, r', id :: r in s.runs && r' in s.runs && r != r' && id in s.runs[r].held && id in s.runs[r'].held
  }

  /** A first worker claims an article and stalls for the length of a lease; a second one claims it. */
  const OVERRUN := [Arrive(1), Begin(10), Claim(10, {1}), Tick(ENRICH_LEASE), Begin(20), Claim(20, {1})]

  /** Then the second fails and puts the article back, and the first puts it back as well. */
  const LOST_COUNT := OVERRUN + [Fail(20), Normalize(10, 1, Broken)]

  function Leased(owner: Owner, now: int): Row {
    Row(Some(Processing), 0, None, Some(owner), Some(now + ENRICH_LEASE))
  }

  function OneArticle(clock: int, row: Row, runs: map<Owner, LiveRun>, used: set<Owner>): State {
    State(clock, Db(map[1 := row], [], map[], map[]), runs, used, 0, map[1 := 0], [], [])
  }

  /** The six states of that run. */
  function Overrun(k: nat): State
    requires k <= 6
  {
    var claimed := LiveRun(0, map[1 := 0], {1}, None);
    match k
    case 0 => NOTHING
    case 1 => OneArticle(0, ARRIVED, map[], {})
    case 2 => OneArticle(0, ARRIVED, map[10 := LiveRun(0, map[], {}, None)], {10})
    case 3 => OneArticle(0, Leased(10, 0), map[10 := claimed], {10})
    case 4 => OneArticle(ENRICH_LEASE, Leased(10, 0), map[10 := claimed], {10})
    case 5 => OneArticle(ENRICH_LEASE, Leased(10, 0), map[10 := claimed, 20 := LiveRun(ENRICH_LEASE, map[], {}, None)], {10, 20})
    case 6 => OneArticle(ENRICH_LEASE, Leased(20, ENRICH_LEASE),
                map[10 := claimed, 20 := LiveRun(ENRICH_LEASE, map[1 := 0], {1}, None)], {10, 20})
  }

  lemma ClaimOne(s: State, r: Owner, limit: nat)
    requires s.db.raw.Keys == {1} && s.db.processed == [] && Claimable(s.db.raw[1], s.clock)
    requires r in s.runs && s.runs[r] == LiveRun(s.runs[r].began, map[], {}, None)
    ensures Next(s, Claim(r, {1}), limit) ==
              WithRaw(s, map[1 := Claimed(s.db.raw[1], r, s.clock)]).(
                runs := s.runs[r := LiveRun(s.runs[r].began, map[1 := s.db.raw[1].attempts], {1}, None)])
  {
    assert CanClaim(s, s.runs[r], 1);
    assert ClaimedRows(s.db.raw, {1}, r, s.clock) == map[1 := Claimed(s.db.raw[1], r, s.clock)];
    assert s.runs[r].held + (map id | id in {1} && id in s.db.raw :: s.db.raw[id].attempts) == map[1 := s.db.raw[1].attempts];
    assert s.runs[r].scanned + {1} == {1};
    assert Enabled(s, Claim(r, {1}), limit);
    assert Next(s, Claim(r, {1}), limit) == Claiming(s, r, {1});
    var s' := Claiming(s, r, {1});
    assert s'.db.raw == map[1 := Claimed(s.db.raw[1], r, s.clock)];
    assert s'.runs[r] == LiveRun(s.runs[r].began, map[1 := s.db.raw[1].attempts], {1}, None);
  }

  lemma OverrunStep(k: nat, limit: nat)
    requires k < 6 && limit >= ENRICH_LEASE
    ensures Next(Overrun(k), OVERRUN[k], limit) == Overrun(k + 1)
  {
    hide Claiming, Committing, Failing, Normalizing, NormalizingUnleased, Selecting;
    if k == 2 {
      ClaimOne(Overrun(2), 10, limit);
    } else if k == 5 {
      ClaimOne(Overrun(5), 20, limit);
    }
  }

  lemma {:induction false} OverrunUnfolds(k: nat, limit: nat)
    requires k <= 6 && limit >= ENRICH_LEASE
    ensures After(OVERRUN[..k], limit) == Overrun(k)
  {
    hide Next;
    if k > 0 {
      hide Overrun;
      OverrunUnfolds(k - 1, limit);
      assert OVERRUN[..k] == OVERRUN[..k - 1] + [OVERRUN[k - 1]];
      OneMore(NOTHING, OVERRUN[..k - 1], OVERRUN[k - 1], limit);
      OverrunStep(k - 1, limit);
    }
  }

  lemma FailHappens(s: State, r: Owner, limit: nat)
    requires r in s.runs
    ensures Next(s, Fail(r), limit) == Failing(s, r)
  {}

  lemma NormalizeHappens(s: State, r: Owner, id: int, quality: Quality, limit: nat)
    requires r in s.runs && s.runs[r].selection.None? && id in s.runs[r].held && id in s.db.raw
    ensures Next(s, Normalize(r, id, quality), limit) == Normalizing(s, r, id, quality)
  {}

  lemma LosesCount(limit: nat)
    requires limit >= ENRICH_LEASE
    ensures !Counted(After(LOST_COUNT, limit))
  {
    hide Next, Failing;
    OverrunUnfolds(6, limit);
    assert OVERRUN[..6] == OVERRUN;
    FailHappens(Overrun(6), 20, limit);
    FailOne(Overrun(6));
    OneMore(NOTHING, OVERRUN, Fail(20), limit);
    NormalizeHappens(After(OVERRUN + [Fail(20)], limit), 10, 1, Broken, limit);
    OneMore(NOTHING, OVERRUN + [Fail(20)], Normalize(10, 1, Broken), limit);
    assert OVERRUN + [Fail(20)] + [Normalize(10, 1, Broken)] == LOST_COUNT;
    var s := After(LOST_COUNT, limit);
    assert 1 in s.db.raw && s.db.raw[1].attempts == 1 && s.putBacks[1] == 2;
  }

  lemma FailOne(s: State)
    requires s == Overrun(6)
    ensures var s' := Failing(s, 20);
            && s'.db.raw.Keys == {1} && s'.db.raw[1].attempts == 1
            && s'.putBacks.Keys == {1} && s'.putBacks[1] == 1
            && s'.runs == map[10 := LiveRun(0, map[1 := 0], {1}, None)]
  {}

  /** No two live runs ever work on the same article, exactly when runs are stopped before a lease
      taken at their start would end. */
  lemma RunsNeverShareAnArticle(limit: nat)
    ensures (forall actions :: !Clash(After(actions, limit))) <==> limit < ENRICH_LEASE
  {
    if limit < ENRICH_LEASE {
      forall actions: seq<Action> ensures !Clash(After(actions, limit)) {
        RunsStayTimed(actions, limit);
        TimedDoesNotClash(After(actions, limit), limit);
      }
    } else {
      OverrunUnfolds(6, limit);
      assert OVERRUN[..6] == OVERRUN;
      var s := Overrun(6);
      assert 10 in s.runs && 20 in s.runs && 1 in s.runs[10].held && 1 in s.runs[20].held;
      assert Clash(After(OVERRUN, limit));
    }
  }

  /** The limit the tasks are configured with is short enough. */
  lemma ConfiguredRunsNeverShare(actions: seq<Action>)
    ensures !Clash(After(actions, TASK_TIME_LIMIT)) && Counted(After(actions, TASK_TIME_LIMIT))
  {
    RunsNeverShareAnArticle(TASK_TIME_LIMIT);
    AttemptsCountPutBacks(TASK_TIME_LIMIT);
  }

  lemma TimedDoesNotClash(s: State, limit: nat)
    requires Timed(s, limit)
    ensures !Clash(s)
  {
    forall r, r', id | r in s.runs && r' in s.runs && r != r' && id in s.runs[r].held ensures id !in s.runs[r'].held {
      assert Holds(s, r, id);
    }
  }

  /** The attempt count of every article is the number of times it was put back, under the same
      condition; it is never more. */
  lemma AttemptsCountPutBacks(limit: nat)
    ensures (forall actions :: Counted(After(actions, limit))) <==> limit < ENRICH_LEASE
    ensures forall actions, id :: id in After(actions, limit).db.raw ==>
              id in After(actions, limit).putBacks && After(actions, limit).db.raw[id].attempts <= After(actions, limit).putBacks[id]
  {
    if limit < ENRICH_LEASE {
      forall actions: seq<Action> ensures Counted(After(actions, limit)) {
        RunsStayTimed(actions, limit);
      }
    } else {
      LosesCount(limit);
    }
    forall actions: seq<Action>, id | id in After(actions, limit).db.raw
      ensures id in After(actions, limit).putBacks && After(actions, limit).db.raw[id].attempts <= After(actions, limit).putBacks[id]
    {
      RunsStaySane(NOTHING, actions, limit);
    }
  }

  // ----- An unfinished article comes back

  function Later(a: int, b: Option<int>): int {
    if b.Some? && b.value > a then b.value else a
  }

  /** The later of now, the next attempt, and the end of the lease if there is one. */
  function WakeTime(row: Row, now: int): int {
    Later(Later(now, row.nextAttempt), if row.owner.Some? then row.leaseExpires else None)
  }

  /** In every reachable state a row not given up or completed becomes claimable at its wake time and stays so. */
  lemma WakesUp(actions: seq<Action>, limit: nat, id: int, time: int)
    requires var s := After(actions, limit); id in s.db.raw && !Final(s.db.raw[id].status) && s.clock <= time
    ensures var s := After(actions, limit); Claimable(s.db.raw[id], time) <==> WakeTime(s.db.raw[id], s.clock) <= time
  {
    RunsStaySane(NOTHING, actions, limit);
    hide Steps;
  }

  lemma {:induction false} StepsCompose(s: State, first: seq<Action>, second: seq<Action>, limit: nat)
    ensures Steps(s, first + second, limit) == Steps(Steps(s, first, limit), second, limit)
  {
    hide Next;
    if second == [] {
      assert first + second == first;
    } else {
      StepsCompose(s, first, second[..|second| - 1], limit);
      assert (first + second)[..|first + second| - 1] == first + second[..|second| - 1];
    }
  }

  /** Every live run can crash, which changes nothing else. */
  lemma {:induction false} AllCrash(s: State, limit: nat) returns (crashes: seq<Action>)
    ensures Steps(s, crashes, limit) == s.(runs := map[])
    ensures forall k :: 0 <= k < |crashes| ==> crashes[k].Crash?
    decreases |s.runs|
  {
    if s.runs == map[] {
      crashes := [];
    } else {
      var r := SomeElement(s.runs.Keys);
      var rest := Ended(s, r);
      assert |rest.runs| < |s.runs| by {
        assert rest.runs.Keys == s.runs.Keys - {r};
        assert |rest.runs.Keys| < |s.runs.Keys|;
      }
      var more := AllCrash(rest, limit);
      crashes := [Crash(r)] + more;
      OneMore(s, [], Crash(r), limit);
      assert [] + [Crash(r)] == [Crash(r)];
      StepsCompose(s, [Crash(r)], more, limit);
    }
  }

  lemma {:induction false} Bounded(owners: set<Owner>) returns (bound: Owner)
    ensures forall r :: r in owners ==> r < bound
  {
    bound := 0;
    if owners != {} {
      var r := SomeElement(owners);
      bound := Bounded(owners - {r});
      if bound <= r { bound := r + 1; }
      assert owners == (owners - {r}) + {r};
    }
  }
}
