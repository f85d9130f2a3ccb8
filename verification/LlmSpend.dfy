/** Durable daily caps on LLM spend: the stored counter, and how far workers that check, act and
    then charge can take it past the cap. */
module LlmSpend {
  import opened Wrappers

  const GLOBAL_BUCKET := "__global__"

  datatype SpendKey = SpendKey(tenant: string, day: int)

  datatype Spend = Spend(tokens: int, calls: int)

  type Table = map<SpendKey, Spend>

  function Bucket(tenant: Option<string>): string {
    if tenant.None? || tenant.value == "" then GLOBAL_BUCKET else tenant.value
  }

  function Used(table: Table, key: SpendKey): int {
    if key in table then table[key].tokens else 0
  }

  function Remaining(table: Table, key: SpendKey, cap: int): int {
    if cap - Used(table, key) > 0 then cap - Used(table, key) else 0
  }

  predicate Within(table: Table, key: SpendKey, tokens: int, cap: int) {
    tokens <= Remaining(table, key, cap)
  }

  /** The upsert that adds to a row in one statement. */
  function Increment(table: Table, key: SpendKey, tokens: int, calls: int): Table {
    if key in table then table[key := Spend(table[key].tokens + tokens, table[key].calls + calls)]
    else table[key := Spend(tokens, calls)]
  }

  /** What is stored for a tenant and a day; nobody's spend is kept under its own name. */
  ghost function SpendOf(table: Table, tenant: Option<string>, day: int): Spend {
    var key := SpendKey(if tenant.None? || tenant.value == "" then "__global__" else tenant.value, day);
    if key in table then table[key] else Spend(0, 0)
  }

  /** One row grew by these tokens and calls; every other is as it was. */
  ghost predicate Grew(before: Table, after: Table, tenant: Option<string>, day: int, tokens: int, calls: int) {
    var key := SpendKey(if tenant.None? || tenant.value == "" then "__global__" else tenant.value, day);
    && after.Keys == before.Keys + {key}
    && after[key] == Spend(SpendOf(before, tenant, day).tokens + tokens, SpendOf(before, tenant, day).calls + calls)
    && forall other :: other in before && other != key ==> after[other] == before[other]
  }

  class SpendStore {
    const dailyTokenBudget: int
    var rows: Table

    constructor (dailyTokenBudget: int)
      ensures this.dailyTokenBudget == (if dailyTokenBudget < 1 then 1 else dailyTokenBudget) && rows == map[]
    {
      this.dailyTokenBudget := if dailyTokenBudget < 1 then 1 else dailyTokenBudget;
      rows := map[];
    }

    method RemainingTokens(tenant: Option<string>, day: int) returns (left: int)
      ensures left == Remaining(rows, SpendKey(Bucket(tenant), day), dailyTokenBudget) && left >= 0
      ensures left == if SpendOf(rows, tenant, day).tokens < dailyTokenBudget then dailyTokenBudget - SpendOf(rows, tenant, day).tokens else 0
    {
      var key := SpendKey(Bucket(tenant), day);
      var used := if key in rows then rows[key].tokens else 0;
      left := if dailyTokenBudget - used > 0 then dailyTokenBudget - used else 0;
    }

    method WithinBudget(tenant: Option<string>, tokens: int, day: int) returns (within: bool)
      ensures within == Within(rows, SpendKey(Bucket(tenant), day), tokens, dailyTokenBudget)
    {
      var left := RemainingTokens(tenant, day);
      within := tokens <= left;
    }

    method Upsert(tenant: Option<string>, tokens: int, calls: int, day: int)
      modifies this
      ensures rows == Increment(old(rows), SpendKey(Bucket(tenant), day), tokens, calls)
    {
      var key := SpendKey(Bucket(tenant), day);
      if key in rows {
        rows := rows[key := Spend(rows[key].tokens + tokens, rows[key].calls + calls)];
      } else {
        rows := rows[key := Spend(tokens, calls)];
      }
    }

    /** Record spend unless it would pass the cap, in which case nothing is recorded. */
    method Consume(tenant: Option<string>, tokens: int, day: int) returns (refused: bool)
      modifies this
      ensures refused == !Within(old(rows), SpendKey(Bucket(tenant), day), tokens, dailyTokenBudget)
      ensures tokens > 0 ==> (refused <==> SpendOf(old(rows), tenant, day).tokens + tokens > dailyTokenBudget)
      ensures refused ==> rows == old(rows)
      ensures !refused ==> Grew(old(rows), rows, tenant, day, tokens, 1)
      ensures rows == if refused then old(rows) else Increment(old(rows), SpendKey(Bucket(tenant), day), tokens, 1)
    {
      var within := WithinBudget(tenant, tokens, day);
      if !within {
        return true;
      }
      Upsert(tenant, tokens, 1, day);
      return false;
    }

    method ConsumeOverage(tenant: Option<string>, tokens: int, day: int)
      modifies this
      ensures rows == Increment(old(rows), SpendKey(Bucket(tenant), day), tokens, 1)
    {
      Upsert(tenant, tokens, 1, day);
    }

    /** What every caller does with tokens already spent: the row grows by exactly those tokens,
        whether or not they fit. */
    method ChargeSpent(tenant: Option<string>, spent: int, day: int)
      modifies this
      ensures rows == if spent == 0 then old(rows) else Increment(old(rows), SpendKey(Bucket(tenant), day), spent, 1)
      ensures spent == 0 ==> rows == old(rows)
      ensures spent != 0 ==> Grew(old(rows), rows, tenant, day, spent, 1)
      ensures Used(rows, SpendKey(Bucket(tenant), day)) == Used(old(rows), SpendKey(Bucket(tenant), day)) + spent
    {
      if spent == 0 {
        return;
      }
      var refused := Consume(tenant, spent, day);
      if refused {
        ConsumeOverage(tenant, spent, day);
      }
    }
  }

  /** `turns[i]`: worker i has passed its check and has not charged yet. `charges` is the history. */
  datatype Workers = Workers(table: Table, tenant: string, today: int, turns: seq<bool>, charges: seq<Charged>)

  datatype Charged = Charged(day: int, prompt: nat, completion: nat)

  /** One worker's step, or midnight. Workers interleave freely between their own steps. */
  datatype Event =
    | Check(worker: nat, estimate: int)
    | Charge(worker: nat, prompt: nat, completion: nat)
    | Abandon(worker: nat)
    | NextDay

  function Key(s: Workers, day: int): SpendKey {
    SpendKey(s.tenant, day)
  }

  /** A worker checks at least `floor` tokens before a turn, and a turn costs at most `most`. */
  predicate CanHappen(s: Workers, event: Event, floor: int, most: nat) {
    match event
    case Check(worker, estimate) => worker < |s.turns| && !s.turns[worker] && estimate >= floor
    case Charge(worker, prompt, completion) => worker < |s.turns| && s.turns[worker] && prompt + completion <= most
    case Abandon(worker) => worker < |s.turns| && s.turns[worker]
    case NextDay => true
  }

  function Next(s: Workers, event: Event, cap: int): Workers {
    match event
    case Check(worker, estimate) =>
      if worker < |s.turns| && Within(s.table, Key(s, s.today), estimate, cap) then s.(turns := s.turns[worker := true]) else s
    case Charge(worker, prompt, completion) =>
      if worker < |s.turns| then
        s.(table := if prompt + completion == 0 then s.table else Increment(s.table, Key(s, s.today), prompt + completion, 1),
           turns := s.turns[worker := false], charges := s.charges + [Charged(s.today, prompt, completion)])
      else s
    case Abandon(worker) => if worker < |s.turns| then s.(turns := s.turns[worker := false]) else s
    case NextDay => s.(today := s.today + 1)
  }

  predicate Legal(s: Workers, events: seq<Event>, cap: int, floor: int, most: nat)
    decreases |events|
  {
    events == [] || (CanHappen(s, events[0], floor, most) && Legal(Next(s, events[0], cap), events[1..], cap, floor, most))
  }

  function After(s: Workers, events: seq<Event>, cap: int): Workers
    decreases |events|
  {
    if events == [] then s else After(Next(s, events[0], cap), events[1..], cap)
  }

  function InTurn(turns: seq<bool>): (n: nat)
    ensures n <= |turns|
  {
    if turns == [] then 0 else InTurn(turns[..|turns| - 1]) + if turns[|turns| - 1] then 1 else 0
  }

  lemma {:induction false} TurnTaken(turns: seq<bool>, i: nat, b: bool)
    requires i < |turns|
    ensures InTurn(turns[i := b]) == InTurn(turns) + (if b then 1 else 0) - (if turns[i] then 1 else 0)
  {
    var n := |turns| - 1;
    if i == n {
      assert turns[i := b][..n] == turns[..n];
    } else {
      assert turns[i := b][..n] == turns[..n][i := b];
      TurnTaken(turns[..n], i, b);
    }
  }

  function Total(charges: seq<Charged>, day: int): nat {
    if charges == [] then 0
    else
      var last := charges[|charges| - 1];
      Total(charges[..|charges| - 1], day) + if last.day == day then last.prompt + last.completion else 0
  }

  function Times(n: nat, most: nat): nat {
    n * most
  }

  /** The most a day's total can reach. */
  function Ceiling(cap: int, floor: int, most: nat, workers: nat): int {
    if cap < floor then 0 else cap - floor + Times(workers, most)
  }

  ghost predicate Inv(s: Workers, cap: int, floor: int, most: nat) {
    && Reconciled(s)
    && (forall day :: day > s.today ==> Total(s.charges, day) == 0)
    && (forall day :: Total(s.charges, day) <= Ceiling(cap, floor, most, |s.turns|))
    && (if cap < floor then InTurn(s.turns) == 0
        else Total(s.charges, s.today) + Times(InTurn(s.turns), most) <= cap - floor + Times(|s.turns|, most))
  }

  lemma Monotone(a: nat, b: nat, most: nat)
    requires a <= b
    ensures Times(a, most) <= Times(b, most)
    ensures b == a + 1 ==> Times(b, most) == Times(a, most) + most
    ensures Times(0, most) == 0
  {}

  lemma TotalCharged(charges: seq<Charged>, charged: Charged, day: int)
    ensures Total(charges + [charged], day)
         == Total(charges, day) + if day == charged.day then charged.prompt + charged.completion else 0
  {
    assert (charges + [charged])[..|charges|] == charges;
  }

  /** Every stored row is the sum of the charges it received. */
  ghost predicate Reconciled(s: Workers) {
    forall day :: Used(s.table, Key(s, day)) == Total(s.charges, day)
  }

  lemma ChargeReconciles(s: Workers, worker: nat, prompt: nat, completion: nat, cap: int)
    requires Reconciled(s) && worker < |s.turns|
    ensures Reconciled(Next(s, Charge(worker, prompt, completion), cap))
  {
    var s' := Next(s, Charge(worker, prompt, completion), cap);
    forall day ensures Used(s'.table, Key(s', day)) == Total(s'.charges, day) {
      assert Used(s.table, Key(s, day)) == Total(s.charges, day);
      TotalCharged(s.charges, Charged(s.today, prompt, completion), day);
    }
  }

  lemma StepKeepsInv(s: Workers, event: Event, cap: int, floor: int, most: nat)
    requires 0 < floor && Inv(s, cap, floor, most) && CanHappen(s, event, floor, most)
    ensures Inv(Next(s, event, cap), cap, floor, most)
    ensures |Next(s, event, cap).turns| == |s.turns| && Next(s, event, cap).tenant == s.tenant
  {
    hide Times, Increment;
    var s' := Next(s, event, cap);
    match event
    case Check(worker, estimate) =>
      TurnTaken(s.turns, worker, true);
      Monotone(InTurn(s'.turns), |s.turns|, most);
    case Charge(worker, prompt, completion) =>
      ChargeKeepsInv(s, worker, prompt, completion, cap, floor, most);
    case Abandon(worker) =>
      TurnTaken(s.turns, worker, false);
      Monotone(InTurn(s'.turns), InTurn(s.turns), most);
    case NextDay =>
      Monotone(InTurn(s.turns), |s.turns|, most);
  }

  lemma ChargeKeepsInv(s: Workers, worker: nat, prompt: nat, completion: nat, cap: int, floor: int, most: nat)
    requires 0 < floor && Inv(s, cap, floor, most) && CanHappen(s, Charge(worker, prompt, completion), floor, most)
    ensures Inv(Next(s, Charge(worker, prompt, completion), cap), cap, floor, most)
  {
    hide Times, Increment;
    var s', charged := Next(s, Charge(worker, prompt, completion), cap), Charged(s.today, prompt, completion);
    ChargeReconciles(s, worker, prompt, completion, cap);
    TurnTaken(s.turns, worker, false);
    var left := InTurn(s'.turns);
    Monotone(left, InTurn(s.turns), most);
    Monotone(0, left, most);
    forall day ensures Total(s'.charges, day) == Total(s.charges, day) + if day == s.today then prompt + completion else 0 {
      TotalCharged(s.charges, charged, day);
    }
  }

  /** Nobody in a turn and nothing spent. */
  function Fresh(tenant: string, today: int, workers: nat): Workers {
    Workers(map[], tenant, today, seq(workers, i => false), [])
  }

  lemma {:induction false} NobodyInTurn(turns: seq<bool>)
    requires forall i :: 0 <= i < |turns| ==> !turns[i]
    ensures InTurn(turns) == 0
  {
    if turns != [] {
      NobodyInTurn(turns[..|turns| - 1]);
    }
  }

  lemma {:induction false} RunKeepsInv(s: Workers, events: seq<Event>, cap: int, floor: int, most: nat)
    requires 0 < floor && Inv(s, cap, floor, most) && Legal(s, events, cap, floor, most)
    ensures Inv(After(s, events, cap), cap, floor, most)
    ensures |After(s, events, cap).turns| == |s.turns| && After(s, events, cap).tenant == s.tenant
    decreases |events|
  {
    if events != [] {
      StepKeepsInv(s, events[0], cap, floor, most);
      RunKeepsInv(Next(s, events[0], cap), events[1..], cap, floor, most);
    }
  }

  /** However any number of workers interleave, across midnights, each day's stored total is the sum
      of every turn charged that day, and it passes the cap by no more than one turn per worker less
      the tokens each checks for. These are agent loops, which check 4000 tokens and commit each charge
      with the transcript row that follows it; what an enrichment batch charges is inside its transaction and can roll back. */
  lemma OvershootIsBounded(tenant: string, today: int, workers: nat, events: seq<Event>, cap: int, floor: int, most: nat, day: int)
    requires 0 < floor && Legal(Fresh(tenant, today, workers), events, cap, floor, most)
    ensures var end := After(Fresh(tenant, today, workers), events, cap);
            && Used(end.table, SpendKey(tenant, day)) == Total(end.charges, day)
            && Used(end.table, SpendKey(tenant, day)) <= Ceiling(cap, floor, most, workers)
    ensures Ceiling(cap, floor, most, workers) == if cap < floor then 0 else cap - floor + workers * most
  {
    var start := Fresh(tenant, today, workers);
    NobodyInTurn(start.turns);
    Monotone(0, workers, most);
    RunKeepsInv(start, events, cap, floor, most);
    var end := After(start, events, cap);
    assert Used(end.table, Key(end, day)) == Total(end.charges, day);
  }

  /** A worker gets its turn exactly when its estimate still fits, and what a turn cost is stored and
      remembered in full, whether it fits or not; nothing else changes the table. */
  lemma EveryEvent(s: Workers, event: Event, cap: int, floor: int, most: nat, day: int)
    requires 0 < floor && CanHappen(s, event, floor, most)
    ensures var s' := Next(s, event, cap);
            && (event.Check? ==> s'.turns == s.turns[event.worker := Used(s.table, SpendKey(s.tenant, s.today)) + event.estimate <= cap])
            && (event.Charge? ==> s'.turns == s.turns[event.worker := false])
            && Used(s'.table, SpendKey(s.tenant, day)) == Used(s.table, SpendKey(s.tenant, day))
                 + (if event.Charge? && day == s.today then event.prompt + event.completion else 0)
            && Total(s'.charges, day) == Total(s.charges, day) + (if event.Charge? && day == s.today then event.prompt + event.completion else 0)
            && s'.today == s.today + (if event.NextDay? then 1 else 0)
  {
    if event.Charge? { TotalCharged(s.charges, Charged(s.today, event.prompt, event.completion), day); }
  }

  /** Worker `w` spends one token at a time until the day's total leaves no room for more, then every
      worker checks before any of them charges. */
  lemma {:induction false} SpendDown(s: Workers, room: nat, cap: int, floor: int, most: nat) returns (run: seq<Event>)
    requires 0 < floor <= cap && most > 0 && s.turns != [] && (forall i :: 0 <= i < |s.turns| ==> !s.turns[i])
    requires Used(s.table, Key(s, s.today)) + room == cap - floor
    ensures Legal(s, run, cap, floor, most)
    ensures Used(After(s, run, cap).table, Key(s, s.today)) == Ceiling(cap, floor, most, |s.turns|)
    decreases room
  {
    if room == 0 {
      run := AllCheck(s, 0, cap, floor, most);
    } else {
      var s1 := Next(s, Check(0, floor), cap);
      var s2 := Next(s1, Charge(0, 1, 0), cap);
      assert s2.turns == s.turns;
      var rest := SpendDown(s2, room - 1, cap, floor, most);
      run := [Check(0, floor), Charge(0, 1, 0)] + rest;
      assert run[1..] == [Charge(0, 1, 0)] + rest && run[1..][1..] == rest;
      assert Legal(s1, run[1..], cap, floor, most);
    }
  }

  lemma {:induction false} AllCheck(s: Workers, i: nat, cap: int, floor: int, most: nat) returns (run: seq<Event>)
    requires 0 < floor && i <= |s.turns| && (forall j :: 0 <= j < |s.turns| ==> s.turns[j] == (j < i))
    requires Used(s.table, Key(s, s.today)) == cap - floor
    ensures Legal(s, run, cap, floor, most)
    ensures Used(After(s, run, cap).table, Key(s, s.today)) == cap - floor + Times(|s.turns|, most)
    decreases |s.turns| - i
  {
    if i == |s.turns| {
      run := AllCharge(s, 0, cap, floor, most);
    } else {
      var s1 := Next(s, Check(i, floor), cap);
      var rest := AllCheck(s1, i + 1, cap, floor, most);
      run := [Check(i, floor)] + rest;
      assert run[1..] == rest;
    }
  }

  lemma {:induction false} AllCharge(s: Workers, i: nat, cap: int, floor: int, most: nat) returns (run: seq<Event>)
    requires i <= |s.turns| && (forall j :: i <= j < |s.turns| ==> s.turns[j])
    ensures Legal(s, run, cap, floor, most)
    ensures Used(After(s, run, cap).table, Key(s, s.today)) == Used(s.table, Key(s, s.today)) + Times(|s.turns| - i, most)
    decreases |s.turns| - i
  {
    if i == |s.turns| {
      run := [];
    } else {
      var s1 := Next(s, Charge(i, most, 0), cap);
      var rest := AllCharge(s1, i + 1, cap, floor, most);
      run := [Charge(i, most, 0)] + rest;
      assert run[1..] == rest;
      Monotone(|s.turns| - i - 1, |s.turns| - i, most);
    }
  }

  /** No smaller bound holds: some interleaving reaches the ceiling exactly. */
  lemma OvershootIsReached(tenant: string, today: int, workers: nat, cap: int, floor: int, most: nat) returns (run: seq<Event>)
    requires 0 < floor <= cap && most > 0 && workers > 0
    ensures Legal(Fresh(tenant, today, workers), run, cap, floor, most)
    ensures Used(After(Fresh(tenant, today, workers), run, cap).table, SpendKey(tenant, today)) == Ceiling(cap, floor, most, workers)
  {
    run := SpendDown(Fresh(tenant, today, workers), cap - floor, cap, floor, most);
  }
}
