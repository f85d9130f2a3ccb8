/** The notification outbox: queueing a match once per recipient, and draining what is owed. */
module Outbox {
  import opened AlertRules
  import opened Sequences

  datatype Status = Pending | Delivered | Failed

  datatype Key = Key(rule: int, event: int, recipient: int)

  datatype Notification = Notification(key: Key, status: Status, attempts: nat)

  const MAX_DELIVERY_ATTEMPTS := 5

  function Keys(rows: seq<Notification>): seq<Key> {
    seq(|rows|, i requires 0 <= i < |rows| => rows[i].key)
  }

  /** What a match owes: one notification to each member of the rule's organization. */
  function OwedBy(m: Match, members: int -> seq<int>): seq<Key> {
    var to := members(m.rule.organization);
    seq(|to|, i requires 0 <= i < |to| => Key(m.rule.id, m.event.id, to[i]))
  }

  lemma OwedToMembers(m: Match, members: int -> seq<int>)
    ensures var to := members(m.rule.organization);
            |OwedBy(m, members)| == |to| && forall k :: 0 <= k < |to| ==> OwedBy(m, members)[k] == Key(m.rule.id, m.event.id, to[k])
  {}

  function Owed(matches: seq<Match>, members: int -> seq<int>): seq<Key> {
    if matches == [] then []
    else Owed(matches[..|matches| - 1], members) + OwedBy(matches[|matches| - 1], members)
  }

  /** This member of the rule's organization is to hear of this match. */
  ghost predicate Due(matches: seq<Match>, members: int -> seq<int>, key: Key) {
    exists i, j :: 0 <= i < |matches| && 0 <= j < |members(matches[i].rule.organization)|
      && key == Key(matches[i].rule.id, matches[i].event.id, members(matches[i].rule.organization)[j])
  }

  /** Owed are exactly the notifications of every match to every member. */
  lemma {:induction false} OwedExactly(matches: seq<Match>, members: int -> seq<int>, key: Key)
    ensures key in Owed(matches, members) <==> Due(matches, members, key)
  {
    if matches != [] {
      var init, last := matches[..|matches| - 1], matches[|matches| - 1];
      OwedExactly(init, members, key);
      assert forall i :: 0 <= i < |init| ==> init[i] == matches[i];
      var to := members(last.rule.organization);
      if key in OwedBy(last, members) {
        var j :| 0 <= j < |to| && OwedBy(last, members)[j] == key;
        assert key == Key(matches[|init|].rule.id, matches[|init|].event.id, members(matches[|init|].rule.organization)[j]);
      }
      if Due(matches, members, key) {
        var i, j :| 0 <= i < |matches| && 0 <= j < |members(matches[i].rule.organization)|
          && key == Key(matches[i].rule.id, matches[i].event.id, members(matches[i].rule.organization)[j]);
        if i == |init| {
          assert OwedBy(last, members)[j] == key;
        } else {
          assert key == Key(init[i].rule.id, init[i].event.id, members(init[i].rule.organization)[j]);
        }
      }
    }
  }

  ghost predicate HasKey(rows: seq<Notification>, key: Key) {
    exists i :: 0 <= i < |rows| && rows[i].key == key
  }

  /** The rows before are as they were; behind them are new pending rows, each with its own key. */
  ghost predicate Extends(rows: seq<Notification>, rows': seq<Notification>) {
    && rows <= rows'
    && (forall i :: |rows| <= i < |rows'| ==> rows'[i].status == Pending && rows'[i].attempts == 0 && !HasKey(rows, rows'[i].key))
    && forall i, j :: |rows| <= i < j < |rows'| ==> rows'[i].key != rows'[j].key
  }

  lemma KeysAre(rows: seq<Notification>, key: Key)
    ensures key in Keys(rows) <==> HasKey(rows, key)
  {
    if HasKey(rows, key) {
      var i :| 0 <= i < |rows| && rows[i].key == key;
      assert Keys(rows)[i] == key;
    }
  }

  lemma HasKeyOneMore(rows: seq<Notification>, row: Notification, key: Key)
    ensures HasKey(rows + [row], key) <==> HasKey(rows, key) || row.key == key
  {
    var more := rows + [row];
    assert more[|rows|] == row;
    if HasKey(rows, key) {
      var i :| 0 <= i < |rows| && rows[i].key == key;
      assert more[i].key == key;
    }
  }

  /** Queueing adds exactly the keys owed and not stored, and nothing else. */
  lemma {:induction false} QueuedAdds(rows: seq<Notification>, owed: seq<Key>)
    ensures Extends(rows, Queued(rows, owed))
    ensures forall key :: HasKey(Queued(rows, owed), key) <==> HasKey(rows, key) || key in owed
  {
    if owed != [] {
      var init, last := owed[..|owed| - 1], owed[|owed| - 1];
      var before := Queued(rows, init);
      QueuedAdds(rows, init);
      assert owed == init + [last];
      KeysAre(before, last);
      hide HasKey;
      forall key {
        HasKeyOneMore(before, Notification(last, Pending, 0), key);
      }
      forall i | |rows| <= i < |before| ensures before[i].key == last ==> HasKey(before, last) {
        Here(before, i);
      }
    }
  }

  lemma Here(rows: seq<Notification>, i: nat)
    requires i < |rows|
    ensures HasKey(rows, rows[i].key)
  {}

  /** Queue what is owed and not queued yet. */
  function Queued(rows: seq<Notification>, owed: seq<Key>): seq<Notification> {
    if owed == [] then rows
    else
      var before := Queued(rows, owed[..|owed| - 1]);
      var last := owed[|owed| - 1];
      if last in Keys(before) then before else before + [Notification(last, Pending, 0)]
  }

  lemma KeysOneMore(rows: seq<Notification>, row: Notification)
    ensures Keys(rows + [row]) == Keys(rows) + [row.key]
  {}

  /** Nothing queued is touched, everything owed is queued, nothing else is, and nothing twice. */
  lemma {:induction false} QueuedExactly(rows: seq<Notification>, owed: seq<Key>)
    requires Distinct(Keys(rows))
    ensures rows <= Queued(rows, owed) && Distinct(Keys(Queued(rows, owed)))
    ensures forall key :: key in Keys(Queued(rows, owed)) <==> key in Keys(rows) || key in owed
    ensures forall i :: |rows| <= i < |Queued(rows, owed)| ==> Queued(rows, owed)[i].status == Pending && Queued(rows, owed)[i].attempts == 0
  {
    if owed != [] {
      var init, last := owed[..|owed| - 1], owed[|owed| - 1];
      QueuedExactly(rows, init);
      assert owed == init + [last];
      KeysOneMore(Queued(rows, init), Notification(last, Pending, 0));
    }
  }

  /** Evaluating again creates nothing, as long as who is owed what has not grown. */
  lemma {:induction false} QueueingAgainCreatesNothing(rows: seq<Notification>, owed: seq<Key>)
    requires forall key :: key in owed ==> key in Keys(rows)
    ensures Queued(rows, owed) == rows
  {
    if owed != [] {
      var init, last := owed[..|owed| - 1], owed[|owed| - 1];
      assert owed == init + [last];
      QueueingAgainCreatesNothing(rows, init);
    }
  }

  lemma {:induction false} QueuedConcat(rows: seq<Notification>, a: seq<Key>, b: seq<Key>)
    ensures Queued(rows, a + b) == Queued(Queued(rows, a), b)
  {
    if b == [] {
      assert a + b == a;
    } else {
      assert (a + b)[..|a + b| - 1] == a + b[..|b| - 1];
      QueuedConcat(rows, a, b[..|b| - 1]);
    }
  }

  // ----- Draining

  /** How many numbers below n have a property. */
  ghost function CountOf(n: nat, p: nat -> bool): nat {
    if n == 0 then 0 else CountOf(n - 1, p) + if p(n - 1) then 1 else 0
  }

  lemma {:induction false} CountSame(n: nat, p: nat -> bool, q: nat -> bool)
    requires forall i :: 0 <= i < n ==> p(i) == q(i)
    ensures CountOf(n, p) == CountOf(n, q)
  {
    if n > 0 { CountSame(n - 1, p, q); }
  }

  /** How many rows are pending before this one. */
  ghost function PendingBefore(rows: seq<Notification>, n: nat): nat
    requires n <= |rows|
  {
    if n == 0 then 0 else PendingBefore(rows, n - 1) + if rows[n - 1].status == Pending then 1 else 0
  }

  /** A drain takes a row that is pending with fewer pending ones before it than the limit. */
  ghost predicate Taken(rows: seq<Notification>, limit: nat, i: nat)
    requires i < |rows|
  {
    rows[i].status == Pending && PendingBefore(rows, i) < limit
  }

  ghost predicate RankedAt(rows: seq<Notification>, i: nat, k: nat) {
    i < |rows| && rows[i].status == Pending && PendingBefore(rows, i) == k
  }

  ghost predicate RankedBelow(rows: seq<Notification>, n: nat, at: seq<nat>) {
    forall k :: 0 <= k < |at| ==> at[k] < n && RankedAt(rows, at[k], k)
  }

  ghost predicate AllPending(rows: seq<Notification>, n: nat, at: seq<nat>)
    requires n <= |rows|
  {
    forall i :: 0 <= i < n && rows[i].status == Pending ==> i in at
  }

  /** The k-th of these positions is the pending row with k pending rows before it. */
  ghost predicate Ranked(rows: seq<Notification>, n: nat, at: seq<nat>)
    requires n <= |rows|
  {
    |at| == PendingBefore(rows, n) && RankedBelow(rows, n, at) && AllPending(rows, n, at)
  }

  lemma OneMoreRanked(rows: seq<Notification>, n: nat, at: seq<nat>)
    requires RankedBelow(rows, n, at)
    ensures RankedBelow(rows, n + 1, at)
    ensures RankedAt(rows, n, |at|) ==> RankedBelow(rows, n + 1, at + [n])
  {
    hide RankedAt;
  }

  lemma OneMorePending(rows: seq<Notification>, n: nat, at: seq<nat>)
    requires n < |rows| && AllPending(rows, n, at)
    ensures AllPending(rows, n + 1, at + [n])
    ensures rows[n].status != Pending ==> AllPending(rows, n + 1, at)
  {
    assert n in at + [n];
  }

  lemma RankedOneMore(rows: seq<Notification>, n: nat, at: seq<nat>)
    requires n < |rows| && Ranked(rows, n, at)
    ensures Ranked(rows, n + 1, if rows[n].status == Pending then at + [n] else at)
  {
    hide RankedBelow, AllPending;
    OneMoreRanked(rows, n, at);
    OneMorePending(rows, n, at);
  }

  lemma RankedNone(rows: seq<Notification>)
    ensures Ranked(rows, 0, [])
  {}

  lemma OwingOneMore(rows: seq<Notification>, n: nat)
    requires n <= |rows|
    ensures n == 0 ==> Owing(rows[..n]) == []
    ensures n > 0 ==> Owing(rows[..n]) == if rows[n - 1].status == Pending then Owing(rows[..n - 1]) + [n - 1] else Owing(rows[..n - 1])
  {
    if n > 0 { assert rows[..n][..n - 1] == rows[..n - 1]; }
  }

  lemma {:induction false} OwingExactly(rows: seq<Notification>, n: nat)
    requires n <= |rows|
    ensures Ranked(rows, n, Owing(rows[..n]))
  {
    hide Ranked, Owing;
    OwingOneMore(rows, n);
    if n == 0 {
      RankedNone(rows);
    } else {
      OwingExactly(rows, n - 1);
      RankedOneMore(rows, n - 1, Owing(rows[..n - 1]));
    }
  }

  lemma FirstOfRanked(rows: seq<Notification>, at: seq<nat>, limit: nat, i: nat)
    requires Ranked(rows, |rows|, at) && i < |rows|
    ensures Taken(rows, limit, i) ==> i in FirstOf(at, limit)
  {
    hide PendingBefore;
    if Taken(rows, limit, i) {
      assert i in at;
      var k :| 0 <= k < |at| && at[k] == i;
      assert RankedAt(rows, at[k], k);
      assert FirstOf(at, limit)[k] == i;
    }
  }

  lemma RankedIsTaken(rows: seq<Notification>, at: seq<nat>, limit: nat, k: nat)
    requires Ranked(rows, |rows|, at) && k < |FirstOf(at, limit)|
    ensures FirstOf(at, limit)[k] < |rows| && Taken(rows, limit, FirstOf(at, limit)[k])
  {
    hide PendingBefore;
    assert FirstOf(at, limit)[k] == at[k] && k < limit;
    assert RankedAt(rows, at[k], k);
  }

  lemma FirstExactly(rows: seq<Notification>, limit: nat, i: nat)
    requires i < |rows|
    ensures i in FirstOf(Owing(rows), limit) <==> Taken(rows, limit, i)
  {
    OwingExactly(rows, |rows|);
    assert rows[..|rows|] == rows;
    var at := Owing(rows);
    FirstOfRanked(rows, at, limit, i);
    if i in FirstOf(at, limit) {
      var k :| 0 <= k < |FirstOf(at, limit)| && FirstOf(at, limit)[k] == i;
      RankedIsTaken(rows, at, limit, k);
    }
  }

  lemma DrainedExactly(rows: seq<Notification>, limit: nat, works: nat -> bool)
    ensures |Drained(rows, limit, works)| == |rows|
    ensures forall i :: 0 <= i < |rows| ==>
              Drained(rows, limit, works)[i] ==
                if !Taken(rows, limit, i) then rows[i]
                else if works(i) then Notification(rows[i].key, Delivered, rows[i].attempts)
                else Notification(rows[i].key, if rows[i].attempts < 4 then Pending else Failed, rows[i].attempts + 1)
    ensures Deliveries(FirstOf(Owing(rows), limit), works) == CountOf(|rows|, (i: nat) => i < |rows| && Taken(rows, limit, i) && works(i))
  {
    var at := FirstOf(Owing(rows), limit);
    forall i | 0 <= i < |rows| {
      FirstExactly(rows, limit, i);
    }
    hide Owing, FirstOf, Taken, Deliveries, CountOf;
    DeliveriesExactly(|rows|, at, works);
    CountSame(|rows|, (i: nat) => i in at && works(i), (i: nat) => i < |rows| && Taken(rows, limit, i) && works(i));
  }

  lemma {:induction false} DeliveriesExactly(n: nat, at: seq<nat>, works: nat -> bool)
    requires forall j, k :: 0 <= j < k < |at| ==> at[j] < at[k]
    requires forall k :: 0 <= k < |at| ==> at[k] < n
    ensures Deliveries(at, works) == CountOf(n, (i: nat) => i in at && works(i))
  {
    if at != [] && at[|at| - 1] == n - 1 {
      var init := at[..|at| - 1];
      DeliveriesExactly(n - 1, init, works);
      CountSame(n - 1, (i: nat) => i in init && works(i), (i: nat) => i in at && works(i));
    } else if n > 0 {
      DeliveriesExactly(n - 1, at, works);
    }
  }

  /** One delivery attempt. */
  function Attempted(row: Notification, delivered: bool): Notification {
    if delivered then row.(status := Delivered)
    else row.(attempts := row.attempts + 1, status := if row.attempts + 1 >= MAX_DELIVERY_ATTEMPTS then Failed else row.status)
  }

  /** The positions still owed, oldest first. */
  function Owing(rows: seq<Notification>): (at: seq<nat>)
    ensures forall k :: 0 <= k < |at| ==> at[k] < |rows| && rows[at[k]].status == Pending
    ensures forall j, k :: 0 <= j < k < |at| ==> at[j] < at[k]
  {
    if rows == [] then []
    else
      var before := Owing(rows[..|rows| - 1]);
      before + if rows[|rows| - 1].status == Pending then [|rows| - 1] else []
  }

  lemma {:induction false} OwingIsComplete(rows: seq<Notification>, i: nat)
    requires i < |rows| && rows[i].status == Pending
    ensures i in Owing(rows)
  {
    if i < |rows| - 1 {
      OwingIsComplete(rows[..|rows| - 1], i);
    }
  }

  function FirstOf(at: seq<nat>, limit: nat): seq<nat> {
    if |at| <= limit then at else at[..limit]
  }

  /** One drain: the oldest rows owed, up to a limit, are each attempted once. `works(i)` is whether
      the transport delivers row i this time. */
  function Drained(rows: seq<Notification>, limit: nat, works: nat -> bool): seq<Notification> {
    DrainedAt(rows, FirstOf(Owing(rows), limit), works)
  }

  function DrainedAt(rows: seq<Notification>, at: seq<nat>, works: nat -> bool): seq<Notification> {
    seq(|rows|, i requires 0 <= i < |rows| => if i in at then Attempted(rows[i], works(i)) else rows[i])
  }

  lemma AttemptOneMore(rows: seq<Notification>, at: seq<nat>, i: nat, works: nat -> bool)
    requires i < |rows| && i !in at
    ensures DrainedAt(rows, at + [i], works) == DrainedAt(rows, at, works)[i := Attempted(rows[i], works(i))]
    ensures DrainedAt(rows, at, works)[i] == rows[i]
    ensures Deliveries(at + [i], works) == Deliveries(at, works) + if works(i) then 1 else 0
  {
    hide Attempted;
    assert (at + [i])[..|at|] == at;
  }

  /** How many of some rows the transport delivers. */
  function Deliveries(at: seq<nat>, works: nat -> bool): nat {
    if at == [] then 0 else Deliveries(at[..|at| - 1], works) + if works(at[|at| - 1]) then 1 else 0
  }

  /** A row is owed exactly while fewer than five attempts failed; five failures end it. */
  ghost predicate SoundRow(row: Notification) {
    && row.attempts <= MAX_DELIVERY_ATTEMPTS
    && (row.status == Failed <==> row.attempts == MAX_DELIVERY_ATTEMPTS)
  }

  ghost predicate SoundRows(rows: seq<Notification>) {
    Distinct(Keys(rows)) && forall i :: 0 <= i < |rows| ==> SoundRow(rows[i])
  }

  lemma DrainKeepsSound(rows: seq<Notification>, limit: nat, works: nat -> bool)
    requires SoundRows(rows)
    ensures SoundRows(Drained(rows, limit, works)) && Keys(Drained(rows, limit, works)) == Keys(rows)
  {
    var after := Drained(rows, limit, works);
    assert Keys(after) == Keys(rows);
    forall i | 0 <= i < |after| ensures SoundRow(after[i]) {
      assert SoundRow(rows[i]);
    }
  }

  datatype Event = Enqueue(owed: seq<Key>) | Drain(limit: nat, works: nat -> bool)

  function Step(rows: seq<Notification>, event: Event): seq<Notification> {
    match event
    case Enqueue(owed) => Queued(rows, owed)
    case Drain(limit, works) => Drained(rows, limit, works)
  }

  function After(rows: seq<Notification>, events: seq<Event>): seq<Notification> {
    if events == [] then rows else Step(After(rows, events[..|events| - 1]), events[|events| - 1])
  }

  lemma StepIsSound(rows: seq<Notification>, event: Event)
    requires SoundRows(rows)
    ensures SoundRows(Step(rows, event)) && Keys(rows) <= Keys(Step(rows, event))
    ensures forall i :: 0 <= i < |rows| && rows[i].status != Pending ==> Step(rows, event)[i] == rows[i]
  {
    match event
    case Enqueue(owed) =>
      QueuedExactly(rows, owed);
      var after := Queued(rows, owed);
      forall i | 0 <= i < |after| ensures SoundRow(after[i]) {
        if i < |rows| { assert SoundRow(rows[i]); }
      }
    case Drain(limit, works) =>
      DrainKeepsSound(rows, limit, works);
  }

  /** Over any mix of evaluations and drains: at most one notification per rule, event and recipient,
      never more than five failed attempts, and a settled notification stays exactly as it is. */
  lemma {:induction false} OutboxIsSound(rows: seq<Notification>, events: seq<Event>)
    requires SoundRows(rows)
    ensures SoundRows(After(rows, events)) && Keys(rows) <= Keys(After(rows, events))
    ensures forall i :: 0 <= i < |rows| && rows[i].status != Pending ==> After(rows, events)[i] == rows[i]
  {
    if events != [] {
      var init := events[..|events| - 1];
      OutboxIsSound(rows, init);
      var before := After(rows, init);
      StepIsSound(before, events[|events| - 1]);
      assert |Keys(rows)| <= |Keys(before)| <= |Keys(After(rows, events))|;
      assert Keys(rows) == Keys(before)[..|rows|] == Keys(After(rows, events))[..|rows|];
    }
  }

  /** The attempts the rows owed can still take. */
  function Debt(rows: seq<Notification>): nat {
    if rows == [] then 0 else Debt(rows[..|rows| - 1]) + DebtOf(rows[|rows| - 1])
  }

  function DebtOf(row: Notification): nat {
    if row.status == Pending && row.attempts < MAX_DELIVERY_ATTEMPTS then MAX_DELIVERY_ATTEMPTS - row.attempts else 0
  }

  lemma {:induction false} LessDebt(rows: seq<Notification>, rows': seq<Notification>, i: int)
    requires |rows'| == |rows| && forall k :: 0 <= k < |rows| ==> DebtOf(rows'[k]) <= DebtOf(rows[k])
    requires 0 <= i < |rows| ==> DebtOf(rows'[i]) < DebtOf(rows[i])
    ensures Debt(rows') <= Debt(rows)
    ensures 0 <= i < |rows| ==> Debt(rows') < Debt(rows)
  {
    if rows != [] {
      LessDebt(rows[..|rows| - 1], rows'[..|rows| - 1], i);
    }
  }

  /** The oldest row owed is as old as any. */
  lemma OldestIsFirst(rows: seq<Notification>, i: nat)
    requires i < |rows| && rows[i].status == Pending
    ensures Owing(rows) != [] && Owing(rows)[0] <= i
  {
    OwingIsComplete(rows, i);
    var k :| 0 <= k < |Owing(rows)| && Owing(rows)[k] == i;
  }

  lemma AttemptPays(row: Notification, delivered: bool)
    requires SoundRow(row)
    ensures DebtOf(Attempted(row, delivered)) <= DebtOf(row)
    ensures row.status == Pending ==> DebtOf(Attempted(row, delivered)) < DebtOf(row)
  {}

  /** A drain that finds any of the first rows owed reduces what they can still take, whatever was
      queued behind them and whatever the transport does. */
  lemma DrainPays(rows: seq<Notification>, n: nat, i: nat, limit: nat, works: nat -> bool)
    requires SoundRows(rows) && limit > 0 && i < n <= |rows| && rows[i].status == Pending
    ensures Debt(Drained(rows, limit, works)[..n]) < Debt(rows[..n])
  {
    var at := FirstOf(Owing(rows), limit);
    OldestIsFirst(rows, i);
    assert at[0] in at;
    hide DebtOf, Attempted, SoundRow, Owing, FirstOf;
    forall k | 0 <= k < n {
      AttemptPays(rows[k], works(k));
    }
    LessDebt(rows[..n], Drained(rows, limit, works)[..n], at[0]);
  }

  lemma DrainNeverCosts(rows: seq<Notification>, n: nat, limit: nat, works: nat -> bool)
    requires SoundRows(rows) && n <= |rows|
    ensures Debt(Drained(rows, limit, works)[..n]) <= Debt(rows[..n])
  {
    hide DebtOf, Attempted, SoundRow, Owing, FirstOf;
    forall k | 0 <= k < n {
      AttemptPays(rows[k], works(k));
    }
    LessDebt(rows[..n], Drained(rows, limit, works)[..n], -1);
  }

  function DrainCount(events: seq<Event>): nat {
    if events == [] then 0
    else DrainCount(events[..|events| - 1]) + if events[|events| - 1].Drain? && events[|events| - 1].limit > 0 then 1 else 0
  }

  ghost predicate NoneOwed(rows: seq<Notification>, n: nat)
    requires n <= |rows|
  {
    forall i :: 0 <= i < n ==> rows[i].status != Pending
  }

  /** What is queued behind the first rows does not change them. */
  lemma StepPays(rows: seq<Notification>, n: nat, event: Event)
    requires SoundRows(rows) && n <= |rows| && n <= |Step(rows, event)|
    ensures NoneOwed(rows, n) ==> NoneOwed(Step(rows, event), n)
    ensures NoneOwed(rows, n) || Debt(Step(rows, event)[..n]) + DrainCount([event]) <= Debt(rows[..n])
  {
    assert [event][..0] == [] && DrainCount([event]) == if event.Drain? && event.limit > 0 then 1 else 0;
    match event
    case Enqueue(owed) =>
      QueuedExactly(rows, owed);
      assert Queued(rows, owed)[..n] == rows[..n];
    case Drain(limit, works) =>
      DrainNeverCosts(rows, n, limit, works);
      if !NoneOwed(rows, n) && limit > 0 {
        var i :| 0 <= i < n && rows[i].status == Pending;
        DrainPays(rows, n, i, limit, works);
      }
  }

  lemma {:induction false} DrainsPay(rows: seq<Notification>, events: seq<Event>, n: nat)
    requires SoundRows(rows) && n <= |rows|
    ensures |rows| <= |After(rows, events)|
    ensures NoneOwed(After(rows, events), n) || Debt(After(rows, events)[..n]) + DrainCount(events) <= Debt(rows[..n])
  {
    OutboxIsSound(rows, events);
    assert |rows| == |Keys(rows)| <= |Keys(After(rows, events))| == |After(rows, events)|;
    if events != [] {
      var init := events[..|events| - 1];
      OutboxIsSound(rows, init);
      DrainsPay(rows, init, n);
      assert After(rows, events) == Step(After(rows, init), events[|events| - 1]);
      hide SoundRows, NoneOwed, Step;
      StepPays(After(rows, init), n, events[|events| - 1]);
      assert DrainCount([events[|events| - 1]]) == if events[|events| - 1].Drain? && events[|events| - 1].limit > 0 then 1 else 0 by {
        assert [events[|events| - 1]][..0] == [];
      }
    }
  }

  /** A row that is still owed can still take an attempt. */
  lemma {:induction false} OwedIsDebt(rows: seq<Notification>, i: nat)
    requires i < |rows| && SoundRow(rows[i]) && rows[i].status == Pending
    ensures Debt(rows) > 0
  {
    if i < |rows| - 1 { OwedIsDebt(rows[..|rows| - 1], i); }
  }

  /** However evaluations fall between drains, a notification ends delivered or failed once there
      were as many drains as attempts the rows up to it could still take. */
  lemma EveryNotificationSettles(rows: seq<Notification>, events: seq<Event>, i: nat)
    requires SoundRows(rows) && i < |rows| && DrainCount(events) >= Debt(rows[..i + 1])
    ensures i < |After(rows, events)| && After(rows, events)[i].key == rows[i].key && After(rows, events)[i].status != Pending
  {
    DrainsPay(rows, events, i + 1);
    OutboxIsSound(rows, events);
    assert Keys(After(rows, events))[i] == Keys(rows)[i];
    if After(rows, events)[i].status == Pending {
      assert SoundRow(After(rows, events)[i]);
      OwedIsDebt(After(rows, events)[..i + 1], i);
    }
  }

  class OutboxTable {
    var rows: seq<Notification>

    constructor ()
      ensures rows == [] && SoundRows(rows)
    {
      rows := [];
    }

    /** Whether a notification with this key is stored. */
    method IsQueued(key: Key) returns (found: bool)
      ensures found == (key in Keys(rows))
    {
      var i := 0;
      while i < |rows|
        invariant i <= |rows| && forall k :: 0 <= k < i ==> Keys(rows)[k] != key
      {
        if rows[i].key == key {
          assert Keys(rows)[i] == key;
          return true;
        }
        i := i + 1;
      }
      return false;
    }

    /** Queue what one match owes and is not queued yet. */
    method EnqueueMatch(m: Match, to: seq<int>, ghost owed: seq<Key>) returns (created: nat)
      requires |owed| == |to| && forall k :: 0 <= k < |to| ==> owed[k] == Key(m.rule.id, m.event.id, to[k])
      modifies this
      ensures rows == Queued(old(rows), owed) && |rows| == |old(rows)| + created
    {
      created := 0;
      var j := 0;
      while j < |to|
        invariant j <= |to| && rows == Queued(old(rows), owed[..j]) && |rows| == |old(rows)| + created
      {
        var key := Key(m.rule.id, m.event.id, to[j]);
        assert owed[..j + 1][..j] == owed[..j] && owed[..j + 1][j] == key;
        var queued := IsQueued(key);
        if !queued {
          rows := rows + [Notification(key, Pending, 0)];
          created := created + 1;
        }
        j := j + 1;
      }
      assert owed[..j] == owed;
    }

    /** Queue one notification per recipient per match, reading each organization's members once. */
    method EnqueueMatches(matches: seq<Match>, members: int -> seq<int>) returns (created: nat)
      modifies this
      ensures rows == Queued(old(rows), Owed(matches, members))
      ensures Extends(old(rows), rows) && |rows| == |old(rows)| + created
      ensures forall key :: HasKey(rows, key) <==> HasKey(old(rows), key) || Due(matches, members, key)
    {
      assert Queued(rows, Owed([], members)) == rows;
      QueuedAdds(rows, Owed(matches, members));
      forall key {
        OwedExactly(matches, members, key);
      }
      hide Queued, OwedBy, Extends, HasKey, Due;
      created := 0;
      var recipients: map<int, seq<int>> := map[];
      var i := 0;
      while i < |matches|
        invariant i <= |matches|
        invariant rows == Queued(old(rows), Owed(matches[..i], members)) && |rows| == |old(rows)| + created
        invariant forall o :: o in recipients ==> recipients[o] == members(o)
      {
        var m := matches[i];
        if m.rule.organization !in recipients {
          recipients := recipients[m.rule.organization := members(m.rule.organization)];
        }
        OwedToMembers(m, members);
        var more := EnqueueMatch(m, recipients[m.rule.organization], OwedBy(m, members));
        created := created + more;
        QueuedConcat(old(rows), Owed(matches[..i], members), OwedBy(m, members));
        assert matches[..i + 1][..i] == matches[..i];
        i := i + 1;
      }
      assert matches[..i] == matches;
    }

    method MarkDelivered(i: nat)
      requires i < |rows|
      modifies this
      ensures rows == old(rows)[i := Attempted(old(rows)[i], true)]
      ensures rows == old(rows)[i := Notification(old(rows)[i].key, Delivered, old(rows)[i].attempts)]
    {
      rows := rows[i := rows[i].(status := Delivered)];
    }

    method MarkFailed(i: nat)
      requires i < |rows|
      modifies this
      ensures rows == old(rows)[i := Attempted(old(rows)[i], false)]
      ensures rows == old(rows)[i := Notification(old(rows)[i].key, if old(rows)[i].attempts < 4 then old(rows)[i].status else Failed, old(rows)[i].attempts + 1)]
    {
      rows := rows[i := rows[i].(attempts := rows[i].attempts + 1)];
      if rows[i].attempts >= MAX_DELIVERY_ATTEMPTS {
        rows := rows[i := rows[i].(status := Failed)];
      }
    }

    /** Attempt every queued notification; one failure does not stop the drain. */
    method DeliverPending(limit: nat, works: nat -> bool) returns (delivered: nat)
      modifies this
      ensures rows == Drained(old(rows), limit, works)
      ensures |rows| == |old(rows)| && forall i :: 0 <= i < |rows| ==>
                rows[i] ==
                  if !Taken(old(rows), limit, i) then old(rows)[i]
                  else if works(i) then Notification(old(rows)[i].key, Delivered, old(rows)[i].attempts)
                  else Notification(old(rows)[i].key, if old(rows)[i].attempts < 4 then Pending else Failed, old(rows)[i].attempts + 1)
      ensures delivered == CountOf(|rows|, (i: nat) => i < |old(rows)| && Taken(old(rows), limit, i) && works(i))
    {
      DrainedExactly(rows, limit, works);
      var at := FirstOf(Owing(rows), limit);
      hide DrainedAt, Attempted, Deliveries;
      NothingAttempted(rows, works);
      hide Taken;
      delivered := 0;
      var k := 0;
      while k < |at|
        invariant k <= |at| && delivered == Deliveries(at[..k], works) && |rows| == |old(rows)|
        invariant rows == DrainedAt(old(rows), at[..k], works)
      {
        var i := at[k];
        assert i !in at[..k] && at[..k] + [i] == at[..k + 1];
        AttemptOneMore(old(rows), at[..k], i, works);
        if works(i) {
          MarkDelivered(i);
          delivered := delivered + 1;
        } else {
          MarkFailed(i);
        }
        k := k + 1;
      }
      assert at[..k] == at;
    }
  }

  lemma NothingAttempted(rows: seq<Notification>, works: nat -> bool)
    ensures DrainedAt(rows, [], works) == rows && Deliveries([], works) == 0
  {}
}
