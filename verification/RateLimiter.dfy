/** The in-process sliding-window throttle for failed attempts, against the full log of attempts. */
module RateLimiting {
  import opened Wrappers

  /** The text a caller is throttled under. */
  datatype Key = Key(text: string)

  type Attempts = map<Key, seq<real>>

  /** What really happened: every attempt ever recorded, the latest attempt of each key a capacity
      eviction has dropped, the last clock reading and the start of the window it opens. */
  datatype Ledger = Ledger(log: Attempts, lost: map<Key, real>, clock: real, horizon: real)

  /** When the window that ends now began. */
  function Since(now: real, window: int): real {
    now - window as real
  }

  /** Attempts strictly newer than the cutoff, by dropping from the front. */
  function Pruned(times: seq<real>, cutoff: real): seq<real> {
    if times != [] && times[0] <= cutoff then Pruned(times[1..], cutoff) else times
  }

  ghost function Of(attempts: Attempts, key: Key): seq<real> {
    if key in attempts then attempts[key] else []
  }

  ghost predicate Sorted(times: seq<real>) {
    forall i, j :: 0 <= i < j < |times| ==> times[i] <= times[j]
  }

  ghost predicate NoEmptyWindow(attempts: Attempts) {
    forall key :: key in attempts ==> attempts[key] != []
  }

  function Max(a: int, b: int): int {
    if a < b then b else a
  }

  /** How many attempts of a sorted log are newer than the cutoff, counted one by one. */
  ghost function Newer(times: seq<real>, cutoff: real): nat {
    if times == [] then 0 else Newer(times[..|times| - 1], cutoff) + if times[|times| - 1] > cutoff then 1 else 0
  }

  lemma {:induction false} NewerAll(times: seq<real>, cutoff: real)
    requires forall i :: 0 <= i < |times| ==> times[i] > cutoff
    ensures Newer(times, cutoff) == |times|
  {
    if times != [] {
      NewerAll(times[..|times| - 1], cutoff);
    }
  }

  lemma {:induction false} NewerSkipsFirst(times: seq<real>, cutoff: real)
    requires times != [] && times[0] <= cutoff
    ensures Newer(times, cutoff) == Newer(times[1..], cutoff)
  {
    if |times| == 1 {
      assert times[..0] == [] && times[1..] == [];
    } else {
      var n := |times| - 1;
      NewerSkipsFirst(times[..n], cutoff);
      assert times[..n][1..] == times[1..][..n - 1];
    }
  }

  /** Dropping from the front keeps exactly the newer attempts of a sorted log. */
  lemma {:induction false} PrunedCounts(times: seq<real>, cutoff: real)
    requires Sorted(times)
    ensures |Pruned(times, cutoff)| == Newer(times, cutoff)
    ensures |Pruned(times, cutoff)| <= |times|
    ensures Pruned(times, cutoff) == times[|times| - |Pruned(times, cutoff)|..]
    ensures Pruned(times, cutoff) != [] ==> Pruned(times, cutoff)[0] > cutoff
    ensures forall i :: 0 <= i < |times| - |Pruned(times, cutoff)| ==> times[i] <= cutoff
  {
    if times != [] && times[0] <= cutoff {
      PrunedCounts(times[1..], cutoff);
      NewerSkipsFirst(times, cutoff);
      forall i | 0 <= i < |times| - |Pruned(times, cutoff)| ensures times[i] <= cutoff {
        if i > 0 { assert times[i] == times[1..][i - 1]; }
      }
    } else {
      NewerAll(times, cutoff);
    }
  }

  lemma {:induction false} PrunedIgnoresExpired(times: seq<real>, n: nat, cutoff: real)
    requires n <= |times| && forall i :: 0 <= i < n ==> times[i] <= cutoff
    ensures Pruned(times, cutoff) == Pruned(times[n..], cutoff)
  {
    if n > 0 {
      PrunedIgnoresExpired(times[1..], n - 1, cutoff);
      assert times[1..][n - 1..] == times[n..];
    }
  }

  lemma {:induction false} PrunedShrinks(times: seq<real>, cutoff: real)
    ensures |Pruned(times, cutoff)| <= |times|
    ensures times != [] && times[0] <= cutoff ==> |Pruned(times, cutoff)| < |times|
  {
    if times != [] && times[0] <= cutoff {
      PrunedShrinks(times[1..], cutoff);
    }
  }

  lemma {:induction false} PrunedAppend(times: seq<real>, x: real, cutoff: real)
    ensures |Pruned(times + [x], cutoff)| <= |Pruned(times, cutoff)| + 1
  {
    if times == [] {
      assert times + [x] == [x];
      PrunedShrinks([x], cutoff);
    } else if times[0] <= cutoff {
      assert (times + [x])[1..] == times[1..] + [x];
      PrunedAppend(times[1..], x, cutoff);
    }
  }

  ghost predicate SuffixOf(part: seq<real>, whole: seq<real>) {
    |part| <= |whole| && part == whole[|whole| - |part|..]
  }

  ghost predicate ExpiredBefore(times: seq<real>, n: int, cutoff: real) {
    forall i :: 0 <= i < n && i < |times| ==> times[i] <= cutoff
  }

  ghost predicate InOrder(times: seq<real>, clock: real) {
    Sorted(times) && forall i :: 0 <= i < |times| ==> times[i] <= clock
  }

  /** No attempt of the key after this time was ever discarded. */
  ghost function Gone(ledger: Ledger, key: Key): real {
    if key in ledger.lost && ledger.lost[key] > ledger.horizon then ledger.lost[key] else ledger.horizon
  }

  /** What is held for a key is a suffix of its log, and only a capacity eviction ever discards an
      attempt that is still inside the window. */
  ghost predicate Faithful(ledger: Ledger, attempts: Attempts, key: Key) {
    var logged, held := Of(ledger.log, key), Of(attempts, key);
    && InOrder(logged, ledger.clock)
    && SuffixOf(held, logged)
    && ExpiredBefore(logged, |logged| - |held|, Gone(ledger, key))
  }

  ghost predicate FaithfulTable(ledger: Ledger, attempts: Attempts) {
    forall key :: Faithful(ledger, attempts, key)
  }

  /** Keys whose last record was admitted hold no more than the limit. */
  ghost predicate Bounded(attempts: Attempts, unchecked: set<Key>, maxAttempts: int) {
    forall key :: key !in unchecked ==> |Of(attempts, key)| <= Max(maxAttempts, 0)
  }

  /** Some expired attempts were dropped from the front. */
  ghost predicate Trimmed(before: seq<real>, after: seq<real>, cutoff: real) {
    SuffixOf(after, before) && ExpiredBefore(before, |before| - |after|, cutoff)
  }

  ghost predicate TrimmedTable(before: Attempts, after: Attempts, cutoff: real) {
    forall key :: Trimmed(Of(before, key), Of(after, key), cutoff)
  }

  ghost predicate Later(ledger: Ledger, ledger': Ledger) {
    && ledger'.log == ledger.log && ledger'.lost == ledger.lost
    && ledger.clock <= ledger'.clock && ledger.horizon <= ledger'.horizon
  }

  lemma SuffixTrimmed(logged: seq<real>, held: seq<real>, kept: seq<real>, gone: real, cutoff: real, gone': real)
    requires SuffixOf(held, logged) && Trimmed(held, kept, cutoff) && cutoff <= gone' && gone <= gone'
    requires ExpiredBefore(logged, |logged| - |held|, gone)
    ensures SuffixOf(kept, logged) && ExpiredBefore(logged, |logged| - |kept|, gone')
  {
    forall i | |logged| - |held| <= i < |logged| - |kept| ensures logged[i] <= cutoff {
      assert logged[i] == held[i - (|logged| - |held|)];
    }
  }

  lemma TrimIsFaithful(ledger: Ledger, ledger': Ledger, before: Attempts, after: Attempts, key: Key)
    requires Later(ledger, ledger') && Faithful(ledger, before, key)
    requires Trimmed(Of(before, key), Of(after, key), ledger'.horizon)
    ensures Faithful(ledger', after, key)
  {
    SuffixTrimmed(Of(ledger.log, key), Of(before, key), Of(after, key), Gone(ledger, key), ledger'.horizon, Gone(ledger', key));
  }

  /** Dropping expired attempts, as time passes, keeps the whole table faithful. */
  lemma TrimKeepsTable(ledger: Ledger, ledger': Ledger, before: Attempts, after: Attempts)
    requires Later(ledger, ledger') && FaithfulTable(ledger, before) && TrimmedTable(before, after, ledger'.horizon)
    ensures FaithfulTable(ledger', after)
  {
    forall key {
      TrimIsFaithful(ledger, ledger', before, after, key);
    }
  }

  function Appended(attempts: Attempts, key: Key, now: real): Attempts {
    attempts[key := (if key in attempts then attempts[key] else []) + [now]]
  }

  lemma SuffixAppended(logged: seq<real>, held: seq<real>, clock: real, now: real)
    requires clock <= now && InOrder(logged, clock) && SuffixOf(held, logged)
    ensures InOrder(logged + [now], now) && SuffixOf(held + [now], logged + [now])
  {}

  lemma AppendIsFaithful(ledger: Ledger, attempts: Attempts, key: Key, now: real, k: Key)
    requires ledger.clock <= now && Faithful(ledger, attempts, k)
    ensures Faithful(ledger.(log := Appended(ledger.log, key, now), clock := now), Appended(attempts, key, now), k)
  {
    var logged, held := Of(ledger.log, k), Of(attempts, k);
    if k == key {
      SuffixAppended(logged, held, ledger.clock, now);
      assert Of(Appended(ledger.log, key, now), k) == logged + [now];
      assert Of(Appended(attempts, key, now), k) == held + [now];
      assert |logged + [now]| - |held + [now]| == |logged| - |held|;
    } else {
      assert Of(Appended(ledger.log, key, now), k) == logged;
      assert Of(Appended(attempts, key, now), k) == held;
    }
  }

  lemma AppendKeepsTable(ledger: Ledger, attempts: Attempts, key: Key, now: real)
    requires ledger.clock <= now && FaithfulTable(ledger, attempts)
    ensures FaithfulTable(ledger.(log := Appended(ledger.log, key, now), clock := now), Appended(attempts, key, now))
  {
    forall k {
      AppendIsFaithful(ledger, attempts, key, now, k);
    }
  }

  /** Dropping a window early is remembered by its last attempt, the latest of the key's log. */
  lemma ForgetKeepsTable(ledger: Ledger, attempts: Attempts, key: Key)
    requires FaithfulTable(ledger, attempts) && key in attempts && attempts[key] != []
    ensures FaithfulTable(ledger.(lost := ledger.lost[key := attempts[key][|attempts[key]| - 1]]), attempts - {key})
  {
    var ledger' := ledger.(lost := ledger.lost[key := attempts[key][|attempts[key]| - 1]]);
    forall k ensures Faithful(ledger', attempts - {key}, k) {
      assert Faithful(ledger, attempts, k);
      if k == key {
        assert Of(ledger.log, k)[|Of(ledger.log, k)| - 1] == attempts[key][|attempts[key]| - 1];
      } else {
        assert Of(attempts - {key}, k) == Of(attempts, k);
      }
    }
  }

  ghost function Unexpired(attempts: Attempts, cutoff: real): Attempts
    requires NoEmptyWindow(attempts)
  {
    map k | k in attempts && attempts[k][|attempts[k]| - 1] > cutoff :: attempts[k]
  }

  ghost function PrunedTable(attempts: Attempts, key: Key, cutoff: real): Attempts {
    var left := Pruned(Of(attempts, key), cutoff);
    if left == [] then attempts - {key} else attempts[key := left]
  }

  /** The table after one recorded attempt, before the capacity check. */
  ghost function Recorded(attempts: Attempts, key: Key, now: real, cutoff: real): Attempts
    requires NoEmptyWindow(attempts)
  {
    PrunedTable(Appended(Unexpired(attempts, cutoff), key, now), key, cutoff)
  }

  lemma UnexpiredIsTrimmed(ledger: Ledger, attempts: Attempts, cutoff: real)
    requires NoEmptyWindow(attempts) && FaithfulTable(ledger, attempts)
    ensures TrimmedTable(attempts, Unexpired(attempts, cutoff), cutoff)
  {
    forall key ensures Trimmed(Of(attempts, key), Of(Unexpired(attempts, cutoff), key), cutoff) {
      assert Faithful(ledger, attempts, key);
    }
  }

  lemma PrunedTableAt(attempts: Attempts, key: Key, cutoff: real, k: Key)
    ensures Of(PrunedTable(attempts, key, cutoff), k) == if k == key then Pruned(Of(attempts, key), cutoff) else Of(attempts, k)
  {}

  lemma NothingTrimmed(times: seq<real>, cutoff: real)
    ensures Trimmed(times, times, cutoff)
  {}

  lemma PrunedIsTrimmed(ledger: Ledger, attempts: Attempts, key: Key, cutoff: real)
    requires FaithfulTable(ledger, attempts)
    ensures TrimmedTable(attempts, PrunedTable(attempts, key, cutoff), cutoff)
  {
    assert Faithful(ledger, attempts, key);
    PrunedCounts(Of(attempts, key), cutoff);
    assert Trimmed(Of(attempts, key), Pruned(Of(attempts, key), cutoff), cutoff);
    hide Trimmed, PrunedTable, Pruned, Of;
    forall k ensures Trimmed(Of(attempts, k), Of(PrunedTable(attempts, key, cutoff), k), cutoff) {
      PrunedTableAt(attempts, key, cutoff, k);
      NothingTrimmed(Of(attempts, k), cutoff);
    }
  }

  lemma PruneKeepsTable(ledger: Ledger, ledger': Ledger, attempts: Attempts, key: Key)
    requires Later(ledger, ledger') && FaithfulTable(ledger, attempts)
    ensures FaithfulTable(ledger', PrunedTable(attempts, key, ledger'.horizon))
  {
    PrunedIsTrimmed(ledger, attempts, key, ledger'.horizon);
    TrimKeepsTable(ledger, ledger', attempts, PrunedTable(attempts, key, ledger'.horizon));
  }

  lemma PrunedIsBounded(attempts: Attempts, unchecked: set<Key>, key: Key, cutoff: real, maxAttempts: int)
    requires Bounded(attempts, unchecked, maxAttempts)
    ensures Bounded(PrunedTable(attempts, key, cutoff), unchecked, maxAttempts)
  {
    PrunedShrinks(Of(attempts, key), cutoff);
    forall k | k !in unchecked ensures |Of(PrunedTable(attempts, key, cutoff), k)| <= Max(maxAttempts, 0) {
      assert |Of(attempts, k)| <= Max(maxAttempts, 0);
    }
  }

  lemma RecordKeepsTable(ledger: Ledger, ledger': Ledger, attempts: Attempts, key: Key)
    requires Later(ledger, ledger') && NoEmptyWindow(attempts) && FaithfulTable(ledger, attempts)
    ensures FaithfulTable(ledger'.(log := Appended(ledger'.log, key, ledger'.clock)),
                          Recorded(attempts, key, ledger'.clock, ledger'.horizon))
  {
    var live := Unexpired(attempts, ledger'.horizon);
    UnexpiredIsTrimmed(ledger, attempts, ledger'.horizon);
    TrimKeepsTable(ledger, ledger', attempts, live);
    AppendKeepsTable(ledger', live, key, ledger'.clock);
    var final := ledger'.(log := Appended(ledger'.log, key, ledger'.clock));
    PruneKeepsTable(final, final, Appended(live, key, ledger'.clock), key);
  }

  /** What a pruned window says about the log: never more attempts than it holds, and exactly the
      live ones unless a capacity eviction dropped one that is still live. */
  lemma PrunedDecides(ledger: Ledger, attempts: Attempts, key: Key, cutoff: real)
    requires ledger.horizon <= cutoff && Faithful(ledger, attempts, key)
    ensures Newer(Of(ledger.log, key), cutoff) >= |Pruned(Of(attempts, key), cutoff)|
    ensures key !in ledger.lost || ledger.lost[key] <= cutoff ==> Newer(Of(ledger.log, key), cutoff) == |Pruned(Of(attempts, key), cutoff)|
    ensures Pruned(Of(attempts, key), cutoff) != [] ==> Pruned(Of(attempts, key), cutoff)[0] > cutoff
  {
    var logged, held := Of(ledger.log, key), Of(attempts, key);
    PrunedCounts(held, cutoff);
    PrunedCounts(logged, cutoff);
    var left := Pruned(held, cutoff);
    if left != [] {
      assert logged[|logged| - |left|] == left[0];
    }
    if key !in ledger.lost || ledger.lost[key] <= cutoff {
      PrunedIgnoresExpired(logged, |logged| - |held|, cutoff);
    }
  }

  /** Whether the last record of each key came while its window was full. */
  ghost function Unchecked(attempts: Attempts, unchecked: set<Key>, key: Key, cutoff: real, maxAttempts: int): set<Key> {
    if |Pruned(Of(attempts, key), cutoff)| < maxAttempts then unchecked - {key} else unchecked + {key}
  }

  /** Recording grows only the recorded key's window, by at most one past its live attempts. */
  lemma RecordedIsBounded(attempts: Attempts, unchecked: set<Key>, key: Key, now: real, cutoff: real, maxAttempts: int)
    requires NoEmptyWindow(attempts) && Bounded(attempts, unchecked, maxAttempts)
    ensures Bounded(Recorded(attempts, key, now, cutoff), Unchecked(attempts, unchecked, key, cutoff, maxAttempts), maxAttempts)
  {
    var table := Recorded(attempts, key, now, cutoff);
    forall k | k !in Unchecked(attempts, unchecked, key, cutoff, maxAttempts) ensures |Of(table, k)| <= Max(maxAttempts, 0) {
      if k == key {
        RecordedKey(attempts, key, now, cutoff);
      } else {
        assert |Of(attempts, k)| <= Max(maxAttempts, 0);
        RecordedElsewhere(attempts, key, now, cutoff, k);
      }
    }
  }

  lemma RecordedKey(attempts: Attempts, key: Key, now: real, cutoff: real)
    requires NoEmptyWindow(attempts)
    ensures |Of(Recorded(attempts, key, now, cutoff), key)| <= |Pruned(Of(attempts, key), cutoff)| + 1
  {
    var live := Unexpired(attempts, cutoff);
    PrunedAppend(Of(live, key), now, cutoff);
    PrunedShrinks([], cutoff);
  }

  lemma RecordedElsewhere(attempts: Attempts, key: Key, now: real, cutoff: real, k: Key)
    requires NoEmptyWindow(attempts) && k != key
    ensures |Of(Recorded(attempts, key, now, cutoff), k)| <= |Of(attempts, k)|
  {}

  lemma {:induction false} SubsetSize<T>(a: set<T>, b: set<T>)
    requires a <= b
    ensures |a| <= |b|
  {
    if x :| x in a {
      SubsetSize(a - {x}, b - {x});
    }
  }

  lemma TableSize(before: Attempts, after: Attempts, extra: set<Key>)
    requires after.Keys <= before.Keys + extra && |extra| <= 1
    ensures |after| <= |before| + |extra|
  {
    SubsetSize(after.Keys, before.Keys + extra);
    assert |after.Keys| == |after| && |before.Keys| == |before|;
  }

  ghost predicate Admits(times: seq<real>, now: real, window: int, maxAttempts: int) {
    |Pruned(times, now - window as real)| < maxAttempts
  }

  /** From one second past the wait on, the window admits another attempt. */
  ghost predicate WaitSuffices(times: seq<real>, now: real, wait: int, window: int, maxAttempts: int) {
    forall later :: later >= now + wait as real + 1.0 ==> Admits(times, later, window, maxAttempts)
  }

  /** Seconds until the oldest attempt leaves the window, at least one. */
  function Wait(oldest: real, now: real, window: int): int {
    Max(1, (oldest + window as real - now).Floor)
  }

  /** Whether the answer is right by the full log: a throttled answer always, and any answer unless a
      capacity eviction dropped an attempt of the key that is still live. */
  ghost predicate LogBacks(log: Attempts, lost: map<Key, real>, key: Key, now: real, window: int, maxAttempts: int, throttled: bool) {
    var live := Newer(Of(log, key), now - window as real);
    && (throttled ==> live >= maxAttempts)
    && (key !in lost || lost[key] <= now - window as real ==> (throttled <==> live >= Max(maxAttempts, 1)))
  }

  lemma ThrottledRightly(ledger: Ledger, attempts: Attempts, key: Key, now: real, window: int, maxAttempts: int)
    requires ledger.horizon <= Since(now, window) && Faithful(ledger, attempts, key)
    ensures var left := Pruned(Of(attempts, key), Since(now, window));
            LogBacks(ledger.log, ledger.lost, key, now, window, maxAttempts, left != [] && |left| >= maxAttempts)
  {
    PrunedDecides(ledger, attempts, key, Since(now, window));
    hide Newer, Pruned, Of, Faithful;
  }

  /** The whole seconds left, but never less than one. */
  ghost predicate WholeSeconds(wait: int, left: real) {
    wait >= 1 && left < wait as real + 1.0 && (wait > 1 ==> wait as real <= left)
  }

  lemma WaitIsWhole(oldest: real, now: real, window: int)
    ensures WholeSeconds(Wait(oldest, now, window), oldest + window as real - now)
  {}

  /** A window no longer than the limit admits again one second after the wait it was given. */
  lemma WaitIsEnough(times: seq<real>, now: real, window: int, maxAttempts: int)
    requires times != [] && |times| <= maxAttempts
    ensures WaitSuffices(times, now, Wait(times[0], now, window), window, maxAttempts)
  {
    var wait := Wait(times[0], now, window);
    forall later | later >= now + wait as real + 1.0 ensures Admits(times, later, window, maxAttempts) {
      PrunedShrinks(times, later - window as real);
    }
  }

  /** A sorted window admits exactly when its attempt that many from the end has expired. */
  lemma AdmitsExactly(times: seq<real>, later: real, window: int, maxAttempts: int)
    requires Sorted(times) && 0 < maxAttempts <= |times|
    ensures Admits(times, later, window, maxAttempts) <==> times[|times| - maxAttempts] <= later - window as real
  {
    var left := Pruned(times, later - window as real);
    PrunedCounts(times, later - window as real);
    if |left| >= maxAttempts {
      assert left[0] == times[|times| - |left|] <= times[|times| - maxAttempts];
    }
  }

  /** The attempt whose expiry lets the key in again will have left the window a second after the wait. */
  ghost predicate ExpiresInTime(times: seq<real>, now: real, wait: int, window: int, maxAttempts: int)
    requires 0 < maxAttempts <= |times|
  {
    times[|times| - maxAttempts] <= now + wait as real + 1.0 - window as real
  }

  /** Exactly when waiting as told is enough: the attempt whose expiry lets the key in again has left
      the window one second after the wait. With a window no longer than the limit that is its oldest
      attempt, from which the wait was computed. */
  lemma WaitIsExact(times: seq<real>, now: real, window: int, maxAttempts: int)
    requires Sorted(times) && 0 < maxAttempts <= |times|
    ensures var wait := Wait(times[0], now, window);
            WaitSuffices(times, now, wait, window, maxAttempts) <==> ExpiresInTime(times, now, wait, window, maxAttempts)
    ensures |times| == maxAttempts ==> WaitSuffices(times, now, Wait(times[0], now, window), window, maxAttempts)
  {
    var start := now + Wait(times[0], now, window) as real + 1.0;
    AdmitsExactly(times, start, window, maxAttempts);
    forall later | later >= start {
      AdmitsExactly(times, later, window, maxAttempts);
    }
    if |times| == maxAttempts { WaitIsEnough(times, now, window, maxAttempts); }
  }

  /** A full window: waiting as told is enough exactly when the attempt that must expire will have, as
      it will in a window that was never overfilled. */
  ghost predicate WaitsRightly(held: seq<real>, now: real, wait: int, window: int, maxAttempts: int, checked: bool) {
    maxAttempts > 0 ==>
      && maxAttempts <= |held|
      && (WaitSuffices(held, now, wait, window, maxAttempts) <==> ExpiresInTime(held, now, wait, window, maxAttempts))
      && (checked ==> WaitSuffices(held, now, wait, window, maxAttempts))
  }

  lemma WaitIsRight(held: seq<real>, now: real, window: int, maxAttempts: int, checked: bool)
    requires Sorted(held) && held != [] && maxAttempts <= |held| && (checked ==> |held| <= Max(maxAttempts, 0))
    ensures WaitsRightly(held, now, Wait(held[0], now, window), window, maxAttempts, checked)
  {
    hide Wait, WaitSuffices, ExpiresInTime;
    if maxAttempts > 0 { WaitIsExact(held, now, window, maxAttempts); }
  }

  /** What is recorded first into an empty table, and what then joins it inside the window. */
  lemma FirstRecord(key: Key, now: real, cutoff: real)
    requires cutoff < now
    ensures NoEmptyWindow(map[]) && Recorded(map[], key, now, cutoff) == map[key := [now]]
  {
    assert Unexpired(map[], cutoff) == map[];
    assert [] + [now] == [now];
    assert Appended(map[], key, now) == map[key := [now]];
  }

  lemma NextRecord(key: Key, first: real, now: real, cutoff: real)
    requires cutoff < first <= now
    ensures NoEmptyWindow(map[key := [first]])
    ensures Recorded(map[key := [first]], key, now, cutoff) == map[key := [first, now]]
  {
    var once: Attempts := map[key := [first]];
    assert Unexpired(once, cutoff) == once;
    assert [first] + [now] == [first, now];
    assert Appended(once, key, now) == map[key := [first, now]];
  }

  /** Two records without a check in between reach, from an empty table and with a limit of one, a
      window whose wait is not enough. */
  lemma UncheckedRecordsOutlastTheWait(key: Key)
    ensures NoEmptyWindow(map[]) && NoEmptyWindow(Recorded(map[], key, 0.0, -60.0))
    ensures var held := Of(Recorded(Recorded(map[], key, 0.0, -60.0), key, 10.0, -50.0), key);
            held == [0.0, 10.0] && !WaitSuffices(held, 10.0, Wait(held[0], 10.0, 60), 60, 1)
  {
    FirstRecord(key, 0.0, -60.0);
    NextRecord(key, 0.0, 10.0, -50.0);
    hide Recorded;
    assert Of(map[key := [0.0, 10.0]], key) == [0.0, 10.0];
    WaitIsExact([0.0, 10.0], 10.0, 60, 1);
  }

  ghost predicate OldestLast(attempts: Attempts, key: Key)
    requires NoEmptyWindow(attempts)
  {
    key in attempts && forall k :: k in attempts ==> attempts[key][|attempts[key]| - 1] <= attempts[k][|attempts[k]| - 1]
  }

  /** The table as it is when it fits, and otherwise without one key whose last attempt is oldest. */
  ghost predicate WithinCapacity(table: Attempts, lost: map<Key, real>, table': Attempts, lost': map<Key, real>, maxKeys: nat)
    requires NoEmptyWindow(table)
  {
    if |table| <= maxKeys then table' == table && lost' == lost
    else exists k :: OldestLast(table, k) && table' == table - {k} && lost' == lost[k := table[k][|table[k]| - 1]]
  }

  /** The part of the log newer than the cutoff. */
  ghost predicate NewerPart(part: seq<real>, log: seq<real>, cutoff: real) {
    && |part| <= |log| && part == log[|log| - |part|..]
    && (forall i :: 0 <= i < |log| - |part| ==> log[i] <= cutoff)
    && (forall i :: 0 <= i < |part| ==> part[i] > cutoff)
  }

  /** What is left of a log when everything as old as the window or older is gone. */
  ghost predicate InWindow(part: seq<real>, log: seq<real>, now: real, window: int) {
    NewerPart(part, log, now - window as real)
  }

  lemma PrunedIsNewer(times: seq<real>, cutoff: real)
    requires Sorted(times)
    ensures NewerPart(Pruned(times, cutoff), times, cutoff)
    ensures Sorted(Pruned(times, cutoff)) && |Pruned(times, cutoff)| <= |times|
  {
    PrunedCounts(times, cutoff);
  }

  lemma LeftInWindow(log: seq<real>, now: real, window: int)
    requires Sorted(log)
    ensures var left := Pruned(log, Since(now, window));
            InWindow(left, log, now, window) && Sorted(left) && |left| <= |log|
  {
    hide NewerPart, Pruned, Sorted;
    PrunedIsNewer(log, Since(now, window));
  }

  lemma NewerThanSuffix(part: seq<real>, log: seq<real>, n: nat, cutoff: real)
    requires n <= |log| && NewerPart(part, log[n..], cutoff) && forall i :: 0 <= i < n ==> log[i] <= cutoff
    ensures NewerPart(part, log, cutoff)
  {
    forall i | 0 <= i < |log| - |part| ensures log[i] <= cutoff {
      if i >= n { assert log[i] == log[n..][i - n]; }
    }
  }

  lemma OthersRecorded(attempts: Attempts, key: Key, now: real, cutoff: real, k: Key)
    requires NoEmptyWindow(attempts) && k != key
    ensures k in Recorded(attempts, key, now, cutoff) <==> k in attempts && attempts[k][|attempts[k]| - 1] > cutoff
    ensures k in Recorded(attempts, key, now, cutoff) ==> Recorded(attempts, key, now, cutoff)[k] == attempts[k]
  {}

  lemma AppendedAt(attempts: Attempts, key: Key, now: real)
    ensures Of(Appended(attempts, key, now), key) == Of(attempts, key) + [now]
  {}

  lemma UnexpiredAt(attempts: Attempts, key: Key, cutoff: real)
    requires NoEmptyWindow(attempts)
    ensures Of(Unexpired(attempts, cutoff), key) == Of(attempts, key)
            || (Of(Unexpired(attempts, cutoff), key) == [] && Of(attempts, key) != [] && Of(attempts, key)[|Of(attempts, key)| - 1] <= cutoff)
  {}

  lemma NewestExpired(was: seq<real>, now: real, cutoff: real)
    requires Sorted(was + [now]) && was != [] && was[|was| - 1] <= cutoff
    ensures NewerPart(Pruned([now], cutoff), was + [now], cutoff)
  {
    hide NewerPart, Pruned;
    PrunedIsNewer([now], cutoff);
    forall i | 0 <= i < |was| ensures (was + [now])[i] <= cutoff {
      assert (was + [now])[i] <= (was + [now])[|was| - 1] == was[|was| - 1];
    }
    assert (was + [now])[|was|..] == [now];
    NewerThanSuffix(Pruned([now], cutoff), was + [now], |was|, cutoff);
  }

  lemma OwnRecorded(attempts: Attempts, key: Key, now: real, cutoff: real)
    requires NoEmptyWindow(attempts) && Sorted(Of(attempts, key) + [now])
    ensures NewerPart(Of(Recorded(attempts, key, now, cutoff), key), Of(attempts, key) + [now], cutoff)
  {
    hide NoEmptyWindow, Unexpired, Appended, PrunedTable, Pruned, NewerPart, Sorted, Of;
    var live := Unexpired(attempts, cutoff);
    PrunedTableAt(Appended(live, key, now), key, cutoff, key);
    AppendedAt(live, key, now);
    UnexpiredAt(attempts, key, cutoff);
    if Of(live, key) == Of(attempts, key) {
      PrunedIsNewer(Of(attempts, key) + [now], cutoff);
    } else {
      assert [] + [now] == [now];
      NewestExpired(Of(attempts, key), now, cutoff);
    }
  }

  /** What a record makes of the table. Other keys stay as they are unless their last attempt has expired;
      the key's own window gets the attempt, less what has expired before it. */
  lemma RecordedExactly(attempts: Attempts, key: Key, now: real, cutoff: real, k: Key)
    requires NoEmptyWindow(attempts) && Sorted((if key in attempts then attempts[key] else []) + [now])
    ensures k != key ==> (k in Recorded(attempts, key, now, cutoff) <==> k in attempts && attempts[k][|attempts[k]| - 1] > cutoff)
    ensures k != key && k in Recorded(attempts, key, now, cutoff) ==> Recorded(attempts, key, now, cutoff)[k] == attempts[k]
    ensures NewerPart(if key in Recorded(attempts, key, now, cutoff) then Recorded(attempts, key, now, cutoff)[key] else [],
                      (if key in attempts then attempts[key] else []) + [now], cutoff)
  {
    hide Recorded, NewerPart;
    OwnRecorded(attempts, key, now, cutoff);
    if k != key { OthersRecorded(attempts, key, now, cutoff, k); }
  }

  lemma RecordingIsSafe(attempts: Attempts, key: Key, now: real, cutoff: real)
    requires NoEmptyWindow(attempts)
    ensures forall k :: k in Appended(Unexpired(attempts, cutoff), key, now) ==> Appended(Unexpired(attempts, cutoff), key, now)[k] != []
    ensures NoEmptyWindow(Recorded(attempts, key, now, cutoff))
    ensures Recorded(attempts, key, now, cutoff).Keys <= attempts.Keys + {key}
  {}

  class RateLimiter {
    const maxAttempts: int
    const window: int
    const maxKeys: nat
    var attempts: Attempts

    /** `unchecked` are the keys whose last record came while their window was full. */
    ghost var ledger: Ledger
    ghost var unchecked: set<Key>

    ghost predicate Sound(capacity: nat)
      reads this
    {
      && |attempts| <= capacity
      && NoEmptyWindow(attempts)
      && ledger.horizon == Since(ledger.clock, window)
      && FaithfulTable(ledger, attempts)
      && Bounded(attempts, unchecked, maxAttempts)
    }

    ghost predicate Valid()
      reads this
    {
      Sound(maxKeys)
    }

    ghost function At(now: real): Ledger
      reads this
    {
      ledger.(clock := now, horizon := Since(now, window))
    }

    constructor (maxAttempts: int, window: int, maxKeys: nat, ghost now: real)
      ensures Valid() && this.maxAttempts == maxAttempts && this.window == window && this.maxKeys == maxKeys
      ensures attempts == map[] && ledger.log == map[] && ledger.lost == map[] && ledger.clock == now && unchecked == {}
    {
      this.maxAttempts, this.window, this.maxKeys := maxAttempts, window, maxKeys;
      attempts := map[];
      ledger, unchecked := Ledger(map[], map[], now, Since(now, window)), {};
    }

    /** Drop expired attempts of one key from the front; an emptied key is deleted. */
    method Prune(key: Key, now: real) returns (held: Option<seq<real>>)
      requires forall k :: k in attempts && k != key ==> attempts[k] != []
      modifies this`attempts
      ensures var left := Pruned(old(Of(attempts, key)), Since(now, window));
              held == if left == [] then None else Some(left)
      ensures attempts == PrunedTable(old(attempts), key, Since(now, window))
    {
      if key !in attempts {
        assert old(attempts) - {key} == attempts;
        return None;
      }
      var cutoff := now - window as real;
      var times := attempts[key];
      while times != [] && times[0] <= cutoff
        invariant Pruned(times, cutoff) == Pruned(old(attempts[key]), cutoff)
      {
        times := times[1..];
      }
      if times == [] {
        attempts := attempts - {key};
        return None;
      }
      attempts := attempts[key := times];
      return Some(times);
    }

    /** Delete every key whose latest attempt has expired. */
    method EvictExpired(now: real)
      requires NoEmptyWindow(attempts)
      modifies this`attempts
      ensures attempts == Unexpired(old(attempts), Since(now, window))
    {
      var cutoff := now - window as real;
      var rest := attempts.Keys;
      while rest != {}
        invariant rest <= old(attempts).Keys
        invariant attempts == map k | k in old(attempts)
                                      && (k in rest || old(attempts)[k][|old(attempts)[k]| - 1] > cutoff) :: old(attempts)[k]
        decreases rest
      {
        var key :| key in rest;
        rest := rest - {key};
        if attempts[key][|attempts[key]| - 1] <= cutoff {
          attempts := attempts - {key};
        }
      }
    }

    /** The key's held window is sorted and, if its last record was admitted, within the limit. */
    lemma Holds(key: Key)
      requires Valid()
      ensures Faithful(ledger, attempts, key) && Sorted(Of(attempts, key))
      ensures key !in unchecked ==> |Of(attempts, key)| <= Max(maxAttempts, 0)
    {
      assert Faithful(ledger, attempts, key);
    }

    /** Prune one key as the clock advances. */
    method Refresh(key: Key, now: real) returns (held: Option<seq<real>>)
      requires Valid() && ledger.clock <= now
      modifies this`attempts, this`ledger
      ensures Valid() && ledger == old(At(now))
      ensures attempts == PrunedTable(old(attempts), key, Since(now, window))
      ensures held == if Of(attempts, key) == [] then None else Some(Of(attempts, key))
      ensures Of(attempts, key) == Pruned(old(Of(attempts, key)), Since(now, window))
    {
      ghost var before, ledger' := attempts, At(now);
      PruneKeepsTable(ledger, ledger', before, key);
      PrunedIsBounded(before, unchecked, key, Since(now, window), maxAttempts);
      held := Prune(key, now);
      ledger := ledger';
      TableSize(before, attempts, {});
    }

    /** What is left of the key's window now, and what that says about the log. */
    lemma LeftNow(key: Key, now: real)
      requires Valid() && ledger.clock <= now
      ensures var left := Pruned(Of(attempts, key), Since(now, window));
              && Sorted(left) && (key !in unchecked ==> |left| <= Max(maxAttempts, 0))
              && InWindow(left, Of(attempts, key), now, window)
              && LogBacks(ledger.log, ledger.lost, key, now, window, maxAttempts, left != [] && |left| >= maxAttempts)
    {
      Holds(key);
      assert ledger.horizon <= Since(now, window);
      hide Since, InWindow, Valid, Pruned, Newer, Sorted, Of, Faithful, LogBacks;
      LeftInWindow(Of(attempts, key), now, window);
      ThrottledRightly(ledger, attempts, key, now, window, maxAttempts);
    }

    /** Seconds to wait when the key is throttled. A throttled answer is always backed by the full
        log; unless a capacity eviction dropped an attempt of the key that is still live, the log
        decides the answer; and waiting as told, with a second to spare, is enough exactly when the
        attempt that must expire will have, as it will if the key's last record was admitted. */
    method Check(key: Key, now: real) returns (wait: Option<int>)
      requires Valid() && ledger.clock <= now
      modifies this
      ensures Valid() && ledger == old(At(now)) && unchecked == old(unchecked)
      ensures attempts == PrunedTable(old(attempts), key, Since(now, window))
      ensures InWindow(Of(attempts, key), old(Of(attempts, key)), now, window)
      ensures LogBacks(ledger.log, ledger.lost, key, now, window, maxAttempts, wait.Some?)
      ensures wait.Some? ==>
                && Of(attempts, key) != []
                && wait.value == Wait(Of(attempts, key)[0], now, window)
                && WholeSeconds(wait.value, Of(attempts, key)[0] + window as real - now)
      ensures wait.Some? ==> WaitsRightly(Of(attempts, key), now, wait.value, window, maxAttempts, key !in unchecked)
    {
      LeftNow(key, now);
      hide At, Since, Max, Valid, Faithful, FaithfulTable, Bounded, PrunedTable, Pruned, Sorted, Wait, WholeSeconds, Of, InWindow, WaitsRightly, LogBacks;
      var held := Refresh(key, now);
      if held.None? || |held.value| < maxAttempts {
        return None;
      }
      wait := Some(Wait(held.value[0], now, window));
      WaitIsWhole(held.value[0], now, window);
      WaitIsRight(held.value, now, window, maxAttempts, key !in unchecked);
    }

    /** A key whose last attempt is the oldest; the table is not empty. */
    method Oldest() returns (oldest: Key)
      requires attempts != map[] && NoEmptyWindow(attempts)
      ensures OldestLast(attempts, oldest)
    {
      oldest :| oldest in attempts;
      var rest := attempts.Keys - {oldest};
      while rest != {}
        invariant rest <= attempts.Keys && oldest in attempts
        invariant forall k :: k in attempts && k !in rest ==>
                    attempts[oldest][|attempts[oldest]| - 1] <= attempts[k][|attempts[k]| - 1]
        decreases rest
      {
        var key :| key in rest;
        rest := rest - {key};
        if attempts[key][|attempts[key]| - 1] < attempts[oldest][|attempts[oldest]| - 1] {
          oldest := key;
        }
      }
    }

    /** Expire, append, prune. */
    method Append(key: Key, now: real)
      requires Valid() && ledger.clock <= now
      modifies this`attempts, this`ledger, this`unchecked
      ensures old(NoEmptyWindow(attempts)) && attempts == Recorded(old(attempts), key, now, Since(now, window))
      ensures unchecked == Unchecked(old(attempts), old(unchecked), key, Since(now, window), maxAttempts)
      ensures Sound(maxKeys + 1) && ledger == old(At(now)).(log := Appended(old(ledger.log), key, now))
    {
      ghost var before, ledger0 := attempts, At(now);
      RecordedIsBounded(before, unchecked, key, now, Since(now, window), maxAttempts);
      unchecked := Unchecked(before, unchecked, key, Since(now, window), maxAttempts);
      RecordKeepsTable(ledger, ledger0, before, key);
      RecordingIsSafe(before, key, now, Since(now, window));
      hide FaithfulTable, Bounded, Unexpired, PrunedTable, Appended, Of;
      EvictExpired(now);
      attempts := Appended(attempts, key, now);
      ledger := ledger0.(log := Appended(ledger0.log, key, now));
      var _ := Prune(key, now);
      TableSize(before, attempts, {key});
    }

    /** Drop one key whose last attempt is oldest, when the table is over capacity. */
    method Trim()
      requires Sound(maxKeys + 1)
      modifies this`attempts, this`ledger
      ensures Valid() && ledger == old(ledger).(lost := ledger.lost)
      ensures WithinCapacity(old(attempts), old(ledger.lost), attempts, ledger.lost, maxKeys)
    {
      if |attempts| > maxKeys {
        var oldest := Oldest();
        ForgetKeepsTable(ledger, attempts, oldest);
        TableSize(attempts - {oldest}, attempts, {oldest});
        ghost var before := attempts;
        attempts := attempts - {oldest};
        ledger := ledger.(lost := ledger.lost[oldest := before[oldest][|before[oldest]| - 1]]);
        assert before.Keys == attempts.Keys + {oldest};
        assert forall k :: |Of(attempts, k)| <= |Of(before, k)|;
      }
    }

    /** Record one failed attempt: expired keys go, the attempt is appended to its window, and when
        the table is over capacity one key with the oldest last attempt is dropped. */
    method Record(key: Key, now: real)
      requires Valid() && ledger.clock <= now
      modifies this
      ensures Valid() && ledger.log == Appended(old(ledger.log), key, now) && ledger.clock == now
      ensures ledger.log == old(ledger.log)[key := (if key in old(ledger.log) then old(ledger.log)[key] else []) + [now]]
      ensures |attempts| <= maxKeys
      ensures unchecked == Unchecked(old(attempts), old(unchecked), key, Since(now, window), maxAttempts)
      ensures old(NoEmptyWindow(attempts)) && NoEmptyWindow(Recorded(old(attempts), key, now, Since(now, window)))
      ensures WithinCapacity(Recorded(old(attempts), key, now, Since(now, window)), old(ledger.lost), attempts, ledger.lost, maxKeys)
    {
      Append(key, now);
      Trim();
    }
  }
}
