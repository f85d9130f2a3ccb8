/** The lifecycle columns of a raw article, and the statements that change them. Times are in
    seconds; a nullable column is an Option, and a comparison with a null column is not satisfied. */
module RawArticles {
  import opened Wrappers

  type Owner = int

  datatype Status =
    | NormalizationRetry
    | EnrichmentRetry
    | Deferred
    | Processing
    | Completed
    | Skipped
    | QualityRejected

  datatype Row = Row(status: Option<Status>, attempts: nat, nextAttempt: Option<int>, owner: Option<Owner>, leaseExpires: Option<int>)

  type Rows = map<int, Row>

  const ENRICH_LEASE := 65 * 60
  const TASK_TIME_LIMIT := 3600
  const RETRY_DELAY := 2 * 3600
  const RELEASE_DELAY := 60

  const ARRIVED := Row(None, 0, None, None, None)

  /** Statuses no later attempt picks up. */
  predicate Final(status: Option<Status>) {
    status == Some(Completed) || status == Some(Skipped) || status == Some(QualityRejected)
  }

  predicate Reached(time: Option<int>, now: int) {
    time.Some? && time.value <= now
  }

  predicate Claimable(row: Row, now: int) {
    && !Final(row.status)
    && (row.nextAttempt.None? || Reached(row.nextAttempt, now))
    && (row.owner.None? || Reached(row.leaseExpires, now))
  }

  /** The statuses a claim looks for. */
  ghost predicate IsUnfinished(status: Option<Status>) {
    status.None? || status.value.NormalizationRetry? || status.value.EnrichmentRetry? || status.value.Deferred? || status.value.Processing?
  }

  /** A row can be claimed while it has no status yet or one that leaves it unfinished, is due, and is not
      held under a lease that still runs. */
  lemma ClaimableExactly(row: Row, now: int)
    ensures Claimable(row, now) <==>
              && IsUnfinished(row.status)
              && (row.nextAttempt.Some? ==> row.nextAttempt.value <= now)
              && (row.owner.Some? ==> row.leaseExpires.Some? && row.leaseExpires.value <= now)
  {}

  function Claimed(row: Row, owner: Owner, now: int): Row {
    row.(status := Some(Processing), owner := Some(owner), leaseExpires := Some(now + ENRICH_LEASE))
  }

  function Rejected(row: Row): Row {
    row.(status := Some(QualityRejected), nextAttempt := None, owner := None, leaseExpires := None)
  }

  function Pow2(n: nat): nat {
    if n == 0 then 1 else 2 * Pow2(n - 1)
  }

  /** Minutes before normalization is tried again after the n-th put-back. */
  function NormalizationDelay(attempts: nat): nat
    requires attempts > 0
  {
    if 15 * Pow2(attempts - 1) < 360 then 15 * Pow2(attempts - 1) else 360
  }

  /** A failed normalization writes back one more than the attempt count it read. */
  function PutBackAfterError(row: Row, attemptsRead: nat, now: int): Row {
    Row(Some(NormalizationRetry), attemptsRead + 1, Some(now + 60 * NormalizationDelay(attemptsRead + 1)), None, None)
  }

  /** A failed batch puts back every row its owner still holds. */
  function Released(row: Row, owner: Owner, now: int): Row {
    if row.owner == Some(owner)
    then Row(Some(EnrichmentRetry), row.attempts + 1, Some(now + RELEASE_DELAY), None, None)
    else row
  }

  function Transitioned(row: Row, status: Status, delay: Option<int>, now: int): Row {
    Row(Some(status), if delay.Some? then row.attempts + 1 else row.attempts,
        if delay.Some? then Some(now + delay.value) else None, None, None)
  }

  /** The guarded update: a run that names its claim changes only a row it still holds. */
  function Transition(rows: Rows, id: int, owner: Option<Owner>, status: Status, delay: Option<int>, now: int): Rows {
    if id in rows && (owner.None? || rows[id].owner == owner)
    then rows[id := Transitioned(rows[id], status, delay, now)]
    else rows
  }

  /** Rows a batch must leave alone: given up, not due, or leased by somebody else. */
  predicate Unavailable(row: Row, owner: Option<Owner>, now: int) {
    || row.status == Some(Skipped) || row.status == Some(QualityRejected)
    || (row.nextAttempt.Some? && row.nextAttempt.value > now)
    || (row.leaseExpires.Some? && row.leaseExpires.value > now && row.owner.Some? && row.owner != owner)
  }

  /** A quarter of an hour at first, then twice as long each time, but never more than six hours. */
  lemma DelayExactly(n: nat)
    ensures NormalizationDelay(1) == 15
    ensures n > 0 ==> NormalizationDelay(n + 1) == if 2 * NormalizationDelay(n) < 360 then 2 * NormalizationDelay(n) else 360
  {}

  lemma {:induction false} DelayIsMonotone(a: nat, b: nat)
    requires 0 < a <= b
    ensures NormalizationDelay(a) <= NormalizationDelay(b) <= 360
    ensures 15 <= NormalizationDelay(a)
  {
    PowersGrow(0, a - 1);
    PowersGrow(a - 1, b - 1);
  }

  lemma {:induction false} PowersGrow(m: nat, n: nat)
    requires m <= n
    ensures 0 < Pow2(m) <= Pow2(n)
  {
    if n > 0 {
      if m < n { PowersGrow(m, n - 1); } else { PowersGrow(m - 1, n - 1); }
    }
  }
}
