/** One worker over the raw-article table: claiming in newest-first order, normalizing what it
    claimed, and putting everything back after a failure. Its statements are the steps of the lease
    protocol. The clock is read once. */
module EnrichmentWorker {
  import opened EnrichmentLease
  import opened EnrichmentPipeline
  import opened RawArticles
  import opened Sequences
  import opened Wrappers

  predicate Eligible(raw: Rows, processed: set<int>, exclude: set<int>, now: int, id: int) {
    id in raw && Claimable(raw[id], now) && id !in processed && id !in exclude
  }

  function EligibleIn(raw: Rows, processed: set<int>, exclude: set<int>, now: int, order: seq<int>): (ids: seq<int>)
    ensures forall id :: id in ids <==> id in order && Eligible(raw, processed, exclude, now, id)
  {
    if order == [] then []
    else
      var before := EligibleIn(raw, processed, exclude, now, order[..|order| - 1]);
      var last := order[|order| - 1];
      assert forall id :: id in order <==> id in order[..|order| - 1] || id == last;
      if Eligible(raw, processed, exclude, now, last) then before + [last] else before
  }

  lemma {:induction false} EligibleAreDistinct(raw: Rows, processed: set<int>, exclude: set<int>, now: int, order: seq<int>)
    requires Distinct(order)
    ensures Distinct(EligibleIn(raw, processed, exclude, now, order))
  {
    if order != [] {
      EligibleAreDistinct(raw, processed, exclude, now, order[..|order| - 1]);
    }
  }

  function Taken(ids: seq<int>, limit: nat): seq<int> {
    if |ids| <= limit then ids else ids[..limit]
  }

  function Elements(ids: seq<int>): set<int> {
    set id | id in ids
  }

  /** The row may be claimed: unfinished, due, under no running lease, and neither processed nor looked at. */
  ghost predicate MayClaim(raw: Rows, processed: set<int>, exclude: set<int>, now: int, id: int) {
    && id in raw && id !in processed && id !in exclude
    && IsUnfinished(raw[id].status)
    && (raw[id].nextAttempt.Some? ==> raw[id].nextAttempt.value <= now)
    && (raw[id].owner.Some? ==> raw[id].leaseExpires.Some? && raw[id].leaseExpires.value <= now)
  }

  /** `ids` are rows that may be claimed, in the order given; `at` says where each one stands. */
  ghost predicate InOrder(raw: Rows, processed: set<int>, exclude: set<int>, now: int, order: seq<int>, ids: seq<int>, at: seq<nat>) {
    && |at| == |ids|
    && (forall j, k :: 0 <= j < k < |at| ==> at[j] < at[k])
    && (forall k :: 0 <= k < |at| ==> at[k] < |order| && order[at[k]] == ids[k] && MayClaim(raw, processed, exclude, now, ids[k]))
  }

  /** And they are the first of them: a row left out stands behind them all, and only when they are as
      many as wanted. */
  ghost predicate FirstInOrder(raw: Rows, processed: set<int>, exclude: set<int>, now: int, order: seq<int>, limit: nat, ids: seq<int>) {
    && |ids| <= limit
    && exists at ::
         && InOrder(raw, processed, exclude, now, order, ids, at)
         && forall i :: 0 <= i < |order| && MayClaim(raw, processed, exclude, now, order[i]) && i !in at ==>
              |ids| == limit && forall k :: 0 <= k < |at| ==> at[k] < i
  }

  lemma EligibleExactly(raw: Rows, processed: set<int>, exclude: set<int>, now: int, id: int)
    ensures Eligible(raw, processed, exclude, now, id) <==> MayClaim(raw, processed, exclude, now, id)
  {
    if id in raw { ClaimableExactly(raw[id], now); }
  }

  lemma {:induction false} EligibleInOrder(raw: Rows, processed: set<int>, exclude: set<int>, now: int, order: seq<int>) returns (at: seq<nat>)
    ensures InOrder(raw, processed, exclude, now, order, EligibleIn(raw, processed, exclude, now, order), at)
    ensures forall i :: 0 <= i < |order| && MayClaim(raw, processed, exclude, now, order[i]) ==> i in at
  {
    hide MayClaim, Eligible, InOrder;
    at := [];
    if order != [] {
      var init, last := order[..|order| - 1], order[|order| - 1];
      at := EligibleInOrder(raw, processed, exclude, now, init);
      EligibleExactly(raw, processed, exclude, now, last);
      InOrderOneMore(raw, processed, exclude, now, init, last, EligibleIn(raw, processed, exclude, now, init), at);
      assert order == init + [last];
      if Eligible(raw, processed, exclude, now, last) { at := at + [|init|]; }
    } else {
      NothingInOrder(raw, processed, exclude, now);
    }
  }

  lemma NothingInOrder(raw: Rows, processed: set<int>, exclude: set<int>, now: int)
    ensures InOrder(raw, processed, exclude, now, [], [], [])
  {}

  lemma InOrderOneMore(raw: Rows, processed: set<int>, exclude: set<int>, now: int, order: seq<int>, last: int, ids: seq<int>, at: seq<nat>)
    requires InOrder(raw, processed, exclude, now, order, ids, at)
    requires forall i :: 0 <= i < |order| && MayClaim(raw, processed, exclude, now, order[i]) ==> i in at
    ensures MayClaim(raw, processed, exclude, now, last) ==>
              InOrder(raw, processed, exclude, now, order + [last], ids + [last], at + [|order|])
    ensures InOrder(raw, processed, exclude, now, order + [last], ids, at)
    ensures forall i :: 0 <= i < |order| + 1 && MayClaim(raw, processed, exclude, now, (order + [last])[i]) ==> i in at + [|order|]
    ensures !MayClaim(raw, processed, exclude, now, last) ==>
              forall i :: 0 <= i < |order| + 1 && MayClaim(raw, processed, exclude, now, (order + [last])[i]) ==> i in at
  {
    hide MayClaim;
    var more := order + [last];
    assert more[|order|] == last;
    assert forall k :: 0 <= k < |at| ==> more[at[k]] == order[at[k]];
    assert forall i :: 0 <= i < |order| ==> more[i] == order[i];
  }

  lemma TakenIsFirst(raw: Rows, processed: set<int>, exclude: set<int>, now: int, order: seq<int>, limit: nat)
    ensures FirstInOrder(raw, processed, exclude, now, order, limit, Taken(EligibleIn(raw, processed, exclude, now, order), limit))
  {
    var all := EligibleIn(raw, processed, exclude, now, order);
    var at := EligibleInOrder(raw, processed, exclude, now, order);
    hide MayClaim, EligibleIn;
    var n := if |all| <= limit then |all| else limit;
    var ids, first := Taken(all, limit), at[..n];
    assert InOrder(raw, processed, exclude, now, order, ids, first);
    forall i | 0 <= i < |order| && MayClaim(raw, processed, exclude, now, order[i]) && i !in first
      ensures |ids| == limit && forall k :: 0 <= k < |first| ==> first[k] < i
    {
      var m :| 0 <= m < |at| && at[m] == i;
      assert forall k :: 0 <= k < n ==> first[k] == at[k] && first[k] in first;
    }
  }

  /** What a run that has looked at `scanned` has made of the table. */
  function ScannedRows(raw: Rows, scanned: set<int>, quality: int -> Quality, owner: Owner, now: int): Rows {
    map id | id in raw ::
      if id in scanned then NormalizedRow(Claimed(raw[id], owner, now), quality(id), raw[id].attempts, now) else raw[id]
  }

  function OfQuality(ids: seq<int>, quality: int -> Quality, wanted: Quality): seq<int> {
    if ids == [] then []
    else OfQuality(ids[..|ids| - 1], quality, wanted) +
         if quality(ids[|ids| - 1]) == wanted then [ids[|ids| - 1]] else []
  }

  lemma {:induction false} OfQualityConcat(a: seq<int>, b: seq<int>, quality: int -> Quality, wanted: Quality)
    ensures OfQuality(a + b, quality, wanted) == OfQuality(a, quality, wanted) + OfQuality(b, quality, wanted)
  {
    if b == [] {
      assert a + b == a;
    } else {
      assert (a + b)[..|a + b| - 1] == a + b[..|b| - 1];
      OfQualityConcat(a, b[..|b| - 1], quality, wanted);
    }
  }

  /** Everything looked at was kept, rejected or put back. */
  lemma {:induction false} QualitiesPartition(ids: seq<int>, quality: int -> Quality)
    ensures |ids| == |OfQuality(ids, quality, Good)| + |OfQuality(ids, quality, Bad)| + |OfQuality(ids, quality, Broken)|
  {
    if ids != [] { QualitiesPartition(ids[..|ids| - 1], quality); }
  }

  /** Those looked at with one verdict, and no others. */
  lemma {:induction false} OfQualityExactly(ids: seq<int>, quality: int -> Quality, wanted: Quality)
    ensures forall id :: id in OfQuality(ids, quality, wanted) <==> id in ids && quality(id) == wanted
  {
    if ids != [] {
      OfQualityExactly(ids[..|ids| - 1], quality, wanted);
      assert ids == ids[..|ids| - 1] + [ids[|ids| - 1]];
    }
  }

  function Without(ids: seq<int>, gone: set<int>): seq<int> {
    if ids == [] then []
    else Without(ids[..|ids| - 1], gone) + if ids[|ids| - 1] in gone then [] else [ids[|ids| - 1]]
  }

  /** Rows already looked at are excluded; for the others nothing has changed. */
  lemma {:induction false} NextEligible(raw: Rows, raw': Rows, processed: set<int>, scanned: set<int>, now: int, order: seq<int>)
    requires forall id :: id !in scanned ==> (id in raw <==> id in raw') && (id in raw ==> raw'[id] == raw[id])
    ensures EligibleIn(raw', processed, scanned, now, order) == Without(EligibleIn(raw, processed, {}, now, order), scanned)
  {
    if order != [] {
      NextEligible(raw, raw', processed, scanned, now, order[..|order| - 1]);
      var before := EligibleIn(raw, processed, {}, now, order[..|order| - 1]);
      assert (before + [order[|order| - 1]])[..|before|] == before;
    }
  }

  lemma {:induction false} WithoutPrefix(ids: seq<int>, n: nat)
    requires Distinct(ids) && n <= |ids|
    ensures Without(ids, Elements(ids[..n])) == ids[n..]
  {
    if n < |ids| {
      var init := ids[..|ids| - 1];
      assert init[..n] == ids[..n] && ids[|ids| - 1] !in ids[..n];
      WithoutPrefix(init, n);
    } else {
      assert ids[..n] == ids;
      WithoutAll(ids, Elements(ids));
    }
  }

  lemma {:induction false} WithoutAll(ids: seq<int>, gone: set<int>)
    requires forall id :: id in ids ==> id in gone
    ensures Without(ids, gone) == []
  {
    if ids != [] {
      var last := ids[|ids| - 1];
      assert last in ids && last in gone;
      WithoutAll(ids[..|ids| - 1], gone);
    }
  }

  lemma {:induction false} OfQualityIsShorter(ids: seq<int>, quality: int -> Quality, wanted: Quality)
    ensures |OfQuality(ids, quality, wanted)| <= |ids|
  {
    if ids != [] { OfQualityIsShorter(ids[..|ids| - 1], quality, wanted); }
  }

  /** Claiming and then normalizing a batch that was not looked at before extends what was. */
  lemma ScanMore(raw: Rows, scanned: seq<int>, batch: seq<int>, quality: int -> Quality, owner: Owner, now: int)
    requires forall id :: id in batch ==> id !in scanned && id in raw
    ensures var before := ScannedRows(raw, Elements(scanned), quality, owner, now);
            var claimed := ClaimedRows(before, Elements(batch), owner, now);
            NormalizedRows(claimed, QualityMap(batch, quality), now) == ScannedRows(raw, Elements(scanned + batch), quality, owner, now)
  {
    hide NormalizedRow;
    assert Elements(scanned + batch) == Elements(scanned) + Elements(batch);
    var before := ScannedRows(raw, Elements(scanned), quality, owner, now);
    var claimed := ClaimedRows(before, Elements(batch), owner, now);
    forall id | id in raw
      ensures NormalizedRows(claimed, QualityMap(batch, quality), now)[id] == ScannedRows(raw, Elements(scanned + batch), quality, owner, now)[id]
    {
      if id in batch {
        assert claimed[id] == Claimed(raw[id], owner, now);
      }
    }
  }

  function QualityMap(ids: seq<int>, quality: int -> Quality): map<int, Quality> {
    map id | id in ids :: quality(id)
  }

  lemma NormalizeOneMore(raw: Rows, ids: seq<int>, id: int, quality: int -> Quality, now: int)
    requires id in raw && id !in ids
    ensures NormalizedRows(raw, QualityMap(ids + [id], quality), now)
         == NormalizedRows(raw, QualityMap(ids, quality), now)[id := NormalizedRow(raw[id], quality(id), raw[id].attempts, now)]
    ensures id in NormalizedRows(raw, QualityMap(ids, quality), now)
    ensures NormalizedRows(raw, QualityMap(ids, quality), now)[id] == raw[id]
  {
    assert forall x :: x in ids + [id] <==> x in ids || x == id;
    hide NormalizedRow;
  }

  /** The next batch continues the prefix looked at. */
  lemma NextBatch(all: seq<int>, n: nat, batch: seq<int>, limit: nat)
    requires Distinct(all) && n <= |all| && batch == Taken(all[n..], limit)
    ensures Distinct(batch) && all[..n] + batch == all[..n + |batch|]
    ensures forall id :: id in batch ==> id !in all[..n] && id in all
  {
    forall id | id in batch ensures id !in all[..n] && id in all {
      var k :| 0 <= k < |batch| && batch[k] == id;
      assert batch[k] == all[n + k];
    }
  }

  lemma ClaimOneMore(raw: Rows, ids: seq<int>, id: int, owner: Owner, now: int)
    requires id in raw && id !in ids
    ensures ClaimedRows(raw, Elements(ids + [id]), owner, now) == ClaimedRows(raw, Elements(ids), owner, now)[id := Claimed(raw[id], owner, now)]
    ensures id in ClaimedRows(raw, Elements(ids), owner, now) && ClaimedRows(raw, Elements(ids), owner, now)[id] == raw[id]
  {
    assert Elements(ids + [id]) == Elements(ids) + {id};
  }

  lemma ScanNone(raw: Rows, quality: int -> Quality, owner: Owner, now: int)
    ensures ScannedRows(raw, Elements([]), quality, owner, now) == raw
    ensures OfQuality([], quality, Good) == OfQuality([], quality, Bad) == OfQuality([], quality, Broken) == []
  {}

  lemma ScannedKeepsOthers(raw: Rows, scanned: set<int>, quality: int -> Quality, owner: Owner, now: int)
    ensures ScannedRows(raw, scanned, quality, owner, now).Keys == raw.Keys
    ensures forall id :: id in raw && id !in scanned ==> ScannedRows(raw, scanned, quality, owner, now)[id] == raw[id]
  {}

  lemma ClaimedNone(raw: Rows, owner: Owner, now: int)
    ensures ClaimedRows(raw, Elements([]), owner, now) == raw
  {}

  lemma ClaimedKeepsKeys(raw: Rows, ids: set<int>, owner: Owner, now: int)
    ensures ClaimedRows(raw, ids, owner, now).Keys == raw.Keys
  {}

  lemma NormalizeNone(raw: Rows, quality: int -> Quality, now: int)
    ensures NormalizedRows(raw, QualityMap([], quality), now) == raw
  {}

  lemma QualityOneMore(ids: seq<int>, id: int, quality: int -> Quality, wanted: Quality)
    ensures OfQuality(ids + [id], quality, wanted) == OfQuality(ids, quality, wanted) + if quality(id) == wanted then [id] else []
  {
    assert (ids + [id])[..|ids|] == ids;
  }

  /** A good article keeps its row; a bad one is rejected for good; one that could not be read waits,
      longer each time. */
  ghost function Judged(row: Row, quality: Quality, now: int): Row {
    match quality
    case Good => row
    case Bad => Row(Some(QualityRejected), row.attempts, None, None, None)
    case Broken => Row(Some(NormalizationRetry), row.attempts + 1, Some(now + 60 * NormalizationDelay(row.attempts + 1)), None, None)
  }

  /** A claim marks exactly these rows as being processed and leases them for 65 minutes. */
  ghost predicate AllClaimed(before: Rows, after: Rows, ids: seq<int>, owner: Owner, now: int) {
    after.Keys == before.Keys && forall id :: id in before ==>
      after[id] == if id in ids then Row(Some(Processing), before[id].attempts, before[id].nextAttempt, Some(owner), Some(now + 3900)) else before[id]
  }

  ghost predicate AllJudged(before: Rows, after: Rows, ids: seq<int>, quality: int -> Quality, now: int) {
    after.Keys == before.Keys && forall id :: id in before ==>
      after[id] == if id in ids then Judged(before[id], quality(id), now) else before[id]
  }

  ghost predicate AllScanned(before: Rows, after: Rows, ids: seq<int>, quality: int -> Quality, owner: Owner, now: int) {
    after.Keys == before.Keys && forall id :: id in before ==>
      after[id] ==
        if id in ids
        then Judged(Row(Some(Processing), before[id].attempts, before[id].nextAttempt, Some(owner), Some(now + 3900)), quality(id), now)
        else before[id]
  }

  lemma ClaimedExactly(raw: Rows, claimed: seq<int>, owner: Owner, now: int)
    ensures AllClaimed(raw, ClaimedRows(raw, Elements(claimed), owner, now), claimed, owner, now)
  {}

  lemma NormalizedExactly(raw: Rows, batch: seq<int>, quality: int -> Quality, now: int)
    ensures AllJudged(raw, NormalizedRows(raw, QualityMap(batch, quality), now), batch, quality, now)
  {}

  lemma ScannedExactly(raw: Rows, scanned: seq<int>, quality: int -> Quality, owner: Owner, now: int)
    ensures AllScanned(raw, ScannedRows(raw, Elements(scanned), quality, owner, now), scanned, quality, owner, now)
  {}

  /** What is still eligible after looking at a prefix is the rest. */
  lemma ResumeScan(raw: Rows, processed: set<int>, quality: int -> Quality, owner: Owner, now: int, order: seq<int>, scanned: seq<int>)
    requires Distinct(order) && scanned <= EligibleIn(raw, processed, {}, now, order)
    ensures EligibleIn(ScannedRows(raw, Elements(scanned), quality, owner, now), processed, Elements(scanned), now, order)
         == EligibleIn(raw, processed, {}, now, order)[|scanned|..]
  {
    ScannedKeepsOthers(raw, Elements(scanned), quality, owner, now);
    EligibleAreDistinct(raw, processed, {}, now, order);
    hide EligibleIn, ScannedRows, Elements, Without;
    assert EligibleIn(raw, processed, {}, now, order)[..|scanned|] == scanned;
    NextEligible(raw, ScannedRows(raw, Elements(scanned), quality, owner, now), processed, Elements(scanned), now, order);
    WithoutPrefix(EligibleIn(raw, processed, {}, now, order), |scanned|);
  }

  /** A claimed batch continues what was looked at, and so does the table once it is normalized. */
  lemma ScanBatch(raw: Rows, processed: set<int>, quality: int -> Quality, owner: Owner, now: int, order: seq<int>,
                  scanned: seq<int>, batch: seq<int>, limit: nat)
    requires Distinct(order) && scanned <= EligibleIn(raw, processed, {}, now, order)
    requires batch == Taken(EligibleIn(raw, processed, {}, now, order)[|scanned|..], limit)
    ensures scanned + batch <= EligibleIn(raw, processed, {}, now, order) && Distinct(batch)
    ensures var claimed := ClaimedRows(ScannedRows(raw, Elements(scanned), quality, owner, now), Elements(batch), owner, now);
            && (forall id :: id in batch ==> id in claimed)
            && NormalizedRows(claimed, QualityMap(batch, quality), now) == ScannedRows(raw, Elements(scanned + batch), quality, owner, now)
  {
    var all := EligibleIn(raw, processed, {}, now, order);
    EligibleAreDistinct(raw, processed, {}, now, order);
    hide EligibleIn, ScannedRows, Elements, ClaimedRows, NormalizedRows, QualityMap, Distinct, Taken;
    NextBatch(all, |scanned|, batch, limit);
    assert all[..|scanned|] == scanned;
    assert forall id :: id in batch ==> id in raw;
    ScannedKeepsOthers(raw, Elements(scanned), quality, owner, now);
    ClaimedKeepsKeys(ScannedRows(raw, Elements(scanned), quality, owner, now), Elements(batch), owner, now);
    ScanMore(raw, scanned, batch, quality, owner, now);
  }

  lemma QualitiesConcat(a: seq<int>, b: seq<int>, quality: int -> Quality)
    ensures OfQuality(a + b, quality, Good) == OfQuality(a, quality, Good) + OfQuality(b, quality, Good)
    ensures |OfQuality(a + b, quality, Bad)| == |OfQuality(a, quality, Bad)| + |OfQuality(b, quality, Bad)|
    ensures |OfQuality(a + b, quality, Broken)| == |OfQuality(a, quality, Broken)| + |OfQuality(b, quality, Broken)|
    ensures |OfQuality(b, quality, Good)| <= |b|
  {
    hide OfQuality;
    OfQualityConcat(a, b, quality, Good);
    OfQualityConcat(a, b, quality, Bad);
    OfQualityConcat(a, b, quality, Broken);
    OfQualityIsShorter(b, quality, Good);
  }

  lemma PrefixInOrder(raw: Rows, processed: set<int>, exclude: set<int>, now: int, order: seq<int>, scanned: seq<int>)
    requires scanned <= EligibleIn(raw, processed, exclude, now, order)
    ensures exists at :: InOrder(raw, processed, exclude, now, order, scanned, at)
  {
    var at := EligibleInOrder(raw, processed, exclude, now, order);
    hide MayClaim, EligibleIn;
    assert InOrder(raw, processed, exclude, now, order, scanned, at[..|scanned|]);
  }

  class Worker {
    const owner: Owner
    var raw: Rows
    const processed: set<int>
    /** All raw ids, newest first. */
    const order: seq<int>

    constructor (owner: Owner, raw: Rows, processed: set<int>, order: seq<int>)
      ensures this.owner == owner && this.raw == raw && this.processed == processed && this.order == order
    {
      this.owner, this.raw, this.processed, this.order := owner, raw, processed, order;
    }

    /** Lease the newest eligible rows, up to a limit. */
    method Claim(limit: nat, exclude: set<int>, now: int) returns (claimed: seq<int>)
      requires Distinct(order)
      modifies this`raw
      ensures claimed == Taken(EligibleIn(old(raw), processed, exclude, now, order), limit)
      ensures raw == ClaimedRows(old(raw), Elements(claimed), owner, now)
      ensures FirstInOrder(old(raw), processed, exclude, now, order, limit, claimed)
      ensures AllClaimed(old(raw), raw, claimed, owner, now)
    {
      TakenIsFirst(raw, processed, exclude, now, order, limit);
      hide FirstInOrder;
      var candidates := Taken(EligibleIn(raw, processed, exclude, now, order), limit);
      EligibleAreDistinct(raw, processed, exclude, now, order);
      ClaimedNone(raw, owner, now);
      hide EligibleIn, ClaimedRows, Elements;
      claimed := [];
      var i := 0;
      while i < |candidates|
        invariant i <= |candidates| && claimed == candidates[..i]
        invariant raw == ClaimedRows(old(raw), Elements(claimed), owner, now)
      {
        var id := candidates[i];
        assert id in candidates && id !in claimed;
        assert id in EligibleIn(old(raw), processed, exclude, now, order);
        ClaimOneMore(old(raw), claimed, id, owner, now);
        if id in raw && Claimable(raw[id], now) {
          raw := raw[id := raw[id].(status := Some(Processing), owner := Some(owner), leaseExpires := Some(now + 65 * 60))];
          claimed := claimed + [id];
        } else {
          assert false;
        }
        i := i + 1;
      }
      ClaimedExactly(old(raw), claimed, owner, now);
    }

    /** Put back every row this worker still owns. */
    method ReleaseAfterFailure(now: int)
      modifies this`raw
      ensures raw == ReleasedRows(old(raw), owner, now)
      ensures raw.Keys == old(raw).Keys && forall id :: id in raw ==>
                raw[id] == if old(raw)[id].owner == Some(owner) then Row(Some(EnrichmentRetry), old(raw)[id].attempts + 1, Some(now + 60), None, None)
                           else old(raw)[id]
    {
      raw := map id | id in raw ::
        if raw[id].owner == Some(owner) then Row(Some(EnrichmentRetry), raw[id].attempts + 1, Some(now + 60), None, None) else raw[id];
      assert raw.Keys == old(raw).Keys;
      assert forall id :: id in raw ==> raw[id] == Released(old(raw[id]), owner, now);
    }

    method NormalizeArticle(id: int, quality: Quality, now: int)
      requires id in raw
      modifies this`raw
      ensures raw == old(raw)[id := NormalizedRow(old(raw)[id], quality, old(raw)[id].attempts, now)]
    {
      match quality {
        case Bad =>
          raw := raw[id := raw[id].(status := Some(QualityRejected), nextAttempt := None, owner := None, leaseExpires := None)];
        case Good =>
        case Broken =>
          var attempts := raw[id].attempts + 1;
          raw := raw[id := Row(Some(NormalizationRetry), attempts, Some(now + 60 * NormalizationDelay(attempts)), None, None)];
      }
    }

    /** Reject, put back or keep each row of a batch. */
    method NormalizeBatch(batch: seq<int>, quality: int -> Quality, now: int) returns (normalized: seq<int>, failures: nat, errors: nat)
      requires Distinct(batch) && forall id :: id in batch ==> id in raw
      modifies this`raw
      ensures raw == NormalizedRows(old(raw), QualityMap(batch, quality), now)
      ensures AllJudged(old(raw), raw, batch, quality, now)
      ensures normalized == OfQuality(batch, quality, Good)
      ensures failures == |OfQuality(batch, quality, Bad)| && errors == |OfQuality(batch, quality, Broken)|
    {
      hide NormalizedRows, NormalizedRow, QualityMap, OfQuality;
      ScanNone(raw, quality, owner, now);
      NormalizeNone(raw, quality, now);
      normalized, failures, errors := [], 0, 0;
      var i := 0;
      while i < |batch|
        invariant i <= |batch|
        invariant raw == NormalizedRows(old(raw), QualityMap(batch[..i], quality), now)
        invariant normalized == OfQuality(batch[..i], quality, Good)
        invariant failures == |OfQuality(batch[..i], quality, Bad)| && errors == |OfQuality(batch[..i], quality, Broken)|
      {
        var id := batch[i];
        assert id in batch && id !in batch[..i] && batch[..i] + [id] == batch[..i + 1];
        NormalizeOneMore(old(raw), batch[..i], id, quality, now);
        QualityOneMore(batch[..i], id, quality, Good);
        QualityOneMore(batch[..i], id, quality, Bad);
        QualityOneMore(batch[..i], id, quality, Broken);
        NormalizeArticle(id, quality(id), now);
        match quality(id) {
          case Good => normalized := normalized + [id];
          case Bad => failures := failures + 1;
          case Broken => errors := errors + 1;
        }
        i := i + 1;
      }
      assert batch[..i] == batch;
      NormalizedExactly(old(raw), batch, quality, now);
    }

    /** The claim loop: the newest eligible articles are looked at in order, until enough of them
        normalize or none are left; nothing else in the table changes. */
    method NormalizeCandidates(limit: nat, quality: int -> Quality, now: int)
      returns (scanned: seq<int>, normalized: seq<int>, failures: nat, errors: nat)
      requires Distinct(order)
      modifies this`raw
      ensures scanned <= EligibleIn(old(raw), processed, {}, now, order)
      ensures raw == ScannedRows(old(raw), Elements(scanned), quality, owner, now)
      ensures AllScanned(old(raw), raw, scanned, quality, owner, now)
      ensures exists at :: InOrder(old(raw), processed, {}, now, order, scanned, at)
      ensures normalized == OfQuality(scanned, quality, Good) && |normalized| <= limit
      ensures |normalized| == limit || scanned == EligibleIn(old(raw), processed, {}, now, order)
      ensures |scanned| == |normalized| + failures + errors
      ensures failures == |OfQuality(scanned, quality, Bad)| && errors == |OfQuality(scanned, quality, Broken)|
    {
      hide EligibleIn, ClaimedRows, NormalizedRows, QualityMap, OfQuality, ScannedRows, FirstInOrder, InOrder, AllClaimed, AllJudged, AllScanned;
      ghost var all := EligibleIn(raw, processed, {}, now, order);
      EligibleAreDistinct(raw, processed, {}, now, order);
      scanned, normalized, failures, errors := [], [], 0, 0;
      ScanNone(raw, quality, owner, now);
      while |normalized| < limit
        invariant |scanned| <= |all| && scanned == all[..|scanned|]
        invariant raw == ScannedRows(old(raw), Elements(scanned), quality, owner, now)
        invariant normalized == OfQuality(scanned, quality, Good) && |normalized| <= limit
        invariant failures == |OfQuality(scanned, quality, Bad)| && errors == |OfQuality(scanned, quality, Broken)|
        decreases |all| - |scanned|
      {
        ResumeScan(old(raw), processed, quality, owner, now, order, scanned);
        var batch := Claim(limit - |normalized|, Elements(scanned), now);
        assert batch == Taken(all[|scanned|..], limit - |normalized|);
        if batch == [] {
          ClaimedNone(ScannedRows(old(raw), Elements(scanned), quality, owner, now), owner, now);
          assert scanned == all;
          break;
        }
        ScanBatch(old(raw), processed, quality, owner, now, order, scanned, batch, limit - |normalized|);
        var more, bad, broken := NormalizeBatch(batch, quality, now);
        QualitiesConcat(scanned, batch, quality);
        scanned, normalized, failures, errors := scanned + batch, normalized + more, failures + bad, errors + broken;
      }
      QualitiesPartition(scanned, quality);
      ScannedExactly(old(raw), scanned, quality, owner, now);
      PrefixInOrder(old(raw), processed, {}, now, order, scanned);
    }
  }
}
