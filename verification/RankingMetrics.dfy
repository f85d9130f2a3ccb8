/** Normalised discounted cumulative gain over binary judgements. The discount is any positive,
    strictly decreasing weight of the rank; 1 / log2(rank + 1) is one. */
module RankingMetrics {
  import opened Sequences
  import opened Wrappers

  type Weight = int -> real

  ghost predicate Discount(w: Weight) {
    && (forall rank :: 1 <= rank ==> w(rank) > 0.0)
    && (forall a, b :: 1 <= a < b ==> w(a) > w(b))
  }

  function Top(retrieved: seq<int>, k: int): seq<int>
    requires k > 0
  {
    if k < |retrieved| then retrieved[..k] else retrieved
  }

  /** The discounted gain of a result list; rank n is the n-th result, counted from one. */
  function Gain(items: seq<int>, wanted: set<int>, w: Weight): real {
    if items == [] then 0.0
    else Gain(items[..|items| - 1], wanted, w) + Credit(items[|items| - 1], |items|, wanted, w)
  }

  function Credit(item: int, rank: int, wanted: set<int>, w: Weight): real {
    if item in wanted then w(rank) else 0.0
  }

  function Ideal(n: nat, w: Weight): real {
    if n == 0 then 0.0 else Ideal(n - 1, w) + w(n)
  }

  function Min(a: int, b: int): int {
    if a < b then a else b
  }

  /** `Err` where `ndcg_at_k` raises, for k <= 0. */
  ghost function Ndcg(retrieved: seq<int>, relevant: set<int>, k: int, w: Weight): Result<real, ()>
    requires Discount(w)
  {
    if k <= 0 then Err(())
    else if relevant == {} then Ok(if Top(retrieved, k) == [] then 1.0 else 0.0)
    else
      IdealGrows(0, Min(k, |relevant|), w);
      Ok(Gain(Top(retrieved, k), relevant, w) / Ideal(Min(k, |relevant|), w))
  }

  function Hits(items: seq<int>, wanted: set<int>): (hits: nat)
    ensures hits <= |items|
  {
    if items == [] then 0
    else Hits(items[..|items| - 1], wanted) + if items[|items| - 1] in wanted then 1 else 0
  }

  lemma {:induction false} DistinctHits(items: seq<int>, wanted: set<int>)
    requires Distinct(items)
    ensures Hits(items, wanted) <= |wanted|
  {
    if items != [] {
      var last := items[|items| - 1];
      DistinctHits(items[..|items| - 1], wanted - {last});
      HitsWithout(items[..|items| - 1], wanted, last);
    }
  }

  lemma {:induction false} HitsWithout(items: seq<int>, wanted: set<int>, x: int)
    requires x !in items
    ensures Hits(items, wanted) == Hits(items, wanted - {x})
  {
    if items != [] {
      HitsWithout(items[..|items| - 1], wanted, x);
    }
  }

  lemma {:induction false} IdealGrows(m: nat, n: nat, w: Weight)
    requires Discount(w) && m <= n
    ensures Ideal(m, w) <= Ideal(n, w)
    ensures m < n ==> Ideal(m, w) < Ideal(n, w)
  {
    if m < n {
      IdealGrows(m, n - 1, w);
    }
  }

  ghost predicate AllRelevant(items: seq<int>, n: nat, wanted: set<int>) {
    n <= |items| && forall i :: 0 <= i < n ==> items[i] in wanted
  }

  /** Among lists with the same number of hits, packing the hits first is the unique best. */
  lemma {:induction false} PackedIsBest(items: seq<int>, wanted: set<int>, w: Weight)
    requires Discount(w)
    ensures 0.0 <= Gain(items, wanted, w) <= Ideal(Hits(items, wanted), w)
    ensures Gain(items, wanted, w) == Ideal(Hits(items, wanted), w) <==>
            AllRelevant(items, Hits(items, wanted), wanted)
  {
    if items != [] {
      var init, last := items[..|items| - 1], items[|items| - 1];
      PackedIsBest(init, wanted, w);
      var hits := Hits(init, wanted);
      if last in wanted && hits < |init| {
        assert w(|items|) < w(hits + 1);
        NotPacked(items, wanted);
        hide AllRelevant;
      }
    }
  }

  /** A hit after a miss is not packed. */
  lemma NotPacked(items: seq<int>, wanted: set<int>)
    requires items != [] && Hits(items[..|items| - 1], wanted) < |items| - 1
    ensures !AllRelevant(items, Hits(items[..|items| - 1], wanted) + 1, wanted)
  {
    var init := items[..|items| - 1];
    var n := Hits(init, wanted) + 1;
    assert AllRelevant(items, n, wanted) ==> AllRelevant(init, n, wanted);
    TooManyRelevant(init, n, wanted);
  }

  lemma {:induction false} TooManyRelevant(items: seq<int>, n: nat, wanted: set<int>)
    ensures AllRelevant(items, n, wanted) ==> n <= Hits(items, wanted)
  {
    if AllRelevant(items, n, wanted) && n > 0 {
      if n == |items| {
        AllRelevantCounts(items, wanted);
      } else {
        TooManyRelevant(items[..|items| - 1], n, wanted);
      }
    }
  }

  lemma {:induction false} AllRelevantCounts(items: seq<int>, wanted: set<int>)
    requires AllRelevant(items, |items|, wanted)
    ensures Hits(items, wanted) == |items|
  {
    if items != [] {
      AllRelevantCounts(items[..|items| - 1], wanted);
    }
  }

  /** Where the first k results hold no more hits than there are relevant documents, the score lies in
      [0, 1], and it is 1 exactly when the first min(k, number relevant) results are all relevant. */
  lemma NdcgBounds(retrieved: seq<int>, relevant: set<int>, k: int, w: Weight)
    requires Discount(w) && relevant != {} && k > 0 && Hits(Top(retrieved, k), relevant) <= |relevant|
    ensures Ndcg(retrieved, relevant, k, w).Ok?
    ensures 0.0 <= Ndcg(retrieved, relevant, k, w).value <= 1.0
    ensures Ndcg(retrieved, relevant, k, w).value == 1.0 <==>
            AllRelevant(retrieved, Min(k, |relevant|), relevant)
  {
    var top := Top(retrieved, k);
    var hits, best := Hits(top, relevant), Min(k, |relevant|);
    PackedIsBest(top, relevant, w);
    IdealGrows(hits, best, w);
    IdealGrows(0, best, w);
    TooManyRelevant(top, best, relevant);
    assert AllRelevant(retrieved, best, relevant) <==> AllRelevant(top, best, relevant);
    RatioOfGains(Gain(top, relevant, w), Ideal(best, w));
  }

  /** Distinct results meet the condition. */
  lemma DistinctResultsAreBounded(retrieved: seq<int>, relevant: set<int>, k: int)
    requires Distinct(retrieved) && k > 0
    ensures Hits(Top(retrieved, k), relevant) <= |relevant|
  {
    DistinctHits(Top(retrieved, k), relevant);
  }

  /** A discount that hardly falls. */
  function Flat(m: nat): Weight {
    (rank: int) => if rank < 1 then 2.0 else 1.0 + 1.0 / ((m + 1) as real * rank as real)
  }

  lemma Reciprocals(c: real, a: real, b: real)
    requires c > 0.0 && 0.0 < a < b
    ensures 0.0 < 1.0 / (c * b) < 1.0 / (c * a)
  {
    var x, y := c * a, c * b;
    assert 0.0 < x < y;
    assert 1.0 / x * x == 1.0 && 1.0 / y * y == 1.0;
  }

  lemma FlatFalls(m: nat, a: int, b: int)
    requires 1 <= a < b
    ensures 0.0 < Flat(m)(b) < Flat(m)(a)
  {
    Reciprocals((m + 1) as real, a as real, b as real);
  }

  lemma FlatIsDiscount(m: nat)
    ensures Discount(Flat(m))
  {
    hide Flat;
    forall rank: int | 1 <= rank ensures Flat(m)(rank) > 0.0 {
      FlatFalls(m, rank, rank + 1);
    }
    forall a: int, b: int | 1 <= a < b ensures 0.0 < Flat(m)(b) < Flat(m)(a) {
      FlatFalls(m, a, b);
    }
  }

  lemma FlatIsLow(m: nat, rank: int)
    requires 1 <= rank
    ensures 1.0 < Flat(m)(rank) <= 1.0 + 1.0 / (m + 1) as real
  {
    var c := (m + 1) as real;
    assert c * 1.0 == c;
    if rank > 1 { Reciprocals(c, 1.0, rank as real); }
  }

  lemma {:induction false} GainIsAtLeastHits(items: seq<int>, wanted: set<int>, w: Weight)
    requires forall rank :: 1 <= rank ==> w(rank) > 1.0
    ensures Gain(items, wanted, w) >= Hits(items, wanted) as real
  {
    if items != [] {
      GainIsAtLeastHits(items[..|items| - 1], wanted, w);
    }
  }

  lemma {:induction false} IdealIsAtMost(n: nat, w: Weight, top: real)
    requires forall rank :: 1 <= rank ==> w(rank) <= top
    ensures Ideal(n, w) <= n as real * top
  {
    if n > 0 {
      IdealIsAtMost(n - 1, w, top);
      assert n as real * top == (n - 1) as real * top + top;
    }
  }

  lemma FlatIdealIsBelow(n: nat, m: nat)
    requires n <= m
    ensures Ideal(n, Flat(m)) < (m + 1) as real
  {
    var c := (m + 1) as real;
    forall rank | 1 <= rank ensures Flat(m)(rank) <= 1.0 + 1.0 / c { FlatIsLow(m, rank); }
    hide Flat, Ideal;
    IdealIsAtMost(n, Flat(m), 1.0 + 1.0 / c);
    OneShortOf(n as real, c);
  }

  lemma Inverse(c: real)
    requires c > 0.0
    ensures c * (1.0 / c) == 1.0 && 1.0 / c > 0.0
  {}

  lemma OneShortOf(n: real, c: real)
    requires n <= c - 1.0 && c > 0.0
    ensures n * (1.0 + 1.0 / c) < c
  {
    Inverse(c);
    Shortfall(n, c, 1.0 / c);
  }

  lemma Shortfall(n: real, c: real, d: real)
    requires n <= c - 1.0 && d > 0.0 && c * d == 1.0
    ensures n * (1.0 + d) < c
  {
    var short := c - 1.0 - n;
    assert short * d >= 0.0;
    assert n * d == c * d - d - short * d;
    assert n * (1.0 + d) == n + n * d;
  }

  /** More hits than relevant documents pass 1 under some discount. */
  lemma FlatBreaksTheBound(retrieved: seq<int>, relevant: set<int>, k: int)
    requires relevant != {} && k > 0 && Hits(Top(retrieved, k), relevant) > |relevant|
    ensures Discount(Flat(|relevant|))
    ensures Ndcg(retrieved, relevant, k, Flat(|relevant|)).Ok? && Ndcg(retrieved, relevant, k, Flat(|relevant|)).value > 1.0
  {
    var m, w := |relevant|, Flat(|relevant|);
    FlatIsDiscount(m);
    forall rank | 1 <= rank ensures w(rank) > 1.0 { FlatIsLow(m, rank); }
    var top, best := Top(retrieved, k), Min(k, m);
    GainIsAtLeastHits(top, relevant, w);
    FlatIdealIsBelow(best, m);
    IdealGrows(0, best, w);
    DivisionIsMonotone(Ideal(best, w), Gain(top, relevant, w), Ideal(best, w));
    assert Ideal(best, w) / Ideal(best, w) == 1.0;
  }

  /** The score stays within 1 whatever the discount, if and only if the first k results hold no more
      hits, repeats included, than there are relevant documents. */
  lemma BoundIsExact(retrieved: seq<int>, relevant: set<int>, k: int)
    requires relevant != {} && k > 0
    ensures (forall w: Weight :: Discount(w) ==> Ndcg(retrieved, relevant, k, w).Ok? && Ndcg(retrieved, relevant, k, w).value <= 1.0)
       <==> Hits(Top(retrieved, k), relevant) <= |relevant|
  {
    if Hits(Top(retrieved, k), relevant) <= |relevant| {
      forall w: Weight | Discount(w) ensures Ndcg(retrieved, relevant, k, w).Ok? && Ndcg(retrieved, relevant, k, w).value <= 1.0 {
        NdcgBounds(retrieved, relevant, k, w);
      }
    } else {
      FlatBreaksTheBound(retrieved, relevant, k);
    }
  }

  lemma RatioOfGains(gain: real, ideal: real)
    requires 0.0 <= gain <= ideal && ideal > 0.0
    ensures 0.0 <= gain / ideal <= 1.0
    ensures gain / ideal == 1.0 <==> gain == ideal
  {
    DivisionIsMonotone(0.0, gain, ideal);
    DivisionIsMonotone(gain, ideal, ideal);
  }

  lemma GainOfRepeat(item: int, w: Weight)
    ensures Gain([item, item], {item}, w) == w(1) + w(2) && Ideal(1, w) == w(1)
  {
    assert [item, item][..1] == [item];
    assert Gain([item], {item}, w) == Gain([item][..0], {item}, w) + w(1) == w(1);
    assert Gain([item, item], {item}, w) == Gain([item], {item}, w) + w(2);
    assert Ideal(1, w) == Ideal(0, w) + w(1);
  }

  /** The simplest such list, the only relevant document returned twice, passes 1 under every discount. */
  lemma DuplicatesBreakTheBound(item: int, w: Weight)
    requires Discount(w)
    ensures Ndcg([item, item], {item}, 2, w).Ok? && Ndcg([item, item], {item}, 2, w).value > 1.0
  {
    GainOfRepeat(item, w);
    var gain, ideal := w(1) + w(2), w(1);
    assert Ndcg([item, item], {item}, 2, w) == Ok(gain / ideal);
    DivisionIsMonotone(ideal, gain, ideal);
    assert ideal / ideal == 1.0;
  }

  lemma {:induction false} GainReplaced(items: seq<int>, i: nat, x: int, wanted: set<int>, w: Weight)
    requires i < |items|
    ensures Gain(items[i := x], wanted, w)
         == Gain(items, wanted, w) + Credit(x, i + 1, wanted, w) - Credit(items[i], i + 1, wanted, w)
  {
    var n := |items| - 1;
    if i == n {
      assert items[i := x][..n] == items[..n];
    } else {
      assert items[i := x][..n] == items[..n][i := x];
      GainReplaced(items[..n], i, x, wanted, w);
    }
  }

  /** The first n values of a function of the rank, added up. */
  ghost function Sum(n: nat, value: int -> real): real {
    if n == 0 then 0.0 else Sum(n - 1, value) + value(n)
  }

  lemma {:induction false} GainIsSum(items: seq<int>, wanted: set<int>, w: Weight, all: seq<int>)
    requires items <= all
    ensures Gain(items, wanted, w) == Sum(|items|, rank => if 1 <= rank <= |all| && all[rank - 1] in wanted then w(rank) else 0.0)
  {
    if items != [] {
      GainIsSum(items[..|items| - 1], wanted, w, all);
      assert items[|items| - 1] == all[|items| - 1];
    }
  }

  lemma {:induction false} IdealIsSum(n: nat, w: Weight)
    ensures Ideal(n, w) == Sum(n, w)
  {
    if n > 0 { IdealIsSum(n - 1, w); }
  }

  /** The score: an error for no cut-off; with nothing relevant 1 for returning nothing and 0 for
      anything; otherwise the weights of the ranks within the cut-off that hold a relevant result,
      added up, over those of as many of the first ranks as could. */
  lemma NdcgExactly(retrieved: seq<int>, relevant: set<int>, k: int, w: Weight)
    requires Discount(w)
    ensures k <= 0 ==> Ndcg(retrieved, relevant, k, w).Err?
    ensures k > 0 && relevant == {} ==> Ndcg(retrieved, relevant, k, w) == Ok(if retrieved == [] then 1.0 else 0.0)
    ensures k > 0 && relevant != {} ==>
              var returned := if k < |retrieved| then k else |retrieved|;
              var possible := if k < |relevant| then k else |relevant|;
              && Sum(possible, w) > 0.0
              && Ndcg(retrieved, relevant, k, w) ==
                   Ok(Sum(returned, rank => if 1 <= rank <= |retrieved| && retrieved[rank - 1] in relevant then w(rank) else 0.0) / Sum(possible, w))
  {
    if k > 0 && relevant != {} {
      GainIsSum(Top(retrieved, k), relevant, w, retrieved);
      IdealIsSum(Min(k, |relevant|), w);
      IdealGrows(0, Min(k, |relevant|), w);
    }
  }

  /** Exchanging an irrelevant result with a relevant one ranked below it never lowers the
      score, and raises it exactly when the better of the two ranks is inside the cut-off. */
  lemma PromotionNeverHurts(retrieved: seq<int>, relevant: set<int>, k: int, i: nat, j: nat, w: Weight)
    requires Discount(w) && k > 0 && i < j < |retrieved|
    requires retrieved[i] !in relevant && retrieved[j] in relevant
    ensures var promoted := retrieved[i := retrieved[j]][j := retrieved[i]];
            && Ndcg(retrieved, relevant, k, w).Ok? && Ndcg(promoted, relevant, k, w).Ok?
            && Ndcg(retrieved, relevant, k, w).value <= Ndcg(promoted, relevant, k, w).value
            && (Ndcg(retrieved, relevant, k, w).value < Ndcg(promoted, relevant, k, w).value <==> i < k)
  {
    var promoted := retrieved[i := retrieved[j]][j := retrieved[i]];
    var top, top' := Top(retrieved, k), Top(promoted, k);
    var ideal := Ideal(Min(k, |relevant|), w);
    IdealGrows(0, Min(k, |relevant|), w);
    if j < k {
      assert top' == top[i := retrieved[j]][j := retrieved[i]];
      GainReplaced(top, i, retrieved[j], relevant, w);
      GainReplaced(top[i := retrieved[j]], j, retrieved[i], relevant, w);
    } else if i < k {
      assert top' == top[i := retrieved[j]];
      GainReplaced(top, i, retrieved[j], relevant, w);
    } else {
      assert top' == top;
    }
    DivisionIsMonotone(Gain(top, relevant, w), Gain(top', relevant, w), ideal);
  }

  lemma DivisionIsMonotone(a: real, b: real, d: real)
    requires d > 0.0
    ensures a <= b <==> a / d <= b / d
    ensures a < b <==> a / d < b / d
  {
    assert a / d * d == a && b / d * d == b;
    var x, y := a / d, b / d;
    if x <= y { assert x * d <= y * d; }
    if x < y { assert x * d < y * d; }
    if y <= x { assert y * d <= x * d; }
  }
}
