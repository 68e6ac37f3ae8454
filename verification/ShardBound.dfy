/** How well longest-first packing balances: Graham's bound for the scheduler of scripts/ci-race.py.
    The heaviest shard is within a factor 4/3 - 1/(3 count) of the heaviest shard of any
    other way to distribute the same tests. */
module ShardBound {
  import opened Sorting
  import opened Shards

  /** n * x as repeated addition, which keeps the reasoning about loads linear. */
  ghost function Times(n: nat, x: real): real {
    if n == 0 then 0.0 else x + Times(n - 1, x)
  }

  lemma {:induction false} TimesIsProduct(n: nat, x: real)
    ensures Times(n, x) == n as real * x
  {
    if n == 0 {
    } else {
      TimesIsProduct(n - 1, x);
      assert n as real * x == (n - 1) as real * x + x;
    }
  }

  /** Sum of a value over a list of names. */
  ghost function Total(s: seq<string>, value: string -> real): real {
    if s == [] then 0.0 else value(s[0]) + Total(s[1..], value)
  }

  ghost function Grand(shards: seq<seq<string>>, value: string -> real): real {
    if shards == [] then 0.0 else Total(shards[0], value) + Grand(shards[1..], value)
  }

  lemma {:induction false} TotalConcat(a: seq<string>, b: seq<string>, value: string -> real)
    ensures Total(a + b, value) == Total(a, value) + Total(b, value)
  {
    if a == [] {
      assert a + b == b;
    } else {
      TotalConcat(a[1..], b, value);
      assert (a + b)[1..] == a[1..] + b;
    }
  }

  lemma TotalAppend(s: seq<string>, x: string, value: string -> real)
    ensures Total(s + [x], value) == Total(s, value) + value(x)
  {
    TotalConcat(s, [x], value);
    assert [x][1..] == [];
  }

  lemma {:induction false} TotalRearranged(a: seq<string>, b: seq<string>, value: string -> real)
    requires multiset(a) == multiset(b)
    ensures Total(a, value) == Total(b, value)
  {
    SameElements(a, b);
    if a == [] {
    } else {
      assert a[0] in a && a[0] in b;
      var k :| 0 <= k < |b| && b[k] == a[0];
      var rest := b[..k] + b[k + 1..];
      assert a == [a[0]] + a[1..];
      assert b == b[..k] + ([b[k]] + b[k + 1..]);
      assert multiset(rest) == multiset(b) - multiset{a[0]};
      TotalRearranged(a[1..], rest, value);
      TotalConcat(b[..k], b[k + 1..], value);
      TotalConcat(b[..k], [b[k]] + b[k + 1..], value);
    }
  }

  lemma {:induction false} GrandIsTotal(shards: seq<seq<string>>, value: string -> real)
    ensures Grand(shards, value) == Total(Flatten(shards), value)
  {
    if shards == [] {
    } else {
      GrandIsTotal(shards[1..], value);
      TotalConcat(shards[0], Flatten(shards[1..]), value);
    }
  }

  /** Two distributions of the same names carry the same grand total of anything. */
  lemma GrandConserved(shards: seq<seq<string>>, names: seq<string>, value: string -> real)
    requires multiset(Flatten(shards)) == multiset(names)
    ensures Grand(shards, value) == Total(names, value)
  {
    GrandIsTotal(shards, value);
    TotalRearranged(Flatten(shards), names, value);
  }

  lemma {:induction false} GrandAtMost(shards: seq<seq<string>>, value: string -> real, bound: real)
    requires forall i :: 0 <= i < |shards| ==> Total(shards[i], value) <= bound
    ensures Grand(shards, value) <= Times(|shards|, bound)
  {
    if shards == [] {
    } else {
      forall i | 0 <= i < |shards[1..]| ensures Total(shards[1..][i], value) <= bound {
        assert shards[1..][i] == shards[i + 1];
      }
      GrandAtMost(shards[1..], value, bound);
    }
  }

  lemma {:induction false} GrandAtLeast(shards: seq<seq<string>>, value: string -> real, bound: real)
    requires forall i :: 0 <= i < |shards| ==> Total(shards[i], value) >= bound
    ensures Grand(shards, value) >= Times(|shards|, bound)
  {
    if shards == [] {
    } else {
      forall i | 0 <= i < |shards[1..]| ensures Total(shards[1..][i], value) >= bound {
        assert shards[1..][i] == shards[i + 1];
      }
      GrandAtLeast(shards[1..], value, bound);
    }
  }

  ghost predicate NonIncreasing(order: seq<string>, weights: Weights) {
    forall i, j :: 0 <= i < j < |order| ==> Weight(weights, order[i]) >= Weight(weights, order[j])
  }

  /** The timing of a test, and one second where there is none. */
  ghost function Load(weights: Weights): string -> real {
    name => if name in weights then weights[name] else 1.0
  }

  lemma {:induction false} LoadNonNegative(s: seq<string>, weights: Weights, x: string)
    requires Positive(weights)
    ensures Total(s, Load(weights)) >= 0.0
    ensures x in s ==> Total(s, Load(weights)) >= Weight(weights, x)
  {
    if s == [] {
    } else {
      LoadNonNegative(s[1..], weights, x);
    }
  }

  ghost predicate Accounted(p: Packing, weights: Weights) {
    && |p.totals| == |p.shards|
    && forall i :: 0 <= i < |p.shards| ==> p.totals[i] == Total(p.shards[i], Load(weights))
  }

  /** The scheduler's running totals are the loads of its shards. */
  lemma {:induction false} PackTotals(order: seq<string>, k: nat, count: nat, weights: Weights)
    requires count >= 1 && k <= |order|
    ensures Accounted(Pack(order, k, count, weights), weights)
  {
    if k == 0 {
    } else {
      PackTotals(order, k - 1, count, weights);
      var p := Pack(order, k - 1, count, weights);
      TotalAppend(p.shards[Lightest(p.totals)], order[k - 1], Load(weights));
      assert Load(weights)(order[k - 1]) == Weight(weights, order[k - 1]);
    }
  }

  /** A distribution of `names` over `count` shards, good or bad. */
  ghost predicate Distribution(names: seq<string>, shards: seq<seq<string>>, count: nat) {
    |shards| == count && multiset(Flatten(shards)) == multiset(names)
  }

  ghost function Heaviest(shards: seq<seq<string>>, weights: Weights): (r: real)
    requires shards != []
    ensures forall i :: 0 <= i < |shards| ==> Total(shards[i], Load(weights)) <= r
    ensures exists i :: 0 <= i < |shards| && Total(shards[i], Load(weights)) == r
  {
    var first := Total(shards[0], Load(weights));
    if |shards| == 1 then first
    else
      var rest := Heaviest(shards[1..], weights);
      assert forall i :: 1 <= i < |shards| ==> shards[i] == shards[1..][i - 1];
      if first >= rest then
        first
      else
        var k :| 0 <= k < |shards| - 1 && Total(shards[1..][k], Load(weights)) == rest;
        assert Total(shards[k + 1], Load(weights)) == rest;
        rest
  }

  // ----- Short tests: the lightest shard is below average -----

  lemma LightestBelowAverage(p: Packing, weights: Weights)
    requires p.totals != [] && Accounted(p, weights)
    ensures Times(|p.shards|, p.totals[Lightest(p.totals)]) <= Grand(p.shards, Load(weights))
  {
    GrandAtLeast(p.shards, Load(weights), p.totals[Lightest(p.totals)]);
  }

  lemma TotalSplit(s: seq<string>, k: nat, value: string -> real)
    requires k < |s|
    ensures Total(s, value) == Total(s[..k], value) + value(s[k]) + Total(s[k + 1..], value)
  {
    hide Total;
    assert s == (s[..k] + [s[k]]) + s[k + 1..];
    TotalConcat(s[..k] + [s[k]], s[k + 1..], value);
    TotalAppend(s[..k], s[k], value);
  }

  /** Placing the k-th test leaves its shard no heavier than the average plus its own share. */
  lemma PlacedOnAverage(order: seq<string>, k: nat, count: nat, weights: Weights)
    requires count >= 1 && k < |order| && Positive(weights)
    ensures var p := Pack(order, k, count, weights);
            Times(count, p.totals[Lightest(p.totals)]) + Weight(weights, order[k]) <= Total(order, Load(weights))
  {
    var p := Pack(order, k, count, weights);
    PackTotals(order, k, count, weights);
    LightestBelowAverage(p, weights);
    PackRearranges(order, k, count, weights);
    GrandConserved(p.shards, order[..k], Load(weights));
    TotalSplit(order, k, Load(weights));
    LoadNonNegative(order[k + 1..], weights, "");
  }

  // ----- Long tests: counting those that cannot share a shard -----

  ghost function Elements(s: seq<string>): set<string> {
    set x | x in s
  }

  /** Points for a test among the first ones: two if it cannot share a shard with another test of
      weight `p` under the ceiling, one if it can; later tests score nothing. */
  ghost function Score(first: set<string>, weights: Weights, p: real, ceiling: real): string -> real {
    name => if name !in first then 0.0 else if Weight(weights, name) + p > ceiling then 2.0 else 1.0
  }

  /** A shard under the ceiling scores at most two when every scoring test exceeds a third of it. */
  lemma {:induction false} ScoreAtMostTwo(s: seq<string>, first: set<string>, weights: Weights, p: real, ceiling: real)
    requires Positive(weights) && 3.0 * p > ceiling
    requires forall x :: x in first ==> Weight(weights, x) >= p
    ensures var score, load := Total(s, Score(first, weights, p, ceiling)), Total(s, Load(weights));
            && (score == 0.0 || score >= 1.0) && (score >= 1.0 ==> load >= p) && load >= 0.0
            && (score > 1.0 ==> score >= 2.0 && load > ceiling - p) && (score > 2.0 ==> load > ceiling)
  {
    if s == [] {
    } else {
      ScoreAtMostTwo(s[1..], first, weights, p, ceiling);
    }
  }

  lemma {:induction false} ScoreEach(s: seq<string>, first: set<string>, weights: Weights, p: real, ceiling: real)
    requires forall x :: x in s ==> x in first
    ensures Total(s, Score(first, weights, p, ceiling)) >= |s| as real
  {
    if s == [] {
    } else {
      ScoreEach(s[1..], first, weights, p, ceiling);
    }
  }

  /** A shard the next test would overload scores at least two. */
  lemma ScoreAtLeastTwo(s: seq<string>, first: set<string>, weights: Weights, p: real, ceiling: real)
    requires forall x :: x in s ==> x in first
    requires p <= ceiling < Total(s, Load(weights)) + p
    ensures Total(s, Score(first, weights, p, ceiling)) >= 2.0
  {
    ScoreEach(s, first, weights, p, ceiling);
    if |s| == 1 {
      assert s[0] in first;
      assert s[1..] == [];
    }
  }

  lemma {:induction false} ScoreNothing(s: seq<string>, first: set<string>, weights: Weights, p: real, ceiling: real)
    requires forall x :: x in s ==> x !in first
    ensures Total(s, Score(first, weights, p, ceiling)) == 0.0
  {
    if s == [] {
    } else {
      ScoreNothing(s[1..], first, weights, p, ceiling);
    }
  }

  lemma ScoreOfOrder(order: seq<string>, k: nat, weights: Weights, p: real, ceiling: real)
    requires Distinct(order) && k < |order|
    ensures var score := Score(Elements(order[..k + 1]), weights, p, ceiling);
            Total(order, score) >= Total(order[..k], score) + 1.0
  {
    var first := Elements(order[..k + 1]);
    var score := Score(first, weights, p, ceiling);
    TotalSplit(order, k, score);
    forall x | x in order[k + 1..] ensures x !in first {
      var j :| k + 1 <= j < |order| && order[j] == x;
    }
    ScoreNothing(order[k + 1..], first, weights, p, ceiling);
    assert order[k] == order[..k + 1][k];
    assert order[k] in first;
  }

  lemma MemberLoad(names: seq<string>, shards: seq<seq<string>>, weights: Weights, ceiling: real, x: string)
    requires Positive(weights) && x in names && multiset(Flatten(shards)) == multiset(names)
    requires forall i :: 0 <= i < |shards| ==> Total(shards[i], Load(weights)) <= ceiling
    ensures Weight(weights, x) <= ceiling
  {
    SameElements(names, Flatten(shards));
    FlattenMember(shards, x);
    var i :| 0 <= i < |shards| && x in shards[i];
    LoadNonNegative(shards[i], weights, x);
  }

  /** When the k-th test overloads even the lightest shard, every shard already scores two. */
  lemma GreedyScore(order: seq<string>, k: nat, count: nat, weights: Weights, ceiling: real)
    requires count >= 1 && k < |order| && Weight(weights, order[k]) <= ceiling
    requires var p := Pack(order, k, count, weights);
             p.totals[Lightest(p.totals)] + Weight(weights, order[k]) > ceiling
    ensures var score := Score(Elements(order[..k + 1]), weights, Weight(weights, order[k]), ceiling);
            Total(order[..k], score) >= Times(count, 2.0)
  {
    var p := Pack(order, k, count, weights);
    var first, w := Elements(order[..k + 1]), Weight(weights, order[k]);
    var score := Score(first, weights, w, ceiling);
    PackTotals(order, k, count, weights);
    PackRearranges(order, k, count, weights);
    SameElements(Flatten(p.shards), order[..k]);
    assert order[..k] == order[..k + 1][..k];
    forall i | 0 <= i < |p.shards| ensures Total(p.shards[i], score) >= 2.0 {
      forall x | x in p.shards[i] ensures x in first {
        FlattenMember(p.shards, x);
      }
      ScoreAtLeastTwo(p.shards[i], first, weights, w, ceiling);
    }
    GrandAtLeast(p.shards, score, 2.0);
    GrandConserved(p.shards, order[..k], score);
  }

  /** A distribution under the ceiling scores at most two per shard. */
  lemma OtherScore(order: seq<string>, k: nat, count: nat, weights: Weights, other: seq<seq<string>>, ceiling: real)
    requires k < |order| && Positive(weights) && Distribution(order, other, count)
    requires forall i :: 0 <= i < k ==> Weight(weights, order[i]) >= Weight(weights, order[k])
    requires forall i :: 0 <= i < count ==> Total(other[i], Load(weights)) <= ceiling
    requires 3.0 * Weight(weights, order[k]) > ceiling
    ensures var score := Score(Elements(order[..k + 1]), weights, Weight(weights, order[k]), ceiling);
            Total(order, score) <= Times(count, 2.0)
  {
    var first, w := Elements(order[..k + 1]), Weight(weights, order[k]);
    var score := Score(first, weights, w, ceiling);
    forall i | 0 <= i < |other| ensures Total(other[i], score) <= 2.0 {
      ScoreAtMostTwo(other[i], first, weights, w, ceiling);
    }
    GrandAtMost(other, score, 2.0);
    GrandConserved(other, order, score);
  }

  /** If the k-th test exceeds a third of a ceiling some distribution respects, greedy respects it too. */
  lemma LongTestFits(order: seq<string>, k: nat, count: nat, weights: Weights, other: seq<seq<string>>, ceiling: real)
    requires count >= 1 && k < |order| && Positive(weights) && Distinct(order)
    requires forall i :: 0 <= i < k ==> Weight(weights, order[i]) >= Weight(weights, order[k])
    requires Distribution(order, other, count)
    requires forall i :: 0 <= i < count ==> Total(other[i], Load(weights)) <= ceiling
    requires 3.0 * Weight(weights, order[k]) > ceiling
    ensures var p := Pack(order, k, count, weights);
            p.totals[Lightest(p.totals)] + Weight(weights, order[k]) <= ceiling
  {
    var p := Pack(order, k, count, weights);
    var w := Weight(weights, order[k]);
    if p.totals[Lightest(p.totals)] + w > ceiling {
      MemberLoad(order, other, weights, ceiling, order[k]);
      GreedyScore(order, k, count, weights, ceiling);
      OtherScore(order, k, count, weights, other, ceiling);
      ScoreOfOrder(order, k, weights, w, ceiling);
      assert false;
    }
  }

  // ----- The bound -----

  /** The load is at most (4/3 - 1/(3 count)) times the ceiling. */
  ghost predicate Within(count: nat, load: real, ceiling: real) {
    3.0 * count as real * load <= (4.0 * count as real - 1.0) * ceiling
  }

  lemma ShortFits(count: nat, lightest: real, w: real, total: real, ceiling: real)
    requires count >= 1
    requires Times(count, lightest) + w <= total <= Times(count, ceiling)
    requires 3.0 * w <= ceiling
    ensures Within(count, lightest + w, ceiling)
  {
    var m := count as real;
    TimesIsProduct(count, lightest);
    TimesIsProduct(count, ceiling);
    assert 3.0 * m * (lightest + w) == 3.0 * (m * lightest + w) + 3.0 * (m - 1.0) * w;
    assert (m - 1.0) * (3.0 * w) <= (m - 1.0) * ceiling;
    assert 3.0 * (m - 1.0) * w == (m - 1.0) * (3.0 * w);
    assert (4.0 * m - 1.0) * ceiling == 3.0 * (m * ceiling) + (m - 1.0) * ceiling;
  }

  lemma LongFits(count: nat, load: real, ceiling: real)
    requires count >= 1 && load <= ceiling && ceiling >= 0.0
    ensures Within(count, load, ceiling)
  {
    var m := count as real;
    assert 3.0 * m * load <= 3.0 * m * ceiling;
    assert (4.0 * m - 1.0) * ceiling == 3.0 * m * ceiling + (m - 1.0) * ceiling;
    assert (m - 1.0) * ceiling >= 0.0;
  }

  /** Some distribution of the order stays under the ceiling. */
  ghost predicate Under(order: seq<string>, other: seq<seq<string>>, count: nat, weights: Weights, ceiling: real) {
    Distribution(order, other, count) && forall i :: 0 <= i < count ==> Total(other[i], Load(weights)) <= ceiling
  }

  /** The load of the shard that takes the k-th test, afterwards. */
  ghost function PlacedLoad(order: seq<string>, k: nat, count: nat, weights: Weights): real
    requires count >= 1 && k < |order|
  {
    var p := Pack(order, k, count, weights);
    p.totals[Lightest(p.totals)] + Weight(weights, order[k])
  }

  lemma PlaceLong(order: seq<string>, k: nat, count: nat, weights: Weights, other: seq<seq<string>>, ceiling: real)
    requires count >= 1 && k < |order| && Positive(weights) && Distinct(order) && ceiling >= 0.0
    requires forall i :: 0 <= i < k ==> Weight(weights, order[i]) >= Weight(weights, order[k])
    requires Under(order, other, count, weights, ceiling) && 3.0 * Weight(weights, order[k]) > ceiling
    ensures Within(count, PlacedLoad(order, k, count, weights), ceiling)
  {
    hide Within, Pack, Lightest;
    LongTestFits(order, k, count, weights, other, ceiling);
    LongFits(count, PlacedLoad(order, k, count, weights), ceiling);
  }

  lemma PlaceShort(order: seq<string>, k: nat, count: nat, weights: Weights, other: seq<seq<string>>, ceiling: real)
    requires count >= 1 && k < |order| && Positive(weights)
    requires Under(order, other, count, weights, ceiling) && 3.0 * Weight(weights, order[k]) <= ceiling
    ensures Within(count, PlacedLoad(order, k, count, weights), ceiling)
  {
    hide Within, Times, Pack, Lightest, Positive;
    var p := Pack(order, k, count, weights);
    PlacedOnAverage(order, k, count, weights);
    GrandAtMost(other, Load(weights), ceiling);
    GrandConserved(other, order, Load(weights));
    ShortFits(count, p.totals[Lightest(p.totals)], Weight(weights, order[k]), Total(order, Load(weights)), ceiling);
  }

  /** Both cases of one placement. */
  lemma PlacementBound(order: seq<string>, k: nat, count: nat, weights: Weights, other: seq<seq<string>>, ceiling: real)
    requires count >= 1 && k < |order| && Positive(weights) && Distinct(order) && ceiling >= 0.0
    requires NonIncreasing(order, weights) && Under(order, other, count, weights, ceiling)
    ensures Within(count, PlacedLoad(order, k, count, weights), ceiling)
  {
    hide Within, Under, PlacedLoad, Positive, Distinct;
    if 3.0 * Weight(weights, order[k]) > ceiling {
      PlaceLong(order, k, count, weights, other, ceiling);
    } else {
      PlaceShort(order, k, count, weights, other, ceiling);
    }
  }

  lemma LoadAfter(order: seq<string>, k: nat, count: nat, weights: Weights, i: nat)
    requires i < count && k < |order|
    ensures Pack(order, k + 1, count, weights).totals[i] ==
              if i == Lightest(Pack(order, k, count, weights).totals) then PlacedLoad(order, k, count, weights)
              else Pack(order, k, count, weights).totals[i]
  {
    PackNext(order, k, count, weights);
  }

  lemma LoadBefore(order: seq<string>, count: nat, weights: Weights, i: nat)
    requires i < count
    ensures Pack(order, 0, count, weights).totals[i] == 0.0
  {
  }

  lemma {:induction false} PrefixBound(order: seq<string>, k: nat, count: nat, weights: Weights,
                                       other: seq<seq<string>>, ceiling: real, i: nat)
    requires i < count && k <= |order| && Positive(weights) && Distinct(order) && ceiling >= 0.0
    requires NonIncreasing(order, weights) && Under(order, other, count, weights, ceiling)
    ensures Within(count, Pack(order, k, count, weights).totals[i], ceiling)
  {
    hide Within, Under, PlacedLoad, Positive, Distinct, NonIncreasing, Pack, Lightest;
    if k == 0 {
      LoadBefore(order, count, weights, i);
      LongFits(count, 0.0, ceiling);
    } else {
      LoadAfter(order, k - 1, count, weights, i);
      PlacementBound(order, k - 1, count, weights, other, ceiling);
      PrefixBound(order, k - 1, count, weights, other, ceiling, i);
    }
  }

  /** What the scheduler sorts by: distinct names, longest first. */
  lemma LongestFirstOrder(names: seq<string>, weights: Weights)
    requires ValidInventory(names)
    ensures Distinct(LongestFirst(names, weights)) && NonIncreasing(LongestFirst(names, weights), weights)
  {
    BeforeOrder(weights);
    SortSorted(names, (a, b) => Before(weights, a, b));
    DistinctRearranged(names, LongestFirst(names, weights));
  }

  lemma PackNearOptimal(order: seq<string>, count: nat, weights: Weights, other: seq<seq<string>>)
    requires count >= 1 && Positive(weights) && Distinct(order)
    requires NonIncreasing(order, weights)
    requires Distribution(order, other, count)
    ensures Within(count, Heaviest(Pack(order, |order|, count, weights).shards, weights), Heaviest(other, weights))
  {
    var p, ceiling := Pack(order, |order|, count, weights), Heaviest(other, weights);
    LoadNonNegative(other[0], weights, "");
    PackTotals(order, |order|, count, weights);
    var i :| 0 <= i < |p.shards| && Total(p.shards[i], Load(weights)) == Heaviest(p.shards, weights);
    PrefixBound(order, |order|, count, weights, other, ceiling, i);
  }

  /** Graham's bound: 3m times the heaviest greedy shard is at most 4m - 1 times the heaviest shard of
      any distribution of the same tests over m shards. */
  lemma LongestFirstIsNearOptimal(names: seq<string>, count: nat, weights: Weights, other: seq<seq<string>>)
    requires ValidInventory(names) && count >= 1 && Positive(weights)
    requires Distribution(names, other, count)
    ensures Within(count, Heaviest(Plan(names, count, weights).shards, weights), Heaviest(other, weights))
  {
    var order := LongestFirst(names, weights);
    LongestFirstOrder(names, weights);
    PackNearOptimal(order, count, weights, other);
  }

  // ----- The bound without any other distribution -----

  /** The load is at most the average plus (1 - 1/count) of the longest test. */
  ghost predicate NearAverage(count: nat, load: real, total: real, longest: real) {
    count as real * load <= total + (count as real - 1.0) * longest
  }

  lemma NothingNearAverage(count: nat, total: real, longest: real)
    requires count >= 1 && total >= 0.0 && longest >= 0.0
    ensures NearAverage(count, 0.0, total, longest)
  {
    assert (count as real - 1.0) * longest >= 0.0;
  }

  lemma PlacedNearAverage(count: nat, lightest: real, w: real, total: real, longest: real)
    requires count >= 1 && w <= longest
    requires Times(count, lightest) + w <= total
    ensures NearAverage(count, lightest + w, total, longest)
  {
    var m := count as real;
    TimesIsProduct(count, lightest);
    assert m * (lightest + w) == m * lightest + w + (m - 1.0) * w;
    assert (m - 1.0) * w <= (m - 1.0) * longest;
  }

  lemma EmptyNearAverage(order: seq<string>, count: nat, weights: Weights)
    requires order != [] && count >= 1 && Positive(weights)
    ensures NearAverage(count, 0.0, Total(order, Load(weights)), Weight(weights, order[0]))
  {
    LoadNonNegative(order, weights, "");
    NothingNearAverage(count, Total(order, Load(weights)), Weight(weights, order[0]));
  }

  lemma FirstIsLongest(order: seq<string>, k: nat, weights: Weights)
    requires k < |order| && NonIncreasing(order, weights)
    ensures Weight(weights, order[k]) <= Weight(weights, order[0])
  {
  }

  lemma PlacementNearAverage(order: seq<string>, k: nat, count: nat, weights: Weights)
    requires k < |order| && count >= 1 && Positive(weights) && NonIncreasing(order, weights)
    ensures NearAverage(count, PlacedLoad(order, k, count, weights), Total(order, Load(weights)),
                        Weight(weights, order[0]))
  {
    hide NearAverage, Times, Positive, Pack, Lightest, NonIncreasing, Total, Weight;
    FirstIsLongest(order, k, weights);
    var p := Pack(order, k, count, weights);
    PlacedOnAverage(order, k, count, weights);
    PlacedNearAverage(count, p.totals[Lightest(p.totals)], Weight(weights, order[k]), Total(order, Load(weights)),
                      Weight(weights, order[0]));
  }

  lemma {:induction false} AveragePrefix(order: seq<string>, k: nat, count: nat, weights: Weights, i: nat)
    requires order != [] && k <= |order| && i < count && Positive(weights)
    requires NonIncreasing(order, weights)
    ensures NearAverage(count, Pack(order, k, count, weights).totals[i], Total(order, Load(weights)),
                        Weight(weights, order[0]))
  {
    hide NearAverage, Positive, Pack, Lightest, PlacedLoad, NonIncreasing, Total;
    if k == 0 {
      LoadBefore(order, count, weights, i);
      EmptyNearAverage(order, count, weights);
    } else {
      LoadAfter(order, k - 1, count, weights, i);
      PlacementNearAverage(order, k - 1, count, weights);
      AveragePrefix(order, k - 1, count, weights, i);
    }
  }

  lemma PackNearAverage(order: seq<string>, count: nat, weights: Weights, i: nat)
    requires order != [] && i < count && Positive(weights)
    requires NonIncreasing(order, weights)
    ensures var shard := Pack(order, |order|, count, weights).shards[i];
            NearAverage(count, Total(shard, Load(weights)), Total(order, Load(weights)), Weight(weights, order[0]))
  {
    AveragePrefix(order, |order|, count, weights, i);
    PackTotals(order, |order|, count, weights);
  }

  /** No shard exceeds the average load plus the longest test's remaining share. */
  lemma LongestFirstNearAverage(names: seq<string>, count: nat, weights: Weights, i: nat)
    requires ValidInventory(names) && i < count && Positive(weights)
    ensures var order := LongestFirst(names, weights);
            && order != []
            && NearAverage(count, Total(Pack(order, |order|, count, weights).shards[i], Load(weights)),
                           Total(names, Load(weights)), Weight(weights, order[0]))
  {
    var order := LongestFirst(names, weights);
    SameElements(order, names);
    LongestFirstOrder(names, weights);
    TotalRearranged(order, names, Load(weights));
    PackNearAverage(order, count, weights, i);
  }

  /** What the shard processes are told to run is within the bound, each of them. */
  lemma ServedIsNearOptimal(names: seq<string>, index: int, count: int, weights: Weights, other: seq<seq<string>>)
    requires BalancedShard(names, index, count, weights).Ok? && Distribution(names, other, count)
    ensures var served := BalancedShard(names, index, count, weights).value;
            3.0 * count as real * Total(served, Load(weights)) <= (4.0 * count as real - 1.0) * Heaviest(other, weights)
  {
    hide Within, Heaviest, Total, Pack, Sort, Distribution, Flatten;
    ServedWeighs(names, index, count, weights);
    LongestFirstIsNearOptimal(names, count, weights, other);
    var served, packed := BalancedShard(names, index, count, weights).value, Plan(names, count, weights).shards;
    LighterIsWithin(count, Total(served, Load(weights)), Heaviest(packed, weights), Heaviest(other, weights));
  }

  lemma ServedWeighs(names: seq<string>, index: int, count: int, weights: Weights)
    requires BalancedShard(names, index, count, weights).Ok?
    ensures ValidInventory(names) && 0 <= index < count && Positive(weights)
    ensures Total(BalancedShard(names, index, count, weights).value, Load(weights))
         <= Heaviest(Plan(names, count, weights).shards, weights)
  {
    hide Total, Pack, Heaviest;
    var packed := Plan(names, count, weights).shards;
    ServedShard(names, index, count, weights);
    TotalRearranged(BalancedShard(names, index, count, weights).value, packed[index], Load(weights));
  }

  lemma LighterIsWithin(count: nat, load: real, heavier: real, ceiling: real)
    requires Within(count, heavier, ceiling) && load <= heavier
    ensures 3.0 * count as real * load <= (4.0 * count as real - 1.0) * ceiling
  {
    Scaled(3.0 * count as real, load, heavier);
  }

  lemma Scaled(k: real, a: real, b: real)
    requires k >= 0.0 && a <= b
    ensures k * a <= k * b
  {
  }
}
