/** The CI shard scheduler of scripts/ci-race.py: longest-first greedy packing, computed
    independently by every shard process. */
module Shards {
  import opened Sorting

  datatype Result<T> = Ok(value: T) | Err(error: Error)
  datatype Error = InvalidShard | InvalidInventory | EmptyShard | InvalidWeight

  /** Timings by test name, taken as exact numbers; a missing name weighs one second. */
  type Weights = map<string, real>

  function Weight(weights: Weights, name: string): real {
    if name in weights then weights[name] else 1.0
  }

  predicate Positive(weights: Weights) {
    forall name :: name in weights ==> weights[name] > 0.0
  }

  /** Code-point order of strings. */
  predicate StringLe(a: string, b: string) {
    if a == [] then true
    else if b == [] then false
    else a[0] < b[0] || (a[0] == b[0] && StringLe(a[1..], b[1..]))
  }

  lemma {:induction false} StringLeTotal(a: string, b: string)
    ensures StringLe(a, b) || StringLe(b, a)
    ensures StringLe(a, b) && StringLe(b, a) ==> a == b
  {
    if a == [] || b == [] {
    } else {
      StringLeTotal(a[1..], b[1..]);
      assert a == [a[0]] + a[1..] && b == [b[0]] + b[1..];
    }
  }

  lemma {:induction false} StringLeTransitive(a: string, b: string, c: string)
    requires StringLe(a, b) && StringLe(b, c)
    ensures StringLe(a, c)
  {
    if a == [] {
    } else if a[0] == b[0] == c[0] {
      StringLeTransitive(a[1..], b[1..], c[1..]);
    }
  }

  lemma StringLeOrder()
    ensures Preorder(StringLe)
    ensures forall a, b :: StringLe(a, b) && StringLe(b, a) ==> a == b
  {
    forall a, b ensures (StringLe(a, b) || StringLe(b, a)) && (StringLe(a, b) && StringLe(b, a) ==> a == b) {
      StringLeTotal(a, b);
    }
    forall a, b, c | StringLe(a, b) && StringLe(b, c) ensures StringLe(a, c) {
      StringLeTransitive(a, b, c);
    }
  }

  /** The sort key (-weight, name). */
  predicate Before(weights: Weights, a: string, b: string) {
    || Weight(weights, a) > Weight(weights, b)
    || (Weight(weights, a) == Weight(weights, b) && StringLe(a, b))
  }

  function LongestFirst(names: seq<string>, weights: Weights): (order: seq<string>)
    ensures multiset(order) == multiset(names)
  {
    Sort(names, (a, b) => Before(weights, a, b))
  }

  lemma BeforeOrder(weights: Weights)
    ensures Preorder((a, b) => Before(weights, a, b))
    ensures forall a, b :: Before(weights, a, b) && Before(weights, b, a) ==> a == b
  {
    StringLeOrder();
  }

  predicate ValidInventory(names: seq<string>) {
    names != [] && forall i, j :: 0 <= i < j < |names| ==> names[i] != names[j]
  }

  /** names[index::count]. */
  function Stride(s: seq<string>, index: nat, count: nat): (r: seq<string>)
    requires count >= 1
    decreases |s| + count - (if index < |s| then index else |s|)
    ensures r == [] <==> index >= |s|
  {
    if index >= |s| then [] else [s[index]] + Stride(s, index + count, count)
  }

  /** The unweighted partition, which also validates every weighted call. */
  function Partition(names: seq<string>, index: int, count: int): Result<seq<string>> {
    if !(1 <= count <= 64) || !(0 <= index < count) then Err(InvalidShard)
    else if !ValidInventory(names) then Err(InvalidInventory)
    else
      var selected := Stride(Sort(names, StringLe), index, count);
      if selected == [] then Err(EmptyShard) else Ok(selected)
  }

  /** The first of the smallest totals. */
  ghost predicate IsLightest(totals: seq<real>, d: nat) {
    && d < |totals|
    && (forall i :: 0 <= i < |totals| ==> totals[d] <= totals[i])
    && (forall i :: 0 <= i < d ==> totals[d] < totals[i])
  }

  function Lightest(totals: seq<real>): (d: nat)
    requires totals != []
    ensures IsLightest(totals, d)
  {
    LightestUpTo(totals, |totals|)
  }

  function LightestUpTo(totals: seq<real>, n: nat): (d: nat)
    requires 1 <= n <= |totals|
    ensures d < n
    ensures forall i :: 0 <= i < n ==> totals[d] <= totals[i]
    ensures forall i :: 0 <= i < d ==> totals[d] < totals[i]
  {
    if n == 1 then 0
    else
      var d := LightestUpTo(totals, n - 1);
      if totals[n - 1] < totals[d] then n - 1 else d
  }

  datatype Packing = Packing(shards: seq<seq<string>>, totals: seq<real>)

  function Repeat<T>(x: T, n: nat): (r: seq<T>)
    ensures |r| == n && forall i :: 0 <= i < n ==> r[i] == x
  {
    if n == 0 then [] else [x] + Repeat(x, n - 1)
  }

  function EmptyPacking(count: nat): Packing {
    Packing(Repeat([], count), Repeat(0.0, count))
  }

  function Place(p: Packing, name: string, weight: real): Packing
    requires |p.shards| == |p.totals| > 0
  {
    var d := Lightest(p.totals);
    Packing(p.shards[d := p.shards[d] + [name]], p.totals[d := p.totals[d] + weight])
  }

  /** Greedy packing of the first k names of an order. */
  function Pack(order: seq<string>, k: nat, count: nat, weights: Weights): (p: Packing)
    requires count >= 1 && k <= |order|
    ensures |p.shards| == |p.totals| == count
  {
    if k == 0 then EmptyPacking(count)
    else Place(Pack(order, k - 1, count, weights), order[k - 1], Weight(weights, order[k - 1]))
  }

  lemma PackNext(order: seq<string>, k: nat, count: nat, weights: Weights)
    requires count >= 1 && k < |order|
    ensures var p := Pack(order, k, count, weights);
            var d, w := Lightest(p.totals), Weight(weights, order[k]);
            Pack(order, k + 1, count, weights)
              == Packing(p.shards[d := p.shards[d] + [order[k]]], p.totals[d := p.totals[d] + w])
  {
  }

  /** The complete packing every shard process computes for itself. */
  function Plan(names: seq<string>, count: nat, weights: Weights): (p: Packing)
    requires count >= 1
    ensures |p.shards| == |p.totals| == count
  {
    var order := LongestFirst(names, weights);
    Pack(order, |order|, count, weights)
  }

  /** What one shard process is told to run. */
  function BalancedShard(names: seq<string>, index: int, count: int, weights: Weights): Result<seq<string>> {
    match Partition(names, index, count)
    case Err(e) => Err(e)
    case Ok(_) =>
      if !Positive(weights) then Err(InvalidWeight)
      else Ok(Sort(Plan(names, count, weights).shards[index], StringLe))
  }

  /** The scheduler's loop: the first lightest shard takes the next longest test. */
  method FillShards(order: seq<string>, count: nat, weights: Weights) returns (shards: seq<seq<string>>)
    requires count >= 1
    ensures shards == Pack(order, |order|, count, weights).shards
  {
    var totals := Repeat(0.0, count);
    shards := Repeat([], count);
    for n := 0 to |order|
      invariant |shards| == |totals| == count
      invariant shards == Pack(order, n, count, weights).shards
      invariant totals == Pack(order, n, count, weights).totals
    {
      PackNext(order, n, count, weights);
      var destination := Lightest(totals);
      shards := shards[destination := shards[destination] + [order[n]]];
      totals := totals[destination := totals[destination] + Weight(weights, order[n])];
    }
  }

  /** One shard process: validate the live inventory, pack all of it, keep one shard. */
  method BalancedPartition(names: seq<string>, index: int, count: int, weights: Weights)
    returns (r: Result<seq<string>>)
    ensures r == BalancedShard(names, index, count, weights)
  {
    var validated := Partition(names, index, count);
    if validated.Err? {
      return Err(validated.error);
    }
    if !Positive(weights) {
      return Err(InvalidWeight);
    }
    var shards := FillShards(LongestFirst(names, weights), count, weights);
    r := Ok(Sort(shards[index], StringLe));
  }

  // ----- What the shards cover -----

  function Flatten(shards: seq<seq<string>>): seq<string> {
    if shards == [] then [] else shards[0] + Flatten(shards[1..])
  }

  lemma {:induction false} FlattenAppendTo(shards: seq<seq<string>>, d: nat, name: string)
    requires d < |shards|
    ensures multiset(Flatten(shards[d := shards[d] + [name]])) == multiset(Flatten(shards)) + multiset{name}
  {
    var after := shards[d := shards[d] + [name]];
    if d == 0 {
      assert after[1..] == shards[1..];
    } else {
      FlattenAppendTo(shards[1..], d - 1, name);
      assert after[1..] == shards[1..][d - 1 := shards[d] + [name]];
    }
  }

  lemma {:induction false} FlattenEmpty(shards: seq<seq<string>>)
    requires forall i :: 0 <= i < |shards| ==> shards[i] == []
    ensures Flatten(shards) == []
  {
    if shards == [] {
    } else {
      FlattenEmpty(shards[1..]);
    }
  }

  lemma PrefixAdds(order: seq<string>, k: nat)
    requires k < |order|
    ensures multiset(order[..k + 1]) == multiset(order[..k]) + multiset{order[k]}
  {
    assert order[..k + 1] == order[..k] + [order[k]];
  }

  lemma PlaceAdds(p: Packing, name: string, weight: real)
    requires |p.shards| == |p.totals| > 0
    ensures multiset(Flatten(Place(p, name, weight).shards)) == multiset(Flatten(p.shards)) + multiset{name}
  {
    FlattenAppendTo(p.shards, Lightest(p.totals), name);
  }

  lemma NothingPacked(order: seq<string>, count: nat)
    ensures multiset(Flatten(EmptyPacking(count).shards)) == multiset(order[..0])
  {
    FlattenEmpty(EmptyPacking(count).shards);
    assert order[..0] == [];
  }

  lemma {:induction false} PackRearranges(order: seq<string>, k: nat, count: nat, weights: Weights)
    requires count >= 1 && k <= |order|
    ensures multiset(Flatten(Pack(order, k, count, weights).shards)) == multiset(order[..k])
  {
    hide Flatten, Place, Weight, EmptyPacking;
    if k == 0 {
      NothingPacked(order, count);
    } else {
      var p, x := Pack(order, k - 1, count, weights), order[k - 1];
      calc {
        multiset(Flatten(Pack(order, k, count, weights).shards));
        multiset(Flatten(Place(p, x, Weight(weights, x)).shards));
        { PlaceAdds(p, x, Weight(weights, x)); }
        multiset(Flatten(p.shards)) + multiset{x};
        { PackRearranges(order, k - 1, count, weights); }
        multiset(order[..k - 1]) + multiset{x};
        { PrefixAdds(order, k - 1); }
        multiset(order[..k]);
      }
    }
  }

  /** A complete packing holds the inventory, each name once. */
  lemma PlanRearranges(names: seq<string>, count: nat, weights: Weights)
    requires count >= 1
    ensures multiset(Flatten(Plan(names, count, weights).shards)) == multiset(names)
  {
    var order := LongestFirst(names, weights);
    PackRearranges(order, |order|, count, weights);
    assert order[..|order|] == order;
  }

  lemma {:induction false} FlattenMember(shards: seq<seq<string>>, x: string)
    ensures x in Flatten(shards) <==> exists i :: 0 <= i < |shards| && x in shards[i]
  {
    if shards == [] {
    } else {
      FlattenMember(shards[1..], x);
      if i :| 0 <= i < |shards| && x in shards[i] && i != 0 {
        assert x in shards[1..][i - 1];
      }
      if i :| 0 <= i < |shards[1..]| && x in shards[1..][i] {
        assert x in shards[i + 1];
      }
    }
  }

  /** A name listed once in the flattened packing is in one shard, once. */
  lemma {:induction false} FlattenDisjoint(shards: seq<seq<string>>, i: nat, j: nat)
    requires Distinct(Flatten(shards)) && i <= j < |shards|
    ensures Distinct(shards[i])
    ensures i < j ==> forall x :: x in shards[i] ==> x !in shards[j]
  {
    var head, tail := shards[0], Flatten(shards[1..]);
    assert Flatten(shards) == head + tail;
    assert forall k :: 0 <= k < |head| ==> (head + tail)[k] == head[k];
    assert forall k :: 0 <= k < |tail| ==> (head + tail)[|head| + k] == tail[k];
    if i > 0 {
      FlattenDisjoint(shards[1..], i - 1, j - 1);
    } else if j > 0 {
      forall x | x in shards[0] ensures x !in shards[j] {
        FlattenMember(shards[1..], x);
        assert shards[j] == shards[1..][j - 1];
      }
    }
  }

  /** A shard holds something exactly when its total is positive. */
  ghost predicate Weighed(p: Packing, i: nat)
    requires i < |p.shards| && i < |p.totals|
  {
    p.totals[i] >= 0.0 && (|p.shards[i]| == 0 <==> p.totals[i] == 0.0)
  }

  ghost predicate FilledFirst(p: Packing, k: nat) {
    && |p.shards| == |p.totals|
    && forall i :: 0 <= i < |p.shards| ==> Weighed(p, i) && (|p.shards[i]| == 0 <==> i >= k)
  }

  lemma PlaceFillsNext(p: Packing, k: nat, name: string, weight: real)
    requires p.shards != [] && FilledFirst(p, k) && weight > 0.0
    ensures FilledFirst(Place(p, name, weight), k + 1)
  {
    var d := Lightest(p.totals);
    assert Weighed(p, d);
    if k < |p.shards| {
      assert Weighed(p, k);
      assert d == k;
    }
  }

  /** After k placements exactly the first k shards hold something: an empty shard is always the lightest. */
  lemma {:induction false} PackFillsFirst(order: seq<string>, k: nat, count: nat, weights: Weights)
    requires count >= 1 && k <= |order| && Positive(weights)
    ensures FilledFirst(Pack(order, k, count, weights), k)
  {
    if k == 0 {
    } else {
      PackFillsFirst(order, k - 1, count, weights);
      PlaceFillsNext(Pack(order, k - 1, count, weights), k - 1, order[k - 1], Weight(weights, order[k - 1]));
    }
  }

  lemma PlanFillsFirst(names: seq<string>, count: nat, weights: Weights)
    requires count >= 1 && Positive(weights)
    ensures FilledFirst(Plan(names, count, weights), |names|)
  {
    var order := LongestFirst(names, weights);
    SameElements(order, names);
    PackFillsFirst(order, |order|, count, weights);
  }

  /** A served shard is a rearrangement of the packed one, which is not empty. */
  lemma ServedShard(names: seq<string>, index: int, count: int, weights: Weights)
    requires BalancedShard(names, index, count, weights).Ok?
    ensures var packed := Plan(names, count, weights).shards[index];
            multiset(BalancedShard(names, index, count, weights).value) == multiset(packed) && packed != []
  {
    SameElements(Sort(names, StringLe), names);
    PlanFillsFirst(names, count, weights);
  }

  /** A call that passes validation never returns an empty shard. */
  lemma NoEmptyShard(names: seq<string>, index: int, count: int, weights: Weights)
    requires BalancedShard(names, index, count, weights).Ok?
    ensures BalancedShard(names, index, count, weights).value != []
  {
    ServedShard(names, index, count, weights);
    SameElements(BalancedShard(names, index, count, weights).value,
                 Plan(names, count, weights).shards[index]);
  }

  /** Which indexes a complete run of `count` shard processes serves. */
  lemma ServedIndexes(names: seq<string>, index: int, count: int, weights: Weights)
    requires ValidInventory(names) && 1 <= count <= 64 && Positive(weights)
    ensures BalancedShard(names, index, count, weights).Ok? <==> 0 <= index < count && index < |names|
  {
    SameElements(Sort(names, StringLe), names);
  }

  /** Process `i` runs `x`. */
  ghost predicate Runs(names: seq<string>, i: int, count: int, weights: Weights, x: string) {
    BalancedShard(names, i, count, weights).Ok? && x in BalancedShard(names, i, count, weights).value
  }

  lemma RunsPacked(names: seq<string>, i: int, count: int, weights: Weights, x: string)
    requires ValidInventory(names) && 1 <= count <= 64 && Positive(weights)
    ensures Runs(names, i, count, weights, x) <==>
            0 <= i < count && x in Plan(names, count, weights).shards[i]
  {
    ServedIndexes(names, i, count, weights);
    if 0 <= i < count {
      PlanFillsFirst(names, count, weights);
      if i < |names| {
        ServedShard(names, i, count, weights);
        SameElements(BalancedShard(names, i, count, weights).value, Plan(names, count, weights).shards[i]);
      }
    }
  }

  /** Exactly the inventory is run. */
  lemma ShardsCoverInventory(names: seq<string>, count: int, weights: Weights, x: string)
    requires ValidInventory(names) && 1 <= count <= 64 && Positive(weights)
    ensures x in names <==> exists i :: Runs(names, i, count, weights, x)
  {
    var p := Plan(names, count, weights);
    PlanRearranges(names, count, weights);
    SameElements(names, Flatten(p.shards));
    FlattenMember(p.shards, x);
    if x in names {
      var i :| 0 <= i < |p.shards| && x in p.shards[i];
      RunsPacked(names, i, count, weights, x);
    }
    if i :| Runs(names, i, count, weights, x) {
      RunsPacked(names, i, count, weights, x);
    }
  }

  /** No test is run twice, neither by two processes nor by one. */
  lemma ShardsAreDisjoint(names: seq<string>, i: int, j: int, count: int, weights: Weights, x: string)
    requires ValidInventory(names) && 1 <= count <= 64 && Positive(weights)
    requires Runs(names, i, count, weights, x) && Runs(names, j, count, weights, x)
    ensures i == j
    ensures multiset(BalancedShard(names, i, count, weights).value)[x] == 1
  {
    var p := Plan(names, count, weights);
    PlanRearranges(names, count, weights);
    DistinctRearranged(names, Flatten(p.shards));
    RunsPacked(names, i, count, weights, x);
    RunsPacked(names, j, count, weights, x);
    FlattenDisjoint(p.shards, if i <= j then i else j, if i <= j then j else i);
    ServedShard(names, i, count, weights);
    DistinctMultiplicity(p.shards[i]);
  }

  lemma PartitionIgnoresInputOrder(a: seq<string>, b: seq<string>, index: int, count: int)
    requires multiset(a) == multiset(b)
    ensures Partition(a, index, count) == Partition(b, index, count)
  {
    SameElements(a, b);
    if ValidInventory(a) {
      DistinctRearranged(a, b);
    }
    if ValidInventory(b) {
      DistinctRearranged(b, a);
    }
    StringLeOrder();
    SortIgnoresOrder(a, b, StringLe);
  }

  /** Separate processes agree: only the set of names and their weights matter. */
  lemma ShardsIgnoreInputOrder(a: seq<string>, b: seq<string>, index: int, count: int, weights: Weights)
    requires multiset(a) == multiset(b)
    ensures BalancedShard(a, index, count, weights) == BalancedShard(b, index, count, weights)
  {
    PartitionIgnoresInputOrder(a, b, index, count);
    BeforeOrder(weights);
    SortIgnoresOrder(a, b, (x, y) => Before(weights, x, y));
    assert LongestFirst(a, weights) == LongestFirst(b, weights);
  }

  // ----- The unweighted partition -----

  /** Position k is among i, i + count, i + 2 * count, ... */
  predicate OnStride(k: nat, i: nat, count: nat)
    requires count >= 1
    decreases k + count - (if i < k then i else k)
  {
    k == i || (i < k && OnStride(k, i + count, count))
  }

  lemma {:induction false} StridePositions(s: seq<string>, i: nat, count: nat, k: nat)
    requires count >= 1 && Distinct(s) && k < |s|
    ensures s[k] in Stride(s, i, count) <==> OnStride(k, i, count)
    decreases |s| + count - (if i < |s| then i else |s|)
  {
    if i < |s| {
      StridePositions(s, i + count, count, k);
      assert s[k] == s[i] <==> k == i;
    }
  }

  lemma {:induction false} StrideMembers(s: seq<string>, i: nat, count: nat)
    requires count >= 1
    ensures forall x :: x in Stride(s, i, count) ==> x in s
    decreases |s| + count - (if i < |s| then i else |s|)
  {
    if i < |s| {
      StrideMembers(s, i + count, count);
    }
  }

  lemma {:induction false} OnStrideShift(k: nat, i: nat, count: nat)
    requires count >= 1
    ensures OnStride(k + count, i + count, count) <==> OnStride(k, i, count)
    decreases k + count - (if i < k then i else k)
  {
    if i < k {
      OnStrideShift(k, i + count, count);
    }
  }

  /** The shard of position k. */
  function Home(k: nat, count: nat): (i: nat)
    requires count >= 1
    ensures i < count
  {
    if k < count then k else Home(k - count, count)
  }

  lemma {:induction false} OneStride(k: nat, i: nat, count: nat)
    requires i < count
    ensures OnStride(k, i, count) <==> i == Home(k, count)
    decreases k
  {
    if k >= count {
      OnStrideShift(k - count, i, count);
      OneStride(k - count, i, count);
    }
  }

  /** Shard `i` of the unweighted partition has `x`. */
  ghost predicate Listed(names: seq<string>, i: int, count: int, x: string) {
    Partition(names, i, count).Ok? && x in Partition(names, i, count).value
  }

  /** Every name is listed by exactly one shard, and nothing else is listed. */
  lemma PlainShardsPartition(names: seq<string>, count: int, x: string)
    requires ValidInventory(names) && 1 <= count <= 64
    ensures x in names <==> exists i :: Listed(names, i, count, x)
    ensures forall i, j :: Listed(names, i, count, x) && Listed(names, j, count, x) ==> i == j
  {
    var s := Sort(names, StringLe);
    SameElements(s, names);
    DistinctRearranged(names, s);
    if x in names {
      var k :| 0 <= k < |s| && s[k] == x;
      forall i ensures Listed(names, i, count, x) <==> i == Home(k, count) {
        if 0 <= i < count {
          StridePositions(s, i, count, k);
          OneStride(k, i, count);
        }
      }
      assert Listed(names, Home(k, count), count, x);
    } else {
      forall i ensures !Listed(names, i, count, x) {
        if 0 <= i < count {
          StrideMembers(s, i, count);
        }
      }
    }
  }

  // ----- What the inputs mean -----

  /** The timings with one second written in for every test that has none. */
  function Completed(weights: Weights, names: seq<string>): Weights {
    weights + map name | name in names && name !in weights :: 1.0
  }

  ghost predicate SameWeights(a: Weights, b: Weights) {
    forall name :: Weight(a, name) == Weight(b, name)
  }

  lemma {:induction false} InsertAlike(x: string, s: seq<string>, p: (string, string) -> bool,
                                       q: (string, string) -> bool)
    requires forall a, b :: p(a, b) == q(a, b)
    ensures Insert(x, s, p) == Insert(x, s, q)
  {
    if s != [] {
      InsertAlike(x, s[1..], p, q);
    }
  }

  lemma {:induction false} SortAlike(s: seq<string>, p: (string, string) -> bool, q: (string, string) -> bool)
    requires forall a, b :: p(a, b) == q(a, b)
    ensures Sort(s, p) == Sort(s, q)
  {
    if s != [] {
      SortAlike(s[1..], p, q);
      InsertAlike(s[0], Sort(s[1..], p), p, q);
    }
  }

  lemma {:induction false} PackAlike(order: seq<string>, k: nat, count: nat, a: Weights, b: Weights)
    requires count >= 1 && k <= |order| && SameWeights(a, b)
    ensures Pack(order, k, count, a) == Pack(order, k, count, b)
  {
    if k > 0 {
      PackAlike(order, k - 1, count, a, b);
    }
  }

  /** A missing timing means one second: writing it in changes no shard. */
  lemma MissingMeansOneSecond(names: seq<string>, index: int, count: int, weights: Weights)
    ensures BalancedShard(names, index, count, weights) == BalancedShard(names, index, count, Completed(weights, names))
  {
    var full := Completed(weights, names);
    assert SameWeights(weights, full);
    SortAlike(names, (a, b) => Before(weights, a, b), (a, b) => Before(full, a, b));
    var order := LongestFirst(names, weights);
    assert LongestFirst(names, full) == order;
    if count >= 1 {
      PackAlike(order, |order|, count, weights, full);
    }
    assert Positive(weights) <==> Positive(full);
  }

  /** Code-point order, by the first difference. */
  lemma {:induction false} StringLeByFirstDifference(a: string, b: string)
    ensures StringLe(a, b) <==>
              a <= b || exists k :: 0 <= k < |a| && k < |b| && a[..k] == b[..k] && a[k] < b[k]
  {
    if a != [] && b != [] {
      StringLeByFirstDifference(a[1..], b[1..]);
      if a[0] == b[0] && StringLe(a[1..], b[1..]) {
        if !(a[1..] <= b[1..]) {
          var k :| 0 <= k < |a[1..]| && k < |b[1..]| && a[1..][..k] == b[1..][..k] && a[1..][k] < b[1..][k];
          assert a[..k + 1] == [a[0]] + a[1..][..k] && b[..k + 1] == [b[0]] + b[1..][..k];
          assert a[..k + 1] == b[..k + 1] && a[k + 1] < b[k + 1];
        } else {
          assert a == [a[0]] + a[1..] && b == [b[0]] + b[1..];
        }
      }
      if a[0] < b[0] {
        assert a[..0] == b[..0];
      }
      if k :| 0 <= k < |a| && k < |b| && a[..k] == b[..k] && a[k] < b[k] {
        if k > 0 {
          assert a[0] == a[..k][0] == b[..k][0] == b[0];
          assert a[1..][..k - 1] == a[..k][1..] && b[1..][..k - 1] == b[..k][1..];
          assert a[1..][k - 1] < b[1..][k - 1];
        }
      }
    }
  }

  /** The order of packing: heavier first, and among equals the name that sorts first. */
  lemma PackedLongestFirst(names: seq<string>, weights: Weights, i: nat, j: nat)
    requires i < j < |LongestFirst(names, weights)|
    ensures var order := LongestFirst(names, weights);
            var a := if order[i] in weights then weights[order[i]] else 1.0;
            var b := if order[j] in weights then weights[order[j]] else 1.0;
            a > b || (a == b && StringLe(order[i], order[j]))
  {
    BeforeOrder(weights);
    SortSorted(names, (a, b) => Before(weights, a, b));
  }

  /** The served names come sorted. */
  lemma ServedSorted(names: seq<string>, index: int, count: int, weights: Weights)
    requires BalancedShard(names, index, count, weights).Ok?
    ensures Sorted(BalancedShard(names, index, count, weights).value, StringLe)
  {
    StringLeOrder();
    SortSorted(Plan(names, count, weights).shards[index], StringLe);
  }

  /** Exactly which calls fail, and how. */
  lemma RefusedExactly(names: seq<string>, index: int, count: int, weights: Weights)
    ensures var r := BalancedShard(names, index, count, weights);
            var shard := 1 <= count <= 64 && 0 <= index < count;
            var inventory := names != [] && forall i, j :: 0 <= i < j < |names| ==> names[i] != names[j];
            var positive := forall name :: name in weights ==> weights[name] > 0.0;
            && (r == Err(InvalidShard) <==> !shard)
            && (r == Err(InvalidInventory) <==> shard && !inventory)
            && (r == Err(EmptyShard) <==> shard && inventory && index >= |names|)
            && (r == Err(InvalidWeight) <==> shard && inventory && index < |names| && !positive)
  {
    SameElements(Sort(names, StringLe), names);
  }
}
