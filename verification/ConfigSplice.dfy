/** The one-pass splice that rewrites the provider settings inside config.toml
    (internal/config/provider_edit.go, from the collected edits to the output buffer). */
module ConfigSplice {
  import opened Sorting
  import ConfigResolve

  /** Replace source[start..end] by `text`; an insertion has start == end. */
  datatype Edit = Edit(start: int, end: int, text: string)

  datatype Result<T> = Ok(value: T) | Overlapping | TooLong

  /** One edit on its own. */
  function Replaced(source: string, e: Edit): string
    requires 0 <= e.start <= e.end <= |source|
  {
    source[..e.start] + e.text + source[e.end..]
  }

  /** In source order, inside the first `bound` bytes, and apart. */
  predicate Apart(edits: seq<Edit>, bound: int) {
    edits != [] ==>
      var last := edits[|edits| - 1];
      0 <= last.start <= last.end <= bound && Apart(edits[..|edits| - 1], last.start)
  }

  /** The reference: one edit at a time, from the right, so that no pending range ever moves. */
  function RightToLeft(source: string, edits: seq<Edit>): string
    requires Apart(edits, |source|)
    decreases |edits|
  {
    if edits == [] then source
    else
      var last := edits[|edits| - 1];
      ApartWidens(edits[..|edits| - 1], last.start, |Replaced(source, last)|);
      RightToLeft(Replaced(source, last), edits[..|edits| - 1])
  }

  lemma ApartWidens(edits: seq<Edit>, bound: int, wider: int)
    requires Apart(edits, bound) && bound <= wider
    ensures Apart(edits, wider)
  {
  }

  lemma ReplacedBefore(source: string, e: Edit, cut: nat)
    requires 0 <= e.start <= e.end <= cut <= |source|
    ensures Replaced(source, e) == Replaced(source[..cut], e) + source[cut..]
  {
    assert source[e.end..] == source[..cut][e.end..] + source[cut..];
    assert source[..e.start] == source[..cut][..e.start];
  }

  lemma SplitSum(a: string, b: string, cut: nat)
    requires cut <= |a|
    ensures (a + b)[..cut] == a[..cut] && (a + b)[cut..] == a[cut..] + b
  {
  }

  /** What follows the last edit is carried along unchanged. */
  lemma {:induction false} TailCarried(source: string, edits: seq<Edit>, cut: nat)
    requires cut <= |source| && Apart(edits, cut)
    ensures Apart(edits, |source|) && RightToLeft(source, edits) == RightToLeft(source[..cut], edits) + source[cut..]
    decreases |edits|
  {
    ApartWidens(edits, cut, |source|);
    if edits == [] {
      assert source == source[..cut] + source[cut..];
    } else {
      var last, front := edits[|edits| - 1], edits[..|edits| - 1];
      var whole, part := Replaced(source, last), Replaced(source[..cut], last);
      ApartWidens(front, last.start, |whole|);
      ApartWidens(front, last.start, |part|);
      TailCarried(whole, front, last.start);
      TailCarried(part, front, last.start);
      ReplacedBefore(source, last, cut);
      SplitSum(part, source[cut..], last.start);
    }
  }

  function ByStart(): (Edit, Edit) -> bool {
    (a: Edit, b: Edit) => a.start <= b.start
  }

  function Position(sorted: seq<Edit>, k: nat): int
    requires k <= |sorted|
  {
    if k == 0 then 0 else sorted[k - 1].end
  }

  /** One loop iteration agrees with the reference. */
  lemma SpliceStep(source: string, sorted: seq<Edit>, k: nat)
    requires k < |sorted|
    requires 0 <= Position(sorted, k) <= sorted[k].start <= sorted[k].end <= |source|
    requires Apart(sorted[..k], Position(sorted, k))
    ensures Apart(sorted[..k + 1], sorted[k].end)
    ensures RightToLeft(source[..sorted[k].end], sorted[..k + 1])
         == RightToLeft(source[..Position(sorted, k)], sorted[..k])
            + source[Position(sorted, k)..sorted[k].start] + sorted[k].text
  {
    var e, p := sorted[k], Position(sorted, k);
    assert sorted[..k + 1][..k] == sorted[..k];
    ApartWidens(sorted[..k], p, e.start);
    var once := Replaced(source[..e.end], e);
    ApartWidens(sorted[..k], p, |once|);
    TailCarried(once, sorted[..k], p);
    assert once == source[..e.start] + e.text;
    SplitSum(source[..e.start], e.text, p);
    assert source[..e.start][..p] == source[..p];
    assert source[..e.start][p..] == source[p..e.start];
  }

  /** An edit that starts inside its predecessor, or backwards, spoils every longer list. */
  lemma {:induction false} SpoiltStays(sorted: seq<Edit>, k: nat, n: nat, bound: int)
    requires k < n <= |sorted| && !(0 <= Position(sorted, k) <= sorted[k].start <= sorted[k].end)
    ensures !Apart(sorted[..n], bound)
    decreases n
  {
    var front := sorted[..n][..n - 1];
    assert front == sorted[..n - 1];
    if n == k + 1 {
      if k > 0 {
        assert front[|front| - 1] == sorted[k - 1];
      }
    } else {
      SpoiltStays(sorted, k, n - 1, sorted[n - 1].start);
    }
  }

  /** The library's sort, of which only this is promised: edits with equal starts may come in any order. */
  type Sorter = seq<Edit> -> seq<Edit>

  ghost predicate Arranged(edits: seq<Edit>, sorted: seq<Edit>) {
    multiset(sorted) == multiset(edits) && Sorted(sorted, ByStart())
  }

  /** The splice, for whatever order the sort gives. It refuses exactly the overlapping and the oversized results, and
      otherwise equals the edits applied one by one from the right. */
  method Splice(source: string, edits: seq<Edit>, sort: Sorter) returns (r: Result<string>)
    requires Arranged(edits, sort(edits)) && forall e :: e in edits ==> e.end <= |source|
    ensures var sorted := sort(edits);
            && (r.Overlapping? <==> !Apart(sorted, |source|))
            && (r.TooLong? <==> Apart(sorted, |source|) && |RightToLeft(source, sorted)| > ConfigResolve.MAX_FILE_BYTES)
            && (r.Ok? ==> r.value == RightToLeft(source, sorted) && |r.value| <= ConfigResolve.MAX_FILE_BYTES)
  {
    var sorted := sort(edits);
    SameElements(sorted, edits);
    var out, position := "", 0;
    for k := 0 to |sorted|
      invariant position == Position(sorted, k) && 0 <= position <= |source|
      invariant Apart(sorted[..k], position)
      invariant out == RightToLeft(source[..position], sorted[..k])
    {
      var e := sorted[k];
      assert e in sorted;
      if e.start < position || e.end < e.start {
        SpoiltStays(sorted, k, |sorted|, |source|);
        assert sorted[..|sorted|] == sorted;
        return Overlapping;
      }
      SpliceStep(source, sorted, k);
      out := out + source[position..e.start] + e.text;
      position := e.end;
    }
    assert sorted[..|sorted|] == sorted;
    TailCarried(source, sorted, position);
    out := out + source[position..];
    return if |out| > ConfigResolve.MAX_FILE_BYTES then TooLong else Ok(out);
  }

  // ----- Independence of the order of collection -----

  ghost predicate DistinctStarts(edits: seq<Edit>) {
    Distinct(edits) && forall a, b :: a in edits && b in edits && a.start == b.start ==> a == b
  }

  ghost predicate Disjoint(a: Edit, b: Edit) {
    a.end <= b.start || b.end <= a.start
  }

  /** No overlap, said without any order. */
  ghost predicate Compatible(edits: seq<Edit>, bound: int) {
    && (forall e :: e in edits ==> 0 <= e.start <= e.end <= bound)
    && (forall a, b :: a in edits && b in edits && a != b ==> Disjoint(a, b))
  }

  ghost predicate Ascending(edits: seq<Edit>) {
    forall i, j :: 0 <= i < j < |edits| ==> edits[i].start < edits[j].start
  }

  lemma ArrangedAscending(edits: seq<Edit>, sorted: seq<Edit>)
    requires DistinctStarts(edits) && Arranged(edits, sorted)
    ensures Ascending(sorted)
  {
    SameElements(sorted, edits);
    DistinctRearranged(edits, sorted);
    forall i, j | 0 <= i < j < |sorted| ensures sorted[i].start < sorted[j].start {
      assert sorted[i] in sorted && sorted[j] in sorted;
      assert ByStart()(sorted[i], sorted[j]);
    }
  }

  lemma {:induction false} ApartCompatible(sorted: seq<Edit>, bound: int)
    requires Ascending(sorted) && Apart(sorted, bound)
    ensures Compatible(sorted, bound)
    decreases |sorted|
  {
    if sorted != [] {
      var front, last := sorted[..|sorted| - 1], sorted[|sorted| - 1];
      ApartCompatible(front, last.start);
      assert forall e :: e in sorted ==> e in front || e == last;
    }
  }

  lemma {:induction false} CompatibleApart(sorted: seq<Edit>, bound: int)
    requires Ascending(sorted) && Compatible(sorted, bound)
    ensures Apart(sorted, bound)
    decreases |sorted|
  {
    if sorted != [] {
      var front, last := sorted[..|sorted| - 1], sorted[|sorted| - 1];
      assert last in sorted;
      assert forall e :: e in front ==> e in sorted;
      forall e | e in front ensures e.end <= last.start {
        assert e.start < last.start && Disjoint(e, last);
      }
      CompatibleApart(front, last.start);
    }
  }

  lemma CompatibleAlike(a: seq<Edit>, b: seq<Edit>, bound: int)
    requires multiset(a) == multiset(b) && Compatible(a, bound)
    ensures Compatible(b, bound)
  {
    SameElements(a, b);
  }

  /** The loop's check finds an overlap exactly when two of the collected ranges meet. */
  lemma RefusedExactlyOnOverlap(edits: seq<Edit>, sorted: seq<Edit>, bound: int)
    requires DistinctStarts(edits) && Arranged(edits, sorted)
    ensures Apart(sorted, bound) <==> Compatible(edits, bound)
  {
    hide Compatible, Ascending, DistinctStarts;
    ArrangedAscending(edits, sorted);
    if Apart(sorted, bound) {
      ApartCompatible(sorted, bound);
      CompatibleAlike(sorted, edits, bound);
    }
    if Compatible(edits, bound) {
      CompatibleAlike(edits, sorted, bound);
      CompatibleApart(sorted, bound);
    }
  }

  /** Neither the order in which the parser met the settings nor the choice of sort matters. */
  lemma OrderIsIrrelevant(edits: seq<Edit>, other: seq<Edit>, sorted: seq<Edit>, resorted: seq<Edit>)
    requires DistinctStarts(edits) && multiset(edits) == multiset(other)
    requires Arranged(edits, sorted) && Arranged(other, resorted)
    ensures sorted == resorted
  {
    SameElements(edits, sorted);
    assert NoTies(sorted, ByStart());
    SortedUnique(sorted, resorted, ByStart());
  }

  /** The reference sort is one of those allowed. */
  lemma SortArranges(edits: seq<Edit>)
    ensures Arranged(edits, Sort(edits, ByStart()))
  {
    SortSorted(edits, ByStart());
  }

  /** Without distinct starts they do: an insertion and a replacement at one place may come in either order, and only
      one of the two passes the check. */
  lemma EqualStartsDependOnOrder()
    ensures var insertion, replacement := Edit(0, 0, "x"), Edit(0, 1, "y");
            && Arranged([insertion, replacement], [insertion, replacement])
            && Arranged([insertion, replacement], [replacement, insertion])
            && Apart([insertion, replacement], 1) && !Apart([replacement, insertion], 1)
  {
    var insertion, replacement := Edit(0, 0, "x"), Edit(0, 1, "y");
    assert [insertion, replacement][..1] == [insertion] && [replacement, insertion][..1] == [replacement];
    assert [insertion][..0] == [];
  }

  // ----- What survives -----

  function Growth(e: Edit): int {
    |e.text| - (e.end - e.start)
  }

  /** How far the edits that end at or before `p` move it, whatever their order. */
  function Shift(edits: seq<Edit>, p: int): int {
    if edits == [] then 0
    else Shift(edits[1..], p) + if edits[0].end <= p then Growth(edits[0]) else 0
  }

  /** The byte at `p` lies in no edited range. */
  predicate Kept(edits: seq<Edit>, p: int) {
    forall e :: e in edits ==> p < e.start || e.end <= p
  }

  lemma {:induction false} ShiftConcat(a: seq<Edit>, b: seq<Edit>, p: int)
    ensures Shift(a + b, p) == Shift(a, p) + Shift(b, p)
  {
    if a == [] {
      assert a + b == b;
    } else {
      ShiftConcat(a[1..], b, p);
      assert (a + b)[1..] == a[1..] + b;
    }
  }

  lemma {:induction false} ShiftRearranged(a: seq<Edit>, b: seq<Edit>, p: int)
    requires multiset(a) == multiset(b)
    ensures Shift(a, p) == Shift(b, p)
  {
    SameElements(a, b);
    if a != [] {
      assert a[0] in a;
      var i :| 0 <= i < |b| && b[i] == a[0];
      var rest := b[..i] + b[i + 1..];
      Removed(a, b, i);
      ShiftRearranged(a[1..], rest, p);
      ShiftConcat(b[..i], b[i + 1..], p);
      ShiftConcat(b[..i], b[i..], p);
      assert b == b[..i] + b[i..] && b[i..][1..] == b[i + 1..];
    }
  }

  lemma Removed(a: seq<Edit>, b: seq<Edit>, i: nat)
    requires a != [] && i < |b| && b[i] == a[0] && multiset(a) == multiset(b)
    ensures multiset(a[1..]) == multiset(b[..i] + b[i + 1..])
  {
    TailElements(a);
    assert b[i..] == [b[i]] + b[i + 1..] && b == b[..i] + b[i..];
    assert multiset(b) == multiset(b[..i]) + multiset(b[i..]);
  }

  lemma {:induction false} ShiftLast(edits: seq<Edit>, p: int)
    requires edits != []
    ensures var front, last := edits[..|edits| - 1], edits[|edits| - 1];
            Shift(edits, p) == Shift(front, p) + if last.end <= p then Growth(last) else 0
  {
    if |edits| > 1 {
      ShiftLast(edits[1..], p);
      assert edits[1..][..|edits| - 2] == edits[..|edits| - 1][1..];
    }
  }

  /** Beyond the last range the shift no longer changes. */
  lemma {:induction false} ShiftSettles(edits: seq<Edit>, bound: int, p: int, q: int)
    requires Apart(edits, bound) && bound <= p && bound <= q
    ensures Shift(edits, p) == Shift(edits, q)
    decreases |edits|
  {
    if edits != [] {
      var last := edits[|edits| - 1];
      ShiftLast(edits, p);
      ShiftLast(edits, q);
      ShiftSettles(edits[..|edits| - 1], last.start, p, q);
    }
  }

  lemma {:induction false} SplicedLength(source: string, edits: seq<Edit>)
    requires Apart(edits, |source|)
    ensures |RightToLeft(source, edits)| == |source| + Shift(edits, |source|)
    decreases |edits|
  {
    if edits != [] {
      var last, front := edits[|edits| - 1], edits[..|edits| - 1];
      var once := Replaced(source, last);
      ApartWidens(front, last.start, |once|);
      SplicedLength(once, front);
      ShiftLast(edits, |source|);
      ShiftSettles(front, last.start, |once|, |source|);
    }
  }

  /** Byte `p` of the source is byte `p + shift` of the result. */
  ghost predicate SurvivesAt(source: string, result: string, p: int, shift: int) {
    0 <= p < |source| && 0 <= p + shift < |result| && result[p + shift] == source[p]
  }

  lemma KeptSplits(edits: seq<Edit>, p: int)
    requires edits != [] && Kept(edits, p)
    ensures Kept(edits[..|edits| - 1], p) && Kept([edits[|edits| - 1]], p)
  {
    assert forall e :: e in edits[..|edits| - 1] ==> e in edits;
    assert edits[|edits| - 1] in edits;
  }

  lemma OneByteSurvives(source: string, e: Edit, p: nat)
    requires 0 <= e.start <= e.end <= |source| && p < |source| && Kept([e], p)
    ensures p < e.start || e.end <= p
    ensures SurvivesAt(source, Replaced(source, e), p, if p < e.start then 0 else Growth(e))
  {
    assert e in [e];
  }

  lemma {:induction false} ByteSurvives(source: string, edits: seq<Edit>, p: nat)
    requires Apart(edits, |source|) && p < |source| && Kept(edits, p)
    ensures SurvivesAt(source, RightToLeft(source, edits), p, Shift(edits, p))
    decreases |edits|
  {
    hide Kept;
    if edits != [] {
      var last, front := edits[|edits| - 1], edits[..|edits| - 1];
      KeptSplits(edits, p);
      var once := Replaced(source, last);
      ApartWidens(front, last.start, |once|);
      ShiftLast(edits, p);
      OneByteSurvives(source, last, p);
      if p < last.start {
        ByteSurvives(once, front, p);
      } else {
        var q := p + Growth(last);
        KeptBeyond(front, last.start, q);
        ByteSurvives(once, front, q);
        ShiftSettles(front, last.start, p, q);
      }
    }
  }

  lemma {:induction false} KeptBeyond(edits: seq<Edit>, bound: int, p: int)
    requires Apart(edits, bound) && bound <= p
    ensures Kept(edits, p)
    decreases |edits|
  {
    if edits != [] {
      var last, front := edits[|edits| - 1], edits[..|edits| - 1];
      KeptBeyond(front, last.start, p);
      assert forall e :: e in edits ==> e in front || e == last;
    }
  }

  lemma {:induction false} ShiftKeepsOrder(edits: seq<Edit>, bound: int, p: int, q: int)
    requires Apart(edits, bound) && Kept(edits, p) && Kept(edits, q) && p < q
    ensures p + Shift(edits, p) < q + Shift(edits, q)
    decreases |edits|
  {
    if edits != [] {
      var last, front := edits[|edits| - 1], edits[..|edits| - 1];
      assert last in edits && forall e :: e in front ==> e in edits;
      ShiftLast(edits, p);
      ShiftLast(edits, q);
      if p < last.start && last.end <= q {
        KeptBeyond(front, last.start, last.start);
        ShiftKeepsOrder(front, last.start, p, last.start);
        ShiftSettles(front, last.start, last.start, q);
      } else {
        ShiftKeepsOrder(front, last.start, p, q);
      }
    }
  }

  /** Every byte outside the collected ranges survives at its shifted offset, and survivors keep their order. */
  lemma SourceSurvives(source: string, edits: seq<Edit>, sorted: seq<Edit>)
    requires multiset(sorted) == multiset(edits) && Apart(sorted, |source|)
    ensures var result := RightToLeft(source, sorted);
            && |result| == |source| + Shift(edits, |source|)
            && (forall p :: 0 <= p < |source| && Kept(edits, p) ==> SurvivesAt(source, result, p, Shift(edits, p)))
            && (forall p, q :: 0 <= p < q < |source| && Kept(edits, p) && Kept(edits, q) ==>
                  p + Shift(edits, p) < q + Shift(edits, q))
  {
    SameElements(sorted, edits);
    SplicedLength(source, sorted);
    ShiftRearranged(sorted, edits, |source|);
    forall p | 0 <= p < |source| && Kept(edits, p)
      ensures SurvivesAt(source, RightToLeft(source, sorted), p, Shift(edits, p))
    {
      ShiftRearranged(sorted, edits, p);
      ByteSurvives(source, sorted, p);
    }
    forall p, q | 0 <= p < q < |source| && Kept(edits, p) && Kept(edits, q)
      ensures p + Shift(edits, p) < q + Shift(edits, q)
    {
      ShiftRearranged(sorted, edits, p);
      ShiftRearranged(sorted, edits, q);
      ShiftKeepsOrder(sorted, |source|, p, q);
    }
  }
}
