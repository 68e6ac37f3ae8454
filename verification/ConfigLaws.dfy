/** Where the edits of a provider rewrite fall, in terms of the characters of the source and the keys of the parsed
    document (internal/config/provider_edit.go). */
module ConfigLaws {
  import opened ConfigSplice
  import opened ConfigEdits

  /** The character does not occur in source[from..stop]. */
  ghost predicate Free(source: string, c: char, from: int, stop: int) {
    forall i :: from <= i < stop && 0 <= i < |source| ==> source[i] != c
  }

  lemma {:induction false} FoundFirst(source: string, c: char, from: int, stop: int)
    requires 0 <= from <= stop <= |source|
    ensures var r := Find(source, c, from, stop);
            if r < 0 then Free(source, c, from, stop) else Free(source, c, from, r)
    decreases stop - from
  {
    if from < stop && source[from] != c {
      FoundFirst(source, c, from + 1, stop);
    }
  }

  ghost predicate BlankAt(source: string, i: int) {
    0 <= i < |source| && (source[i] == ' ' || source[i] == '\t')
  }

  lemma {:induction false} BlanksSkipped(source: string, start: int, end: int)
    requires 0 <= start <= end <= |source|
    ensures var r := SkipBlanks(source, start, end);
            (forall i :: start <= i < r ==> BlankAt(source, i)) && (r < end ==> !BlankAt(source, r))
    decreases end - start
  {
    if start < end && BlankAt(source, start) {
      BlanksSkipped(source, start + 1, end);
    }
  }

  // ----- The value of an assignment -----

  /** Position `start` is the first that is no blank behind the first equals sign of source[key..end]. */
  ghost predicate ValueStarts(source: string, key: int, start: int, end: int) {
    exists equal :: key <= equal < start <= end <= |source| && 0 <= equal && source[equal] == '='
      && Free(source, '=', key, equal)
      && (forall i :: equal < i < start ==> BlankAt(source, i)) && (start < end ==> !BlankAt(source, start))
  }

  /** An edit replaces exactly the value: nothing before it and nothing behind it. */
  lemma EditSpansValue(source: string, nodes: seq<Node>, k: nat, values: map<string, string>, e: Edit)
    requires Named(values) && EditIs(source, nodes, k, values, e)
    ensures e.end == nodes[k].end && ValueStarts(source, nodes[k].lastEnd, e.start, e.end)
  {
    hide Settled, Replacement, Path, TableAt;
    var n := nodes[k];
    var equal := Find(source, '=', n.lastEnd, n.end);
    FoundFirst(source, '=', n.lastEnd, n.end);
    BlanksSkipped(source, equal + 1, n.end);
  }

  // ----- Headers -----

  /** The line of a header whose key ends at `key` ends at `end`: the first newline behind its first closing bracket, or
      the end of the source. */
  ghost predicate HeaderLine(source: string, key: int, end: int) {
    exists closing :: 0 <= key <= closing < end <= |source| && source[closing] == ']' && Free(source, ']', key, closing)
      && Free(source, '\n', closing + 1, end) && (end < |source| ==> source[end] == '\n')
  }

  lemma HeaderLineExactly(source: string, key: int)
    requires 0 <= key <= |source|
    ensures HeaderEnd(source, key) == -1 <==> Free(source, ']', key, |source|)
    ensures HeaderEnd(source, key) != -1 ==> HeaderLine(source, key, HeaderEnd(source, key))
  {
    var closing := Find(source, ']', key, |source|);
    FoundFirst(source, ']', key, |source|);
    if closing >= 0 {
      FoundFirst(source, '\n', closing + 1, |source|);
    }
  }

  predicate ProvidersTable(n: Node) {
    n.kind.Table? && |n.keys| == 1 && n.keys[0] == "providers"
  }

  /** New lines go behind the line of the last `[providers]` header, node h; there is none when h is -1. */
  lemma {:induction false} LastHeaderCounts(source: string, nodes: seq<Node>, k: nat, h: int)
    requires k <= |nodes| && Inside(source, nodes) && -1 <= h < k && (h >= 0 ==> ProvidersTable(nodes[h]))
    requires forall j :: h < j < k ==> !ProvidersTable(nodes[j])
    ensures HeaderBefore(source, nodes, k) == if h < 0 then -1 else HeaderEnd(source, nodes[h].lastEnd)
  {
    hide HeaderEnd;
    if k > 0 && h < k - 1 {
      LastHeaderCounts(source, nodes, k - 1, h);
    }
  }

  // ----- Full keys -----

  /** Node t is the last table before node k; there is none when t is -1. */
  ghost predicate LastTable(nodes: seq<Node>, k: nat, t: int) {
    && -1 <= t < k <= |nodes| && (t >= 0 ==> nodes[t].kind.Table?)
    && forall j :: t < j < k ==> !nodes[j].kind.Table?
  }

  /** The full key of node k: its own keys behind those of the last table before it. */
  ghost predicate FullKey(nodes: seq<Node>, k: nat, path: seq<string>)
    requires k < |nodes|
  {
    exists t :: LastTable(nodes, k, t) && path == (if t < 0 then [] else nodes[t].keys) + nodes[k].keys
  }

  lemma {:induction false} TableInForce(nodes: seq<Node>, k: nat, t: int)
    requires LastTable(nodes, k, t)
    ensures TableAt(nodes, k) == if t < 0 then [] else nodes[t].keys
  {
    if k > 0 && t < k - 1 {
      TableInForce(nodes, k - 1, t);
    }
  }

  lemma {:induction false} SomeTable(nodes: seq<Node>, k: nat) returns (t: int)
    requires k <= |nodes|
    ensures LastTable(nodes, k, t)
  {
    t := k - 1;
    if k > 0 && !nodes[k - 1].kind.Table? {
      t := SomeTable(nodes, k - 1);
    }
  }

  lemma FullKeyExactly(nodes: seq<Node>, k: nat, path: seq<string>)
    requires k < |nodes|
    ensures FullKey(nodes, k, path) <==> path == Path(nodes, k)
  {
    var t := SomeTable(nodes, k);
    forall t | LastTable(nodes, k, t) ensures TableAt(nodes, k) == if t < 0 then [] else nodes[t].keys {
      TableInForce(nodes, k, t);
    }
  }

  /** Which nodes stop a rewrite, and why. */
  lemma FaultsExactly(source: string, nodes: seq<Node>, k: nat, path: seq<string>)
    requires k < |nodes| && 0 <= nodes[k].lastEnd <= |source| && FullKey(nodes, k, path)
    ensures var n, fault := nodes[k], Fault(source, nodes, k);
            var owned := n.kind.KeyValue? && path != [] && path[0] == "providers";
            var within, valued := n.lastEnd <= n.end <= |source|, !Free(source, '=', n.lastEnd, n.end);
            var settable := path in {["providers"], ["providers", "planner"], ["providers", "builder"],
                                     ["providers", "reviewer"]};
            && (Assigns(nodes, k) <==> owned)
            && (fault == IncompleteHeader <==> ProvidersTable(n) && Free(source, ']', n.lastEnd, |source|))
            && (fault == InvalidRange <==> owned && !within)
            && (fault == NoValue <==> owned && within && !valued)
            && (fault == UnsupportedShape <==> owned && within && valued && !settable)
            && (fault.Collected? ==> fault == Collected([]))
  {
    hide FullKey, HeaderEnd, Find, TableAt, Free, Settled;
    var n := nodes[k];
    FullKeyExactly(nodes, k, path);
    HeaderLineExactly(source, n.lastEnd);
    SettableExactly(path);
    if n.lastEnd <= n.end <= |source| {
      FoundFirst(source, '=', n.lastEnd, n.end);
      FoundIsThere(source, '=', n.lastEnd, n.end);
    }
  }

  lemma FoundIsThere(source: string, c: char, from: int, stop: int)
    requires 0 <= from <= stop <= |source|
    ensures Find(source, c, from, stop) >= 0 ==> !Free(source, c, from, stop)
  {
    if Find(source, c, from, stop) >= 0 {
      assert source[Find(source, c, from, stop)] == c;
    }
  }

  lemma SettableExactly(path: seq<string>)
    ensures path != [] && path[0] == "providers" ==>
              (Settled(path) != {} <==> path in {["providers"], ["providers", "planner"], ["providers", "builder"],
                                                 ["providers", "reviewer"]})
  {
    assert ROLES[0] == "planner" && ROLES[1] == "builder" && ROLES[2] == "reviewer";
    if |path| == 1 {
      assert "planner" in Settled(path) && path == [path[0]];
    } else if |path| == 2 {
      assert path == [path[0], path[1]];
      assert path[1] in ROLES ==> path[1] in Settled(path);
    }
  }
}
