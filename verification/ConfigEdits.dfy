/** Collecting the edits of a provider rewrite from the parsed configuration (internal/config/provider_edit.go):
    the parser loop up to the splice. The TOML parser's nodes and key ranges are inputs. */
module ConfigEdits {
  import ConfigResolve
  import opened ConfigSplice

  datatype Kind = Table | KeyValue | Other

  /** A parsed expression: its keys, where the last key ends, and, for an assignment, where the expression ends. */
  datatype Node = Node(kind: Kind, keys: seq<string>, lastEnd: int, end: int)

  datatype Collection = Collected(edits: seq<Edit>) | IncompleteHeader | InvalidRange | NoValue | UnsupportedShape

  const ROLES := ["planner", "builder", "reviewer"]

  /** Every role has a provider. */
  predicate Named(values: map<string, string>) {
    forall role :: role in ROLES ==> role in values
  }

  /** Every key ends inside the source. */
  predicate Inside(source: string, nodes: seq<Node>) {
    forall i :: 0 <= i < |nodes| ==> 0 <= nodes[i].lastEnd <= |source|
  }

  // ----- Source positions -----

  /** The first `c` in source[from..stop], or -1. */
  function Find(source: string, c: char, from: int, stop: int): (r: int)
    requires 0 <= from <= stop <= |source|
    ensures r == -1 || (from <= r < stop && source[r] == c)
    decreases stop - from
  {
    if from == stop then -1 else if source[from] == c then from else Find(source, c, from + 1, stop)
  }

  function SkipBlanks(source: string, start: int, end: int): (r: int)
    requires 0 <= start <= end <= |source|
    ensures start <= r <= end
    decreases end - start
  {
    if start < end && (source[start] == ' ' || source[start] == '\t') then SkipBlanks(source, start + 1, end) else start
  }

  /** The end of the line that holds a table header whose key ends at `lastEnd`; -1 without a closing bracket. */
  function HeaderEnd(source: string, lastEnd: int): (r: int)
    requires 0 <= lastEnd <= |source|
    ensures r == -1 || lastEnd < r <= |source|
  {
    var closing := Find(source, ']', lastEnd, |source|);
    if closing < 0 then -1
    else
      var newline := Find(source, '\n', closing + 1, |source|);
      if newline >= 0 then newline else |source|
  }

  /** What the parser promises: nodes come in source order, a header on a line of its own. */
  ghost predicate Parsed(source: string, nodes: seq<Node>) {
    && Inside(source, nodes)
    && (forall i, j :: 0 <= i < j < |nodes| ==> Extent(source, nodes[i]) < nodes[j].lastEnd)
  }

  function Extent(source: string, n: Node): int {
    if n.kind == KeyValue then n.end
    else if n.kind == Table && 0 <= n.lastEnd <= |source| then HeaderEnd(source, n.lastEnd)
    else -1
  }

  // ----- Which edits a document calls for -----

  /** The table in force before node k. */
  function TableAt(nodes: seq<Node>, k: nat): seq<string>
    requires k <= |nodes|
  {
    if k == 0 then [] else if nodes[k - 1].kind == Table then nodes[k - 1].keys else TableAt(nodes, k - 1)
  }

  function Path(nodes: seq<Node>, k: nat): seq<string>
    requires k < |nodes|
  {
    TableAt(nodes, k) + nodes[k].keys
  }

  predicate Assigns(nodes: seq<Node>, k: nat) {
    k < |nodes| && nodes[k].kind == KeyValue && Path(nodes, k) != [] && Path(nodes, k)[0] == "providers"
  }

  predicate ProviderHeader(n: Node) {
    n.kind == Table && n.keys == ["providers"]
  }

  function Quoted(name: string): string {
    "[\"" + name + "\"]"
  }

  function Inline(planner: string, builder: string, reviewer: string): string {
    "{planner = " + planner + ", builder = " + builder + ", reviewer = " + reviewer + "}"
  }

  /** The replacement of an assignment below `providers`. */
  function Replacement(path: seq<string>, values: map<string, string>): string
    requires Named(values)
  {
    if |path| == 2 && path[1] in ROLES then Quoted(values[path[1]])
    else Inline(Quoted(values["planner"]), Quoted(values["builder"]), Quoted(values["reviewer"]))
  }

  /** The roles an assignment settles. */
  function Settled(path: seq<string>): set<string> {
    if |path| == 1 then set r | r in ROLES else if |path| == 2 && path[1] in ROLES then {path[1]} else {}
  }

  /** Why node k stops the rewrite, if it does; Collected([]) when it does not. */
  function Fault(source: string, nodes: seq<Node>, k: nat): Collection
    requires k < |nodes| && 0 <= nodes[k].lastEnd <= |source|
  {
    var n := nodes[k];
    if ProviderHeader(n) && HeaderEnd(source, n.lastEnd) < 0 then IncompleteHeader
    else if !Assigns(nodes, k) then Collected([])
    else if n.lastEnd > n.end || n.end > |source| then InvalidRange
    else if Find(source, '=', n.lastEnd, n.end) < 0 then NoValue
    else if Settled(Path(nodes, k)) == {} then UnsupportedShape
    else Collected([])
  }

  /** The edit of a sound assignment: from behind the equals sign and the blanks after it to the end. */
  function EditOf(source: string, nodes: seq<Node>, k: nat, values: map<string, string>): (e: Edit)
    requires Assigns(nodes, k) && 0 <= nodes[k].lastEnd <= |source| && Fault(source, nodes, k).Collected?
    requires Named(values)
    ensures nodes[k].lastEnd < e.start <= e.end == nodes[k].end <= |source|
  {
    var n := nodes[k];
    Edit(SkipBlanks(source, Find(source, '=', n.lastEnd, n.end) + 1, n.end), n.end, Replacement(Path(nodes, k), values))
  }

  /** One line per role that no assignment settled. */
  function Missing(seen: set<string>, prefix: string, values: map<string, string>, k: nat): string
    requires k <= |ROLES| && Named(values)
    decreases |ROLES| - k
  {
    if k == |ROLES| then ""
    else
      (if ROLES[k] in seen then "" else RoleLine(prefix, ROLES[k], values))
      + Missing(seen, prefix, values, k + 1)
  }

  function SettledBefore(nodes: seq<Node>, k: nat): set<string>
    requires k <= |nodes|
  {
    if k == 0 then {}
    else SettledBefore(nodes, k - 1) + if Assigns(nodes, k - 1) then Settled(Path(nodes, k - 1)) else {}
  }

  /** The end of the last provider header before node k, or -1. */
  function HeaderBefore(source: string, nodes: seq<Node>, k: nat): int
    requires k <= |nodes| && Inside(source, nodes)
  {
    if k == 0 then -1
    else if ProviderHeader(nodes[k - 1]) then HeaderEnd(source, nodes[k - 1].lastEnd)
    else HeaderBefore(source, nodes, k - 1)
  }

  /** The lines for the missing roles: behind the header, at the top with full keys, or as a new table at the end. */
  function Insertion(source: string, header: int, seen: set<string>, hasProviders: bool, values: map<string,
                     string>): seq<Edit>
    requires Named(values)
  {
    var lines := Missing(seen, if header < 0 && hasProviders then "providers." else "", values, 0);
    if lines == "" then []
    else if header >= 0 then [Edit(header, header, "\n" + lines)]
    else if !hasProviders then [Edit(|source|, |source|, "\n[providers]\n" + lines)]
    else [Edit(0, 0, lines)]
  }

  /** The edits are those of exactly the assignments before node k, in order; `owner` names the assignments. */
  ghost predicate Owned(source: string, nodes: seq<Node>, k: nat, values: map<string, string>, edits: seq<Edit>,
                        owner: seq<nat>)
    requires k <= |nodes| && Named(values)
  {
    && |owner| == |edits|
    && (forall a :: 0 <= a < |owner| ==> owner[a] < k && EditIs(source, nodes, owner[a], values, edits[a]))
    && (forall a, b :: 0 <= a < b < |owner| ==> owner[a] < owner[b])
    && (forall i :: 0 <= i < k && Assigns(nodes, i) ==> i in owner)
  }

  ghost predicate EditIs(source: string, nodes: seq<Node>, k: nat, values: map<string, string>, e: Edit)
    requires Named(values)
  {
    && Assigns(nodes, k) && 0 <= nodes[k].lastEnd <= |source| && Fault(source, nodes, k).Collected?
    && e == EditOf(source, nodes, k, values)
  }

  /** The insertion a document calls for, if any. */
  function Extra(source: string, nodes: seq<Node>, hasProviders: bool, values: map<string, string>): seq<Edit>
    requires Inside(source, nodes) && Named(values)
  {
    Insertion(source, HeaderBefore(source, nodes, |nodes|), SettledBefore(nodes, |nodes|), hasProviders, values)
  }

  /** The whole list the loop hands to the splice. */
  ghost predicate Rewrites(source: string, nodes: seq<Node>, hasProviders: bool, values: map<string, string>,
                           edits: seq<Edit>)
    requires Inside(source, nodes)
    requires Named(values)
  {
    exists base, owner ::
      && Owned(source, nodes, |nodes|, values, base, owner)
      && edits == base + Extra(source, nodes, hasProviders, values)
  }

  /** One assignment below `providers`. */
  method ReadAssignment(source: string, nodes: seq<Node>, k: nat, path: seq<string>, values: map<string,
                        string>) returns (r: Collection)
    requires Assigns(nodes, k) && path == Path(nodes, k) && 0 <= nodes[k].lastEnd <= |source|
    requires Named(values)
    ensures r.Collected? == Fault(source, nodes, k).Collected?
    ensures if r.Collected? then |r.edits| == 1 && EditIs(source, nodes, k, values, r.edits[0])
            else r == Fault(source, nodes, k)
  {
    var n := nodes[k];
    if n.lastEnd > n.end || n.end > |source| {
      return InvalidRange;
    }
    var equal := Find(source, '=', n.lastEnd, n.end);
    if equal < 0 {
      return NoValue;
    }
    var start := SkipBlanks(source, equal + 1, n.end);
    if Settled(path) == {} {
      return UnsupportedShape;
    }
    return Collected([Edit(start, n.end, Replacement(path, values))]);
  }

  /** Nodes that are no assignment below `providers` stop nothing but for a header without its bracket. */
  lemma OtherFaults(source: string, nodes: seq<Node>, k: nat)
    requires k < |nodes| && 0 <= nodes[k].lastEnd <= |source| && !Assigns(nodes, k)
    ensures Fault(source, nodes, k) ==
              if ProviderHeader(nodes[k]) && HeaderEnd(source, nodes[k].lastEnd) < 0 then IncompleteHeader
              else Collected([])
  {
  }

  lemma OwnedSkips(source: string, nodes: seq<Node>, k: nat, values: map<string, string>, edits: seq<Edit>,
                   owner: seq<nat>)
    requires k < |nodes| && Named(values)
    requires Owned(source, nodes, k, values, edits, owner) && !Assigns(nodes, k)
    ensures Owned(source, nodes, k + 1, values, edits, owner)
  {
  }

  lemma OwnedNone(source: string, nodes: seq<Node>, values: map<string, string>)
    requires Named(values)
    ensures Owned(source, nodes, 0, values, [], [])
  {
  }

  /** The rewrite stops at node k, the first with a fault. */
  ghost predicate StopsAt(source: string, nodes: seq<Node>, k: nat, r: Collection)
    requires Inside(source, nodes)
  {
    && k < |nodes| && r == Fault(source, nodes, k) && !r.Collected?
    && forall j :: 0 <= j < k ==> Fault(source, nodes, j).Collected?
  }

  /** Some node cannot be rewritten. */
  ghost predicate Faulty(source: string, nodes: seq<Node>)
    requires Inside(source, nodes)
  {
    exists k :: 0 <= k < |nodes| && !Fault(source, nodes, k).Collected?
  }

  /** Collects one edit for every provider assignment and one insertion for the roles still missing, or reports the
      first node that cannot be rewritten. */
  method CollectEdits(source: string, nodes: seq<Node>, hasProviders: bool, values: map<string,
                      string>) returns (r: Collection)
    requires Inside(source, nodes)
    requires Named(values)
    ensures r.Collected? <==> !Faulty(source, nodes)
    ensures if r.Collected? then Rewrites(source, nodes, hasProviders, values, r.edits)
            else exists k: nat :: StopsAt(source, nodes, k, r)
  {
    hide Fault, Owned, EditIs, HeaderEnd, Settled, Insertion;
    var edits, table, seen, headerEnd := [], [], {}, -1;
    ghost var owner: seq<nat> := [];
    OwnedNone(source, nodes, values);
    for k := 0 to |nodes|
      invariant forall j :: 0 <= j < k ==> Fault(source, nodes, j).Collected?
      invariant table == TableAt(nodes, k) && seen == SettledBefore(nodes, k)
      invariant headerEnd == HeaderBefore(source, nodes, k)
      invariant Owned(source, nodes, k, values, edits, owner)
    {
      var n := nodes[k];
      if n.kind == KeyValue && table + n.keys != [] && (table + n.keys)[0] == "providers" {
        var path := table + n.keys;
        var one := ReadAssignment(source, nodes, k, path, values);
        if !one.Collected? {
          assert StopsAt(source, nodes, k, one);
          return one;
        }
        seen := seen + Settled(path);
        OwnedNext(source, nodes, k, values, edits, owner, one.edits[0]);
        edits, owner := edits + [one.edits[0]], owner + [k];
      } else {
        OtherFaults(source, nodes, k);
        OwnedSkips(source, nodes, k, values, edits, owner);
        if n.kind == Table {
          table := n.keys;
          if n.keys == ["providers"] {
            headerEnd := HeaderEnd(source, n.lastEnd);
            if headerEnd < 0 {
              assert StopsAt(source, nodes, k, IncompleteHeader);
              return IncompleteHeader;
            }
          }
        }
      }
    }
    return Collected(edits + Insertion(source, headerEnd, seen, hasProviders, values));
  }

  lemma OwnedNext(source: string, nodes: seq<Node>, k: nat, values: map<string, string>, edits: seq<Edit>,
                  owner: seq<nat>, e: Edit)
    requires k < |nodes| && Named(values)
    requires Owned(source, nodes, k, values, edits, owner) && EditIs(source, nodes, k, values, e)
    ensures Owned(source, nodes, k + 1, values, edits + [e], owner + [k])
  {
    var longer := owner + [k];
    forall i | 0 <= i < k + 1 && Assigns(nodes, i) ensures i in longer {
      if i < k {
        assert i in owner;
      } else {
        assert longer[|owner|] == i;
      }
    }
  }

  // ----- Every role is set -----

  ghost predicate Contains(text: string, part: string) {
    exists before, after :: text == before + part + after
  }

  lemma ContainsAround(before: string, part: string, after: string, inner: string)
    requires Contains(part, inner)
    ensures Contains(before + part + after, inner)
  {
    var x, y :| part == x + inner + y;
    assert before + part + after == (before + x) + inner + (y + after);
  }

  function RoleLine(prefix: string, role: string, values: map<string, string>): string
    requires role in values
  {
    prefix + role + " = " + Quoted(values[role]) + "\n"
  }

  lemma RoleLineBinds(prefix: string, role: string, values: map<string, string>)
    requires role in values
    ensures RoleLine(prefix, role, values) == prefix + Binding(role, values[role]) + "\n"
  {
    BindingIs(role, values[role]);
  }

  /** The inserted lines: one for each unsettled role and none for a settled one, in the order of the roles. */
  lemma MissingLines(seen: set<string>, prefix: string, values: map<string, string>)
    requires Named(values)
    ensures Missing(seen, prefix, values, 0) ==
              (if "planner" in seen then "" else prefix + Binding("planner", values["planner"]) + "\n")
              + (if "builder" in seen then "" else prefix + Binding("builder", values["builder"]) + "\n")
              + (if "reviewer" in seen then "" else prefix + Binding("reviewer", values["reviewer"]) + "\n")
  {
    hide RoleLine, Binding;
    RoleLineBinds(prefix, "planner", values);
    RoleLineBinds(prefix, "builder", values);
    RoleLineBinds(prefix, "reviewer", values);
    assert Missing(seen, prefix, values, 3) == "";
    var third := if "reviewer" in seen then "" else RoleLine(prefix, "reviewer", values);
    assert third + "" == third && Missing(seen, prefix, values, 2) == third;
    var second := if "builder" in seen then "" else RoleLine(prefix, "builder", values);
    assert Missing(seen, prefix, values, 1) == second + third;
  }

  lemma {:induction false} MissingHasLine(seen: set<string>, prefix: string, values: map<string, string>, k: nat,
                                          r: nat)
    requires k <= r < |ROLES| && ROLES[r] !in seen && Named(values)
    ensures Contains(Missing(seen, prefix, values, k), RoleLine(prefix, ROLES[r], values))
    decreases |ROLES| - k
  {
    hide Contains, RoleLine;
    var line := RoleLine(prefix, ROLES[r], values);
    var head := if ROLES[k] in seen then "" else RoleLine(prefix, ROLES[k], values);
    var tail := Missing(seen, prefix, values, k + 1);
    assert Missing(seen, prefix, values, k) == head + tail;
    assert "" + head + tail == head + tail == head + tail + "";
    if k == r {
      ContainsItself(line);
      ContainsAround("", head, tail, line);
    } else {
      MissingHasLine(seen, prefix, values, k + 1, r);
      ContainsAround(head, tail, "", line);
    }
  }

  lemma {:induction false} SettledByAssignment(nodes: seq<Node>, k: nat, role: string)
    requires k <= |nodes| && role in SettledBefore(nodes, k)
    ensures exists i :: 0 <= i < k && Assigns(nodes, i) && role in Settled(Path(nodes, i))
  {
    if !(Assigns(nodes, k - 1) && role in Settled(Path(nodes, k - 1))) {
      SettledByAssignment(nodes, k - 1, role);
    }
  }

  /** A role with its provider, as a TOML key with a one-element array. */
  function Binding(role: string, provider: string): string {
    role + " = [\"" + provider + "\"]"
  }

  lemma InlineBinds(planner: string, builder: string, reviewer: string)
    ensures var text := Inline(Quoted(planner), Quoted(builder), Quoted(reviewer));
            && Contains(text, Binding("planner", planner)) && Contains(text, Binding("builder", builder))
            && Contains(text, Binding("reviewer", reviewer))
  {
    hide Inline, Quoted, Binding;
    InlineIsBindings(planner, builder, reviewer);
    Surrounds("{", Binding("planner", planner), ", ", Binding("builder", builder), ", ",
              Binding("reviewer", reviewer), "}");
  }

  lemma Surrounds(o: string, p: string, m: string, b: string, n: string, w: string, c: string)
    ensures var text := o + p + m + b + n + w + c; Contains(text, p) && Contains(text, b) && Contains(text, w)
  {
    var text := o + p + m + b + n + w + c;
    assert text == o + p + (m + b + n + w + c);
    assert text == (o + p + m) + b + (n + w + c);
    assert text == (o + p + m + b + n) + w + c;
  }

  lemma Regroup(o: string, k: string, p: string, m: string, l: string, b: string, n: string, j: string, w: string,
                c: string)
    ensures (o + k) + p + (m + l) + b + (n + j) + w + c == o + (k + p) + m + (l + b) + n + (j + w) + c
  {
  }

  /** The inline table is the three bindings, in order, between braces. */
  lemma InlineIsBindings(planner: string, builder: string, reviewer: string)
    ensures Inline(Quoted(planner), Quoted(builder), Quoted(reviewer)) ==
              "{" + Binding("planner", planner) + ", " + Binding("builder", builder) + ", "
              + Binding("reviewer", reviewer) + "}"
  {
    hide Quoted, Binding;
    var p, b, w := Quoted(planner), Quoted(builder), Quoted(reviewer);
    BindingIs("planner", planner);
    BindingIs("builder", builder);
    BindingIs("reviewer", reviewer);
    var keyP, keyB, keyW := "planner" + " = ", "builder" + " = ", "reviewer" + " = ";
    assert "{planner = " == "{" + keyP && ", builder = " == ", " + keyB && ", reviewer = " == ", " + keyW;
    Regroup("{", keyP, p, ", ", keyB, b, ", ", keyW, w, "}");
  }

  lemma BindingIs(role: string, provider: string)
    ensures Binding(role, provider) == role + " = " + Quoted(provider)
  {
  }

  lemma ContainsItself(text: string)
    ensures Contains(text, text)
  {
    assert text == "" + text + "";
  }

  /** The edit replaces the role's own assignment by its provider, or the whole inline table by one that binds the role
      to its provider. */
  ghost predicate ReplacesRole(source: string, nodes: seq<Node>, values: map<string, string>, role: string, e: Edit)
    requires Named(values) && role in values
  {
    exists i: nat :: EditIs(source, nodes, i, values, e) && Binds(Path(nodes, i), e.text, role, values[role])
  }

  ghost predicate Binds(path: seq<string>, text: string, role: string, provider: string) {
    || (path == ["providers", role] && text == "[\"" + provider + "\"]")
    || (path == ["providers"] && Contains(text, Binding(role, provider)))
  }

  lemma ReplacementBinds(path: seq<string>, values: map<string, string>, role: string)
    requires Named(values) && role in Settled(path) && path != [] && path[0] == "providers"
    ensures role in values && Binds(path, Replacement(path, values), role, values[role])
  {
    hide Contains, Inline, Binding;
    InlineBinds(values["planner"], values["builder"], values["reviewer"]);
    if |path| == 2 {
      assert path == ["providers", role];
    } else {
      assert path == ["providers"];
    }
  }

  /** The edit inserts the role's own line, with its full key outside the providers table. */
  ghost predicate InsertsRole(source: string, nodes: seq<Node>, hasProviders: bool, values: map<string, string>,
                              role: string, e: Edit)
    requires Inside(source, nodes) && Named(values) && role in values
  {
    var header := HeaderBefore(source, nodes, |nodes|);
    && e.start == e.end == (if header >= 0 then header else if hasProviders then 0 else |source|)
    && (header < 0 && !hasProviders ==> "\n[providers]\n" <= e.text)
    && Contains(e.text, (if header < 0 && hasProviders then "providers." else "") + Binding(role, values[role]) + "\n")
  }

  lemma SettledRoleIsReplaced(source: string, nodes: seq<Node>, values: map<string, string>, base: seq<Edit>,
                              owner: seq<nat>, role: string)
    requires Inside(source, nodes) && Named(values) && role in ROLES && role in SettledBefore(nodes, |nodes|)
    requires Owned(source, nodes, |nodes|, values, base, owner)
    ensures exists e :: e in base && ReplacesRole(source, nodes, values, role, e)
  {
    hide Settled, Replacement, Binds, Fault, ROLES;
    SettledByAssignment(nodes, |nodes|, role);
    var i :| 0 <= i < |nodes| && Assigns(nodes, i) && role in Settled(Path(nodes, i));
    assert i in owner;
    var a :| 0 <= a < |owner| && owner[a] == i;
    assert EditIs(source, nodes, i, values, base[a]);
    ReplacementBinds(Path(nodes, i), values, role);
    assert ReplacesRole(source, nodes, values, role, base[a]) && base[a] in base;
  }

  lemma MissingRoleIsInserted(source: string, nodes: seq<Node>, hasProviders: bool, values: map<string, string>, r: nat)
    requires Inside(source, nodes) && Named(values) && r < |ROLES| && ROLES[r] !in SettledBefore(nodes, |nodes|)
    ensures var header, seen := HeaderBefore(source, nodes, |nodes|), SettledBefore(nodes, |nodes|);
            var extra := Insertion(source, header, seen, hasProviders, values);
            |extra| == 1 && InsertsRole(source, nodes, hasProviders, values, ROLES[r], extra[0])
  {
    hide Missing, SettledBefore, HeaderBefore, Contains, RoleLine, Binding;
    var header, seen := HeaderBefore(source, nodes, |nodes|), SettledBefore(nodes, |nodes|);
    var prefix := if header < 0 && hasProviders then "providers." else "";
    RoleLineBinds(prefix, ROLES[r], values);
    var lines, line := Missing(seen, prefix, values, 0), RoleLine(prefix, ROLES[r], values);
    MissingHasLine(seen, prefix, values, 0, r);
    ContainsSomething(lines, prefix, ROLES[r], values);
    ContainsAround("\n", lines, "", line);
    ContainsAround("\n[providers]\n", lines, "", line);
    assert "\n" + lines + "" == "\n" + lines && "\n[providers]\n" + lines + "" == "\n[providers]\n" + lines;
  }

  /** Among the collected edits, each role has one that replaces its assignment by a text with its provider, or one that
      inserts its line. */
  lemma EveryRoleIsSet(source: string, nodes: seq<Node>, hasProviders: bool, values: map<string, string>, r: nat,
                       edits: seq<Edit>)
    requires Inside(source, nodes) && Named(values) && r < |ROLES|
    requires Rewrites(source, nodes, hasProviders, values, edits)
    ensures exists e :: e in edits && (|| ReplacesRole(source, nodes, values, ROLES[r], e)
                                       || InsertsRole(source, nodes, hasProviders, values, ROLES[r], e))
  {
    hide Insertion, SettledBefore, HeaderBefore, Owned, ReplacesRole, InsertsRole;
    var header, seen := HeaderBefore(source, nodes, |nodes|), SettledBefore(nodes, |nodes|);
    var extra := Insertion(source, header, seen, hasProviders, values);
    var base: seq<Edit>, owner: seq<nat> :| Owned(source, nodes, |nodes|, values, base, owner) && edits == base + extra;
    if ROLES[r] in seen {
      SettledRoleIsReplaced(source, nodes, values, base, owner, ROLES[r]);
      var e :| e in base && ReplacesRole(source, nodes, values, ROLES[r], e);
      assert e in edits;
    } else {
      MissingRoleIsInserted(source, nodes, hasProviders, values, r);
      assert edits[|base|] == extra[0];
    }
  }

  // ----- A reader of the inline table -----

  function Until(s: string, c: char): string {
    if s == "" || s[0] == c then "" else [s[0]] + Until(s[1..], c)
  }

  function Behind(s: string, c: char): string {
    if s == "" then "" else if s[0] == c then s[1..] else Behind(s[1..], c)
  }

  function Trimmed(s: string): (r: string)
    ensures |r| <= |s|
  {
    if s != "" && s[0] == ' ' then Trimmed(s[1..]) else s
  }

  lemma {:induction false} BehindShorter(s: string, c: char)
    ensures s != "" ==> |Behind(s, c)| < |s|
  {
    if s != "" && s[0] != c {
      BehindShorter(s[1..], c);
    }
  }

  /** Key and value of the entries between commas. */
  function Entries(s: string): seq<(string, string)>
    decreases |s|
  {
    if s == "" then []
    else
      var entry := Trimmed(Until(s, ','));
      BehindShorter(s, ',');
      [(Until(entry, ' '), Trimmed(Behind(entry, '=')))] + Entries(Behind(s, ','))
  }

  function ReadInline(text: string): seq<(string, string)> {
    if |text| >= 2 && text[0] == '{' && text[|text| - 1] == '}' then Entries(text[1..|text| - 1]) else []
  }

  lemma {:induction false} Divides(a: string, c: char, b: string)
    requires c !in a
    ensures Until(a + [c] + b, c) == a && Behind(a + [c] + b, c) == b
  {
    var s := a + [c] + b;
    if a != "" {
      Divides(a[1..], c, b);
      assert s[1..] == a[1..] + [c] + b && a == [a[0]] + a[1..];
    } else {
      assert s[1..] == b;
    }
  }

  lemma {:induction false} DividesNot(a: string, c: char)
    requires c !in a
    ensures Until(a, c) == a && Behind(a, c) == ""
  {
    if a != "" {
      DividesNot(a[1..], c);
      assert a == [a[0]] + a[1..];
    }
  }

  /** A word without the characters the table gives a meaning. */
  predicate Word(s: string) {
    s != "" && ',' !in s && '=' !in s && ' ' !in s
  }

  lemma OneEntry(role: string, provider: string)
    requires Word(role) && Word(provider)
    ensures var entry := Binding(role, provider);
            && ',' !in entry && Trimmed(entry) == entry && Trimmed(" " + entry) == entry
            && Until(entry, ' ') == role && Trimmed(Behind(entry, '=')) == "[\"" + provider + "\"]"
  {
    var value := "[\"" + provider + "\"]";
    var entry := Binding(role, provider);
    assert entry == role + [' '] + ("= " + value);
    Divides(role, ' ', "= " + value);
    assert entry == (role + " ") + ['='] + (" " + value);
    Divides(role + " ", '=', " " + value);
    assert (" " + value)[1..] == value && value[0] == '[' && Trimmed(value) == value;
    assert entry[0] == role[0] && (" " + entry)[1..] == entry;
  }

  lemma RolesAreWords()
    ensures Word("planner") && Word("builder") && Word("reviewer")
  {
  }

  /** Reading the inline table back gives each role its own provider. */
  lemma InlineReadsBack(planner: string, builder: string, reviewer: string)
    requires Word(planner) && Word(builder) && Word(reviewer)
    ensures ReadInline(Inline(Quoted(planner), Quoted(builder), Quoted(reviewer))) ==
              [("planner", "[\"" + planner + "\"]"), ("builder", "[\"" + builder + "\"]"),
               ("reviewer", "[\"" + reviewer + "\"]")]
  {
    hide Binding, Inline, Quoted, Word;
    var p, b, w := Binding("planner", planner), Binding("builder", builder), Binding("reviewer", reviewer);
    var text := Inline(Quoted(planner), Quoted(builder), Quoted(reviewer));
    RolesAreWords();
    OneEntry("planner", planner);
    OneEntry("builder", builder);
    OneEntry("reviewer", reviewer);
    InlineIsBindings(planner, builder, reviewer);
    assert text == "{" + (p + [','] + (" " + b + [','] + (" " + w))) + "}";
    assert text[1..|text| - 1] == p + [','] + (" " + b + [','] + (" " + w));
    EntriesStep(p, " " + b + [','] + (" " + w));
    EntriesStep(" " + b, " " + w);
    EntriesLast(" " + w);
  }

  /** What one entry says. */
  function EntryOf(entry: string): (string, string) {
    (Until(Trimmed(entry), ' '), Trimmed(Behind(Trimmed(entry), '=')))
  }

  lemma EntriesStep(entry: string, rest: string)
    requires ',' !in entry
    ensures Entries(entry + [','] + rest) == [EntryOf(entry)] + Entries(rest)
  {
    Divides(entry, ',', rest);
  }

  lemma EntriesLast(entry: string)
    requires ',' !in entry && entry != ""
    ensures Entries(entry) == [EntryOf(entry)]
  {
    DividesNot(entry, ',');
    assert Entries("") == [];
  }

  // ----- A document calls for one list of edits -----

  lemma GreatestIsLast(owner: seq<nat>, k: nat, a: nat)
    requires a < |owner| && owner[a] == k - 1 && forall i :: 0 <= i < |owner| ==> owner[i] < k
    requires forall i, j :: 0 <= i < j < |owner| ==> owner[i] < owner[j]
    ensures a == |owner| - 1
  {
    assert owner[|owner| - 1] < k;
  }

  lemma OwnedFront(source: string, nodes: seq<Node>, k: nat, values: map<string, string>, edits: seq<Edit>,
                   owner: seq<nat>)
    requires 0 < k <= |nodes| && Named(values) && Owned(source, nodes, k, values, edits, owner)
    ensures if Assigns(nodes, k - 1)
            then |owner| == |edits| > 0 && owner[|owner| - 1] == k - 1
                 && EditIs(source, nodes, k - 1, values, edits[|edits| - 1])
                 && Owned(source, nodes, k - 1, values, edits[..|edits| - 1], owner[..|owner| - 1])
            else Owned(source, nodes, k - 1, values, edits, owner)
  {
    hide EditIs, Assigns;
    if Assigns(nodes, k - 1) {
      assert k - 1 in owner;
      var a :| 0 <= a < |owner| && owner[a] == k - 1;
      GreatestIsLast(owner, k, a);
      forall i | 0 <= i < k - 1 && Assigns(nodes, i) ensures i in owner[..|owner| - 1] {
        assert i in owner;
      }
    } else {
      OwnersAssign(source, nodes, k, values, edits, owner);
    }
  }

  lemma OwnersAssign(source: string, nodes: seq<Node>, k: nat, values: map<string, string>, edits: seq<Edit>,
                     owner: seq<nat>)
    requires k <= |nodes| && Named(values) && Owned(source, nodes, k, values, edits, owner)
    ensures forall a :: 0 <= a < |owner| ==> Assigns(nodes, owner[a])
  {
  }

  lemma OneEdit(source: string, nodes: seq<Node>, k: nat, values: map<string, string>, e: Edit, f: Edit)
    requires Named(values) && EditIs(source, nodes, k, values, e) && EditIs(source, nodes, k, values, f)
    ensures e == f
  {
  }

  lemma {:induction false} OwnedUnique(source: string, nodes: seq<Node>, k: nat, values: map<string, string>,
                                       a: seq<Edit>, b: seq<Edit>, ownerA: seq<nat>, ownerB: seq<nat>)
    requires k <= |nodes| && Named(values)
    requires Owned(source, nodes, k, values, a, ownerA) && Owned(source, nodes, k, values, b, ownerB)
    ensures a == b
    decreases k
  {
    hide Assigns, Owned, EditIs;
    if k == 0 {
      NoOwners(source, nodes, values, a, ownerA);
      NoOwners(source, nodes, values, b, ownerB);
    } else {
      OwnedFront(source, nodes, k, values, a, ownerA);
      OwnedFront(source, nodes, k, values, b, ownerB);
      if Assigns(nodes, k - 1) {
        OwnedUnique(source, nodes, k - 1, values, a[..|a| - 1], b[..|b| - 1],
                    ownerA[..|ownerA| - 1], ownerB[..|ownerB| - 1]);
        OneEdit(source, nodes, k - 1, values, a[|a| - 1], b[|b| - 1]);
        assert a == a[..|a| - 1] + [a[|a| - 1]] && b == b[..|b| - 1] + [b[|b| - 1]];
      } else {
        OwnedUnique(source, nodes, k - 1, values, a, b, ownerA, ownerB);
      }
    }
  }

  lemma FirstOwner(source: string, nodes: seq<Node>, k: nat, values: map<string, string>, edits: seq<Edit>,
                   owner: seq<nat>)
    requires k <= |nodes| && Named(values) && Owned(source, nodes, k, values, edits, owner)
    ensures |edits| == |owner| && (owner == [] || owner[0] < k)
  {
  }

  lemma NoOwners(source: string, nodes: seq<Node>, values: map<string, string>, edits: seq<Edit>, owner: seq<nat>)
    requires Named(values) && Owned(source, nodes, 0, values, edits, owner)
    ensures edits == []
  {
    hide Owned;
    FirstOwner(source, nodes, 0, values, edits, owner);
  }

  lemma RewritesUnique(source: string, nodes: seq<Node>, hasProviders: bool, values: map<string, string>,
                       a: seq<Edit>, b: seq<Edit>)
    requires Inside(source, nodes) && Named(values)
    requires Rewrites(source, nodes, hasProviders, values, a) && Rewrites(source, nodes, hasProviders, values, b)
    ensures a == b
  {
    hide Extra, Owned;
    var extra := Extra(source, nodes, hasProviders, values);
    var baseA: seq<Edit>, ownerA: seq<nat> :|
      Owned(source, nodes, |nodes|, values, baseA, ownerA) && a == baseA + extra;
    var baseB: seq<Edit>, ownerB: seq<nat> :|
      Owned(source, nodes, |nodes|, values, baseB, ownerB) && b == baseB + extra;
    OwnedUnique(source, nodes, |nodes|, values, baseA, baseB, ownerA, ownerB);
  }

  lemma ContainsSomething(lines: string, prefix: string, role: string, values: map<string, string>)
    requires role in values && Contains(lines, RoleLine(prefix, role, values))
    ensures lines != ""
  {
    assert |RoleLine(prefix, role, values)| > 0;
  }

  // ----- The collected edits never meet -----

  /** Decoder and parser agree on whether the document has any provider setting. */
  ghost predicate Agrees(nodes: seq<Node>, hasProviders: bool) {
    !hasProviders ==> forall k: nat :: !Assigns(nodes, k)
  }

  /** Strictly apart, with a gap before every start. */
  ghost predicate Spaced(edits: seq<Edit>) {
    && (forall a :: 0 <= a < |edits| ==> 0 < edits[a].start <= edits[a].end)
    && (forall a, b :: 0 <= a < b < |edits| ==> edits[a].end < edits[b].start)
  }

  lemma OwnedSpaced(source: string, nodes: seq<Node>, values: map<string, string>, edits: seq<Edit>, owner: seq<nat>)
    requires Parsed(source, nodes) && Named(values)
    requires Owned(source, nodes, |nodes|, values, edits, owner)
    ensures Spaced(edits) && forall a :: 0 <= a < |edits| ==> edits[a].end <= |source|
  {
    hide Fault, ROLES, EditOf, Settled;
    forall a | 0 <= a < |edits| ensures 0 < edits[a].start <= edits[a].end <= |source| {
      OwnedRange(source, nodes, owner[a], values, edits[a]);
    }
    forall a, b | 0 <= a < b < |edits| ensures edits[a].end < edits[b].start {
      OwnedRange(source, nodes, owner[a], values, edits[a]);
      OwnedRange(source, nodes, owner[b], values, edits[b]);
      assert Extent(source, nodes[owner[a]]) < nodes[owner[b]].lastEnd;
    }
  }

  lemma OwnedRange(source: string, nodes: seq<Node>, k: nat, values: map<string, string>, e: Edit)
    requires Named(values) && EditIs(source, nodes, k, values, e)
    ensures k < |nodes| && 0 <= nodes[k].lastEnd < e.start <= e.end == Extent(source, nodes[k]) <= |source|
  {
  }

  ghost predicate HeaderAt(source: string, nodes: seq<Node>, h: nat, end: int) {
    h < |nodes| && nodes[h].kind == Table && end == Extent(source, nodes[h])
  }

  /** The header found is one of the nodes. */
  lemma {:induction false} HeaderIsANode(source: string, nodes: seq<Node>, k: nat)
    requires k <= |nodes| && Parsed(source, nodes) && HeaderBefore(source, nodes, k) >= 0
    ensures exists h: nat :: h < k && HeaderAt(source, nodes, h, HeaderBefore(source, nodes, k))
  {
    if !ProviderHeader(nodes[k - 1]) {
      HeaderIsANode(source, nodes, k - 1);
      var h: nat :| h < k - 1 && HeaderAt(source, nodes, h, HeaderBefore(source, nodes, k - 1));
    } else {
      assert HeaderAt(source, nodes, k - 1, HeaderBefore(source, nodes, k));
    }
  }

  /** Every provider value lies strictly on one side of the header's line end. */
  lemma HeaderBetween(source: string, nodes: seq<Node>, values: map<string, string>, edits: seq<Edit>,
                      owner: seq<nat>, a: nat)
    requires Parsed(source, nodes) && Named(values)
    requires Owned(source, nodes, |nodes|, values, edits, owner) && a < |edits|
    requires HeaderBefore(source, nodes, |nodes|) >= 0
    ensures var header := HeaderBefore(source, nodes, |nodes|);
            header <= |source| && (edits[a].end < header || header < edits[a].start)
  {
    hide Fault, ROLES, EditOf, Settled, HeaderBefore;
    HeaderIsANode(source, nodes, |nodes|);
    var h: nat :| h < |nodes| && HeaderAt(source, nodes, h, HeaderBefore(source, nodes, |nodes|));
    OwnedRange(source, nodes, owner[a], values, edits[a]);
    HeaderRange(source, nodes[h]);
    assert h != owner[a];
    assert h < owner[a] ==> Extent(source, nodes[h]) < nodes[owner[a]].lastEnd;
    assert owner[a] < h ==> Extent(source, nodes[owner[a]]) < nodes[h].lastEnd;
  }

  lemma HeaderRange(source: string, n: Node)
    requires n.kind == Table && 0 <= n.lastEnd <= |source| && Extent(source, n) >= 0
    ensures n.lastEnd < Extent(source, n) <= |source|
  {
  }

  /** Spaced edits, with at most one insertion outside all of them, have distinct starts and never overlap. */
  lemma SpacedWithInsertion(source: string, base: seq<Edit>, extra: seq<Edit>)
    requires Spaced(base) && (forall a :: 0 <= a < |base| ==> base[a].end <= |source|)
    requires |extra| <= 1
    requires forall e :: e in extra ==> 0 <= e.start == e.end <= |source|
    requires forall e, a :: e in extra && 0 <= a < |base| ==> base[a].end < e.start || e.start < base[a].start
    ensures DistinctStarts(base + extra) && Compatible(base + extra, |source|)
  {
    var all := base + extra;
    assert forall k :: |base| <= k < |all| ==> all[k] == extra[k - |base|] && all[k] in extra;
    forall i, j | 0 <= i < j < |all| ensures all[i].start != all[j].start && Disjoint(all[i], all[j]) {
      if j < |base| {
        assert base[i].end < base[j].start;
      } else {
        assert all[j] in extra && i < |base|;
      }
    }
    PairwiseApart(all, |source|);
  }

  lemma PairwiseApart(all: seq<Edit>, bound: int)
    requires forall k :: 0 <= k < |all| ==> 0 <= all[k].start <= all[k].end <= bound
    requires forall i, j :: 0 <= i < j < |all| ==> all[i].start != all[j].start && Disjoint(all[i], all[j])
    ensures DistinctStarts(all) && Compatible(all, bound)
  {
    forall x, y | x in all && y in all && x != y ensures x.start != y.start && Disjoint(x, y) {
      var i :| 0 <= i < |all| && all[i] == x;
      var j :| 0 <= j < |all| && all[j] == y;
      assert if i < j then Disjoint(all[i], all[j]) else Disjoint(all[j], all[i]);
    }
  }

  lemma InsertionShape(source: string, header: int, seen: set<string>, hasProviders: bool, values: map<string, string>)
    requires Named(values)
    ensures var extra := Insertion(source, header, seen, hasProviders, values);
            var at := if header >= 0 then header else if !hasProviders then |source| else 0;
            |extra| <= 1 && forall e :: e in extra ==> e.start == e.end == at
  {
    hide Missing, ROLES;
  }

  /** Whatever document was parsed, the collected edits have distinct starts, stay inside it and never overlap: the
      splice cannot refuse them, and the order of collection does not matter. */
  lemma CollectedNeverOverlap(source: string, nodes: seq<Node>, hasProviders: bool, values: map<string, string>,
                              edits: seq<Edit>)
    requires Parsed(source, nodes) && Agrees(nodes, hasProviders) && Named(values)
    requires Rewrites(source, nodes, hasProviders, values, edits)
    ensures DistinctStarts(edits) && Compatible(edits, |source|)
    ensures forall sorted :: Arranged(edits, sorted) ==> Apart(sorted, |source|)
  {
    hide Insertion, ROLES, SettledBefore, HeaderBefore, EditIs;
    var header, seen := HeaderBefore(source, nodes, |nodes|), SettledBefore(nodes, |nodes|);
    var extra := Insertion(source, header, seen, hasProviders, values);
    var base: seq<Edit>, owner: seq<nat> :| Owned(source, nodes, |nodes|, values, base, owner) && edits == base + extra;
    OwnedSpaced(source, nodes, values, base, owner);
    InsertionShape(source, header, seen, hasProviders, values);
    if header >= 0 {
      HeaderInside(source, nodes);
      forall a | 0 <= a < |base| ensures base[a].end < header || header < base[a].start {
        HeaderBetween(source, nodes, values, base, owner, a);
      }
    } else if !hasProviders {
      NothingOwned(source, nodes, values, base, owner);
    }
    SpacedWithInsertion(source, base, extra);
    forall sorted | Arranged(edits, sorted) ensures Apart(sorted, |source|) {
      RefusedExactlyOnOverlap(edits, sorted, |source|);
    }
  }

  lemma HeaderInside(source: string, nodes: seq<Node>)
    requires Parsed(source, nodes) && HeaderBefore(source, nodes, |nodes|) >= 0
    ensures HeaderBefore(source, nodes, |nodes|) <= |source|
  {
    HeaderIsANode(source, nodes, |nodes|);
    var h: nat :| h < |nodes| && HeaderAt(source, nodes, h, HeaderBefore(source, nodes, |nodes|));
    HeaderRange(source, nodes[h]);
  }

  lemma SomeAssigns(source: string, nodes: seq<Node>, values: map<string, string>, base: seq<Edit>, owner: seq<nat>)
    requires Named(values) && Owned(source, nodes, |nodes|, values, base, owner)
    ensures base == [] || exists k: nat :: Assigns(nodes, k)
  {
    if base != [] {
      assert EditIs(source, nodes, owner[0], values, base[0]);
    }
  }

  lemma NothingOwned(source: string, nodes: seq<Node>, values: map<string, string>, base: seq<Edit>, owner: seq<nat>)
    requires Named(values) && Owned(source, nodes, |nodes|, values, base, owner)
    requires forall k: nat :: !Assigns(nodes, k)
    ensures base == []
  {
    SomeAssigns(source, nodes, values, base, owner);
  }

  datatype Rewritten = Text(text: string) | Refused(why: Collection) | Oversized

  /** Applying the document's edits from the right gives this text. */
  ghost predicate Yields(source: string, nodes: seq<Node>, hasProviders: bool, values: map<string, string>,
                         text: string)
    requires Inside(source, nodes) && Named(values)
  {
    exists edits, sorted ::
      && Rewrites(source, nodes, hasProviders, values, edits) && Arranged(edits, sorted)
      && Apart(sorted, |source|) && text == RightToLeft(source, sorted)
  }

  /** A document yields one text. */
  lemma YieldsOne(source: string, nodes: seq<Node>, hasProviders: bool, values: map<string, string>, a: string,
                  b: string)
    requires Parsed(source, nodes) && Agrees(nodes, hasProviders) && Named(values)
    requires Yields(source, nodes, hasProviders, values, a) && Yields(source, nodes, hasProviders, values, b)
    ensures a == b
  {
    hide Rewrites, Named, Compatible, DistinctStarts, Arranged, Apart;
    var x, xs :| Rewrites(source, nodes, hasProviders, values, x) && Arranged(x, xs)
                 && Apart(xs, |source|) && a == RightToLeft(source, xs);
    var y, ys :| Rewrites(source, nodes, hasProviders, values, y) && Arranged(y, ys)
                 && Apart(ys, |source|) && b == RightToLeft(source, ys);
    RewritesUnique(source, nodes, hasProviders, values, x, y);
    CollectedNeverOverlap(source, nodes, hasProviders, values, x);
    OrderIsIrrelevant(x, y, xs, ys);
  }

  /** The rewrite from parsed document to new text, under any sort. It refuses exactly the documents with a faulty node,
      for the first fault; of all others it returns the one text they yield, unless that is too long. */
  method Rewrite(source: string, nodes: seq<Node>, hasProviders: bool, values: map<string, string>, sort: Sorter)
    returns (r: Rewritten)
    requires Parsed(source, nodes) && Agrees(nodes, hasProviders) && Named(values)
    requires forall edits :: Arranged(edits, sort(edits))
    ensures r.Refused? <==> Faulty(source, nodes)
    ensures r.Refused? ==> exists k: nat :: StopsAt(source, nodes, k, r.why)
    ensures r.Text? ==> Yields(source, nodes, hasProviders, values, r.text) && |r.text| <= ConfigResolve.MAX_FILE_BYTES
    ensures r.Oversized? ==>
              exists text :: Yields(source, nodes, hasProviders, values, text) && |text| > ConfigResolve.MAX_FILE_BYTES
  {
    hide Rewrites, Named, Compatible, DistinctStarts, StopsAt, Faulty, Arranged;
    var collected := CollectEdits(source, nodes, hasProviders, values);
    if !collected.Collected? {
      return Refused(collected);
    }
    var edits := collected.edits;
    CollectedNeverOverlap(source, nodes, hasProviders, values, edits);
    CompatibleEnds(edits, |source|);
    assert Arranged(edits, sort(edits));
    assert Yields(source, nodes, hasProviders, values, RightToLeft(source, sort(edits)));
    var spliced := Splice(source, edits, sort);
    match spliced {
      case Ok(text) => return Text(text);
      case TooLong => return Oversized;
    }
  }

  lemma CompatibleEnds(edits: seq<Edit>, bound: int)
    requires Compatible(edits, bound)
    ensures forall e :: e in edits ==> e.end <= bound
  {
  }
}
