/** The tool and retry discipline of a provider session, stated on its whole history.
    A history is lawful when every action is permitted by what came before it, and complete
    when nothing is left open. The bookkeeping of the stream parser decides exactly this. */
module ToolTrace {
  import opened Wrappers
  import opened Json

  datatype Action =
    | Use(id: string, name: string, restricted: bool)      // a tool_use block
    | Answer(id: string, failed: bool, content: Json)      // a tool_result block
    | Deny(id: string, name: string)                       // a permission denial
    | Retry(attempt: int, maximum: int)                    // an API retry notice
    | Reply                                                // an assistant message
    | Feedback                                             // a user message

  /** The exact texts with which the provider reports a tool missing from its registry. */
  predicate NativeUnavailable(content: Json, name: string) {
    && (name == "Write" || name == "Edit")
    && content.Str?
    && (UnavailableText(content.s, "No such tool available: " + name)
        || UnavailableText(content.s, "No such tool available: " + name + ". " + name
                                      + " is disabled for this session, in subagents as well as here."))
  }

  predicate UnavailableText(text: string, message: string) {
    || text == message
    || text == "Error: " + message
    || text == "<tool_use_error>" + message + "</tool_use_error>"
    || text == "<tool_use_error>Error: " + message + "</tool_use_error>"
  }

  // ----- The specification -----

  ghost predicate Used(h: seq<Action>, id: string) {
    exists a :: a in h && a.Use? && a.id == id
  }

  ghost predicate Answered(h: seq<Action>, id: string) {
    exists a :: a in h && a.Answer? && a.id == id
  }

  ghost predicate Denied(h: seq<Action>, id: string) {
    exists a :: a in h && a.Deny? && a.id == id
  }

  /** The latest retry notice not yet followed by an assistant message. */
  ghost function OpenRun(h: seq<Action>): Option<(int, int)> {
    if h == [] then None
    else
      match h[|h| - 1]
      case Retry(attempt, maximum) => Some((attempt, maximum))
      case Reply => None
      case _ => OpenRun(h[..|h| - 1])
  }

  /** An answer settles a use: a tool outside the read-only registry only by the registry's own error. */
  ghost predicate Settles(use: Action, answer: Action)
    requires use.Use? && answer.Answer?
  {
    use.id == answer.id && (use.restricted ==> answer.failed && NativeUnavailable(answer.content, use.name))
  }

  /** What may follow a history. */
  ghost predicate Permits(h: seq<Action>, a: Action) {
    match a
    case Use(id, _, _) => !Used(h, id)
    case Answer(id, failed, _) =>
      !Answered(h, id) && (Denied(h, id) ==> failed) && exists u :: u in h && u.Use? && Settles(u, a)
    case Deny(id, name) =>
      !Answered(h, id) && !Denied(h, id) && exists u :: u in h && u.Use? && u.id == id && u.name == name
    case Retry(attempt, maximum) =>
      (match OpenRun(h)
       case None => attempt == 1
       case Some((last, limit)) => attempt == last + 1 && maximum == limit)
    case Reply => true
    case Feedback => OpenRun(h).None?
  }

  ghost predicate Lawful(h: seq<Action>) {
    forall j :: 0 <= j < |h| ==> Permits(h[..j], h[j])
  }

  /** Every tool use answered, no retry run left open, at least one assistant message. */
  ghost predicate Complete(h: seq<Action>) {
    && (forall u :: u in h && u.Use? ==> Answered(h, u.id))
    && OpenRun(h).None?
    && Reply in h
  }

  /** What a well-formed line contributes: named tools, and attempts within a maximum of 15. */
  ghost predicate Shaped(h: seq<Action>) {
    forall a :: a in h ==> (a.Use? ==> a.name != "") && (a.Retry? ==> 1 <= a.attempt <= a.maximum <= 15)
  }

  lemma LawfulNext(h: seq<Action>, a: Action)
    ensures Lawful(h + [a]) <==> Lawful(h) && Permits(h, a)
  {
    var all := h + [a];
    assert all[..|h|] == h && all[|h|] == a;
    forall j | 0 <= j < |h| ensures all[..j] == h[..j] && all[j] == h[j] {
    }
    if Lawful(all) {
      assert Permits(all[..|h|], all[|h|]);
      forall j | 0 <= j < |h| ensures Permits(h[..j], h[j]) {
        assert Permits(all[..j], all[j]);
      }
    }
  }

  lemma LawfulPrefix(h: seq<Action>, more: seq<Action>)
    requires Lawful(h + more)
    ensures Lawful(h)
  {
    forall j | 0 <= j < |h| ensures Permits(h[..j], h[j]) {
      assert (h + more)[..j] == h[..j] && (h + more)[j] == h[j];
    }
  }

  // ----- The parser's bookkeeping -----

  /** The maps and counters of the parser's loop. */
  datatype Book = Book(tools: map<string, string>, denied: set<string>, unavailableOnly: set<string>,
                       allTools: set<string>, assistants: nat, retryCount: int, retryMaximum: int)

  const EMPTY_BOOK := Book(map[], {}, {}, {}, 0, 0, 0)

  /** The name under which a tool id is open; empty when it is not. */
  function OpenTool(b: Book, id: string): string {
    if id in b.tools then b.tools[id] else ""
  }

  /** The loop's checks and updates, one action at a time. */
  function Enter(b: Book, a: Action): Option<Book> {
    match a
    case Use(id, name, restricted) =>
      if id in b.allTools then None
      else Some(b.(tools := b.tools[id := name], allTools := b.allTools + {id},
                   unavailableOnly := if restricted then b.unavailableOnly + {id} else b.unavailableOnly))
    case Answer(id, failed, content) =>
      if OpenTool(b, id) == "" then None
      else if id in b.denied && !failed then None
      else if id in b.unavailableOnly && (!failed || !NativeUnavailable(content, OpenTool(b, id))) then None
      else Some(b.(tools := b.tools - {id}, denied := b.denied - {id}, unavailableOnly := b.unavailableOnly - {id}))
    case Deny(id, name) =>
      if OpenTool(b, id) == "" || id in b.denied || name != OpenTool(b, id) then None
      else Some(b.(denied := b.denied + {id}))
    case Retry(attempt, maximum) =>
      if attempt != b.retryCount + 1 || (b.retryMaximum != 0 && b.retryMaximum != maximum) then None
      else Some(b.(retryCount := attempt, retryMaximum := maximum))
    case Reply => Some(b.(assistants := b.assistants + 1, retryCount := 0, retryMaximum := 0))
    case Feedback => if b.retryCount != 0 then None else Some(b)
  }

  /** The book is an exact summary of the history. */
  ghost predicate Tracks(h: seq<Action>, b: Book) {
    && TracksTools(h, b)
    && TracksRun(h, b)
    && (b.assistants == 0 <==> Reply !in h)
  }

  /** The open tools carry the names and restrictions of their uses. */
  ghost predicate Named(h: seq<Action>, b: Book) {
    forall u :: u in h && u.Use? && u.id in b.tools ==>
      b.tools[u.id] == u.name && u.name != "" && (u.id in b.unavailableOnly <==> u.restricted)
  }

  ghost predicate TracksTools(h: seq<Action>, b: Book) {
    && (forall id :: id in b.allTools <==> Used(h, id))
    && (forall id :: Answered(h, id) || Denied(h, id) ==> Used(h, id))
    && (forall id :: id in b.tools <==> Used(h, id) && !Answered(h, id))
    && (forall id :: id in b.denied <==> id in b.tools && Denied(h, id))
    && b.unavailableOnly <= b.tools.Keys
    && Named(h, b)
  }

  ghost predicate TracksRun(h: seq<Action>, b: Book) {
    match OpenRun(h)
    case None => b.retryCount == 0 && b.retryMaximum == 0
    case Some((last, limit)) => b.retryCount == last > 0 && b.retryMaximum == limit > 0
  }

  lemma NothingTracked()
    ensures Tracks([], EMPTY_BOOK) && Lawful([])
  {
  }

  lemma HistoryNext(h: seq<Action>, a: Action)
    ensures forall id :: Used(h + [a], id) <==> Used(h, id) || (a.Use? && a.id == id)
    ensures forall id :: Answered(h + [a], id) <==> Answered(h, id) || (a.Answer? && a.id == id)
    ensures forall id :: Denied(h + [a], id) <==> Denied(h, id) || (a.Deny? && a.id == id)
  {
    assert forall x :: x in h + [a] <==> x in h || x == a;
    assert a in h + [a];
  }

  lemma RunNext(h: seq<Action>, a: Action)
    ensures OpenRun(h + [a]) == (match a
                                 case Retry(attempt, maximum) => Some((attempt, maximum))
                                 case Reply => None
                                 case _ => OpenRun(h))
  {
    assert (h + [a])[..|h|] == h;
  }

  /** The open use of a tracked tool id, which is the only one with that id. */
  lemma OpenUse(h: seq<Action>, b: Book, id: string) returns (u: Action)
    requires TracksTools(h, b) && id in b.tools
    ensures u in h && u.Use? && u.id == id && u.name == b.tools[id] != "" && (u.restricted <==> id in b.unavailableOnly)
  {
    assert Used(h, id);
    u :| u in h && u.Use? && u.id == id;
  }

  lemma PermittedAnswer(h: seq<Action>, b: Book, a: Action)
    requires TracksTools(h, b) && a.Answer?
    ensures Permits(h, a) <==> Enter(b, a).Some?
  {
    if a.id in b.tools {
      var u := OpenUse(h, b, a.id);
      if Permits(h, a) {
        var v :| v in h && v.Use? && Settles(v, a);
        assert v.id in b.tools;
      }
      if Enter(b, a).Some? {
        assert Settles(u, a);
      }
    } else {
      assert forall v :: v in h && v.Use? && Settles(v, a) ==> Used(h, a.id);
    }
  }

  lemma PermittedDeny(h: seq<Action>, b: Book, a: Action)
    requires TracksTools(h, b) && a.Deny?
    ensures Permits(h, a) <==> Enter(b, a).Some?
  {
    if a.id in b.tools {
      var u := OpenUse(h, b, a.id);
    } else {
      assert forall v :: v in h && v.Use? && v.id == a.id ==> Used(h, a.id);
    }
  }

  /** The loop accepts exactly the permitted actions. */
  lemma PermittedEnters(h: seq<Action>, b: Book, a: Action)
    requires Tracks(h, b) && Shaped([a])
    ensures Permits(h, a) <==> Enter(b, a).Some?
  {
    assert a in [a];
    match a
    case Use(_, _, _) =>
    case Answer(_, _, _) => PermittedAnswer(h, b, a);
    case Deny(_, _) => PermittedDeny(h, b, a);
    case Retry(_, _) =>
    case Reply =>
    case Feedback =>
  }

  lemma TracksUse(h: seq<Action>, b: Book, a: Action)
    requires TracksTools(h, b) && a.Use? && a.name != "" && !Used(h, a.id) && Enter(b, a).Some?
    ensures TracksTools(h + [a], Enter(b, a).value)
  {
    hide Used, Answered, Denied;
    HistoryNext(h, a);
    NamedUse(h, b, a);
  }

  lemma NamedUse(h: seq<Action>, b: Book, a: Action)
    requires Named(h, b) && b.unavailableOnly <= b.tools.Keys
    requires a.Use? && a.name != "" && !Used(h, a.id) && a.id !in b.tools && Enter(b, a).Some?
    ensures Named(h + [a], Enter(b, a).value)
  {
    forall u | u in h + [a] && u.Use? && u != a ensures u in h && u.id != a.id {
      assert Used(h, u.id);
    }
  }

  lemma TracksAnswer(h: seq<Action>, b: Book, a: Action)
    requires TracksTools(h, b) && a.Answer? && Enter(b, a).Some?
    ensures TracksTools(h + [a], Enter(b, a).value)
  {
    hide Used, Answered, Denied, NativeUnavailable;
    HistoryNext(h, a);
    UsesNext(h, a);
  }

  lemma TracksDeny(h: seq<Action>, b: Book, a: Action)
    requires TracksTools(h, b) && a.Deny? && Enter(b, a).Some?
    ensures TracksTools(h + [a], Enter(b, a).value)
  {
    hide Used, Answered, Denied;
    HistoryNext(h, a);
    UsesNext(h, a);
  }

  /** Retries and messages leave the tools alone. */
  lemma TracksFrame(h: seq<Action>, b: Book, a: Action, c: Book)
    requires TracksTools(h, b) && !a.Use? && !a.Answer? && !a.Deny?
    requires c.tools == b.tools && c.denied == b.denied && c.unavailableOnly == b.unavailableOnly
    requires c.allTools == b.allTools
    ensures TracksTools(h + [a], c)
  {
    hide Used, Answered, Denied;
    HistoryNext(h, a);
    UsesNext(h, a);
  }

  lemma UsesNext(h: seq<Action>, a: Action)
    requires !a.Use?
    ensures forall u: Action :: u.Use? ==> (u in h + [a] <==> u in h)
  {
  }

  lemma TracksToolsNext(h: seq<Action>, b: Book, a: Action)
    requires TracksTools(h, b) && Shaped([a]) && Permits(h, a) && Enter(b, a).Some?
    ensures TracksTools(h + [a], Enter(b, a).value)
  {
    hide TracksTools, NativeUnavailable;
    assert a in [a];
    match a
    case Use(_, _, _) => TracksUse(h, b, a);
    case Answer(_, _, _) => TracksAnswer(h, b, a);
    case Deny(_, _) => TracksDeny(h, b, a);
    case _ => TracksFrame(h, b, a, Enter(b, a).value);
  }

  /** And its updates keep the summary exact. */
  lemma TracksNext(h: seq<Action>, b: Book, a: Action)
    requires Tracks(h, b) && Shaped([a]) && Permits(h, a) && Enter(b, a).Some?
    ensures Tracks(h + [a], Enter(b, a).value)
  {
    assert a in [a];
    TracksToolsNext(h, b, a);
    RunNext(h, a);
    assert Reply in h + [a] <==> Reply in h || a == Reply;
  }

  /** Nothing is left open exactly when the loop's three final counters say so. */
  lemma TracksComplete(h: seq<Action>, b: Book)
    requires Tracks(h, b)
    ensures Complete(h) <==> |b.tools| == 0 && b.assistants != 0 && b.retryCount == 0
  {
    if |b.tools| == 0 {
      assert b.tools == map[];
      forall u | u in h && u.Use? ensures Answered(h, u.id) {
        assert Used(h, u.id);
        assert u.id !in b.tools;
      }
    }
    if Complete(h) {
      forall id ensures id !in b.tools {
        assert Used(h, id) ==> exists u :: u in h && u.Use? && u.id == id;
      }
      assert b.tools.Keys == {};
      assert |b.tools| == 0;
    }
  }

  // ----- Consequences for a whole accepted history -----

  /** In a lawful, complete history every tool use is answered later, and no id is used or answered twice. */
  lemma EveryUseAnsweredOnce(h: seq<Action>, i: nat)
    requires Lawful(h) && Complete(h) && i < |h| && h[i].Use?
    ensures exists j :: i < j < |h| && h[j].Answer? && h[j].id == h[i].id && Settles(h[i], h[j])
    ensures forall j, k :: 0 <= j < k < |h| && h[j].Answer? && h[k].Answer? ==> h[j].id != h[k].id
    ensures forall k :: 0 <= k < |h| && k != i && h[k].Use? ==> h[k].id != h[i].id
  {
    var id := h[i].id;
    forall j, k | 0 <= j < k < |h| && h[j].Answer? && h[k].Answer? ensures h[j].id != h[k].id {
      assert Permits(h[..k], h[k]);
      assert h[..k][j] == h[j];
    }
    forall j, k | 0 <= j < k < |h| && h[j].Use? && h[k].Use? ensures h[j].id != h[k].id {
      assert Permits(h[..k], h[k]);
      assert h[..k][j] == h[j];
    }
    assert Answered(h, id);
    var a :| a in h && a.Answer? && a.id == id;
    var j :| 0 <= j < |h| && h[j] == a;
    assert Permits(h[..j], h[j]);
    var u :| u in h[..j] && u.Use? && Settles(u, a);
    var k :| 0 <= k < j && h[k] == u;
    assert k == i;
  }

  ghost function Count(h: seq<Action>, retries: bool): nat {
    if h == [] then 0
    else Count(h[..|h| - 1], retries) + (if (if retries then h[|h| - 1].Retry? else h[|h| - 1].Reply?) then 1 else 0)
  }

  /** A run of retries counts its own notices, so at most 15 of them precede each assistant message. */
  lemma {:induction false} RetriesPaidByReplies(h: seq<Action>)
    requires Lawful(h) && Shaped(h)
    ensures Count(h, true) <= 15 * Count(h, false) + (if OpenRun(h).Some? then OpenRun(h).value.0 else 0)
    ensures OpenRun(h).Some? ==> 1 <= OpenRun(h).value.0 <= 15
  {
    if h == [] {
    } else {
      var front, a := h[..|h| - 1], h[|h| - 1];
      assert h == front + [a];
      LawfulNext(front, a);
      assert a in h && forall x :: x in front ==> x in h;
      RetriesPaidByReplies(front);
      RunNext(front, a);
    }
  }

  // ----- Reading a history item by item -----

  /** The actions of the first k items, in order; none when one of them cannot be read. */
  ghost function Gather(read: Json -> Option<seq<Action>>, items: seq<Json>, k: nat): Option<seq<Action>>
    requires k <= |items|
  {
    if k == 0 then Some([])
    else
      match (Gather(read, items, k - 1), read(items[k - 1]))
      case (Some(front), Some(last)) => Some(front + last)
      case _ => None
  }

  ghost predicate ReadsShaped(read: Json -> Option<seq<Action>>) {
    forall item :: read(item).Some? ==> Shaped(read(item).value)
  }

  /** The first k items can be read and lawfully continue a history. */
  ghost predicate Continues(read: Json -> Option<seq<Action>>, items: seq<Json>, k: nat, h: seq<Action>)
    requires k <= |items|
  {
    Gather(read, items, k).Some? && Lawful(h + Gather(read, items, k).value)
  }

  lemma {:induction false} GatherShaped(read: Json -> Option<seq<Action>>, items: seq<Json>, k: nat)
    requires k <= |items| && ReadsShaped(read) && Gather(read, items, k).Some?
    ensures Shaped(Gather(read, items, k).value)
  {
    if k > 0 {
      GatherShaped(read, items, k - 1);
    }
  }

  lemma {:induction false} GatherPrefix(read: Json -> Option<seq<Action>>, items: seq<Json>, k: nat, n: nat)
    requires k <= n <= |items| && Gather(read, items, n).Some?
    ensures Gather(read, items, k).Some? && Gather(read, items, k).value <= Gather(read, items, n).value
    ensures forall i :: k <= i < n ==> read(items[i]).Some?
  {
    if k < n {
      GatherPrefix(read, items, k, n - 1);
    }
  }

  lemma GatherNext(read: Json -> Option<seq<Action>>, items: seq<Json>, k: nat, h: seq<Action>)
    requires k < |items| && Gather(read, items, k).Some? && read(items[k]).Some?
    ensures Gather(read, items, k + 1).Some?
    ensures h + Gather(read, items, k + 1).value == h + Gather(read, items, k).value + read(items[k]).value
  {
  }

  /** A refused beginning is never repaired by what follows. */
  lemma ContinuesPrefix(read: Json -> Option<seq<Action>>, items: seq<Json>, k: nat, n: nat, h: seq<Action>)
    requires k <= n <= |items| && Continues(read, items, n, h)
    ensures Continues(read, items, k, h)
  {
    GatherPrefix(read, items, k, n);
    var front, all := Gather(read, items, k).value, Gather(read, items, n).value;
    assert h + all == h + front + all[|front|..];
    LawfulPrefix(h + front, all[|front|..]);
  }

  /** In a lawful reading every item is readable and lawfully continues what precedes it. */
  lemma LawfulReading(read: Json -> Option<seq<Action>>, items: seq<Json>, k: nat, n: nat)
    requires k < n <= |items| && Gather(read, items, n).Some? && Lawful(Gather(read, items, n).value)
    ensures Gather(read, items, k).Some? && read(items[k]).Some?
    ensures Lawful(Gather(read, items, k).value + read(items[k]).value)
  {
    var whole := Gather(read, items, n).value;
    assert [] + whole == whole;
    ContinuesPrefix(read, items, k + 1, n, []);
    assert [] + Gather(read, items, k + 1).value == Gather(read, items, k + 1).value;
  }

  /** One action through the loop's bookkeeping. */
  lemma EnterNext(h: seq<Action>, b: Book, a: Action)
    requires Lawful(h) && Tracks(h, b) && Shaped([a])
    ensures Enter(b, a).Some? <==> Lawful(h + [a])
    ensures Enter(b, a).Some? ==> Tracks(h + [a], Enter(b, a).value)
  {
    LawfulNext(h, a);
    PermittedEnters(h, b, a);
    if Enter(b, a).Some? {
      TracksNext(h, b, a);
    }
  }
}
