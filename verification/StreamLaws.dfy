/** What acceptance by the success-stream parser means for the lines themselves, in the words of the provider's wire
    format (internal/claudeprovider/stream.go): no helper of the parser is mentioned in these statements. */
module StreamLaws {
  import opened Wrappers
  import opened Json
  import opened ToolTrace
  import opened Stream

  // ----- Lines and blocks as documents -----

  /** The field is this text. */
  predicate Says(fields: Fields, key: string, text: string) {
    key in fields && fields[key] == Str(text)
  }

  /** Block k of the message on line i, whose type is `kind`. */
  ghost predicate BlockAt(lines: seq<Json>, i: nat, kind: string, k: nat, block: Fields) {
    && i < |lines| && lines[i].Obj? && Says(lines[i].fields, "type", kind)
    && "message" in lines[i].fields && lines[i].fields["message"].Obj?
    && var message := lines[i].fields["message"].fields;
    && "content" in message && message["content"].Arr?
    && k < |message["content"].items| && message["content"].items[k] == Obj(block)
  }

  /** An assistant's use of a tool. */
  ghost predicate UseAt(lines: seq<Json>, i: nat, k: nat, id: string, name: string) {
    exists block :: BlockAt(lines, i, "assistant", k, block)
      && Says(block, "type", "tool_use") && Says(block, "id", id) && Says(block, "name", name)
  }

  /** The frames the provider's versions put around a tool error. */
  const FRAMES: set<(string, string)> :=
    {("", ""), ("Error: ", ""), ("<tool_use_error>", "</tool_use_error>"),
     ("<tool_use_error>Error: ", "</tool_use_error>")}

  /** The registry's report that it has no such tool, framed or not, with or without its reason. */
  ghost predicate NoSuchTool(text: string, name: string) {
    exists frame :: frame in FRAMES
      && (|| text == frame.0 + ("No such tool available: " + name) + frame.1
          || text == frame.0 + ("No such tool available: " + name + ". " + name
                                + " is disabled for this session, in subagents as well as here.") + frame.1)
  }

  /** A user message's report that the registry has no such tool. */
  ghost predicate UnavailableAt(lines: seq<Json>, j: nat, m: nat, id: string, name: string) {
    exists block, text :: BlockAt(lines, j, "user", m, block)
      && Says(block, "type", "tool_result") && Says(block, "tool_use_id", id)
      && "is_error" in block && block["is_error"] == Bool(true)
      && Says(block, "content", text) && NoSuchTool(text, name)
  }

  lemma FramedTexts(text: string, message: string)
    ensures UnavailableText(text, message) <==> exists frame :: frame in FRAMES && text == frame.0 + message + frame.1
  {
    assert "" + message + "" == message && "Error: " + message + "" == "Error: " + message;
    if UnavailableText(text, message) {
      if text == message {
        assert ("", "") in FRAMES && text == ("", "").0 + message + ("", "").1;
      } else if text == "Error: " + message {
        assert ("Error: ", "") in FRAMES && text == ("Error: ", "").0 + message + ("Error: ", "").1;
      } else if text == "<tool_use_error>" + message + "</tool_use_error>" {
        var f := ("<tool_use_error>", "</tool_use_error>");
        assert f in FRAMES && text == f.0 + message + f.1;
      } else {
        var f := ("<tool_use_error>Error: ", "</tool_use_error>");
        assert f in FRAMES && text == f.0 + message + f.1;
      }
    }
  }

  lemma UnavailableTexts(text: string, name: string)
    requires name == "Write" || name == "Edit"
    ensures NativeUnavailable(Str(text), name) <==> NoSuchTool(text, name)
  {
    hide UnavailableText, FRAMES;
    FramedTexts(text, "No such tool available: " + name);
    FramedTexts(text, "No such tool available: " + name + ". " + name
                      + " is disabled for this session, in subagents as well as here.");
  }

  // ----- Where a history's actions come from -----

  /** Action q of item i stands behind those of the items before it. */
  lemma {:induction false} GatherSpot(read: Json -> Option<seq<Action>>, items: seq<Json>, n: nat, i: nat, q: nat)
    requires i < n <= |items| && Gather(read, items, n).Some?
    ensures Gather(read, items, i).Some? && read(items[i]).Some?
    ensures q < |read(items[i]).value| ==>
              |Gather(read, items, i).value| + q < |Gather(read, items, n).value|
              && Gather(read, items, n).value[|Gather(read, items, i).value| + q] == read(items[i]).value[q]
  {
    GatherPrefix(read, items, i, n);
    if i < n - 1 {
      GatherPrefix(read, items, n - 1, n);
      GatherSpot(read, items, n - 1, i, q);
    }
  }

  lemma {:induction false} GatherOrigin(read: Json -> Option<seq<Action>>, items: seq<Json>, n: nat, p: nat)
    returns (i: nat, q: nat)
    requires n <= |items| && Gather(read, items, n).Some? && p < |Gather(read, items, n).value|
    ensures i < n && Gather(read, items, i).Some? && read(items[i]).Some? && q < |read(items[i]).value|
    ensures p == |Gather(read, items, i).value| + q && read(items[i]).value[q] == Gather(read, items, n).value[p]
  {
    GatherPrefix(read, items, n - 1, n);
    var before := Gather(read, items, n - 1).value;
    if p < |before| {
      i, q := GatherOrigin(read, items, n - 1, p);
    } else {
      i, q := n - 1, p - |before|;
    }
  }

  /** An action of an earlier item stands earlier. */
  lemma GatherOrder(read: Json -> Option<seq<Action>>, items: seq<Json>, n: nat, i: nat, j: nat)
    requires i < j < n <= |items| && Gather(read, items, n).Some?
    ensures Gather(read, items, i).Some? && Gather(read, items, j).Some? && read(items[i]).Some?
    ensures |Gather(read, items, i).value| + |read(items[i]).value| <= |Gather(read, items, j).value|
  {
    GatherPrefix(read, items, i, n);
    GatherPrefix(read, items, i + 1, n);
    GatherPrefix(read, items, j, n);
    GatherPrefix(read, items, i + 1, j);
  }

  /** A readable message contributes its header and then the actions of its blocks. */
  lemma MessageReads(input: PhaseInput, line: Json, kind: string) returns (blocks: seq<Json>)
    requires line.Obj? && Says(line.fields, "type", kind) && (kind == "assistant" || kind == "user")
    requires LineActions(input, line).Some?
    ensures "message" in line.fields && line.fields["message"].Obj?
    ensures "content" in line.fields["message"].fields && line.fields["message"].fields["content"] == Arr(blocks)
    ensures var read := BlockReader(input.phase, kind);
            && Gather(read, blocks, |blocks|).Some?
            && LineActions(input, line).value ==
                 [if kind == "assistant" then Reply else Feedback] + Gather(read, blocks, |blocks|).value
  {
    hide Gather;
    blocks := MessageBlocks(input.model, kind, line.fields).value;
  }

  lemma UseIsRestricted(input: PhaseInput, line: Json, k: nat, id: string, name: string) returns (q: nat)
    requires UseAt([line], 0, k, id, name) && LineActions(input, line).Some?
    requires input.phase == "planning" || input.phase == "review"
    requires name == "Write" || name == "Edit"
    ensures q < |LineActions(input, line).value| && LineActions(input, line).value[q] == Use(id, name, true) && id != ""
  {
    hide LineActions, Gather;
    var block :| BlockAt([line], 0, "assistant", k, block)
      && Says(block, "type", "tool_use") && Says(block, "id", id) && Says(block, "name", name);
    var blocks := MessageReads(input, line, "assistant");
    var read := BlockReader(input.phase, "assistant");
    GatherSpot(read, blocks, |blocks|, k, 0);
    assert read(blocks[k]).value == [Use(id, name, true)];
    q := 1 + |Gather(read, blocks, k).value|;
  }

  /** Only a block of a user message answers a tool. */
  lemma AnswerIsABlock(input: PhaseInput, line: Json, q: nat) returns (m: nat, block: Fields)
    requires LineActions(input, line).Some? && q < |LineActions(input, line).value|
    requires LineActions(input, line).value[q].Answer?
    ensures BlockAt([line], 0, "user", m, block) && Says(block, "type", "tool_result")
    ensures var a := LineActions(input, line).value[q];
            && StringField(block, "tool_use_id") == a.id && "content" in block && block["content"] == a.content
            && (a.failed <==> "is_error" in block && block["is_error"] == Bool(true))
  {
    hide Gather, Category, HttpMatches, ValidDenial, ValidRetry, ValidThinkingTokens, ValidRateLimit;
    var kind := StringField(line.fields, "type");
    assert kind == "assistant" || kind == "user";
    var a := LineActions(input, line).value[q];
    var blocks := MessageReads(input, line, kind);
    var read := BlockReader(input.phase, kind);
    var r;
    m, r := GatherOrigin(read, blocks, |blocks|, q - 1);
    assert read(blocks[m]).value[r] == a;
    block := blocks[m].fields;
  }

  lemma LineAt(lines: seq<Json>, i: nat)
    requires 1 <= i < |lines|
    ensures lines[1..][i - 1] == lines[i]
  {
  }

  /** The history of an accepted stream. */
  ghost function Actions(input: PhaseInput, lines: seq<Json>): seq<Action>
    requires |lines| >= 2 && Gather(LineReader(input), lines[1..], |lines| - 2).Some?
  {
    Gather(LineReader(input), lines[1..], |lines| - 2).value
  }

  /** Action q of line i is action p of the history. */
  ghost predicate Places(input: PhaseInput, lines: seq<Json>, i: nat, q: nat, p: nat)
    requires |lines| >= 2 && Gather(LineReader(input), lines[1..], |lines| - 2).Some?
  {
    && 1 <= i < |lines| - 1 && p < |Actions(input, lines)|
    && LineActions(input, lines[i]).Some? && q < |LineActions(input, lines[i]).value|
    && LineActions(input, lines[i]).value[q] == Actions(input, lines)[p]
    && Gather(LineReader(input), lines[1..], i - 1).Some?
    && p == |Gather(LineReader(input), lines[1..], i - 1).value| + q
  }

  lemma LineReads(input: PhaseInput, lines: seq<Json>, i: nat)
    requires |lines| >= 2 && Gather(LineReader(input), lines[1..], |lines| - 2).Some? && 1 <= i < |lines| - 1
    ensures LineActions(input, lines[i]).Some?
  {
    hide Gather, LineActions;
    LineAt(lines, i);
    GatherSpot(LineReader(input), lines[1..], |lines| - 2, i - 1, 0);
  }

  lemma LinePlace(input: PhaseInput, lines: seq<Json>, i: nat, q: nat) returns (p: nat)
    requires |lines| >= 2 && Gather(LineReader(input), lines[1..], |lines| - 2).Some? && 1 <= i < |lines| - 1
    requires LineActions(input, lines[i]).Some? && q < |LineActions(input, lines[i]).value|
    ensures Places(input, lines, i, q, p)
  {
    hide Gather, LineActions;
    LineAt(lines, i);
    GatherSpot(LineReader(input), lines[1..], |lines| - 2, i - 1, q);
    p := |Gather(LineReader(input), lines[1..], i - 1).value| + q;
  }

  lemma PlaceOf(input: PhaseInput, lines: seq<Json>, p: nat) returns (i: nat, q: nat)
    requires |lines| >= 2 && Gather(LineReader(input), lines[1..], |lines| - 2).Some?
    requires p < |Actions(input, lines)|
    ensures Places(input, lines, i, q, p)
  {
    hide Gather, LineActions;
    i, q := GatherOrigin(LineReader(input), lines[1..], |lines| - 2, p);
    i := i + 1;
    LineAt(lines, i);
  }

  lemma PlacesInOrder(input: PhaseInput, lines: seq<Json>, i: nat, q: nat, p: nat, j: nat, r: nat, p': nat)
    requires |lines| >= 2 && Gather(LineReader(input), lines[1..], |lines| - 2).Some?
    requires Places(input, lines, i, q, p) && Places(input, lines, j, r, p') && p < p'
    ensures i <= j
  {
    hide Gather, LineActions;
    if j < i {
      LineAt(lines, j);
      GatherOrder(LineReader(input), lines[1..], |lines| - 2, j - 1, i - 1);
    }
  }

  /** In an accepted stream of a read-only phase, every Write or Edit is answered on a later line by the registry's own
      report that it has no such tool, and by nothing else. */
  lemma ReadOnlyPhasesOnlyMissTools(input: PhaseInput, command: Command, i: nat, k: nat, id: string, name: string)
    requires Accepts(input, command) && (input.phase == "planning" || input.phase == "review")
    requires name == "Write" || name == "Edit"
    requires 1 <= i < |command.lines| - 1 && UseAt(command.lines, i, k, id, name)
    ensures exists j, m :: i < j < |command.lines| - 1 && UnavailableAt(command.lines, j, m, id, name)
  {
    hide Lawful, Complete, OneSession, LineActions, Gather, UnavailableAt, Framed, IsInit, IsSuccess, UseAt, Places,
      NativeUnavailable, BlockAt, Says;
    var lines := command.lines;
    FramedLength(input, command);
    LineReads(input, lines, i);
    UseMoves(lines, i, k, id, name);
    var q := UseIsRestricted(input, lines[i], k, id, name);
    var p := LinePlace(input, lines, i, q);
    PlaceFacts(input, lines, i, q, p);
    var h := Actions(input, lines);
    EveryUseAnsweredOnce(h, p);
    var p' :| p < p' < |h| && h[p'].Answer? && h[p'].id == h[p].id && Settles(h[p], h[p']);
    var j, r := PlaceOf(input, lines, p');
    PlaceFacts(input, lines, j, r, p');
    PlacesInOrder(input, lines, i, q, p, j, r, p');
    var m, block := AnswerIsABlock(input, lines[j], r);
    OneKind(lines, i, k, id, name, lines[j], m, block);
    AnswerUnavailable(lines, j, m, block, id, name, h[p']);
  }

  lemma FramedLength(input: PhaseInput, command: Command)
    requires Framed(input, command)
    ensures |command.lines| >= 2
  {
  }

  lemma PlaceFacts(input: PhaseInput, lines: seq<Json>, i: nat, q: nat, p: nat)
    requires |lines| >= 2 && Gather(LineReader(input), lines[1..], |lines| - 2).Some? && Places(input, lines, i, q, p)
    ensures 1 <= i < |lines| - 1 && p < |Actions(input, lines)|
    ensures LineActions(input, lines[i]).Some? && q < |LineActions(input, lines[i]).value|
    ensures LineActions(input, lines[i]).value[q] == Actions(input, lines)[p]
  {
  }

  lemma UseMoves(lines: seq<Json>, i: nat, k: nat, id: string, name: string)
    requires UseAt(lines, i, k, id, name)
    ensures UseAt([lines[i]], 0, k, id, name)
  {
    var block :| BlockAt(lines, i, "assistant", k, block)
      && Says(block, "type", "tool_use") && Says(block, "id", id) && Says(block, "name", name);
    assert BlockAt([lines[i]], 0, "assistant", k, block);
  }

  /** A line is not both an assistant's and a user's. */
  lemma OneKind(lines: seq<Json>, i: nat, k: nat, id: string, name: string, line: Json, m: nat, block: Fields)
    requires UseAt(lines, i, k, id, name) && BlockAt([line], 0, "user", m, block)
    ensures lines[i] != line
  {
  }

  lemma AnswerUnavailable(lines: seq<Json>, j: nat, m: nat, block: Fields, id: string, name: string, a: Action)
    requires j < |lines| && BlockAt([lines[j]], 0, "user", m, block) && Says(block, "type", "tool_result")
    requires a.Answer? && StringField(block, "tool_use_id") == a.id == id && id != ""
    requires "content" in block && block["content"] == a.content && NativeUnavailable(a.content, name)
    requires a.failed && (a.failed <==> "is_error" in block && block["is_error"] == Bool(true))
    requires name == "Write" || name == "Edit"
    ensures UnavailableAt(lines, j, m, id, name)
  {
    UnavailableTexts(a.content.s, name);
    assert BlockAt(lines, j, "user", m, block);
    assert Says(block, "tool_use_id", id) && Says(block, "content", a.content.s);
  }
}
