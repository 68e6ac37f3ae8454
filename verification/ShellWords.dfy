/** Printing an argument vector as one shell line (internal/cli/response.go), against the quoting rules of
    sections 2.2.1 and 2.2.2 of the Shell Command Language, IEEE Std 1003.1-2017. */
module ShellWords {
  import opened Wrappers

  // ----- The shell's side -----

  /** The characters section 2.2 lists as needing quotes, apart from `=` and `%`, which matter in special places. */
  const SPECIAL := "|&;<>()$`\\\"' \t\n*?[#~"

  /** Field splitting of a line outside quotes; `word` is the unfinished word. None is a line the shell would do more
      with than split. */
  function Split(s: string, word: Option<string>): Option<seq<string>>
    decreases |s|
  {
    if s == "" then Some(Finished(word))
    else if s[0] == ' ' || s[0] == '\t' then
      var rest := Split(s[1..], None);
      if rest.None? then None else Some(Finished(word) + rest.value)
    else if s[0] == '\'' then SplitQuoted(s[1..], Letters(word))
    else if s[0] == '\\' then
      if |s| == 1 then None
      else if s[1] == '\n' then Split(s[2..], word)
      else Split(s[2..], Some(Letters(word) + [s[1]]))
    else if s[0] in SPECIAL then None
    else Split(s[1..], Some(Letters(word) + [s[0]]))
  }

  /** Inside single quotes every character but the closing quote is literal. */
  function SplitQuoted(s: string, word: string): Option<seq<string>>
    decreases |s|
  {
    if s == "" then None
    else if s[0] == '\'' then Split(s[1..], Some(word))
    else SplitQuoted(s[1..], word + [s[0]])
  }

  function Finished(word: Option<string>): seq<string> {
    if word.None? then [] else [word.value]
  }

  function Letters(word: Option<string>): string {
    if word.None? then "" else word.value
  }

  // ----- The printer -----

  predicate SafeChar(c: char) {
    'a' <= c <= 'z' || 'A' <= c <= 'Z' || '0' <= c <= '9' || c in "_-./:=,@+%"
  }

  ghost predicate Safe(value: string) {
    value != "" && forall i :: 0 <= i < |value| ==> SafeChar(value[i])
  }

  method SafeShellWord(value: string) returns (safe: bool)
    ensures safe <==> Safe(value)
  {
    if value == "" {
      return false;
    }
    for i := 0 to |value|
      invariant forall j :: 0 <= j < i ==> SafeChar(value[j])
    {
      if !SafeChar(value[i]) {
        return false;
      }
    }
    return true;
  }

  /** The allowlist, by ASCII codes: letters, digits and "%+,-./:=@_". */
  lemma SafeCharacters(value: string)
    ensures Safe(value) <==>
              value != "" && forall i :: 0 <= i < |value| ==>
                var code := value[i] as int;
                || 97 <= code <= 122 || 65 <= code <= 90 || 45 <= code <= 58 || code == 37 || code == 43 || code == 44
                || code == 61 || code == 64 || code == 95
  {
  }

  /** Every single quote leaves the quotes, appears escaped, and enters them again. */
  function Escaped(arg: string): string {
    if arg == "" then ""
    else (if arg[0] == '\'' then "'\\''" else [arg[0]]) + Escaped(arg[1..])
  }

  /** Both ways a word may be printed. */
  ghost predicate Prints(arg: string, word: string) {
    if Safe(arg) then word == arg else word == "'" + Escaped(arg) + "'"
  }

  function Join(words: seq<string>): string {
    if words == [] then "" else if |words| == 1 then words[0] else words[0] + " " + Join(words[1..])
  }

  ghost predicate PrintedWords(argv: seq<string>, words: seq<string>) {
    |words| == |argv| && forall i :: 0 <= i < |argv| ==> Prints(argv[i], words[i])
  }

  /** The line is one printed word per argument, joined by single spaces. */
  ghost predicate Printed(argv: seq<string>, line: string) {
    exists words :: PrintedWords(argv, words) && line == Join(words)
  }

  /** The printed line splits back into exactly the arguments, whatever they contain. */
  method ShellWords(argv: seq<string>) returns (line: string)
    ensures Split(line, None) == Some(argv)
    ensures Printed(argv, line)
  {
    var words := new string[|argv|];
    for index := 0 to |argv|
      invariant forall i :: 0 <= i < index ==> Prints(argv[i], words[i])
    {
      var arg := argv[index];
      var safe := SafeShellWord(arg);
      if !safe {
        words[index] := "'" + Escaped(arg) + "'";
      } else {
        words[index] := arg;
      }
    }
    line := Join(words[..]);
    LineSplits(argv, words[..]);
    assert PrintedWords(argv, words[..]);
  }

  // ----- The round trip -----

  lemma SafeIsOrdinary(c: char)
    requires SafeChar(c)
    ensures c !in SPECIAL
  {
  }

  lemma {:induction false} SafeRun(s: string, rest: string, word: Option<string>)
    requires Safe(s)
    ensures Split(s + rest, word) == Split(rest, Some(Letters(word) + s))
    decreases |s|
  {
    SafeIsOrdinary(s[0]);
    assert (s + rest)[1..] == s[1..] + rest;
    var longer := Letters(word) + [s[0]];
    if |s| == 1 {
      assert s[1..] + rest == rest && longer == Letters(word) + s;
    } else {
      SafeRun(s[1..], rest, Some(longer));
      assert longer + s[1..] == Letters(word) + s;
    }
  }

  /** Leaving the quotes, an escaped quote, and back inside. */
  lemma EscapedQuote(rest: string, word: string)
    ensures SplitQuoted("'\\''" + rest, word) == SplitQuoted(rest, word + "'")
  {
    var s := "'\\''" + rest;
    assert s[1..][2..][1..] == rest;
    assert s[1..][0] == '\\' && s[1..][1] == '\'' && s[1..][2..][0] == '\'';
    assert Split(s[1..], Some(word)) == Split(s[1..][2..], Some(word + ['\'']));
  }

  lemma {:induction false} QuotedRun(s: string, rest: string, word: string)
    ensures SplitQuoted(Escaped(s) + "'" + rest, word) == Split(rest, Some(word + s))
    decreases |s|
  {
    if s == "" {
      assert ("" + "'" + rest)[1..] == rest && word + s == word;
    } else {
      var tail := Escaped(s[1..]) + "'" + rest;
      QuotedRun(s[1..], rest, word + [s[0]]);
      assert word + [s[0]] + s[1..] == word + s;
      if s[0] == '\'' {
        assert Escaped(s) + "'" + rest == "'\\''" + tail;
        EscapedQuote(tail, word);
      } else {
        assert Escaped(s) + "'" + rest == [s[0]] + tail;
        assert ([s[0]] + tail)[1..] == tail;
      }
    }
  }

  lemma WordSplits(arg: string, word: string, rest: string)
    requires Prints(arg, word)
    ensures Split(word + rest, None) == Split(rest, Some(arg))
  {
    if Safe(arg) {
      SafeRun(arg, rest, None);
      assert "" + arg == arg;
    } else {
      var line := word + rest;
      assert line[1..] == Escaped(arg) + "'" + rest;
      QuotedRun(arg, rest, "");
      assert "" + arg == arg;
    }
  }

  lemma {:induction false} LineSplits(argv: seq<string>, words: seq<string>)
    requires PrintedWords(argv, words)
    ensures Split(Join(words), None) == Some(argv)
    decreases |argv|
  {
    if argv == [] {
    } else if |argv| == 1 {
      WordSplits(argv[0], words[0], "");
      assert words[0] + "" == words[0] && argv == [argv[0]];
    } else {
      var rest := " " + Join(words[1..]);
      assert Join(words) == words[0] + rest;
      WordSplits(argv[0], words[0], rest);
      LineSplits(argv[1..], words[1..]);
      assert rest[1..] == Join(words[1..]);
      assert argv == [argv[0]] + argv[1..];
    }
  }

  /** Two argument vectors with the same printed line are the same. */
  lemma PrintingIsInjective(a: seq<string>, b: seq<string>, line: string)
    requires Printed(a, line) && Printed(b, line)
    ensures a == b
  {
    var wordsA :| PrintedWords(a, wordsA) && line == Join(wordsA);
    var wordsB :| PrintedWords(b, wordsB) && line == Join(wordsB);
    LineSplits(a, wordsA);
    LineSplits(b, wordsB);
  }
}
