/** The command-word selection of handleCommand (main.go:318-400): the
    input line is trimmed, lower-cased and split into fields, and the first
    field selects a command. Only ASCII letters are lower-cased; white space
    is what Go's unicode.IsSpace accepts. */
module Commands {

  /** unicode.IsSpace. */
  predicate IsSpace(c: char) {
    var k := c as int;
    || (0x09 <= k <= 0x0D) || k == 0x20 || k == 0x85 || k == 0xA0 || k == 0x1680
    || (0x2000 <= k <= 0x200A) || k == 0x2028 || k == 0x2029 || k == 0x202F
    || k == 0x205F || k == 0x3000
  }

  predicate NoSpace(s: string) {
    forall i :: 0 <= i < |s| ==> !IsSpace(s[i])
  }

  /** strings.TrimSpace(s) == "". */
  predicate AllSpace(s: string) {
    forall i :: 0 <= i < |s| ==> IsSpace(s[i])
  }

  predicate IsUpper(c: char) {
    'A' <= c <= 'Z'
  }

  predicate Lowercase(s: string) {
    forall i :: 0 <= i < |s| ==> !IsUpper(s[i])
  }

  function LowerChar(c: char): (d: char)
    ensures !IsUpper(d)
    ensures IsSpace(d) <==> IsSpace(c)
    ensures !IsUpper(c) ==> d == c
  {
    if IsUpper(c) then (c as int + 32) as char else c
  }

  /** strings.ToLower, for ASCII letters. */
  function ToLower(s: string): (r: string)
    ensures |r| == |s|
    ensures forall i :: 0 <= i < |s| ==> r[i] == LowerChar(s[i])
  {
    if s == [] then [] else [LowerChar(s[0])] + ToLower(s[1..])
  }

  /** The longest prefix of `s` without white space. */
  function Word(s: string): (w: string)
    ensures |w| <= |s| && w == s[..|w|] && NoSpace(w)
    ensures |w| < |s| ==> IsSpace(s[|w|])
    ensures s != [] && !IsSpace(s[0]) ==> |w| > 0
  {
    if s == [] || IsSpace(s[0]) then [] else [s[0]] + Word(s[1..])
  }

  /** strings.Fields: the maximal runs of non-space characters. */
  function Fields(s: string): (r: seq<string>)
    ensures forall i :: 0 <= i < |r| ==> r[i] != [] && NoSpace(r[i])
    ensures Lowercase(s) ==> forall i :: 0 <= i < |r| ==> Lowercase(r[i])
    decreases |s|
  {
    if s == [] then []
    else if IsSpace(s[0]) then Fields(s[1..])
    else
      var w := Word(s);
      [w] + Fields(s[|w|..])
  }

  /** A white-space character ends the first word: a word of `a` is a word
      of `a` followed by a space and anything. */
  lemma {:induction false} WordBeforeSpace(a: string, c: char, b: string)
    requires IsSpace(c)
    ensures Word(a + [c] + b) == Word(a)
    decreases |a|
  {
    if a != [] && !IsSpace(a[0]) {
      assert (a + [c] + b)[1..] == a[1..] + [c] + b;
      WordBeforeSpace(a[1..], c, b);
    }
  }

  /** A white-space character separates fields: the fields on either side of
      it are the fields of the whole, none spanning it. */
  lemma {:induction false} FieldsSplitAtSpace(a: string, c: char, b: string)
    requires IsSpace(c)
    ensures Fields(a + [c] + b) == Fields(a) + Fields(b)
    decreases |a|
  {
    var s := a + [c] + b;
    if a == [] {
      assert s[1..] == b;
    } else if IsSpace(a[0]) {
      assert s[1..] == a[1..] + [c] + b;
      FieldsSplitAtSpace(a[1..], c, b);
    } else {
      WordBeforeSpace(a, c, b);
      var w := Word(a);
      assert s[|w|..] == a[|w|..] + [c] + b;
      FieldsSplitAtSpace(a[|w|..], c, b);
    }
  }

  /** The fields of the lower-cased line: `parts` in handleCommand. */
  function Tokens(input: string): (parts: seq<string>)
    ensures forall i :: 0 <= i < |parts| ==> parts[i] != [] && NoSpace(parts[i]) && Lowercase(parts[i])
  {
    Fields(ToLower(input))
  }

  /** A line splits into no fields exactly when it is all white space, so
      the TrimSpace test of handleCommand is what keeps `parts[0]` defined. */
  lemma {:induction false} FieldsEmptyIffAllSpace(s: string)
    ensures Fields(s) == [] <==> AllSpace(s)
    decreases |s|
  {
    if s != [] && IsSpace(s[0]) {
      FieldsEmptyIffAllSpace(s[1..]);
      assert AllSpace(s) <==> AllSpace(s[1..]) by {
        assert forall i :: 0 < i < |s| ==> s[i] == s[1..][i - 1];
      }
    }
  }

  lemma TokensEmptyIffAllSpace(input: string)
    ensures Tokens(input) == [] <==> AllSpace(input)
  {
    FieldsEmptyIffAllSpace(ToLower(input));
  }

  datatype Verb = Play | Pause | Stop | Replay

  datatype Command =
    | Blank
    | Transport(verb: Verb, target: string)
    | Volume(target: string, value: string)
    | Bpm(target: string, value: string)
    | VolumeUsage
    | BpmUsage
    | List
    | Help
    | Quit
    | Unknown(word: string)

  /** Every word that selects a command. */
  const Keywords: set<string> :=
    {"play", "start", "pause", "stop", "replay", "volume", "vol", "bpm",
     "list", "ls", "help", "h", "quit", "exit", "q"}

  /** The switch of handleCommand over `parts[0]` (main.go:324-400). An
      empty transport target means every instrument. */
  function Parse(parts: seq<string>): (c: Command)
    requires parts != []
    ensures c != Blank
    ensures c.Unknown? <==> parts[0] !in Keywords
    ensures c.Unknown? ==> c.word == parts[0]
  {
    var cmd := parts[0];
    if cmd in {"play", "start", "pause", "stop", "replay"} then
      var target := if |parts| > 1 then parts[1] else "";
      var verb :=
        if cmd == "play" || cmd == "start" then Play
        else if cmd == "pause" then Pause
        else if cmd == "stop" then Stop
        else Replay;
      Transport(verb, target)
    else if cmd == "volume" || cmd == "vol" then
      if |parts| < 3 then VolumeUsage else Volume(parts[1], parts[2])
    else if cmd == "bpm" then
      if |parts| < 3 then BpmUsage else Bpm(parts[1], parts[2])
    else if cmd == "list" || cmd == "ls" then List
    else if cmd == "help" || cmd == "h" then Help
    else if cmd == "quit" || cmd == "exit" || cmd == "q" then Quit
    else Unknown(cmd)
  }

  /** One input line, from the TrimSpace test on (main.go:319-400). */
  function ParseLine(input: string): (c: Command)
    ensures c.Blank? <==> AllSpace(input)
  {
    if AllSpace(input) then Blank
    else
      TokensEmptyIffAllSpace(input);
      Parse(Tokens(input))
  }

  /** Each alias selects the same command as the word it stands for. */
  lemma AliasesAgree(rest: seq<string>)
    ensures Parse(["start"] + rest) == Parse(["play"] + rest)
    ensures Parse(["vol"] + rest) == Parse(["volume"] + rest)
    ensures Parse(["ls"] + rest) == Parse(["list"] + rest)
    ensures Parse(["h"] + rest) == Parse(["help"] + rest)
    ensures Parse(["exit"] + rest) == Parse(["quit"] + rest)
    ensures Parse(["q"] + rest) == Parse(["quit"] + rest)
  {
  }

  /** Fields after the ones a command uses are ignored. */
  lemma ExtraFieldsIgnored(parts: seq<string>, more: seq<string>)
    requires |parts| >= 3
    ensures Parse(parts + more) == Parse(parts)
  {
    assert (parts + more)[..3] == parts[..3];
  }

  /** A field: what Tokens can produce. */
  predicate IsToken(s: string) {
    s != [] && NoSpace(s) && Lowercase(s)
  }

  /** The commands a line can denote. */
  predicate WellFormed(c: Command) {
    match c
    case Transport(_, target) => target == "" || IsToken(target)
    case Volume(target, value) => IsToken(target) && IsToken(value)
    case Bpm(target, value) => IsToken(target) && IsToken(value)
    case Unknown(word) => IsToken(word) && word !in Keywords
    case _ => true
  }

  function VerbWord(v: Verb): string {
    match v
    case Play => "play"
    case Pause => "pause"
    case Stop => "stop"
    case Replay => "replay"
  }

  /** The canonical fields of a command. */
  function Words(c: Command): (ws: seq<string>)
    ensures c != Blank ==> ws != []
  {
    match c
    case Blank => []
    case Transport(v, target) => if target == "" then [VerbWord(v)] else [VerbWord(v), target]
    case Volume(target, value) => ["volume", target, value]
    case Bpm(target, value) => ["bpm", target, value]
    case VolumeUsage => ["volume"]
    case BpmUsage => ["bpm"]
    case List => ["list"]
    case Help => ["help"]
    case Quit => ["quit"]
    case Unknown(word) => [word]
  }

  /** Fields separated by single blanks. */
  function Join(ws: seq<string>): string
    decreases |ws|
  {
    if ws == [] then ""
    else if |ws| == 1 then ws[0]
    else ws[0] + " " + Join(ws[1..])
  }

  lemma {:induction false} WordStopsAtSpace(w: string, rest: string)
    requires NoSpace(w)
    requires rest == [] || IsSpace(rest[0])
    ensures Word(w + rest) == w
    decreases |w|
  {
    if w != [] {
      assert (w + rest)[1..] == w[1..] + rest;
      WordStopsAtSpace(w[1..], rest);
      assert w == [w[0]] + w[1..];
    } else {
      assert w + rest == rest;
    }
  }

  lemma FieldsAfterWord(w: string, rest: string)
    requires w != [] && NoSpace(w)
    requires rest == [] || IsSpace(rest[0])
    ensures Fields(w + rest) == [w] + Fields(rest)
  {
    WordStopsAtSpace(w, rest);
    assert (w + rest)[|w|..] == rest;
  }

  lemma {:induction false} FieldsOfJoin(ws: seq<string>)
    requires forall i :: 0 <= i < |ws| ==> ws[i] != [] && NoSpace(ws[i])
    ensures Fields(Join(ws)) == ws
    decreases |ws|
  {
    if |ws| == 1 {
      FieldsAfterWord(ws[0], "");
      assert ws[0] + "" == ws[0];
    } else if |ws| > 1 {
      var tail := " " + Join(ws[1..]);
      assert ws[0] + " " + Join(ws[1..]) == ws[0] + tail;
      FieldsAfterWord(ws[0], tail);
      assert tail[1..] == Join(ws[1..]);
      FieldsOfJoin(ws[1..]);
      assert ws == [ws[0]] + ws[1..];
    }
  }

  lemma {:induction false} JoinLowercase(ws: seq<string>)
    requires forall i :: 0 <= i < |ws| ==> Lowercase(ws[i])
    ensures Lowercase(Join(ws))
    decreases |ws|
  {
    if |ws| > 1 {
      JoinLowercase(ws[1..]);
      var j := Join(ws[1..]);
      var s := ws[0] + " " + j;
      forall i | 0 <= i < |s| ensures !IsUpper(s[i]) {
        if i < |ws[0]| {
          assert s[i] == ws[0][i];
        } else if i > |ws[0]| {
          assert s[i] == j[i - |ws[0]| - 1];
        }
      }
    }
  }

  lemma ToLowerOfLowercase(s: string)
    requires Lowercase(s)
    ensures ToLower(s) == s
  {
  }

  /** Words and Parse are inverse: the canonical fields of a command parse back to it. */
  lemma ParseWords(c: Command)
    requires WellFormed(c) && c != Blank
    ensures Parse(Words(c)) == c
  {
  }

  /** Printing a command as a line of its canonical fields and reading that
      line back gives the command again. */
  lemma ParseLineOfWords(c: Command)
    requires WellFormed(c)
    ensures ParseLine(Join(Words(c))) == c
  {
    var ws := Words(c);
    if c != Blank {
      assert forall i :: 0 <= i < |ws| ==> IsToken(ws[i]);
      JoinLowercase(ws);
      ToLowerOfLowercase(Join(ws));
      FieldsOfJoin(ws);
      TokensEmptyIffAllSpace(Join(ws));
      ParseWords(c);
    }
  }
}
