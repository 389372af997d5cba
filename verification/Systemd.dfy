/** Writing a service's command line for systemd and reading it back: quoting,
    specifiers and dollars out, and in again, down to the service's target. */
module Systemd {
  import opened Options

  // --------------------------------------------------------------- writing

  predicate IsControl(c: char) {
    c < ' ' || '\U{7f}' <= c <= '\U{9f}'
  }

  predicate HasControl(s: string) {
    exists i | 0 <= i < |s| :: IsControl(s[i])
  }

  /** What one character of an argument is written as. */
  function Written(c: char): string {
    if c == '\\' then "\\\\"
    else if c == '"' then "\\\""
    else if c == '%' then "%%"
    else if c == '$' then "$$"
    else [c]
  }

  function Escaped(s: string): string {
    if s == "" then "" else Written(s[0]) + Escaped(s[1..])
  }

  function ExecArg(s: string): Option<string> {
    if HasControl(s) then None else Some("\"" + Escaped(s) + "\"")
  }

  predicate ForbiddenInExecutable(c: char) {
    c == '"' || c == '\'' || c == '\\' || c == '*' || c == '?' || c == '['
  }

  /** Each of the marks written twice. */
  function Doubled(s: string, marks: set<char>): string {
    if s == "" then "" else (if s[0] in marks then [s[0], s[0]] else [s[0]]) + Doubled(s[1..], marks)
  }

  /** The executable: systemd expands specifiers in it but no variables. */
  function Executable(s: string): Option<string> {
    if HasControl(s) || exists i | 0 <= i < |s| :: ForbiddenInExecutable(s[i]) then None
    else Some("\"" + Doubled(s, {'%'}) + "\"")
  }

  function ExecStart(binary: string, config: string): Option<string> {
    match (Executable(binary), ExecArg(config))
    case (Some(b), Some(c)) => Some(b + " run --config " + c)
    case _ => None
  }

  // --------------------------------------- reading: words (systemd.syntax(7))

  function Begun(word: Option<string>): string {
    if word.Some? then word.value else ""
  }

  function Emitted(word: Option<string>): seq<string> {
    if word.Some? then [word.value] else []
  }

  /** Splits a line into words. `word` is the word being read, `quoted` whether
      it stands inside double quotes. Escapes other than of a backslash or a
      double quote, and single quotes outside double ones, are not read. */
  function Words(s: string, quoted: bool, word: Option<string>): Option<seq<string>>
    requires quoted ==> word.Some?
    decreases |s|
  {
    if s == "" then (if quoted then None else Some(Emitted(word)))
    else if s[0] == '"' then Words(s[1..], !quoted, Some(Begun(word)))
    else if s[0] == '\\' then
      if |s| >= 2 && (s[1] == '\\' || s[1] == '"') then Words(s[2..], quoted, Some(Begun(word) + [s[1]])) else None
    else if !quoted && s[0] == ' ' then
      (match Words(s[1..], false, None)
       case None => None
       case Some(rest) => Some(Emitted(word) + rest))
    else if !quoted && s[0] == '\'' then None
    else Words(s[1..], quoted, Some(Begun(word) + [s[0]]))
  }

  // ------------------------------------ specifiers (systemd.service(5)), dollars

  function Prepended(a: string, r: Option<string>): Option<string> {
    if r.None? then None else Some(a + r.value)
  }

  lemma PrependedTwice(a: string, b: string, r: Option<string>)
    ensures Prepended(a, Prepended(b, r)) == Prepended(a + b, r)
  {
    if r.Some? {
      assert a + (b + r.value) == a + b + r.value;
    }
  }

  /** `mark` doubled stands for itself, and alone for something unknown here. */
  function Undoubled(s: string, mark: char): Option<string> {
    if s == "" then Some("")
    else if s[0] != mark then Prepended([s[0]], Undoubled(s[1..], mark))
    else if |s| >= 2 && s[1] == mark then Prepended([mark], Undoubled(s[2..], mark))
    else None
  }

  function Specifiers(s: string): Option<string> {
    Undoubled(s, '%')
  }

  function Dollars(s: string): Option<string> {
    Undoubled(s, '$')
  }

  /** The loop over the dollars of one argument. */
  method UnescapeDollars(arg: string) returns (literal: Option<string>)
    ensures literal == Dollars(arg)
  {
    var built := "";
    var j := 0;
    assert arg[0..] == arg;
    assert Dollars(arg).Some? ==> "" + Dollars(arg).value == Dollars(arg).value;
    while j < |arg|
      invariant 0 <= j <= |arg|
      invariant Dollars(arg) == Prepended(built, Dollars(arg[j..]))
    {
      assert arg[j..][1..] == arg[j + 1..];
      assert j + 1 < |arg| ==> arg[j..][2..] == arg[j + 2..];
      PrependedTwice(built, [arg[j]], Dollars(arg[j + 1..]));
      if arg[j] == '$' {
        if j + 1 == |arg| || arg[j + 1] != '$' {
          return None;
        }
        PrependedTwice(built, "$", Dollars(arg[j + 2..]));
        j := j + 1;
      }
      built := built + [arg[j]];
      j := j + 1;
    }
    assert arg[j..] == "" && built + "" == built;
    literal := Some(built);
  }

  /** Positions `i` to `j` are a run of dollars that cannot be extended. */
  predicate MaximalRun(s: string, i: nat, j: nat) {
    && i < j <= |s|
    && (forall k | i <= k < j :: s[k] == '$')
    && (i > 0 ==> s[i - 1] != '$')
    && (j < |s| ==> s[j] != '$')
  }

  predicate PairedDollars(s: string) {
    forall i, j | 0 <= i < j <= |s| && MaximalRun(s, i, j) :: (j - i) % 2 == 0
  }

  lemma RunAfterOther(s: string, i: nat, j: nat)
    requires s != "" && s[0] != '$'
    ensures MaximalRun(s[1..], i, j) ==> MaximalRun(s, i + 1, j + 1)
    ensures i >= 1 && MaximalRun(s, i, j) ==> MaximalRun(s[1..], i - 1, j - 1)
    ensures !MaximalRun(s, 0, j)
  {
    if MaximalRun(s[1..], i, j) {
      forall k | i + 1 <= k < j + 1 ensures s[k] == '$' {
        assert s[1..][k - 1] == '$';
      }
      assert i > 0 ==> s[i] == s[1..][i - 1];
    }
  }

  lemma PairsAfterOther(s: string)
    requires s != "" && s[0] != '$'
    ensures PairedDollars(s) <==> PairedDollars(s[1..])
  {
    if PairedDollars(s) {
      forall i, j | 0 <= i < j <= |s[1..]| && MaximalRun(s[1..], i, j) ensures (j - i) % 2 == 0 {
        RunAfterOther(s, i, j);
        assert MaximalRun(s, i + 1, j + 1);
      }
    }
    if PairedDollars(s[1..]) {
      forall i, j | 0 <= i < j <= |s| && MaximalRun(s, i, j) ensures (j - i) % 2 == 0 {
        RunAfterOther(s, i, j);
        assert MaximalRun(s[1..], i - 1, j - 1);
      }
    }
  }

  lemma RunAfterPair(s: string, i: nat, j: nat)
    requires |s| >= 2 && s[0] == '$' && s[1] == '$'
    ensures MaximalRun(s[2..], i, j) ==> MaximalRun(s, if i == 0 then 0 else i + 2, j + 2)
    ensures MaximalRun(s, i, j) ==> (i == 0 && j >= 2) || i >= 3
    ensures i == 0 && j > 2 && MaximalRun(s, i, j) ==> MaximalRun(s[2..], 0, j - 2)
    ensures i >= 3 && MaximalRun(s, i, j) ==> MaximalRun(s[2..], i - 2, j - 2)
  {
    if MaximalRun(s[2..], i, j) {
      forall k | i + 2 <= k < j + 2 ensures s[k] == '$' {
        assert s[2..][k - 2] == '$';
      }
      assert i > 0 ==> s[i + 1] == s[2..][i - 1];
      assert j < |s[2..]| ==> s[j + 2] == s[2..][j];
    }
  }

  lemma PairsAfterPair(s: string)
    requires |s| >= 2 && s[0] == '$' && s[1] == '$'
    ensures PairedDollars(s) <==> PairedDollars(s[2..])
  {
    if PairedDollars(s) {
      forall i, j | 0 <= i < j <= |s[2..]| && MaximalRun(s[2..], i, j) ensures (j - i) % 2 == 0 {
        RunAfterPair(s, i, j);
        assert MaximalRun(s, if i == 0 then 0 else i + 2, j + 2);
      }
    }
    if PairedDollars(s[2..]) {
      forall i, j | 0 <= i < j <= |s| && MaximalRun(s, i, j) ensures (j - i) % 2 == 0 {
        RunAfterPair(s, i, j);
        if i == 0 && j > 2 {
          assert MaximalRun(s[2..], 0, j - 2);
        } else if i >= 3 {
          assert MaximalRun(s[2..], i - 2, j - 2);
        }
      }
    }
  }

  /** The dollar loop accepts an argument exactly when every run of dollars in it
      is of even length, that is when they pair up from left to right. */
  lemma {:induction false} DollarsPairUp(s: string)
    ensures Dollars(s).Some? <==> PairedDollars(s)
    decreases |s|
  {
    if s == "" {
    } else if s[0] != '$' {
      PairsAfterOther(s);
      DollarsPairUp(s[1..]);
    } else if |s| >= 2 && s[1] == '$' {
      PairsAfterPair(s);
      DollarsPairUp(s[2..]);
    } else {
      assert MaximalRun(s, 0, 1);
    }
  }

  // ---------------------------------------------------- the service's target

  predicate IsAbs(p: string) {
    p != "" && p[0] == '/'
  }

  datatype Target = Target(binary: string, config: string)

  const FLAG := "--config"
  const FLAG_IS := "--config="

  function Consed(v: string, r: Option<seq<string>>): Option<seq<string>> {
    if r.None? then None else Some([v] + r.value)
  }

  /** The values the arguments from `i` on give the configuration path, in order;
      None when the flag comes last, without a value. */
  function Values(args: seq<string>, i: nat): Option<seq<string>>
    decreases |args| - i
  {
    if i >= |args| then Some([])
    else if args[i] == FLAG then (if i + 1 >= |args| then None else Consed(args[i + 1], Values(args, i + 2)))
    else if FLAG_IS <= args[i] then Consed(args[i][|FLAG_IS|..], Values(args, i + 1))
    else Values(args, i + 1)
  }

  /** The one absolute path given. */
  predicate NamesOne(args: seq<string>, v: string) {
    Values(args, 1) == Some([v]) && IsAbs(v)
  }

  function Appended(seen: seq<string>, r: Option<seq<string>>): Option<seq<string>> {
    if r.None? then None else Some(seen + r.value)
  }

  /** If one value is all there is, then no other came before or after it. */
  lemma OnlyValue(args: seq<string>, seen: seq<string>, value: string, rest: Option<seq<string>>)
    requires Values(args, 1) == Appended(seen + [value], rest)
    ensures forall v | NamesOne(args, v) :: seen == [] && v == value
  {
    forall v | NamesOne(args, v) ensures seen == [] && v == value {
      var all := seen + [value] + rest.value;
      assert |all| == 1 && all[|seen|] == value;
    }
  }

  /** What one more argument adds to the values seen. */
  lemma AppendedTwice(seen: seq<string>, args: seq<string>, i: nat)
    requires i < |args|
    ensures args[i] == FLAG && i + 1 < |args| ==>
              Appended(seen, Values(args, i)) == Appended(seen + [args[i + 1]], Values(args, i + 2))
    ensures args[i] != FLAG && FLAG_IS <= args[i] ==>
              Appended(seen, Values(args, i)) == Appended(seen + [args[i][|FLAG_IS|..]], Values(args, i + 1))
    ensures !(FLAG_IS <= FLAG)
  {
    assert |FLAG_IS| > |FLAG|;
    var k := if args[i] == FLAG then i + 2 else i + 1;
    var v := if args[i] == FLAG && i + 1 < |args| then args[i + 1] else if FLAG_IS <= args[i] then args[i][|FLAG_IS|..] else "";
    if Values(args, k).Some? {
      assert seen + ([v] + Values(args, k).value) == seen + [v] + Values(args, k).value;
    }
  }

  /** Accepts exactly a `run` of the verified executable that gives one absolute
      configuration path, and returns that path cleaned. */
  method TargetFromArgs(clean: string -> string, binary: string, args: seq<string>) returns (target: Option<Target>)
    requires forall p :: IsAbs(p) ==> clean(p) != ""
    ensures target.Some? <==>
            IsAbs(binary) && |args| >= 2 && args[0] == binary && args[1] == "run" && exists v :: NamesOne(args, v)
    ensures forall v | target.Some? && NamesOne(args, v) :: target.value == Target(binary, clean(v)) && v[0] == '/' == binary[0]
  {
    if !IsAbs(binary) || |args| < 2 || args[0] != binary {
      return None;
    }
    if args[1] != "run" {
      return None;
    }
    var configPath := "";
    ghost var seen: seq<string> := [];
    var i := 1;
    assert Values(args, 1).Some? ==> [] + Values(args, 1).value == Values(args, 1).value;
    while i < |args|
      invariant 1 <= i
      invariant Values(args, 1) == Appended(seen, Values(args, i))
      invariant configPath == "" <==> seen == []
      invariant seen != [] ==> |seen| == 1 && IsAbs(seen[0]) && configPath == clean(seen[0])
    {
      AppendedTwice(seen, args, i);
      var value, found := "", false;
      if FLAG_IS <= args[i] {
        value, found := args[i][|FLAG_IS|..], true;
      }
      if args[i] == FLAG {
        i := i + 1;
        if i >= |args| {
          return None;
        }
        value, found := args[i], true;
      }
      if found {
        OnlyValue(args, seen, value, Values(args, i + 1));
        if configPath != "" || !IsAbs(value) {
          return None;
        }
        configPath := clean(value);
        seen := seen + [value];
      }
      i := i + 1;
    }
    assert seen + [] == seen;
    if configPath == "" {
      return None;
    }
    assert seen == [seen[0]];
    assert NamesOne(args, seen[0]);
    target := Some(Target(binary, configPath));
  }

  function Literal(argv: seq<string>): seq<string> {
    seq(|argv|, k requires 0 <= k < |argv| =>
      if k >= 1 && Dollars(argv[k]).Some? then Dollars(argv[k]).value else argv[k])
  }

  /** What the program reads back: dollars undone in all arguments but the
      executable, unless systemd was told not to expand any, then the target. */
  method ReadTarget(clean: string -> string, binary: string, argv: seq<string>, noExpand: bool) returns (target: Option<Target>)
    requires forall p :: IsAbs(p) ==> clean(p) != ""
    ensures target.Some? <==>
            && (noExpand || forall k | 1 <= k < |argv| :: PairedDollars(argv[k]))
            && var args := if noExpand then argv else Literal(argv);
               IsAbs(binary) && |args| >= 2 && args[0] == binary && args[1] == "run" && exists v :: NamesOne(args, v)
    ensures var args := if noExpand then argv else Literal(argv);
            forall v | target.Some? && NamesOne(args, v) :: target.value == Target(binary, clean(v))
  {
    var args := argv;
    if !noExpand {
      var i := 1;
      while i < |argv|
        invariant 1 <= i && |args| == |argv|
        invariant forall k | 1 <= k < i && k < |argv| :: PairedDollars(argv[k])
        invariant forall k | 0 <= k < |argv| :: args[k] == if 1 <= k < i then Literal(argv)[k] else argv[k]
      {
        var literal := UnescapeDollars(argv[i]);
        DollarsPairUp(argv[i]);
        if literal.None? {
          return None;
        }
        args := args[i := literal.value];
        i := i + 1;
      }
      assert args == Literal(argv);
    }
    target := TargetFromArgs(clean, binary, args);
  }

  // -------------------------------------------------------- there and back

  /** Undoing one mark leaves the others doubled. */
  lemma {:induction false} UndoOneMark(s: string, mark: char, marks: set<char>)
    requires mark in marks
    ensures Undoubled(Doubled(s, marks), mark) == Some(Doubled(s, marks - {mark}))
  {
    if s != "" {
      var rest := Doubled(s[1..], marks);
      UndoOneMark(s[1..], mark, marks);
      if s[0] in marks {
        assert ([s[0], s[0]] + rest)[1..] == [s[0]] + rest;
        assert ([s[0], s[0]] + rest)[2..] == rest && ([s[0]] + rest)[1..] == rest;
        PrependedTwice([s[0]], [s[0]], Undoubled(rest, mark));
        assert [s[0]] + [s[0]] == [s[0], s[0]];
      } else {
        assert ([s[0]] + rest)[1..] == rest;
      }
    }
  }

  lemma {:induction false} NoMarksNoDoubling(s: string)
    ensures Doubled(s, {}) == s
  {
    if s != "" {
      NoMarksNoDoubling(s[1..]);
    }
  }

  lemma WrittenIsRead(c: char, tail: string, w: string)
    ensures Words(Written(c) + tail, true, Some(w)) ==
            Words(tail, true, Some(w + if c in {'%', '$'} then [c, c] else [c]))
  {
    var t := Written(c) + tail;
    if c == '\\' || c == '"' {
      assert t[0] == '\\' && t[1] == c && t[2..] == tail;
    } else if c in {'%', '$'} {
      assert t[0] == c && t[1..] == [c] + tail && ([c] + tail)[1..] == tail;
      assert w + [c] + [c] == w + [c, c];
    } else {
      assert t[0] == c && t[1..] == tail;
    }
  }

  /** An escaped argument inside quotes is read as itself, dollars and percents doubled. */
  lemma {:induction false} EscapedIsRead(s: string, rest: string, w: string)
    ensures Words(Escaped(s) + rest, true, Some(w)) == Words(rest, true, Some(w + Doubled(s, {'%', '$'})))
  {
    if s == "" {
      assert Escaped(s) + rest == rest && w + Doubled(s, {'%', '$'}) == w;
    } else {
      var tail := Escaped(s[1..]) + rest;
      var d := if s[0] in {'%', '$'} then [s[0], s[0]] else [s[0]];
      assert Escaped(s) + rest == Written(s[0]) + tail;
      WrittenIsRead(s[0], tail, w);
      EscapedIsRead(s[1..], rest, w + d);
      assert w + d + Doubled(s[1..], {'%', '$'}) == w + Doubled(s, {'%', '$'});
    }
  }

  /** Characters without a meaning of their own. */
  predicate Plain(s: string) {
    forall i | 0 <= i < |s| :: s[i] != '"' && s[i] != '\\'
  }

  lemma {:induction false} PlainIsRead(s: string, rest: string, w: string)
    requires Plain(s)
    ensures Words(s + rest, true, Some(w)) == Words(rest, true, Some(w + s))
  {
    if s == "" {
      assert s + rest == rest && w + s == w;
    } else {
      assert (s + rest)[0] == s[0] && (s + rest)[1..] == s[1..] + rest;
      PlainIsRead(s[1..], rest, w + [s[0]]);
      assert w + [s[0]] + s[1..] == w + s;
    }
  }

  lemma {:induction false} DoublingStaysPlain(s: string, marks: set<char>)
    requires Plain(s)
    ensures Plain(Doubled(s, marks))
  {
    if s != "" {
      DoublingStaysPlain(s[1..], marks);
    }
  }

  function Before(w: string, r: Option<seq<string>>): Option<seq<string>> {
    if r.None? then None else Some([w] + r.value)
  }

  /** A bare word and the space after it. */
  lemma {:induction false} BareWordIsRead(s: string, rest: string, w: Option<string>)
    requires Plain(s) && s != "" && forall i | 0 <= i < |s| :: s[i] != ' ' && s[i] != '\''
    ensures Words(s + " " + rest, false, w) == Before(Begun(w) + s, Words(rest, false, None))
  {
    var line := s + " " + rest;
    assert line[0] == s[0] && line[1..] == s[1..] + " " + rest;
    if |s| == 1 {
      assert line[1..] == " " + rest && (" " + rest)[1..] == rest;
      assert s == [s[0]];
    } else {
      BareWordIsRead(s[1..], rest, Some(Begun(w) + [s[0]]));
      assert Begun(w) + [s[0]] + s[1..] == Begun(w) + s;
    }
  }

  /** A quoted word at the start of a line, and what follows its closing quote. */
  lemma QuotedBegins(inside: string, rest: string)
    ensures Words("\"" + inside + "\"" + rest, false, None) == Words(inside + ("\"" + rest), true, Some(""))
  {
    var line := "\"" + inside + "\"" + rest;
    assert line[0] == '"' && line[1..] == inside + ("\"" + rest);
  }

  lemma QuoteEnds(rest: string, w: string)
    ensures Words("\"" + rest, true, Some(w)) == Words(rest, false, Some(w))
  {
    assert ("\"" + rest)[0] == '"' && ("\"" + rest)[1..] == rest;
  }

  lemma SpaceEnds(rest: string, w: string)
    ensures Words(" " + rest, false, Some(w)) == Before(w, Words(rest, false, None))
  {
    assert (" " + rest)[0] == ' ' && (" " + rest)[1..] == rest;
  }

  lemma ExecutableIsRead(d: string, tail: string)
    requires Plain(d)
    ensures Words("\"" + d + "\"" + (" " + tail), false, None) == Before(d, Words(tail, false, None))
  {
    QuotedBegins(d, " " + tail);
    PlainIsRead(d, "\"" + (" " + tail), "");
    assert "" + d == d;
    QuoteEnds(" " + tail, d);
    SpaceEnds(tail, d);
  }

  lemma RunIsRead(quoted: string)
    ensures Words("run" + " " + ("--config" + " " + quoted), false, None) ==
            Before("run", Before("--config", Words(quoted, false, None)))
  {
    BareWordIsRead("run", "--config" + " " + quoted, None);
    BareWordIsRead("--config", quoted, None);
    assert "" + "run" == "run" && "" + "--config" == "--config";
  }

  lemma LineIsMadeOf(d: string, quoted: string)
    ensures "\"" + d + "\"" + " run --config " + quoted ==
            "\"" + d + "\"" + (" " + ("run" + " " + ("--config" + " " + quoted)))
  {}

  lemma LastWordIsRead(c: string)
    ensures Words("\"" + Escaped(c) + "\"", false, None) == Some([Doubled(c, {'%', '$'})])
  {
    assert "\"" + Escaped(c) + "\"" == "\"" + Escaped(c) + "\"" + "";
    QuotedBegins(Escaped(c), "");
    EscapedIsRead(c, "\"" + "", "");
    QuoteEnds("", "" + Doubled(c, {'%', '$'}));
    assert "" + Doubled(c, {'%', '$'}) == Doubled(c, {'%', '$'});
  }

  /** The written line is split into the four words it was made of. */
  lemma LineIsSplit(b: string, c: string)
    requires ExecStart(b, c).Some?
    ensures Words(ExecStart(b, c).value, false, None) ==
            Some([Doubled(b, {'%'}), "run", "--config", Doubled(c, {'%', '$'})])
  {
    var d, quoted := Doubled(b, {'%'}), "\"" + Escaped(c) + "\"";
    LineIsMadeOf(d, quoted);
    assert Plain(b);
    DoublingStaysPlain(b, {'%'});
    ExecutableIsRead(d, "run" + " " + ("--config" + " " + quoted));
    RunIsRead(quoted);
    LastWordIsRead(c);
    var last := Doubled(c, {'%', '$'});
    assert [d] + (["run"] + (["--config"] + [last])) == [d, "run", "--config", last];
  }

  /** What systemd makes of the line: its words, with specifiers expanded. */
  function Loaded(line: string): Option<seq<string>> {
    match Words(line, false, None)
    case None => None
    case Some(words) =>
      if forall i | 0 <= i < |words| :: Specifiers(words[i]).Some?
      then Some(seq(|words|, i requires 0 <= i < |words| => Specifiers(words[i]).value)) else None
  }

  lemma {:induction false} NothingToUndo(s: string, mark: char)
    requires mark !in s
    ensures Undoubled(s, mark) == Some(s)
  {
    if s != "" {
      NothingToUndo(s[1..], mark);
      assert [s[0]] + s[1..] == s;
    }
  }

  lemma SpecifiersUndone(b: string, c: string)
    ensures Specifiers(Doubled(b, {'%'})) == Some(b)
    ensures Specifiers("run") == Some("run") && Specifiers("--config") == Some("--config")
    ensures Specifiers(Doubled(c, {'%', '$'})) == Some(Doubled(c, {'$'}))
  {
    UndoOneMark(b, '%', {'%'});
    assert {'%'} - {'%'} == {};
    NoMarksNoDoubling(b);
    UndoOneMark(c, '%', {'%', '$'});
    assert {'%', '$'} - {'%'} == {'$'};
    NothingToUndo("run", '%');
    NothingToUndo("--config", '%');
  }

  lemma FourWordsLoaded(line: string, b: string, c: string)
    requires Words(line, false, None) == Some([Doubled(b, {'%'}), "run", "--config", Doubled(c, {'%', '$'})])
    ensures Loaded(line) == Some([b, "run", "--config", Doubled(c, {'$'})])
  {
    SpecifiersUndone(b, c);
    var words := Words(line, false, None).value;
    assert Specifiers(words[0]) == Some(b) && Specifiers(words[3]) == Some(Doubled(c, {'$'}));
    assert Specifiers(words[1]) == Some(words[1]) && Specifiers(words[2]) == Some(words[2]);
    assert seq(4, i requires 0 <= i < 4 => Specifiers(words[i]).value) == [b, "run", "--config", Doubled(c, {'$'})];
  }

  lemma LineIsLoaded(b: string, c: string)
    requires ExecStart(b, c).Some?
    ensures Loaded(ExecStart(b, c).value) == Some([b, "run", "--config", Doubled(c, {'$'})])
  {
    LineIsSplit(b, c);
    FourWordsLoaded(ExecStart(b, c).value, b, c);
  }

  lemma ArgumentsAreLiteral(b: string, c: string)
    ensures var argv := [b, "run", "--config", Doubled(c, {'$'})];
            && Literal(argv) == [b, "run", "--config", c]
            && forall k | 1 <= k < |argv| :: PairedDollars(argv[k])
  {
    UndoOneMark(c, '$', {'$'});
    assert {'$'} - {'$'} == {};
    NoMarksNoDoubling(c);
    NothingToUndo("run", '$');
    NothingToUndo("--config", '$');
    DollarsPairUp("run");
    DollarsPairUp("--config");
    DollarsPairUp(Doubled(c, {'$'}));
  }

  lemma OneConfig(b: string, c: string)
    requires IsAbs(c)
    ensures NamesOne([b, "run", "--config", c], c)
  {
    var args := [b, "run", "--config", c];
    assert args[1] != FLAG && !(FLAG_IS <= args[1]) by {
      assert args[1][0] == 'r' && FLAG_IS[0] == '-' && FLAG[0] == '-';
    }
    assert args[2] == FLAG;
    assert Values(args, 4) == Some([]);
    assert Values(args, 2) == Consed(c, Values(args, 4));
    assert [c] + [] == [c];
  }

  /** A unit written for an accepted executable and any absolute configuration
      path without control characters is read back, through systemd's quoting and
      specifiers and the dollar loop, as the same executable and the cleaned path. */
  method WriteAndReadBack(clean: string -> string, binary: string, config: string) returns (target: Option<Target>)
    requires forall p :: IsAbs(p) ==> clean(p) != ""
    ensures ExecStart(binary, config).None? <==>
            HasControl(binary) || HasControl(config) || exists i | 0 <= i < |binary| :: ForbiddenInExecutable(binary[i])
    ensures ExecStart(binary, config).Some? && IsAbs(binary) && IsAbs(config) ==>
            target == Some(Target(binary, clean(config)))
  {
    var line := ExecStart(binary, config);
    if line.None? {
      return None;
    }
    LineIsLoaded(binary, config);
    ArgumentsAreLiteral(binary, config);
    var argv := Loaded(line.value).value;
    target := ReadTarget(clean, argv[0], argv, false);
    if IsAbs(config) {
      OneConfig(binary, config);
    }
  }
}
