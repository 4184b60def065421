/** The startup handshake: what the service writes to the pipe and what the parent reads from it
    (gateway/service.py sanitize_pipe_message, _write_startup_signal; gateway/daemon.py
    _wait_for_startup_signal). Text stands for its UTF-8 bytes. */
module Pipe {

  const CHUNK := 4096
  const ERROR := "error:"
  const INFO := "info:"

  // The line boundaries of Python's splitlines.
  predicate IsBreak(c: char) {
    c in {'\n', '\r', '\U{0B}', '\U{0C}', '\U{1C}', '\U{1D}', '\U{1E}', '\U{85}', '\U{2028}', '\U{2029}'}
  }

  // What Python's strip removes.
  predicate IsSpace(c: char) {
    || c in {' ', '\t', '\U{1F}', '\U{A0}', '\U{1680}', '\U{202F}', '\U{205F}', '\U{3000}'}
    || '\U{2000}' <= c <= '\U{200A}'
    || IsBreak(c)
  }

  function SanitizeChar(c: char): char {
    if c == '\n' || c == '\r' then ' ' else c
  }

  function Sanitize(m: string): (r: string)
    ensures |r| == |m|
    ensures forall i :: 0 <= i < |m| ==> r[i] == SanitizeChar(m[i])
  {
    seq(|m|, i requires 0 <= i < |m| => SanitizeChar(m[i]))
  }

  function ErrorLine(m: string): string {
    ERROR + Sanitize(m) + "\n"
  }

  function Payload(errors: seq<string>, fatal: bool): string {
    if errors == [] then (if fatal then "" else "ok\n")
    else ErrorLine(errors[0]) + Payload(errors[1..], fatal)
  }

  method WriteStartupSignal(errors: seq<string>, fatal: bool) returns (payload: string)
    ensures payload == Payload(errors, fatal)
  {
    payload := "";
    for i := 0 to |errors|
      invariant payload + Payload(errors[i..], fatal) == Payload(errors, fatal)
    {
      assert errors[i..][1..] == errors[i + 1..];
      payload := payload + ErrorLine(errors[i]);
    }
    assert errors[|errors|..] == [];
    if !fatal { payload := payload + "ok\n"; }
  }

  // ---- The reader ----

  function BreakAt(s: string): (n: nat)
    ensures n <= |s| && (n < |s| ==> IsBreak(s[n])) && forall i :: 0 <= i < n ==> !IsBreak(s[i])
  {
    if s == "" || IsBreak(s[0]) then 0 else 1 + BreakAt(s[1..])
  }

  function BreakLength(s: string, n: nat): nat
    requires n < |s|
  {
    if s[n] == '\r' && n + 1 < |s| && s[n + 1] == '\n' then 2 else 1
  }

  /** The lines of a text; a break at the very end starts no further line. */
  function Lines(s: string): seq<string>
    decreases |s|
  {
    if s == "" then []
    else
      var n := BreakAt(s);
      if n == |s| then [s] else [s[..n]] + Lines(s[n + BreakLength(s, n)..])
  }

  function StripLeft(s: string): string {
    if s != "" && IsSpace(s[0]) then StripLeft(s[1..]) else s
  }

  function StripRight(s: string): string {
    if s != "" && IsSpace(s[|s| - 1]) then StripRight(s[..|s| - 1]) else s
  }

  function Strip(s: string): string { StripRight(StripLeft(s)) }

  predicate StartsWith(s: string, prefix: string) {
    |prefix| <= |s| && s[..|prefix|] == prefix
  }

  // The rest of each line that starts with the prefix, stripped.
  function Tagged(lines: seq<string>, prefix: string): seq<string> {
    if lines == [] then []
    else (if StartsWith(lines[0], prefix) then [Strip(lines[0][|prefix|..])] else []) + Tagged(lines[1..], prefix)
  }

  predicate SeesOk(lines: seq<string>) {
    exists i :: 0 <= i < |lines| && Strip(lines[i]) == "ok"
  }

  datatype Report = Report(infos: seq<string>, errors: seq<string>, ok: bool)

  function Parse(data: string): Report {
    var lines := Lines(data);
    Report(Tagged(lines, INFO), Tagged(lines, ERROR), SeesOk(lines))
  }

  // Reads until the writer closes; a read error ends it early.
  method ReadPipe(written: string) returns (data: string, failed: bool)
    ensures |data| <= |written| && data == written[..|data|]
    ensures !failed ==> data == written
  {
    data, failed := "", false;
    while |data| < |written|
      invariant |data| <= |written| && data == written[..|data|] && !failed
      decreases |written| - |data|
    {
      failed := *;
      if failed { return; }
      var n: nat :| 0 < n <= CHUNK && |data| + n <= |written|;
      data := data + written[|data|..|data| + n];
    }
  }

  // The parent's answer: its exit code, and what it prints.
  method WaitForStartupSignal(written: string) returns (code: int, infos: seq<string>, errors: seq<string>,
                              failed: bool)
    ensures !failed ==> infos == Parse(written).infos && errors == Parse(written).errors
    ensures !failed ==> (code == 0 <==> Parse(written).ok)
    ensures code == 0 || code == 1
    ensures failed ==> exists n :: 0 <= n <= |written| && (code == 0 <==> Parse(written[..n]).ok)
  {
    var data;
    data, failed := ReadPipe(written);
    var report := Parse(data);
    infos, errors := report.infos, report.errors;
    code := if report.ok then 0 else 1;
    assert data == written[..|data|];
  }

  // ---- The round trip ----

  lemma BreakIs(s: string, n: nat)
    requires n <= |s| && (n < |s| ==> IsBreak(s[n])) && forall i :: 0 <= i < n ==> !IsBreak(s[i])
    ensures BreakAt(s) == n
  {
  }

  lemma LinesSplit(s: string, n: nat)
    requires n < |s| && IsBreak(s[n]) && s[n] != '\r' && forall i :: 0 <= i < n ==> !IsBreak(s[i])
    ensures Lines(s) == [s[..n]] + Lines(s[n + 1..])
  {
    BreakIs(s, n);
    assert BreakAt(s) == n && BreakLength(s, n) == 1;
    var rest := s[n + 1..];
    assert s[n + BreakLength(s, BreakAt(s))..] == rest;
  }

  function FirstLine(s: string): string { s[..BreakAt(s)] }

  // What follows the first line and its break.
  function AfterFirst(s: string): string
    requires BreakAt(s) < |s|
  {
    s[BreakAt(s) + BreakLength(s, BreakAt(s))..]
  }

  lemma LinesOf(s: string)
    requires BreakAt(s) < |s|
    ensures Lines(s) == [FirstLine(s)] + Lines(AfterFirst(s))
  {
  }

  /** A text that ends its last line can be read on its own. */
  lemma {:induction false} LinesAppend(a: string, b: string)
    requires a != "" && a[|a| - 1] == '\n'
    ensures Lines(a + b) == Lines(a) + Lines(b)
    decreases |a|
  {
    SameFirstLine(a, b);
    LinesOf(a);
    LinesOf(a + b);
    var rest := AfterFirst(a);
    if rest == "" {
      assert rest + b == b;
      assert [FirstLine(a)] + Lines(b) == ([FirstLine(a)] + []) + Lines(b);
    } else {
      LinesAppend(rest, b);
      Regroup(FirstLine(a), Lines(rest), Lines(b));
    }
  }

  lemma Regroup(x: string, a: seq<string>, b: seq<string>)
    ensures [x] + (a + b) == ([x] + a) + b
  {
  }

  lemma SameFirstLine(a: string, b: string)
    requires a != "" && a[|a| - 1] == '\n'
    ensures BreakAt(a) < |a| && BreakAt(a + b) == BreakAt(a) && FirstLine(a + b) == FirstLine(a)
    ensures AfterFirst(a + b) == AfterFirst(a) + b
    ensures AfterFirst(a) != "" ==> AfterFirst(a)[|AfterFirst(a)| - 1] == '\n'
  {
    var s, n := a + b, BreakAt(a);
    assert IsBreak(a[|a| - 1]);
    assert forall i :: 0 <= i < |a| ==> s[i] == a[i];
    BreakIs(s, n);
    assert BreakLength(s, n) == BreakLength(a, n);
  }

  lemma {:induction false} StripLeftStarts(s: string)
    ensures StripLeft(s) != "" ==> !IsSpace(StripLeft(s)[0])
    ensures s != "" && !IsSpace(s[0]) ==> StripLeft(s) == s
  {
    if s != "" { StripLeftStarts(s[1..]); }
  }

  lemma {:induction false} StripRightKeepsStart(s: string)
    requires s != "" && !IsSpace(s[0])
    ensures StripRight(s) != "" && StripRight(s)[0] == s[0]
    decreases |s|
  {
    if IsSpace(s[|s| - 1]) { StripRightKeepsStart(s[..|s| - 1]); }
  }

  lemma StripKeepsStart(s: string)
    requires s != "" && !IsSpace(s[0])
    ensures Strip(s) != "" && Strip(s)[0] == s[0]
  {
    StripLeftStarts(s);
    StripRightKeepsStart(s);
  }

  /** Beyond its first line, does what a message becomes say `ok`? */
  predicate HoldsOkLine(m: string) {
    var lines := Lines(ErrorLine(m));
    lines != [] && SeesOk(lines[1..])
  }

  lemma StartsWithE(m: string)
    ensures var lines := Lines(ErrorLine(m)); lines != [] && lines[0] != "" && lines[0][0] == 'e'
  {
    var s := ErrorLine(m);
    assert s[0] == 'e' && !IsBreak(s[0]);
    var n := BreakAt(s);
    assert n > 0 && (n < |s| ==> s[..n][0] == 'e');
  }

  lemma SeesOkAppend(a: seq<string>, b: seq<string>)
    ensures SeesOk(a + b) <==> SeesOk(a) || SeesOk(b)
  {
    if SeesOk(a) {
      var i :| 0 <= i < |a| && Strip(a[i]) == "ok";
      assert (a + b)[i] == a[i];
    }
    if SeesOk(b) {
      var i :| 0 <= i < |b| && Strip(b[i]) == "ok";
      assert (a + b)[|a| + i] == b[i];
    }
  }

  lemma ErrorLineOk(m: string)
    ensures SeesOk(Lines(ErrorLine(m))) <==> HoldsOkLine(m)
  {
    StartsWithE(m);
    var lines := Lines(ErrorLine(m));
    assert !IsSpace('e');
    StripKeepsStart(lines[0]);
    assert !SeesOk(lines[..1]);
    SeesOkAppend(lines[..1], lines[1..]);
    assert lines == lines[..1] + lines[1..];
  }

  lemma OkAlone()
    ensures Lines("ok\n") == ["ok"] && Strip("ok") == "ok"
  {
    BreakIs("ok\n", 2);
    assert "ok\n"[..2] == "ok" && "ok\n"[3..] == "";
    StripLeftStarts("ok");
  }

  /** The parent sees `ok` exactly when the startup was not fatal, or some message carries a break
      that is neither LF nor CR and a line of its own that says ok. */
  lemma {:induction false} OkMeans(errors: seq<string>, fatal: bool)
    ensures Parse(Payload(errors, fatal)).ok <==> !fatal || exists i :: 0 <= i < |errors| && HoldsOkLine(errors[i])
    decreases |errors|
  {
    if errors == [] {
      OkAlone();
      if !fatal { assert Lines("ok\n")[0] == "ok"; }
    } else {
      var line, rest := ErrorLine(errors[0]), Payload(errors[1..], fatal);
      LinesAppend(line, rest);
      SeesOkAppend(Lines(line), Lines(rest));
      ErrorLineOk(errors[0]);
      OkMeans(errors[1..], fatal);
      if i :| 0 <= i < |errors| && HoldsOkLine(errors[i]) && i > 0 { assert errors[1..][i - 1] == errors[i]; }
      if i :| 0 <= i < |errors[1..]| && HoldsOkLine(errors[1..][i]) { assert errors[i + 1] == errors[1..][i]; }
    }
  }

  /** LF and CR are the only line breaks in the message. */
  predicate PlainBreaks(m: string) {
    forall i :: 0 <= i < |m| && IsBreak(m[i]) ==> m[i] == '\n' || m[i] == '\r'
  }

  lemma PlainLine(m: string)
    requires PlainBreaks(m)
    ensures Lines(ErrorLine(m)) == [ERROR + Sanitize(m)]
  {
    var s, n := ErrorLine(m), |ERROR| + |m|;
    forall i | 0 <= i < n ensures !IsBreak(s[i]) {
      if i >= |ERROR| { assert s[i] == Sanitize(m)[i - |ERROR|]; }
    }
    assert s[n] == '\n';
    BreakIs(s, n);
    assert s[..n] == ERROR + Sanitize(m) && s[n + 1..] == "";
  }

  function Shown(errors: seq<string>): seq<string> {
    seq(|errors|, i requires 0 <= i < |errors| => Strip(Sanitize(errors[i])))
  }

  lemma {:induction false} TaggedAppend(a: seq<string>, b: seq<string>, prefix: string)
    ensures Tagged(a + b, prefix) == Tagged(a, prefix) + Tagged(b, prefix)
    decreases |a|
  {
    if a == [] {
      assert a + b == b;
    } else {
      assert (a + b)[1..] == a[1..] + b;
      TaggedAppend(a[1..], b, prefix);
    }
  }

  lemma {:induction false} ErrorsShown(errors: seq<string>, fatal: bool)
    requires forall i :: 0 <= i < |errors| ==> PlainBreaks(errors[i])
    ensures Tagged(Lines(Payload(errors, fatal)), ERROR) == Shown(errors)
    ensures Tagged(Lines(Payload(errors, fatal)), INFO) == []
    decreases |errors|
  {
    if errors == [] {
      NoneShown(fatal);
    } else {
      var rest := Payload(errors[1..], fatal);
      ErrorsShown(errors[1..], fatal);
      FirstShown(errors[0], rest);
      ShownFirst(errors);
      assert Payload(errors, fatal) == ErrorLine(errors[0]) + rest;
    }
  }

  lemma NoneShown(fatal: bool)
    ensures Tagged(Lines(Payload([], fatal)), ERROR) == [] && Tagged(Lines(Payload([], fatal)), INFO) == []
  {
    OkAlone();
    assert !StartsWith("ok", ERROR) && !StartsWith("ok", INFO);
  }

  lemma ShownFirst(errors: seq<string>)
    requires errors != []
    ensures Shown(errors) == [Strip(Sanitize(errors[0]))] + Shown(errors[1..])
  {
  }

  // One error line in front of the rest.
  lemma FirstShown(m: string, rest: string)
    requires PlainBreaks(m)
    ensures Tagged(Lines(ErrorLine(m) + rest), ERROR) == [Strip(Sanitize(m))] + Tagged(Lines(rest), ERROR)
    ensures Tagged(Lines(ErrorLine(m) + rest), INFO) == Tagged(Lines(rest), INFO)
  {
    LinesAppend(ErrorLine(m), rest);
    PlainLine(m);
    var line := ERROR + Sanitize(m);
    TaggedAppend([line], Lines(rest), ERROR);
    TaggedAppend([line], Lines(rest), INFO);
    OneErrorLine(line, Sanitize(m));
  }

  lemma OneErrorLine(line: string, text: string)
    requires line == ERROR + text
    ensures Tagged([line], ERROR) == [Strip(text)] && Tagged([line], INFO) == []
  {
    assert line[..|ERROR|] == ERROR && line[|ERROR|..] == text && [line][1..] == [];
    assert line[0] == 'e' && INFO[0] == 'i';
  }

  lemma PlainHoldsNoOk(m: string)
    requires PlainBreaks(m)
    ensures !HoldsOkLine(m)
  {
    PlainLine(m);
  }

  /** Startup pipe round trip: for messages whose only line breaks are LF and CR, the parent recovers
      exactly the sanitized, stripped messages in order, and `ok` exactly when nothing was fatal. */
  lemma PipeRoundTrip(errors: seq<string>, fatal: bool)
    requires forall i :: 0 <= i < |errors| ==> PlainBreaks(errors[i])
    ensures Parse(Payload(errors, fatal)) == Report([], Shown(errors), !fatal)
  {
    ErrorsShown(errors, fatal);
    OkMeans(errors, fatal);
    forall i | 0 <= i < |errors| ensures !HoldsOkLine(errors[i]) { PlainHoldsNoOk(errors[i]); }
  }

  /** The restriction matters: a line separator lets a fatal startup look like a good one. */
  lemma SeparatorReadsAsOk()
    ensures Parse(Payload(["x\U{2028}ok"], true)).ok
  {
    var m := "x\U{2028}ok";
    var s := ErrorLine(m);
    assert Sanitize(m) == m;
    assert |s| == 11 && s[7] == '\U{2028}' && s[..7] == "error:x" && s[8..] == "ok\n";
    forall i | 0 <= i < 7 ensures !IsBreak(s[i]) { assert s[i] == "error:x"[i]; }
    LinesSplit(s, 7);
    OkAlone();
    assert Lines(s)[1..] == ["ok"] && Strip(["ok"][0]) == "ok";
    OkMeans([m], true);
    assert [m][0] == m && HoldsOkLine(m);
  }

  // ---- A write cut short ----

  /** Each line of the one is the start of the same line of the other. */
  ghost predicate LinesBegin(short: seq<string>, lines: seq<string>) {
    |short| <= |lines| && forall i :: 0 <= i < |short| ==> StartsWith(lines[i], short[i])
  }

  lemma {:induction false} PrefixLines(s: string, n: nat)
    requires n <= |s|
    ensures LinesBegin(Lines(s[..n]), Lines(s))
    decreases |s|
  {
    if n > 0 {
      if BreakAt(s) >= n {
        OneLineSoFar(s, n);
      } else {
        PrefixGoesOn(s, n);
        LinesOf(s);
        LinesOf(s[..n]);
        var rest := AfterFirst(s);
        PrefixLines(rest, |AfterFirst(s[..n])|);
        BeginMore(FirstLine(s), Lines(AfterFirst(s[..n])), Lines(rest));
      }
    }
  }

  lemma OneLineSoFar(s: string, n: nat)
    requires 0 < n <= |s| && n <= BreakAt(s)
    ensures LinesBegin(Lines(s[..n]), Lines(s))
  {
    BreakIs(s[..n], n);
    assert Lines(s[..n]) == [s[..n]];
    if BreakAt(s) < |s| { LinesOf(s); }
  }

  // Where the first line ends, the prefix goes on as the text does.
  lemma PrefixGoesOn(s: string, n: nat)
    requires BreakAt(s) < n <= |s|
    ensures BreakAt(s[..n]) == BreakAt(s) && FirstLine(s[..n]) == FirstLine(s)
    ensures |AfterFirst(s[..n])| <= |AfterFirst(s)| && AfterFirst(s[..n]) == AfterFirst(s)[..|AfterFirst(s[..n])|]
  {
    assert forall i :: 0 <= i < n ==> s[..n][i] == s[i];
    BreakIs(s[..n], BreakAt(s));
  }

  lemma BeginMore(line: string, short: seq<string>, lines: seq<string>)
    requires LinesBegin(short, lines)
    ensures LinesBegin([line] + short, [line] + lines)
  {
  }

  /** However little of it arrives, a plain fatal report never looks like a good startup. */
  lemma CutShortIsNoOk(errors: seq<string>, n: nat)
    requires forall i :: 0 <= i < |errors| ==> PlainBreaks(errors[i])
    requires n <= |Payload(errors, true)|
    ensures !Parse(Payload(errors, true)[..n]).ok
  {
    var s := Payload(errors, true);
    FatalLines(errors);
    PrefixLines(s, n);
    var lines := Lines(s[..n]);
    forall i | 0 <= i < |lines| ensures Strip(lines[i]) != "ok" {
      if lines[i] != "" {
        assert Lines(s)[i][..|lines[i]|][0] == Lines(s)[i][0] == 'e';
        assert !IsSpace('e');
        StripKeepsStart(lines[i]);
      }
    }
  }

  lemma {:induction false} FatalLines(errors: seq<string>)
    requires forall i :: 0 <= i < |errors| ==> PlainBreaks(errors[i])
    ensures forall i :: 0 <= i < |Lines(Payload(errors, true))| ==>
      Lines(Payload(errors, true))[i] != "" && Lines(Payload(errors, true))[i][0] == 'e'
    decreases |errors|
  {
    if errors != [] {
      LinesAppend(ErrorLine(errors[0]), Payload(errors[1..], true));
      PlainLine(errors[0]);
      FatalLines(errors[1..]);
    }
  }
}
