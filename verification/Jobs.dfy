/** The log of a detached job: its output, then a marker line with its exit status, and what the
    panel reads back from it. */
module Jobs {
  import opened Common
  import opened Names

  /** The marker and the space the shell's `echo` puts after it. */
  const MARKER := "edgekit-job-exit "

  // ---------------------------------------------------------------- decimal

  predicate IsDigit(c: char) { '0' <= c <= '9' }

  function ValueOf(c: char): nat
    requires IsDigit(c)
  {
    c as int - '0' as int
  }

  function Digit(d: nat): (c: char)
    requires d < 10
    ensures IsDigit(c) && ValueOf(c) == d
  {
    ('0' as int + d) as char
  }

  /** What the shell prints for a status. */
  function Decimal(n: nat): (s: string)
    ensures s != "" && forall i | 0 <= i < |s| :: IsDigit(s[i])
  {
    if n < 10 then [Digit(n)] else Decimal(n / 10) + [Digit(n % 10)]
  }

  /** `int(s)` of a string of digits. */
  function Parse(s: string): nat
    requires forall i | 0 <= i < |s| :: IsDigit(s[i])
  {
    if s == "" then 0
    else 10 * Parse(s[..|s| - 1]) + ValueOf(s[|s| - 1])
  }

  lemma {:induction false} ParseDecimal(n: nat)
    ensures Parse(Decimal(n)) == n
  {
    var s := Decimal(n);
    if n >= 10 {
      ParseDecimal(n / 10);
      assert s[..|s| - 1] == Decimal(n / 10);
    } else {
      assert s[..0] == "";
    }
  }

  // ---------------------------------------------------------------- the exit-line pattern

  function DigitRun(s: string): (n: nat)
    ensures n <= |s| && (forall i | 0 <= i < n :: IsDigit(s[i])) && (n < |s| ==> !IsDigit(s[n]))
  {
    if s != "" && IsDigit(s[0]) then 1 + DigitRun(s[1..]) else 0
  }

  /** The pattern `MARKER (\d+)\n?` matches at the start of `s`. */
  predicate Matches(s: string) {
    |MARKER| < |s| && s[..|MARKER|] == MARKER && DigitRun(s[|MARKER|..]) > 0
  }

  function Run(s: string): nat
    requires Matches(s)
  {
    DigitRun(s[|MARKER|..])
  }

  function MatchEnd(s: string): (e: nat)
    requires Matches(s)
    ensures |MARKER| < e <= |s|
  {
    var e := |MARKER| + Run(s);
    if e < |s| && s[e] == '\n' then e + 1 else e
  }

  function CodeOf(s: string): (c: string)
    requires Matches(s)
    ensures c != "" && forall i | 0 <= i < |c| :: IsDigit(c[i])
  {
    s[|MARKER|..|MARKER| + Run(s)]
  }

  /** How far one step of the scan goes: over a match, which counts only where a line starts
      (`bol`), or over one character. */
  function Advance(s: string, bol: bool): (n: nat)
    requires s != ""
    ensures 0 < n <= |s|
  {
    if bol && Matches(s) then MatchEnd(s) else 1
  }

  function Found(s: string, bol: bool): (r: seq<string>)
    ensures forall i | 0 <= i < |r| :: forall j | 0 <= j < |r[i]| :: IsDigit(r[i][j])
  {
    if bol && Matches(s) then [CodeOf(s)] else []
  }

  function Kept(s: string, bol: bool): string
    requires s != ""
  {
    if bol && Matches(s) then "" else [s[0]]
  }

  /** `_EXIT_LINE.findall` */
  function Codes(s: string, bol: bool): (r: seq<string>)
    ensures forall i | 0 <= i < |r| :: forall j | 0 <= j < |r[i]| :: IsDigit(r[i][j])
    decreases |s|
  {
    if s == "" then []
    else
      var n := Advance(s, bol);
      Found(s, bol) + Codes(s[n..], s[n - 1] == '\n')
  }

  /** `_EXIT_LINE.sub("", …)` */
  function Strip(s: string, bol: bool): string
    decreases |s|
  {
    if s == "" then ""
    else
      var n := Advance(s, bol);
      Kept(s, bol) + Strip(s[n..], s[n - 1] == '\n')
  }

  // ---------------------------------------------------------------- what the panel shows

  /** The line boundaries `splitlines` knows, newline translation having removed carriage returns. */
  predicate IsBreak(c: char) {
    '\n' <= c <= '\U{0C}' || '\U{1C}' <= c <= '\U{1E}' || c == '\U{85}' || '\U{2028}' <= c <= '\U{2029}'
  }

  /** The line boundaries by code point. */
  lemma BreaksByCode(c: char)
    ensures IsBreak(c) <==> c as int in {10, 11, 12, 28, 29, 30, 133, 8232, 8233}
    ensures IsBreak(c) ==> IsSpace(c)
  {
  }

  function FirstBreak(s: string): (k: nat)
    ensures k <= |s| && (forall i | 0 <= i < k :: !IsBreak(s[i])) && (k < |s| ==> IsBreak(s[k]))
  {
    if s == "" || IsBreak(s[0]) then 0 else 1 + FirstBreak(s[1..])
  }

  function Lines(s: string): seq<string>
    decreases |s|
  {
    if s == "" then []
    else
      var k := FirstBreak(s);
      if k == |s| then [s] else [s[..k]] + Lines(s[k + 1..])
  }

  function Join(ls: seq<string>): string {
    if ls == [] then "" else if |ls| == 1 then ls[0] else ls[0] + "\n" + Join(ls[1..])
  }

  /** `"\n".join(s.rstrip().splitlines()[-n:])`; for `n == 0` that slice is the whole list. */
  function LastLines(s: string, n: nat): string {
    var ls := Lines(RStrip(s));
    Join(if n == 0 || |ls| <= n then ls else ls[|ls| - n..])
  }

  datatype JobState = JobState(running: bool, exitCode: Option<nat>, output: string)

  function StateOf(text: string, running: bool, lines: nat): JobState {
    var codes := Codes(text, true);
    var exitCode := if codes != [] && !running then Some(Parse(codes[|codes| - 1])) else None;
    JobState(running, exitCode, LastLines(Strip(text, true), lines))
  }

  // ---------------------------------------------------------------- the log of a finished job

  function MarkerLine(code: nat): string {
    MARKER + Decimal(code) + "\n"
  }

  /** What the unit's shell script leaves in the log. */
  function Log(output: string, code: nat): string {
    output + MarkerLine(code)
  }

  predicate LineComplete(s: string) {
    s == "" || s[|s| - 1] == '\n'
  }

  lemma MarkerHasNoBreak()
    ensures forall i | 0 <= i < |MARKER| :: MARKER[i] != '\n' && !IsDigit(MARKER[i])
  {
  }

  lemma {:induction false} DigitRunPrefix(x: string, y: string)
    requires DigitRun(x) < |x| || y == "" || !IsDigit(y[0])
    ensures DigitRun(x + y) == DigitRun(x)
  {
    if x == "" {
      assert x + y == y;
    } else {
      assert (x + y)[0] == x[0] && (x + y)[1..] == x[1..] + y;
      if IsDigit(x[0]) {
        DigitRunPrefix(x[1..], y);
      }
    }
  }

  lemma NotTheMarker(t: string, i: nat)
    requires i < |MARKER| <= |t| && t[i] != MARKER[i]
    ensures t[..|MARKER|] != MARKER
  {
    assert t[..|MARKER|][i] == t[i];
  }

  /** A match that ends inside `o`, or at its end with no newline after it, is the same in `o + m`. */
  lemma SameMatch(o: string, m: string)
    requires |MARKER| <= |o| && DigitRun(o[|MARKER|..] + m) == DigitRun(o[|MARKER|..])
    requires m == "" || m[0] != '\n' || DigitRun(o[|MARKER|..]) < |o| - |MARKER|
    ensures Matches(o + m) <==> Matches(o)
    ensures Matches(o) ==> MatchEnd(o + m) == MatchEnd(o) && CodeOf(o + m) == CodeOf(o)
  {
    var n := |MARKER|;
    PrefixKept(o, m, n);
    if Matches(o) {
      var e := n + Run(o);
      SliceKept(o, m, n, e);
      if e < |o| {
        assert (o + m)[e] == o[e];
      }
    }
  }

  lemma PrefixKept(o: string, m: string, n: nat)
    requires n <= |o|
    ensures (o + m)[..n] == o[..n] && (o + m)[n..] == o[n..] + m
  {
  }

  lemma SliceKept(o: string, m: string, n: nat, e: nat)
    requires n <= e <= |o|
    ensures (o + m)[n..e] == o[n..e]
  {
  }

  lemma LastIsNoDigit(s: string)
    requires s != "" && !IsDigit(s[|s| - 1])
    ensures DigitRun(s) < |s|
  {
  }

  /** A match in text that ends a line lies within it, whatever follows. */
  lemma MatchStaysInside(o: string, m: string)
    requires o != "" && LineComplete(o)
    ensures Matches(o + m) <==> Matches(o)
    ensures Matches(o) ==> MatchEnd(o + m) == MatchEnd(o) && CodeOf(o + m) == CodeOf(o)
  {
    MarkerHasNoBreak();
    var n, t := |MARKER|, o + m;
    if |o| <= n {
      assert t[|o| - 1] == '\n';
      if n <= |t| {
        NotTheMarker(t, |o| - 1);
      }
    } else {
      LastIsNoDigit(o[n..]);
      DigitRunPrefix(o[n..], m);
      SameMatch(o, m);
    }
  }

  lemma Unfold(s: string, bol: bool, n: nat, rest: string, next: bool)
    requires s != "" && n == Advance(s, bol) && rest == s[n..] && next == (s[n - 1] == '\n')
    ensures Codes(s, bol) == Found(s, bol) + Codes(rest, next)
    ensures Strip(s, bol) == Kept(s, bol) + Strip(rest, next)
  {
  }

  lemma SameStep(o: string, m: string, bol: bool)
    requires o != "" && Matches(o + m) == Matches(o)
    requires Matches(o) ==> MatchEnd(o + m) == MatchEnd(o) && CodeOf(o + m) == CodeOf(o)
    ensures Advance(o + m, bol) == Advance(o, bol) && Found(o + m, bol) == Found(o, bol) && Kept(o + m, bol) == Kept(o, bol)
  {
  }

  /** One step of the scan, over text that continues. */
  lemma ScanStep(o: string, m: string, bol: bool, n: nat, rest: string, next: bool)
    requires o != "" && Matches(o + m) == Matches(o)
    requires Matches(o) ==> MatchEnd(o + m) == MatchEnd(o) && CodeOf(o + m) == CodeOf(o)
    requires n == Advance(o, bol) && rest == o[n..] && next == (o[n - 1] == '\n')
    ensures Codes(o, bol) == Found(o, bol) + Codes(rest, next) && Strip(o, bol) == Kept(o, bol) + Strip(rest, next)
    ensures Codes(o + m, bol) == Found(o, bol) + Codes(rest + m, next) && Strip(o + m, bol) == Kept(o, bol) + Strip(rest + m, next)
  {
    SameStep(o, m, bol);
    Unfold(o, bol, n, rest, next);
    PrefixKept(o, m, n);
    assert (o + m)[n - 1] == o[n - 1];
    Unfold(o + m, bol, n, rest + m, next);
  }

  /** What is left of the text ends as the text does. */
  lemma RestEnds(o: string, n: nat, rest: string, next: bool)
    requires 0 < n <= |o| && rest == o[n..] && next == (o[n - 1] == '\n')
    ensures rest == "" ==> next == LineComplete(o)
    ensures rest != "" ==> LineComplete(rest) == LineComplete(o)
  {
  }

  lemma Assoc<T>(a: seq<T>, b: seq<T>, c: seq<T>)
    ensures a + (b + c) == (a + b) + c
  {
  }

  lemma {:induction false} CodesConcat(o: string, m: string, bol: bool)
    requires LineComplete(o) && (o == "" ==> bol)
    ensures Codes(o + m, bol) == Codes(o, bol) + Codes(m, true)
    ensures Strip(o + m, bol) == Strip(o, bol) + Strip(m, true)
    decreases |o|
  {
    if o == "" {
      assert o + m == m;
    } else {
      MatchStaysInside(o, m);
      var n := Advance(o, bol);
      var rest, next := o[n..], o[n - 1] == '\n';
      ScanStep(o, m, bol, n, rest, next);
      RestEnds(o, n, rest, next);
      CodesConcat(rest, m, next);
      Assoc(Found(o, bol), Codes(rest, next), Codes(m, true));
      Assoc(Kept(o, bol), Strip(rest, next), Strip(m, true));
    }
  }

  lemma MarkerLineMatches(code: nat)
    ensures Codes(MarkerLine(code), true) == [Decimal(code)]
    ensures Strip(MarkerLine(code), true) == ""
  {
    var s, d := MarkerLine(code), Decimal(code);
    assert s[..|MARKER|] == MARKER && s[|MARKER|..] == d + "\n";
    AllDigits(d);
    DigitRunPrefix(d, "\n");
    assert Matches(s) && Run(s) == |d|;
    assert s[|MARKER| + |d|] == '\n' && MatchEnd(s) == |s| && CodeOf(s) == d;
    assert s[MatchEnd(s)..] == "";
  }

  lemma {:induction false} AllDigits(d: string)
    requires forall i | 0 <= i < |d| :: IsDigit(d[i])
    ensures DigitRun(d) == |d|
  {
    if d != "" {
      AllDigits(d[1..]);
    }
  }

  lemma {:induction false} NoCodesNothingStripped(s: string, bol: bool)
    requires Codes(s, bol) == []
    ensures Strip(s, bol) == s
    decreases |s|
  {
    if s != "" {
      NoCodesNothingStripped(s[1..], s[0] == '\n');
    }
  }

  /** Round trip: for any output that is empty or ends its last line, marker-like lines included,
      a stopped job's status is exactly the one it exited with; and output without marker-like
      lines comes back as its last lines. */
  lemma FinishedJobRoundTrip(output: string, code: nat, lines: nat)
    requires LineComplete(output)
    ensures StateOf(Log(output, code), false, lines).exitCode == Some(code)
    ensures Codes(output, true) == [] ==> StateOf(Log(output, code), false, lines).output == LastLines(output, lines)
  {
    CodesConcat(output, MarkerLine(code), true);
    MarkerLineMatches(code);
    ParseDecimal(code);
    var codes := Codes(Log(output, code), true);
    assert codes[|codes| - 1] == Decimal(code);
    if Codes(output, true) == [] {
      NoCodesNothingStripped(output, true);
      assert Strip(Log(output, code), true) == output;
    }
  }

  // ---------------------------------------------------------------- output that stops mid-line

  lemma {:induction false} NoLineStarts(s: string)
    requires forall i | 0 <= i < |s| - 1 :: s[i] != '\n'
    ensures Codes(s, false) == []
    decreases |s|
  {
    if s != "" {
      if |s| == 1 {
        assert s[1..] == "";
      } else {
        NoLineStarts(s[1..]);
      }
    }
  }

  /** No part of the marker but all of it can be its beginning. */
  lemma MarkerDoesNotOverlap(j: nat)
    requires 0 < j < |MARKER|
    ensures MARKER[j] != 'e' || (j + 1 < |MARKER| && MARKER[j + 1] != 'd')
  {
    assert MARKER[3] == 'e' && MARKER[4] == 'k' && MARKER[12] == 'e' && MARKER[13] == 'x';
  }

  lemma MatchIgnoresGluedMarker(o: string, code: nat)
    requires o != "" && !LineComplete(o)
    ensures Matches(o + MarkerLine(code)) <==> Matches(o)
    ensures Matches(o) ==> MatchEnd(o + MarkerLine(code)) == MatchEnd(o) && CodeOf(o + MarkerLine(code)) == CodeOf(o)
  {
    var m := MarkerLine(code);
    var n, t := |MARKER|, o + m;
    assert m[0] == 'e' && m[1] == 'd';
    if |o| < n {
      MarkerDoesNotOverlap(|o|);
      assert t[|o|] == m[0] && t[|o| + 1] == m[1];
      if n <= |t| {
        NotTheMarker(t, if MARKER[|o|] != 'e' then |o| else |o| + 1);
      }
    } else {
      DigitRunPrefix(o[n..], m);
      SameMatch(o, m);
    }
  }

  lemma {:induction false} GluedMarkerInvisible(o: string, code: nat, bol: bool)
    requires if o == "" then !bol else !LineComplete(o)
    ensures Codes(o + MarkerLine(code), bol) == Codes(o, bol)
    decreases |o|
  {
    var m := MarkerLine(code);
    if o == "" {
      MarkerHasNoBreak();
      assert o + m == m;
      NoLineStarts(m);
    } else {
      MatchIgnoresGluedMarker(o, code);
      var n := Advance(o, bol);
      var rest, next := o[n..], o[n - 1] == '\n';
      ScanStep(o, m, bol, n, rest, next);
      RestEnds(o, n, rest, next);
      GluedMarkerInvisible(rest, code, next);
    }
  }

  /** When a job's output stops in the middle of a line its status is lost: what is read is the last
      marker-like line of the output itself, or nothing. So the status is recovered exactly when the
      output ends its line or happens to contain that very status in its own last such line. */
  lemma StatusRecoveredExactly(output: string, code: nat, lines: nat)
    ensures StateOf(Log(output, code), false, lines).exitCode == Some(code) <==>
            LineComplete(output) || StateOf(output, false, lines).exitCode == Some(code)
  {
    if LineComplete(output) {
      FinishedJobRoundTrip(output, code, lines);
    } else {
      GluedMarkerInvisible(output, code, true);
    }
  }

  // ---------------------------------------------------------------- nothing is lost in the tail

  ghost function AsNewline(c: char): char {
    if IsBreak(c) then '\n' else c
  }

  /** The text with a newline for every line break. */
  ghost function Newlined(s: string): (r: string)
    ensures |r| == |s| && forall i | 0 <= i < |s| :: r[i] == AsNewline(s[i])
  {
    seq(|s|, i requires 0 <= i < |s| => AsNewline(s[i]))
  }

  lemma NewlinedConcat(a: string, b: string)
    ensures Newlined(a + b) == Newlined(a) + Newlined(b)
  {
  }

  lemma NewlinedNone(s: string)
    requires forall i | 0 <= i < |s| :: !IsBreak(s[i])
    ensures Newlined(s) == s
  {
  }

  lemma BreakSplit(s: string, k: nat)
    requires k < |s|
    ensures s == s[..k] + ([s[k]] + s[k + 1..])
  {
  }

  lemma NewlinedSplit(s: string, k: nat)
    requires k == FirstBreak(s) < |s|
    ensures Newlined(s) == s[..k] + "\n" + Newlined(s[k + 1..])
  {
    BreakSplit(s, k);
    NewlinedConcat(s[..k], [s[k]] + s[k + 1..]);
    NewlinedConcat([s[k]], s[k + 1..]);
    NewlinedNone(s[..k]);
    assert Newlined([s[k]]) == "\n";
  }

  /** The text does not end at a line boundary. */
  ghost predicate EndsOpen(s: string) {
    s == "" || !IsBreak(s[|s| - 1])
  }

  lemma LinesUnfold(s: string, k: nat, rest: string)
    requires k == FirstBreak(s) < |s| && rest == s[k + 1..]
    ensures Lines(s) == [s[..k]] + Lines(rest)
  {
  }

  lemma {:induction false} JoinLines(s: string)
    requires EndsOpen(s)
    ensures Join(Lines(s)) == Newlined(s) && (s != "" ==> Lines(s) != [])
    decreases |s|
  {
    if s != "" {
      var k := FirstBreak(s);
      if k < |s| {
        var rest := s[k + 1..];
        LinesUnfold(s, k, rest);
        RestEndsOpen(s, k);
        JoinLines(rest);
        JoinCons(s[..k], Lines(rest));
        NewlinedSplit(s, k);
      } else {
        NewlinedNone(s);
      }
    }
  }

  lemma StrippedEndsNoLine(output: string)
    ensures EndsOpen(RStrip(output))
  {
    if RStrip(output) != "" {
      BreaksByCode(RStrip(output)[|RStrip(output)| - 1]);
    }
  }

  lemma RestEndsOpen(s: string, k: nat)
    requires k < |s| && IsBreak(s[k]) && EndsOpen(s)
    ensures s[k + 1..] != "" && EndsOpen(s[k + 1..])
  {
  }

  lemma JoinCons(first: string, rest: seq<string>)
    requires rest != []
    ensures Join([first] + rest) == first + "\n" + Join(rest)
  {
    assert ([first] + rest)[1..] == rest;
  }

  /** Output with few enough lines is shown whole, without the whitespace it ends in; so is all of it
      when no lines are asked for. */
  lemma ShortOutputShownWhole(output: string, lines: nat)
    requires lines == 0 || |Lines(RStrip(output))| <= lines
    ensures LastLines(output, lines) == Newlined(RStrip(output))
  {
    StrippedEndsNoLine(output);
    JoinLines(RStrip(output));
  }

  function Newlines(s: string): nat {
    if s == "" then 0 else (if s[0] == '\n' then 1 else 0) + Newlines(s[1..])
  }

  lemma {:induction false} NewlinesConcat(a: string, b: string)
    ensures Newlines(a + b) == Newlines(a) + Newlines(b)
  {
    if a == "" {
      assert a + b == b;
    } else {
      assert (a + b)[0] == a[0] && (a + b)[1..] == a[1..] + b;
      NewlinesConcat(a[1..], b);
    }
  }

  lemma {:induction false} NoNewlines(s: string)
    requires forall i | 0 <= i < |s| :: !IsBreak(s[i])
    ensures Newlines(s) == 0
  {
    if s != "" {
      NoNewlines(s[1..]);
    }
  }

  lemma {:induction false} LinesHaveNoBreak(s: string, i: nat)
    requires i < |Lines(s)|
    ensures Newlines(Lines(s)[i]) == 0
    decreases |s|
  {
    var k := FirstBreak(s);
    NoNewlines(s[..k]);
    if k == |s| {
      assert s[..k] == s;
    } else if i > 0 {
      LinesHaveNoBreak(s[k + 1..], i - 1);
    }
  }

  lemma {:induction false} JoinNewlines(ls: seq<string>)
    requires ls != [] && forall i | 0 <= i < |ls| :: Newlines(ls[i]) == 0
    ensures Newlines(Join(ls)) == |ls| - 1
  {
    if |ls| > 1 {
      JoinNewlines(ls[1..]);
      NewlinesConcat(ls[0] + "\n", Join(ls[1..]));
      NewlinesConcat(ls[0], "\n");
      assert Newlines("\n") == 1 + Newlines("\n"[1..]);
    }
  }

  lemma {:induction false} JoinConcat(a: seq<string>, b: seq<string>)
    requires a != [] && b != []
    ensures Join(a + b) == Join(a) + "\n" + Join(b)
  {
    if |a| == 1 {
      assert a + b == [a[0]] + b;
      JoinCons(a[0], b);
    } else {
      assert a + b == [a[0]] + (a[1..] + b);
      JoinCons(a[0], a[1..] + b);
      JoinConcat(a[1..], b);
      assert a == [a[0]] + a[1..];
      JoinCons(a[0], a[1..]);
      assert a[0] + "\n" + (Join(a[1..]) + "\n" + Join(b)) == (a[0] + "\n" + Join(a[1..])) + "\n" + Join(b);
    }
  }

  /** `s` ends with the text `shown`, from the start of a line on. */
  ghost predicate EndsWithLine(s: string, shown: string) {
    exists cut: string :: s == cut + "\n" + shown
  }

  lemma CutLines(s: string, k: nat, shown: string)
    requires EndsOpen(s) && 0 < k < |Lines(s)| && shown == Join(Lines(s)[k..])
    ensures Newlines(shown) == |Lines(s)| - k - 1 && EndsWithLine(Newlined(s), shown)
  {
    JoinLines(s);
    CutJoin(Lines(s), k);
    TailNewlines(s, k);
    CutShown(Newlined(s), Join(Lines(s)[..k]), shown);
  }

  /** Longer output is cut at the start of a line, and exactly the last `n` lines are left. */
  lemma LongOutputIsCut(output: string, n: nat)
    requires 0 < n < |Lines(RStrip(output))|
    ensures var shown := LastLines(output, n);
            Newlines(shown) == n - 1 && EndsWithLine(Newlined(RStrip(output)), shown)
  {
    StrippedEndsNoLine(output);
    LastLinesAre(output, n);
    CutLines(RStrip(output), |Lines(RStrip(output))| - n, LastLines(output, n));
  }

  lemma CutShown(s: string, cut: string, shown: string)
    requires s == cut + "\n" + shown
    ensures EndsWithLine(s, shown)
  {
  }

  lemma LastLinesAre(output: string, n: nat)
    requires 0 < n < |Lines(RStrip(output))|
    ensures LastLines(output, n) == Join(Lines(RStrip(output))[|Lines(RStrip(output))| - n..])
  {
  }

  lemma CutJoin(ls: seq<string>, k: nat)
    requires 0 < k < |ls|
    ensures Join(ls) == Join(ls[..k]) + "\n" + Join(ls[k..])
  {
    assert ls == ls[..k] + ls[k..];
    JoinConcat(ls[..k], ls[k..]);
  }

  lemma TailNewlines(s: string, k: nat)
    requires k < |Lines(s)|
    ensures Newlines(Join(Lines(s)[k..])) == |Lines(s)| - k - 1
  {
    var last := Lines(s)[k..];
    forall i | 0 <= i < |last|
      ensures Newlines(last[i]) == 0
    {
      LinesHaveNoBreak(s, k + i);
    }
    JoinNewlines(last);
  }

  // ---------------------------------------------------------------- the marker itself

  /** What the shell appends, spelled out. */
  lemma LogSpelledOut(output: string)
    ensures Log(output, 0) == output + "edgekit-job-exit 0\n"
    ensures Log(output, 137) == output + "edgekit-job-exit 137\n"
  {
    assert Decimal(0) == "0";
    assert Decimal(1) == "1" && Decimal(13) == "1" + "3" && Decimal(137) == "13" + "7";
    assert MarkerLine(137) == "edgekit-job-exit 137\n";
    assert MarkerLine(0) == "edgekit-job-exit 0\n";
  }

  lemma NothingAdded(s: string)
    ensures s + "" == s
  {
  }

  /** A marker line after complete lines adds its status and shows nothing. */
  lemma MarkerAfter(before: string, code: nat)
    requires LineComplete(before)
    ensures Codes(before + MarkerLine(code), true) == Codes(before, true) + [Decimal(code)]
    ensures Strip(before + MarkerLine(code), true) == Strip(before, true)
    ensures LineComplete(before + MarkerLine(code))
  {
    MarkerLineMatches(code);
    MarkerEndsLine(before, code);
    CodesConcat(before, MarkerLine(code), true);
    NothingAdded(Strip(before, true));
  }

  /** A marker line in the middle of the output is not shown, and counts only as an earlier status. */
  lemma MiddleMarkerIsHidden(before: string, code: nat, after: string, text: string)
    requires LineComplete(before) && text == before + MarkerLine(code)
    ensures Strip(text + after, true) == Strip(before, true) + Strip(after, true)
    ensures Codes(text + after, true) == Codes(before, true) + [Decimal(code)] + Codes(after, true)
  {
    MarkerAfter(before, code);
    CodesConcat(text, after, true);
  }

  lemma MarkerEndsLine(before: string, code: nat)
    ensures LineComplete(before + MarkerLine(code))
  {
    var m := MARKER + Decimal(code);
    assert before + MarkerLine(code) == (before + m) + "\n";
  }

  /** No status is shown while the job runs. */
  lemma RunningHasNoStatus(text: string, lines: nat)
    ensures StateOf(text, true, lines).running && StateOf(text, true, lines).exitCode == None
    ensures !StateOf(text, false, lines).running
  {
  }
}
