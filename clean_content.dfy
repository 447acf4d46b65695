// `_clean_ai_content`: the regular-expression rewrites the blog generator
// applies to the text an AI provider returns. Each `re.sub` is written out as
// a scan over the text; `atStart` tells whether the scan stands at the start
// of a line, where a MULTILINE `^` matches.
module ContentCleaning {
  import opened Text

  /** The text with every whitespace character removed: what a rewrite that only touches whitespace keeps. */
  function Visible(s: string): string
  {
    if s == [] then [] else (if IsSpace(s[0]) then [] else [s[0]]) + Visible(s[1..])
  }

  lemma {:induction false} VisibleAppend(a: string, b: string)
    ensures Visible(a + b) == Visible(a) + Visible(b)
  {
    if a != [] {
      var head: string := if IsSpace(a[0]) then [] else [a[0]];
      assert (a + b)[0] == a[0];
      assert (a + b)[1..] == a[1..] + b;
      VisibleAppend(a[1..], b);
      calc {
        Visible(a + b);
        head + Visible(a[1..] + b);
        head + (Visible(a[1..]) + Visible(b));
        (head + Visible(a[1..])) + Visible(b);
        Visible(a) + Visible(b);
      }
    } else {
      assert a + b == b;
    }
  }

  /** Every character is whitespace. */
  predicate AllSpace(s: string)
  {
    forall i :: 0 <= i < |s| ==> IsSpace(s[i])
  }

  lemma {:induction false} VisibleOfSpaces(s: string)
    requires AllSpace(s)
    ensures Visible(s) == []
  {
    if s != [] {
      VisibleOfSpaces(s[1..]);
    }
  }

  /** `strip()` removes whitespace only. */
  lemma {:induction false} StripKeepsVisible(s: string)
    ensures Visible(Strip(s)) == Visible(s)
  {
    LStripKeepsVisible(s);
    RStripKeepsVisible(LStrip(s));
  }

  lemma {:induction false} LStripKeepsVisible(s: string)
    ensures Visible(LStrip(s)) == Visible(s)
  {
    var l := LStrip(s);
    var p := s[..|s| - |l|];
    assert s == p + l;
    VisibleOfSpaces(p);
    VisibleAppend(p, l);
  }

  lemma {:induction false} RStripKeepsVisible(s: string)
    ensures Visible(RStrip(s)) == Visible(s)
  {
    var r := RStrip(s);
    var q := s[|r|..];
    assert s == r + q;
    VisibleOfSpaces(q);
    VisibleAppend(r, q);
  }

  // ------------------------------------------------------------ newlines

  /** The number of newlines `s` starts with. */
  function NewlineRun(s: string): (n: nat)
    ensures n <= |s| && (forall i :: 0 <= i < n ==> s[i] == '\n') && (n < |s| ==> s[n] != '\n')
  {
    if s == [] || s[0] != '\n' then 0 else 1 + NewlineRun(s[1..])
  }

  /** No run of three newlines: what `\n{3,}` could match. */
  predicate NoTriple(s: string)
  {
    forall i :: 0 <= i < |s| - 2 ==> !(s[i] == '\n' && s[i + 1] == '\n' && s[i + 2] == '\n')
  }

  /** `re.sub(r'\n{3,}', '\n\n', s)`: every run of three or more newlines becomes two. */
  function CollapseNewlines(s: string): (r: string)
    ensures s != [] && s[0] != '\n' ==> r != [] && r[0] == s[0]
    decreases |s|
  {
    if s == [] then []
    else if s[0] != '\n' then [s[0]] + CollapseNewlines(s[1..])
    else
      var k := NewlineRun(s);
      (if k >= 3 then "\n\n" else s[..k]) + CollapseNewlines(s[k..])
  }

  lemma {:induction false} NoTripleCons(c: char, rest: string)
    requires c != '\n' && NoTriple(rest)
    ensures NoTriple([c] + rest)
  {
    var s := [c] + rest;
    forall i | 0 <= i < |s| - 2
      ensures !(s[i] == '\n' && s[i + 1] == '\n' && s[i + 2] == '\n')
    {
      if i > 0 {
        assert s[i] == rest[i - 1] && s[i + 1] == rest[i] && s[i + 2] == rest[i + 1];
      }
    }
  }

  lemma {:induction false} NoTripleAfterRun(run: string, rest: string)
    requires |run| <= 2 && NoTriple(rest) && (rest == [] || rest[0] != '\n')
    ensures NoTriple(run + rest)
  {
    var s := run + rest;
    forall i | 0 <= i < |s| - 2
      ensures !(s[i] == '\n' && s[i + 1] == '\n' && s[i + 2] == '\n')
    {
      if i < |run| {
        assert s[|run|] == rest[0];
      } else {
        assert s[i] == rest[i - |run|] && s[i + 1] == rest[i - |run| + 1] && s[i + 2] == rest[i - |run| + 2];
      }
    }
  }

  /** After the first rewrite no three newlines follow each other. */
  lemma {:induction false} CollapseLeavesNoTriple(s: string)
    ensures NoTriple(CollapseNewlines(s))
    decreases |s|
  {
    if s == [] {
    } else if s[0] != '\n' {
      CollapseLeavesNoTriple(s[1..]);
      NoTripleCons(s[0], CollapseNewlines(s[1..]));
    } else {
      var k := NewlineRun(s);
      CollapseLeavesNoTriple(s[k..]);
      NoTripleAfterRun(if k >= 3 then "\n\n" else s[..k], CollapseNewlines(s[k..]));
    }
  }

  /** Only newlines are removed. */
  lemma {:induction false} CollapseKeepsVisible(s: string)
    ensures Visible(CollapseNewlines(s)) == Visible(s)
    decreases |s|
  {
    if s == [] {
    } else if s[0] != '\n' {
      CollapseKeepsVisible(s[1..]);
      VisibleAppend([s[0]], CollapseNewlines(s[1..]));
      VisibleAppend([s[0]], s[1..]);
      assert s == [s[0]] + s[1..];
    } else {
      var k := NewlineRun(s);
      var run := if k >= 3 then "\n\n" else s[..k];
      CollapseKeepsVisible(s[k..]);
      VisibleAppend(run, CollapseNewlines(s[k..]));
      VisibleAppend(s[..k], s[k..]);
      assert s == s[..k] + s[k..];
      VisibleOfSpaces(run);
      VisibleOfSpaces(s[..k]);
    }
  }

  /** Text without three newlines in a row is left as it is. */
  lemma {:induction false} CollapseKeepsShortRuns(s: string)
    requires NoTriple(s)
    ensures CollapseNewlines(s) == s
    decreases |s|
  {
    if s == [] {
    } else if s[0] != '\n' {
      assert NoTriple(s[1..]) by {
        forall i | 0 <= i < |s[1..]| - 2
          ensures !(s[1..][i] == '\n' && s[1..][i + 1] == '\n' && s[1..][i + 2] == '\n')
        {
          assert s[1..][i] == s[i + 1] && s[1..][i + 1] == s[i + 2] && s[1..][i + 2] == s[i + 3];
        }
      }
      CollapseKeepsShortRuns(s[1..]);
      assert s == [s[0]] + s[1..];
    } else {
      var k := NewlineRun(s);
      assert k < 3 by {
        if |s| >= 3 {
          assert !(s[0] == '\n' && s[1] == '\n' && s[2] == '\n');
        }
      }
      assert NoTriple(s[k..]) by {
        forall i | 0 <= i < |s[k..]| - 2
          ensures !(s[k..][i] == '\n' && s[k..][i + 1] == '\n' && s[k..][i + 2] == '\n')
        {
          assert s[k..][i] == s[i + k] && s[k..][i + 1] == s[i + k + 1] && s[k..][i + 2] == s[i + k + 2];
        }
      }
      CollapseKeepsShortRuns(s[k..]);
      assert s == s[..k] + s[k..];
    }
  }

  // ------------------------------------------------------------- headers

  /** The number of `#` characters `s` starts with. */
  function HashRun(s: string): (n: nat)
    ensures n <= |s| && (n < |s| ==> s[n] != '#')
  {
    if s == [] || s[0] != '#' then 0 else 1 + HashRun(s[1..])
  }

  /** A line `^#{1,6} .+$` matches: one to six `#`, a space, and at least one more character. */
  predicate IsHeaderLine(line: string)
  {
    var h := HashRun(line);
    1 <= h <= 6 && h + 2 <= |line| && line[h] == ' '
  }

  /** `re.sub(r'^(#{1,6} .+)$', r'\1\n', s, flags=re.MULTILINE)`: a newline after each header line. */
  function SpaceHeaders(s: string, atStart: bool): string
    decreases |s|
  {
    if s == [] then []
    else if atStart && IsHeaderLine(FirstLine(s)) then
      FirstLine(s) + "\n" + SpaceHeaders(s[|FirstLine(s)|..], false)
    else [s[0]] + SpaceHeaders(s[1..], s[0] == '\n')
  }

  /** Only newlines are added. */
  lemma {:induction false} SpaceHeadersKeepsVisible(s: string, atStart: bool)
    ensures Visible(SpaceHeaders(s, atStart)) == Visible(s)
    decreases |s|
  {
    if s == [] {
    } else if atStart && IsHeaderLine(FirstLine(s)) {
      var line := FirstLine(s);
      var rest := s[|line|..];
      SpaceHeadersKeepsVisible(rest, false);
      SeparatorVisible(line, '\n', SpaceHeaders(rest, false));
      VisibleAppend(line, rest);
      assert s == line + rest;
    } else {
      SpaceHeadersKeepsVisible(s[1..], s[0] == '\n');
      ConsVisible(s[0], SpaceHeaders(s[1..], s[0] == '\n'), s[1..]);
      assert s == [s[0]] + s[1..];
    }
  }

  /** One whitespace character between two pieces contributes nothing visible. */
  lemma {:induction false} SeparatorVisible(a: string, c: char, b: string)
    requires IsSpace(c)
    ensures Visible(a + [c] + b) == Visible(a) + Visible(b)
  {
    VisibleAppend(a + [c], b);
    VisibleAppend(a, [c]);
    assert Visible([c]) == [] by {
      assert [c][0] == c && [c][1..] == [];
    }
  }

  lemma {:induction false} ConsVisible(c: char, x: string, y: string)
    requires Visible(x) == Visible(y)
    ensures Visible([c] + x) == Visible([c] + y)
  {
    assert ([c] + x)[1..] == x && ([c] + y)[1..] == y;
  }

  /** Inside a line (not at its start) the scan copies the characters before the next newline. */
  lemma {:induction false} SpaceHeadersInsideLine(u: string, v: string)
    requires '\n' !in u
    ensures SpaceHeaders(u + v, false) == u + SpaceHeaders(v, false)
    decreases |u|
  {
    if u == [] {
      assert u + v == v;
    } else {
      assert (u + v)[0] == u[0] != '\n';
      assert (u + v)[1..] == u[1..] + v;
      SpaceHeadersInsideLine(u[1..], v);
      assert u + SpaceHeaders(v, false) == [u[0]] + (u[1..] + SpaceHeaders(v, false));
    }
  }

  /** Each line of `lines`, with a blank line added after every header line. */
  function SpacedLines(lines: seq<string>): (r: seq<string>)
    ensures |r| == |lines|
  {
    if lines == [] then []
    else [if IsHeaderLine(lines[0]) then lines[0] + "\n" else lines[0]] + SpacedLines(lines[1..])
  }

  /**
   * Line by line, the header rewrite appends a newline to each header line and
   * leaves every other line as it is.
   */
  lemma {:induction false} SpaceHeadersByLines(lines: seq<string>)
    requires |lines| >= 1 && forall k :: 0 <= k < |lines| ==> '\n' !in lines[k]
    ensures SpaceHeaders(Join(lines, "\n"), true) == Join(SpacedLines(lines), "\n")
  {
    var l := lines[0];
    var sl := SpacedLines(lines);
    if |lines| == 1 {
      assert Join(lines, "\n") == l + [];
      assert Join(sl, "\n") == sl[0] + [];
      SpaceHeadersLine(l, []);
    } else {
      var rest := lines[1..];
      var tail := Join(rest, "\n");
      assert Join(lines, "\n") == l + ("\n" + tail);
      assert SpacedLines(lines)[1..] == SpacedLines(rest);
      assert Join(sl, "\n") == sl[0] + ("\n" + Join(SpacedLines(rest), "\n"));
      SpaceHeadersByLines(rest);
      SpaceHeadersLine(l, "\n" + tail);
      assert ("\n" + tail)[1..] == tail;
    }
  }

  /** One line at a line start: a header line gains a newline, any other line is copied. */
  lemma {:induction false} SpaceHeadersLine(line: string, rest: string)
    requires '\n' !in line && (rest == [] || rest[0] == '\n')
    ensures SpaceHeaders(line + rest, true)
      == (if IsHeaderLine(line) then line + "\n" else line) + SpaceHeaders(rest, false)
  {
    FirstLineWhole(line, rest);
    if line == [] {
      EmptyLineCopied(rest);
    } else if IsHeaderLine(line) {
      HeaderLineSpaced(line, rest);
    } else {
      PlainLineCopied(line, rest);
    }
  }

  lemma {:induction false} EmptyLineCopied(rest: string)
    requires rest == [] || rest[0] == '\n'
    ensures SpaceHeaders(rest, true) == SpaceHeaders(rest, false)
  {
    if rest != [] {
      assert FirstLine(rest) == [];
      calc {
        SpaceHeaders(rest, true);
        [rest[0]] + SpaceHeaders(rest[1..], true);
        SpaceHeaders(rest, false);
      }
    }
  }

  lemma {:induction false} HeaderLineSpaced(line: string, rest: string)
    requires IsHeaderLine(line) && FirstLine(line + rest) == line
    ensures SpaceHeaders(line + rest, true) == line + "\n" + SpaceHeaders(rest, false)
  {
    var s := line + rest;
    assert s[|line|..] == rest;
    calc {
      SpaceHeaders(s, true);
      FirstLine(s) + "\n" + SpaceHeaders(s[|FirstLine(s)|..], false);
      line + "\n" + SpaceHeaders(rest, false);
    }
  }

  lemma {:induction false} PlainLineCopied(line: string, rest: string)
    requires line != [] && '\n' !in line && !IsHeaderLine(line) && FirstLine(line + rest) == line
    ensures SpaceHeaders(line + rest, true) == line + SpaceHeaders(rest, false)
  {
    var s := line + rest;
    assert s[0] == line[0] != '\n';
    assert s[1..] == line[1..] + rest;
    SpaceHeadersInsideLine(line[1..], rest);
    calc {
      SpaceHeaders(s, true);
      [s[0]] + SpaceHeaders(s[1..], false);
      [line[0]] + (line[1..] + SpaceHeaders(rest, false));
      { assert [line[0]] + line[1..] == line; }
      line + SpaceHeaders(rest, false);
    }
  }

  /** The first line of `line + rest`, when `line` has no newline and `rest` starts a new line. */
  lemma {:induction false} FirstLineWhole(line: string, rest: string)
    requires '\n' !in line && (rest == [] || rest[0] == '\n')
    ensures FirstLine(line + rest) == line
  {
    if line != [] {
      assert (line + rest)[1..] == line[1..] + rest;
      FirstLineWhole(line[1..], rest);
    }
  }

  // ---------------------------------------------------------- list markers

  /** The list markers `^(\d+\.)`, `^(\*)` and `^(-)` that the last three rewrites look for. */
  datatype Marker = Numbered | Star | Dash

  /** The number of ASCII digits `s` starts with. */
  function DigitRun(s: string): (n: nat)
    ensures n <= |s| && (forall i :: 0 <= i < n ==> IsDigit(s[i])) && (n < |s| ==> !IsDigit(s[n]))
  {
    if s == [] || !IsDigit(s[0]) then 0 else 1 + DigitRun(s[1..])
  }

  /** The length of the marker `m` at the start of `s`, or 0 when `s` does not start with one. */
  function MarkerLength(s: string, m: Marker): (n: nat)
    ensures n <= |s|
  {
    match m
    case Numbered =>
      var d := DigitRun(s);
      if d > 0 && d < |s| && s[d] == '.' then d + 1 else 0
    case Star => if s != [] && s[0] == '*' then 1 else 0
    case Dash => if s != [] && s[0] == '-' then 1 else 0
  }

  /** The number of whitespace characters (newlines included) `s` starts with: what `\s*` consumes. */
  function SpaceRun(s: string): (n: nat)
    ensures n <= |s|
  {
    if s == [] || !IsSpace(s[0]) then 0 else 1 + SpaceRun(s[1..])
  }

  lemma {:induction false} SpaceRunIsSpace(s: string)
    ensures AllSpace(s[..SpaceRun(s)])
  {
    if s != [] && IsSpace(s[0]) {
      SpaceRunIsSpace(s[1..]);
      assert s[..SpaceRun(s)] == [s[0]] + s[1..][..SpaceRun(s[1..])];
    }
  }

  /**
   * `re.sub(r'^(M)\s*', r'\1 ', s, flags=re.MULTILINE)`: a marker at the start
   * of a line keeps exactly one space after it, whatever whitespace (newlines
   * included) followed it. The scan resumes after the consumed whitespace, at
   * the start of a line only when that whitespace ended with a newline.
   */
  function FixMarkers(s: string, atStart: bool, m: Marker): string
    decreases |s|
  {
    if s == [] then []
    else if atStart && MarkerLength(s, m) > 0 then
      var n := MarkerLength(s, m);
      var w := SpaceRun(s[n..]);
      s[..n] + " " + FixMarkers(s[n + w..], w > 0 && s[n + w - 1] == '\n', m)
    else [s[0]] + FixMarkers(s[1..], s[0] == '\n', m)
  }

  /** Only the whitespace after markers changes. */
  lemma {:induction false} FixMarkersKeepsVisible(s: string, atStart: bool, m: Marker)
    ensures Visible(FixMarkers(s, atStart, m)) == Visible(s)
    decreases |s|
  {
    if s == [] {
    } else if atStart && MarkerLength(s, m) > 0 {
      var n := MarkerLength(s, m);
      var w := SpaceRun(s[n..]);
      FixMarkersKeepsVisible(s[n + w..], w > 0 && s[n + w - 1] == '\n', m);
      MarkStepVisible(s, m);
    } else {
      FixMarkersKeepsVisible(s[1..], s[0] == '\n', m);
      CopyStepVisible(s, atStart, m);
    }
  }

  /** A marker and the whitespace after it become the marker and one space, which keeps what is visible. */
  lemma {:induction false} MarkStepVisible(s: string, m: Marker)
    requires MarkerLength(s, m) > 0
    requires var n := MarkerLength(s, m); var w := SpaceRun(s[n..]);
      n + w <= |s| && Visible(FixMarkers(s[n + w..], w > 0 && s[n + w - 1] == '\n', m)) == Visible(s[n + w..])
    ensures Visible(FixMarkers(s, true, m)) == Visible(s)
  {
    var n := MarkerLength(s, m);
    var w := SpaceRun(s[n..]);
    var pre, gap, rest := s[..n], s[n..n + w], s[n + w..];
    var out := FixMarkers(rest, w > 0 && s[n + w - 1] == '\n', m);
    FixMarkersMark(s, m);
    SpaceGap(s, n);
    SliceThree(s, n, n + w);
    PadForGap(pre, gap, rest, out);
    calc {
      Visible(FixMarkers(s, true, m));
      Visible(pre + " " + out);
      Visible(pre + gap + rest);
      Visible(s);
    }
  }

  lemma {:induction false} FixMarkersMark(s: string, m: Marker)
    requires MarkerLength(s, m) > 0
    ensures var n := MarkerLength(s, m); var w := SpaceRun(s[n..]);
      FixMarkers(s, true, m) == s[..n] + " " + FixMarkers(s[n + w..], w > 0 && s[n + w - 1] == '\n', m)
  {
  }

  /** The whitespace run after position `n`, as a slice of `s`. */
  lemma {:induction false} SpaceGap(s: string, n: nat)
    requires n <= |s|
    ensures n + SpaceRun(s[n..]) <= |s| && AllSpace(s[n..n + SpaceRun(s[n..])])
  {
    SpaceRunIsSpace(s[n..]);
    assert s[n..][..SpaceRun(s[n..])] == s[n..n + SpaceRun(s[n..])];
  }

  /** Replacing whitespace between two pieces by one space keeps what is visible. */
  lemma {:induction false} PadForGap(pre: string, gap: string, rest: string, out: string)
    requires AllSpace(gap)
    requires Visible(out) == Visible(rest)
    ensures Visible(pre + " " + out) == Visible(pre + gap + rest)
  {
    SeparatorVisible(pre, ' ', out);
    GapVisible(pre, gap, rest);
  }

  lemma {:induction false} CopyStepVisible(s: string, atStart: bool, m: Marker)
    requires s != [] && !(atStart && MarkerLength(s, m) > 0)
    requires Visible(FixMarkers(s[1..], s[0] == '\n', m)) == Visible(s[1..])
    ensures Visible(FixMarkers(s, atStart, m)) == Visible(s)
  {
    VisibleAppend([s[0]], FixMarkers(s[1..], s[0] == '\n', m));
    VisibleAppend([s[0]], s[1..]);
    assert s == [s[0]] + s[1..];
  }

  /** Whitespace between two pieces contributes nothing visible. */
  lemma {:induction false} GapVisible(pre: string, gap: string, rest: string)
    requires AllSpace(gap)
    ensures Visible(pre + gap + rest) == Visible(pre) + Visible(rest)
  {
    VisibleAppend(pre + gap, rest);
    VisibleAppend(pre, gap);
    VisibleOfSpaces(gap);
  }

  /** Inside a line (not at its start) the marker scan copies the characters before the next newline. */
  lemma {:induction false} FixMarkersInsideLine(u: string, v: string, m: Marker)
    requires '\n' !in u
    ensures FixMarkers(u + v, false, m) == u + FixMarkers(v, false, m)
    decreases |u|
  {
    if u == [] {
      assert u + v == v;
    } else {
      assert (u + v)[0] == u[0] != '\n';
      assert (u + v)[1..] == u[1..] + v;
      FixMarkersInsideLine(u[1..], v, m);
      assert u + FixMarkers(v, false, m) == [u[0]] + (u[1..] + FixMarkers(v, false, m));
    }
  }

  /** The digits a line starts with are not changed by what follows a newline after it. */
  lemma {:induction false} DigitRunBeforeNewline(line: string, rest: string)
    requires rest == [] || rest[0] == '\n'
    ensures DigitRun(line + rest) == DigitRun(line)
    decreases |line|
  {
    if line == [] {
      assert line + rest == rest;
    } else {
      assert (line + rest)[0] == line[0];
      assert (line + rest)[1..] == line[1..] + rest;
      DigitRunBeforeNewline(line[1..], rest);
    }
  }

  /** Whether a line starts with a marker does not depend on the lines after it. */
  lemma {:induction false} MarkerBeforeNewline(line: string, rest: string, m: Marker)
    requires line != [] && (rest == [] || rest[0] == '\n')
    ensures MarkerLength(line + rest, m) == MarkerLength(line, m)
  {
    assert (line + rest)[0] == line[0];
    if m.Numbered? {
      DigitRunBeforeNewline(line, rest);
      var d := DigitRun(line);
      assert d < |line| ==> (line + rest)[d] == line[d];
      assert d == |line| && d < |line + rest| ==> (line + rest)[d] == rest[0];
    }
  }

  lemma {:induction false} FixMarkersCopy(s: string, atStart: bool, m: Marker)
    requires s != [] && !(atStart && MarkerLength(s, m) > 0)
    ensures FixMarkers(s, atStart, m) == [s[0]] + FixMarkers(s[1..], s[0] == '\n', m)
  {
  }

  /** A line that does not start with the marker `m` is copied whole, and so is the newline after it. */
  lemma {:induction false} FixMarkersLine(line: string, rest: string, m: Marker)
    requires '\n' !in line && (rest == [] || rest[0] == '\n') && MarkerLength(line, m) == 0
    ensures FixMarkers(line + rest, true, m) == line + FixMarkers(rest, false, m)
  {
    if line == [] {
      assert line + rest == rest;
    } else {
      MarkerBeforeNewline(line, rest, m);
      FixMarkersCopy(line + rest, true, m);
      assert (line + rest)[0] == line[0] != '\n';
      assert (line + rest)[1..] == line[1..] + rest;
      FixMarkersInsideLine(line[1..], rest, m);
      assert line + FixMarkers(rest, false, m) == [line[0]] + (line[1..] + FixMarkers(rest, false, m));
    }
  }

  /** Lines none of which starts with the marker `m` pass the marker rewrite unchanged. */
  lemma {:induction false} FixMarkersByLines(lines: seq<string>, m: Marker)
    requires |lines| >= 1
    requires forall k :: 0 <= k < |lines| ==> '\n' !in lines[k] && MarkerLength(lines[k], m) == 0
    ensures FixMarkers(Join(lines, "\n"), true, m) == Join(lines, "\n")
  {
    var l := lines[0];
    if |lines| == 1 {
      assert Join(lines, "\n") == l + [];
      FixMarkersLine(l, [], m);
    } else {
      var rest := lines[1..];
      var tail := Join(rest, "\n");
      assert Join(lines, "\n") == l + ("\n" + tail);
      FixMarkersByLines(rest, m);
      FixMarkersLine(l, "\n" + tail, m);
      assert ("\n" + tail)[1..] == tail;
    }
  }

  /** Lines without a header line are not changed by `SpacedLines`. */
  lemma {:induction false} SpacedLinesWithoutHeaders(lines: seq<string>)
    requires forall k :: 0 <= k < |lines| ==> !IsHeaderLine(lines[k])
    ensures SpacedLines(lines) == lines
  {
    if lines != [] {
      SpacedLinesWithoutHeaders(lines[1..]);
    }
  }

  lemma {:induction false} SliceThree(s: string, i: nat, j: nat)
    requires i <= j <= |s|
    ensures s[..i] + s[i..j] + s[j..] == s
  {
  }

  // ------------------------------------------------------------ the pipeline

  /**
   * `_clean_ai_content`: empty text stays empty; otherwise the five rewrites
   * in order, a final newline when missing, and `strip()`.
   */
  function CleanAiContent(content: string): (r: string)
    ensures content == [] ==> r == []
  {
    if content == [] then []
    else
      var collapsed := CollapseNewlines(content);
      var spaced := SpaceHeaders(collapsed, true);
      var numbered := FixMarkers(spaced, true, Numbered);
      var starred := FixMarkers(numbered, true, Star);
      var dashed := FixMarkers(starred, true, Dash);
      Strip(if EndsWith(dashed, "\n") then dashed else dashed + "\n")
  }

  /** The cleaned text has no leading or trailing whitespace. */
  lemma {:induction false} CleanIsStripped(content: string)
    ensures Strip(CleanAiContent(content)) == CleanAiContent(content)
  {
    if content != [] {
      StripOfStripped(CleanAiContent(content));
    }
  }

  /** Cleaning changes whitespace only: every other character is kept, in order. */
  lemma {:induction false} CleanKeepsVisible(content: string)
    ensures Visible(CleanAiContent(content)) == Visible(content)
  {
    if content != [] {
      var c1 := CollapseNewlines(content);
      var c2 := SpaceHeaders(c1, true);
      var c3 := FixMarkers(c2, true, Numbered);
      var c4 := FixMarkers(c3, true, Star);
      var c5 := FixMarkers(c4, true, Dash);
      var c6 := if EndsWith(c5, "\n") then c5 else c5 + "\n";
      CollapseKeepsVisible(content);
      SpaceHeadersKeepsVisible(c1, true);
      FixMarkersKeepsVisible(c2, true, Numbered);
      FixMarkersKeepsVisible(c3, true, Star);
      FixMarkersKeepsVisible(c4, true, Dash);
      VisibleAppend(c5, "\n");
      VisibleOfSpaces("\n");
      StripKeepsVisible(c6);
    }
  }

  /** A trailing newline after a stripped text is removed again by `strip()`. */
  lemma {:induction false} StripNewlineAfter(p: string)
    requires Strip(p) == p
    ensures Strip(p + "\n") == p
  {
    if p != [] {
      assert LStrip(p + "\n") == p + "\n";
      assert (p + "\n")[..|p|] == p;
      assert RStrip(p) == p;
    }
  }

  /**
   * Text with no run of three newlines, no header line and no line starting
   * with a list marker, and no surrounding whitespace, is returned unchanged.
   */
  lemma {:induction false} CleanPlainText(content: string, lines: seq<string>)
    requires |lines| >= 1 && CollapseNewlines(content) == Join(lines, "\n")
    requires forall k :: 0 <= k < |lines| ==> PlainLine(lines[k])
    requires Join(lines, "\n") != []
    requires !IsSpace(Join(lines, "\n")[0]) && !IsSpace(Join(lines, "\n")[|Join(lines, "\n")| - 1])
    ensures CleanAiContent(content) == Join(lines, "\n")
  {
    var t := Join(lines, "\n");
    StripOfStripped(t);
    assert content != [];
    SpaceHeadersByLines(lines);
    SpacedLinesWithoutHeaders(lines);
    FixMarkersByLines(lines, Numbered);
    FixMarkersByLines(lines, Star);
    FixMarkersByLines(lines, Dash);
    if !EndsWith(t, "\n") {
      StripNewlineAfter(t);
    }
  }

  /** Inside a line the newline rewrite copies the characters before the next newline. */
  lemma {:induction false} CollapseInsideLine(u: string, v: string)
    requires '\n' !in u
    ensures CollapseNewlines(u + v) == u + CollapseNewlines(v)
    decreases |u|
  {
    if u == [] {
      assert u + v == v;
    } else {
      assert (u + v)[0] == u[0] != '\n';
      assert (u + v)[1..] == u[1..] + v;
      CollapseInsideLine(u[1..], v);
      assert u + CollapseNewlines(v) == [u[0]] + (u[1..] + CollapseNewlines(v));
    }
  }

  /** A line that is neither a header nor starts with a list marker. */
  predicate PlainLine(line: string)
  {
    '\n' !in line && !IsHeaderLine(line) &&
    MarkerLength(line, Numbered) == 0 && MarkerLength(line, Star) == 0 && MarkerLength(line, Dash) == 0
  }

  lemma {:induction false} NewlineRunFive(b: string)
    requires '\n' !in b && b != []
    ensures NewlineRun("\n\n\n\n\n" + b) == 5
  {
    var gap := "\n\n\n\n\n" + b;
    assert gap[5] == b[0] && b[0] in b;
    assert forall i :: 0 <= i < 5 ==> gap[i] == '\n';
  }

  lemma {:induction false} CollapseFiveNewlines(a: string, b: string)
    requires '\n' !in a && '\n' !in b && b != []
    ensures CollapseNewlines(a + "\n\n\n\n\n" + b) == a + "\n\n" + b
  {
    assert CollapseNewlines("\n\n\n\n\n" + b) == "\n\n" + b by {
      NewlineRunFive(b);
      assert ("\n\n\n\n\n" + b)[5..] == b;
      CollapseKeepsShortRuns(b);
    }
    CollapseInsideLine(a, "\n\n\n\n\n" + b);
    assert a + "\n\n\n\n\n" + b == a + ("\n\n\n\n\n" + b);
  }

  lemma {:induction false} JoinAroundBlank(a: string, b: string)
    ensures Join([a, "", b], "\n") == a + "\n\n" + b
  {
    var lines := [a, "", b];
    assert lines[1..] == ["", b] && lines[1..][1..] == [b];
    assert Join(["", b], "\n") == "" + "\n" + b;
    assert a + "\n" + ("" + "\n" + b) == a + "\n\n" + b;
  }

  /** Two plain lines separated by five newlines end up separated by one blank line. */
  lemma {:induction false} CleanExcessNewlines(a: string, b: string)
    requires a != [] && b != [] && PlainLine(a) && PlainLine(b)
    requires !IsSpace(a[0]) && !IsSpace(b[|b| - 1])
    ensures CleanAiContent(a + "\n\n\n\n\n" + b) == a + "\n\n" + b
  {
    CollapseFiveNewlines(a, b);
    JoinAroundBlank(a, b);
    var t := a + "\n\n" + b;
    assert t[0] == a[0] && t[|t| - 1] == b[|b| - 1];
    assert PlainLine("") by {
      assert HashRun("") == 0 && DigitRun("") == 0;
    }
    CleanPlainText(a + "\n\n\n\n\n" + b, [a, "", b]);
  }
}
