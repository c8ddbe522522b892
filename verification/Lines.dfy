/** Lines of a text as Python's str.splitlines gives them. */
module Lines {
  const NEWLINE := '\n'

  /** The characters at which str.splitlines() ends a line. */
  predicate IsBreak(c: char) {
    var n := c as int;
    10 <= n <= 13 || 28 <= n <= 30 || n == 133 || n == 8232 || n == 8233
  }

  /** Length of the first line, without its end. */
  function LineLength(s: string): (n: nat)
    ensures n <= |s|
  {
    if s == [] || IsBreak(s[0]) then 0 else 1 + LineLength(s[1..])
  }

  /** Length of the line end at s[n]; "\r\n" is one. */
  function BreakLength(s: string, n: nat): nat
    requires n < |s|
  {
    if s[n] == '\r' && n + 1 < |s| && s[n + 1] == NEWLINE then 2 else 1
  }

  function SplitLines(s: string): seq<string>
    decreases |s|
  {
    if s == [] then []
    else
      var n := LineLength(s);
      if n == |s| then [s] else [s[..n]] + SplitLines(s[n + BreakLength(s, n)..])
  }

  /** A text that stops right after a newline, or nothing. */
  predicate Whole(s: string) { s == [] || s[|s| - 1] == NEWLINE }

  lemma SameBreak(a: string, b: string, n: nat)
    requires Whole(a) && n < |a|
    ensures BreakLength(a + b, n) == BreakLength(a, n) <= |a| - n
  {
  }

  /** The first line of a text that begins with whole lines. */
  lemma FirstLine(a: string, b: string, n: nat, k: nat)
    requires a != [] && Whole(a) && n == LineLength(a) < |a| && k == n + BreakLength(a, n)
    ensures k <= |a| && Whole(a[k..])
    ensures SplitLines(a + b) == [a[..n]] + SplitLines(a[k..] + b)
  {
    LengthConcat(a, b);
    SameBreak(a, b, n);
    SplitStep(a + b, n, k);
    Drop(a, b, n);
    Drop(a, b, k);
  }

  lemma SplitStep(s: string, n: nat, k: nat)
    requires n == LineLength(s) < |s| && k == n + BreakLength(s, n)
    ensures SplitLines(s) == [s[..n]] + SplitLines(s[k..])
  {
  }

  lemma Drop(a: string, b: string, k: nat)
    requires k <= |a|
    ensures (a + b)[..k] == a[..k] && (a + b)[k..] == a[k..] + b
  {
  }

  /** The line ends of str.splitlines(). */
  predicate LineEnd(e: string) {
    e == "\r\n" || (|e| == 1 && e[0] as int in {10, 11, 12, 13, 28, 29, 30, 133, 8232, 8233})
  }

  ghost predicate NoEnd(s: string) { forall i :: 0 <= i < |s| ==> !LineEnd([s[i]]) }

  lemma {:induction false} NoEndLength(s: string, rest: string)
    requires NoEnd(s)
    ensures LineLength(s + rest) == |s| + LineLength(rest)
  {
    if s == [] {
      assert s + rest == rest;
    } else {
      assert !LineEnd([s[0]]) && (s + rest)[1..] == s[1..] + rest;
      assert forall i :: 0 <= i < |s[1..]| ==> s[1..][i] == s[i + 1];
      NoEndLength(s[1..], rest);
    }
  }

  /** A text is its first line, the end of that, and the rest; a carriage return before a newline is part of one end. */
  lemma FirstOfLines(line: string, end: string, rest: string)
    requires NoEnd(line) && LineEnd(end) && (end == "\r" && rest != [] ==> rest[0] != '\n')
    ensures SplitLines(line + end + rest) == [line] + SplitLines(rest)
  {
    var s := line + end + rest;
    assert s == line + (end + rest);
    NoEndLength(line, end + rest);
    assert IsBreak(end[0]) && LineLength(end + rest) == 0;
    assert s[|line|] == end[0] && s[..|line|] == line && s[|line| + |end|..] == rest;
    if |end| == 1 && rest != [] { assert s[|line| + 1] == rest[0]; }
    if |end| == 2 { assert s[|line| + 1] == end[1]; }
    SplitStep(s, |line|, |line| + |end|);
  }

  /** A text without line ends is one line, if it is not empty. */
  lemma LastOfLines(line: string)
    requires NoEnd(line)
    ensures SplitLines(line) == if line == [] then [] else [line]
  {
    NoEndLength(line, []);
    assert line + [] == line;
  }

  /** Whole lines can be split off: the lines of the rest do not depend on them. */
  lemma {:induction false} SplitConcat(a: string, b: string)
    requires Whole(a)
    ensures SplitLines(a + b) == SplitLines(a) + SplitLines(b)
    decreases |a|
  {
    if a == [] {
      assert a + b == b;
    } else {
      WholeLength(a);
      var n := LineLength(a);
      var k := n + BreakLength(a, n);
      FirstLine(a, b, n, k);
      SplitConcat(a[k..], b);
    }
  }

  lemma {:induction false} WholeLength(a: string)
    requires a != [] && a[|a| - 1] == NEWLINE
    ensures LineLength(a) < |a|
  {
    if !IsBreak(a[0]) { WholeLength(a[1..]); }
  }

  lemma {:induction false} LengthConcat(a: string, b: string)
    requires LineLength(a) < |a|
    ensures LineLength(a + b) == LineLength(a)
  {
    if !IsBreak(a[0]) {
      assert (a + b)[1..] == a[1..] + b;
      LengthConcat(a[1..], b);
    }
  }

  // ---- how much text there is in lines ------------------------------------

  /** The characters of some lines, and one for the end of each. */
  function Measure(lines: seq<string>): nat {
    if lines == [] then 0 else |lines[0]| + 1 + Measure(lines[1..])
  }

  lemma {:induction false} MeasureConcat(a: seq<string>, b: seq<string>)
    ensures Measure(a + b) == Measure(a) + Measure(b)
  {
    if a == [] {
      assert a + b == b;
    } else {
      assert (a + b)[1..] == a[1..] + b;
      MeasureConcat(a[1..], b);
    }
  }

  lemma MeasureSome(s: string)
    requires s != []
    ensures Measure(SplitLines(s)) > 0
  {
  }

  /** A carriage return before a newline is part of the same line end. */
  predicate HalfBreak(c: char, s: string) { c == '\r' && s != [] && s[0] == NEWLINE }

  /** One more character at the start: part of the first line, a line end, or half of one. */
  lemma Prepend(c: char, s: string)
    requires s != []
    ensures Measure(SplitLines([c] + s)) == Measure(SplitLines(s)) + if HalfBreak(c, s) then 0 else 1
    ensures HalfBreak(c, s) ==> SplitLines([c] + s) == SplitLines(s)
  {
    var t, n := [c] + s, LineLength(s);
    assert t[1..] == s;
    if IsBreak(c) {
      var k := BreakLength(t, 0);
      SplitStep(t, 0, k);
      if HalfBreak(c, s) {
        SplitStep(s, 0, 1);
        assert t[2..] == s[1..] && t[..0] == s[..0];
      }
    } else if n == |s| {
      assert SplitLines(t) == [t] && SplitLines(s) == [s];
    } else {
      var k := n + BreakLength(s, n);
      SplitStep(s, n, k);
      SplitStep(t, n + 1, k + 1);
      assert t[k + 1..] == s[k..] && |t[..n + 1]| == |s[..n]| + 1;
    }
  }

  /** More text at the start makes for more in lines, unless it is half a line end. */
  lemma {:induction false} Longer(a: string, s: string)
    requires s != []
    ensures Measure(SplitLines(a + s)) >= Measure(SplitLines(s))
    ensures Measure(SplitLines(a + s)) == Measure(SplitLines(s)) <==> a == [] || (|a| == 1 && HalfBreak(a[0], s))
  {
    if a == [] {
      assert a + s == s;
    } else {
      var rest := a[1..] + s;
      assert a + s == [a[0]] + rest;
      Longer(a[1..], s);
      Prepend(a[0], rest);
      if |a| > 1 { assert rest[0] == a[1]; } else { assert rest == s; }
    }
  }
}
