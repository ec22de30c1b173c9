/** Whitespace and lines, as `str.isspace`, `str.strip` and `str.splitlines` see them. */
module Lines {
  predicate Space(c: char) {
    || c == ' ' || '\t' <= c <= '\r' || '\U{001c}' <= c <= '\U{001f}' || c == '\U{0085}' || c == '\U{00a0}'
    || c == '\U{1680}'
    || '\U{2000}' <= c <= '\U{200a}' || c == '\U{2028}' || c == '\U{2029}' || c == '\U{202f}' || c == '\U{205f}'
    || c == '\U{3000}'
  }

  /** The characters that end a line. */
  predicate Break(c: char) {
    '\n' <= c <= '\r' || '\U{001c}' <= c <= '\U{001e}' || c == '\U{0085}' || c == '\U{2028}' || c == '\U{2029}'
  }

  /** The same by the codes of the characters. */
  lemma SpaceMeans(c: char)
    ensures Space(c) <==>
            || c as int in {9, 10, 11, 12, 13, 28, 29, 30, 31, 32, 133, 160, 5760, 8232, 8233, 8239, 8287, 12288}
            || 8192 <= c as int <= 8202
    ensures Break(c) <==> c as int in {10, 11, 12, 13, 28, 29, 30, 133, 8232, 8233}
  {
  }

  predicate Unbroken(s: string) {
    forall k :: 0 <= k < |s| ==> !Break(s[k])
  }

  /** Where the first line ends. */
  function LineEnd(s: string): (n: nat)
    ensures n <= |s| && Unbroken(s[..n]) && (n < |s| ==> Break(s[n]))
  {
    if s == "" || Break(s[0]) then 0
    else
      var n := LineEnd(s[1..]);
      assert s[..n + 1] == [s[0]] + s[1..][..n];
      n + 1
  }

  /** How long the line break is; a carriage return takes a line feed with it. */
  function BreakLength(s: string, n: nat): (k: nat)
    requires n < |s|
    ensures n + k <= |s| && k > 0
  {
    if s[n] == '\r' && n + 1 < |s| && s[n + 1] == '\n' then 2 else 1
  }

  function SplitLines(s: string): (lines: seq<string>)
    ensures forall k :: 0 <= k < |lines| ==> Unbroken(lines[k])
    decreases |s|
  {
    if s == "" then []
    else
      var n := LineEnd(s);
      if n == |s| then [s] else [s[..n]] + SplitLines(s[n + BreakLength(s, n)..])
  }

  lemma {:induction false} LineEndIs(line: string, rest: string)
    requires Unbroken(line) && (rest == "" || Break(rest[0]))
    ensures LineEnd(line + rest) == |line|
  {
    var s := line + rest;
    if line != "" {
      assert s[1..] == line[1..] + rest;
      LineEndIs(line[1..], rest);
    } else {
      assert s == rest;
    }
  }

  /** A line fed to the front of a text. */
  lemma SplitFirst(line: string, rest: string)
    requires Unbroken(line)
    ensures SplitLines(line + "\n" + rest) == [line] + SplitLines(rest)
  {
    var s := line + "\n" + rest;
    assert s == line + ("\n" + rest);
    LineEndIs(line, "\n" + rest);
    assert s[..|line|] == line && s[|line| + 1..] == rest;
  }

  /** A line ends at any line break, a carriage return with the line feed that follows it. */
  lemma SplitAtBreak(line: string, break': string, rest: string)
    requires Unbroken(line)
    requires break' == "\r\n"
             || (|break'| == 1 && Break(break'[0]) && !(break' == "\r" && rest != "" && rest[0] == '\n'))
    ensures SplitLines(line + break' + rest) == [line] + SplitLines(rest)
  {
    var s := line + break' + rest;
    assert s == line + (break' + rest);
    LineEndIs(line, break' + rest);
    assert s[..|line|] == line && s[|line| + |break'|..] == rest;
    assert s[|line|] == break'[0] && (|break'| == 2 ==> s[|line| + 1] == '\n');
    assert BreakLength(s, |line|) == |break'| by {
      assert |line| + 1 < |s| ==> s[|line| + 1] == (break' + rest)[1];
    }
  }

  predicate EndsLine(s: string) {
    s == "" || s[|s| - 1] == '\n'
  }

  lemma LineEndsWithin(s: string)
    requires s != "" && EndsLine(s)
    ensures LineEnd(s) < |s|
    ensures EndsLine(s[LineEnd(s) + BreakLength(s, LineEnd(s))..])
  {
    assert Break(s[|s| - 1]) && s[..|s|] == s;
    assert !Unbroken(s);
  }

  lemma SameLineEnd(s: string, rest: string)
    requires s != "" && EndsLine(s)
    ensures LineEnd(s) < |s| && LineEnd(s + rest) == LineEnd(s)
    ensures BreakLength(s + rest, LineEnd(s)) == BreakLength(s, LineEnd(s))
  {
    LineEndsWithin(s);
    var n := LineEnd(s);
    LineEndIs(s[..n], s[n..] + rest);
    assert s + rest == s[..n] + (s[n..] + rest);
  }

  /** Text that ends a line splits apart from what follows. */
  lemma {:induction false} SplitAppend(s: string, rest: string)
    requires EndsLine(s)
    ensures SplitLines(s + rest) == SplitLines(s) + SplitLines(rest)
    decreases |s|
  {
    if s == "" {
      assert s + rest == rest;
    } else {
      LineEndsWithin(s);
      SameLineEnd(s, rest);
      var n := LineEnd(s);
      var k := BreakLength(s, n);
      var left := s[n + k..];
      SplitStep(s, n, k);
      SplitStep(s + rest, n, k);
      Slices(s, rest, n);
      Slices(s, rest, n + k);
      SplitAppend(left, rest);
      Regroup([s[..n]], SplitLines(left), SplitLines(rest));
    }
  }

  lemma SplitStep(s: string, n: nat, k: nat)
    requires n == LineEnd(s) < |s| && k == BreakLength(s, n)
    ensures SplitLines(s) == [s[..n]] + SplitLines(s[n + k..])
  {
  }

  lemma Slices(s: string, rest: string, m: nat)
    requires m <= |s|
    ensures (s + rest)[m..] == s[m..] + rest && (s + rest)[..m] == s[..m]
  {
  }

  lemma FirstAndRest<T>(a: seq<T>, b: seq<T>)
    requires a != []
    ensures a == [a[0]] + a[1..] && (a + b)[0] == a[0] && (a + b)[1..] == a[1..] + b
  {
  }

  lemma Regroup<T>(a: seq<T>, b: seq<T>, c: seq<T>)
    ensures a + (b + c) == (a + b) + c
  {
  }

  /** A line put between the lines of a text. */
  lemma SplitAround(before: string, line: string, after: string)
    requires EndsLine(before) && Unbroken(line)
    ensures SplitLines(before + (line + "\n" + after)) == SplitLines(before) + [line] + SplitLines(after)
    ensures SplitLines(before + after) == SplitLines(before) + SplitLines(after)
  {
    var tail := line + "\n" + after;
    SplitFirst(line, after);
    SplitAppend(before, tail);
    SplitAppend(before, after);
    Regroup(SplitLines(before), [line], SplitLines(after));
  }

  function StripLeft(s: string): (r: string)
    ensures |r| <= |s| && (r != "" ==> !Space(r[0]))
  {
    if s != "" && Space(s[0]) then StripLeft(s[1..]) else s
  }

  function StripRight(s: string): (r: string)
    ensures |r| <= |s| && r <= s
  {
    if s != "" && Space(s[|s| - 1]) then StripRight(s[..|s| - 1]) else s
  }

  lemma {:induction false} StripRightKeeps(s: string)
    requires s != "" && !Space(s[0])
    ensures StripRight(s) != "" && StripRight(s)[0] == s[0]
  {
    if Space(s[|s| - 1]) {
      StripRightKeeps(s[..|s| - 1]);
    }
  }

  function Strip(s: string): string {
    StripRight(StripLeft(s))
  }

  /** The text is the core with white space around it. */
  predicate Surrounds(s: string, a: string, core: string, b: string) {
    s == a + core + b && (forall c :: c in a ==> Space(c)) && forall c :: c in b ==> Space(c)
  }

  /** Stripping takes the white space off both ends, and nothing else. */
  lemma StripMeans(s: string)
    ensures exists a: string, b: string :: Surrounds(s, a, Strip(s), b)
    ensures Strip(s) != "" ==> !Space(Strip(s)[0]) && !Space(Strip(s)[|Strip(s)| - 1])
  {
    LeftSpaces(s);
    RightSpaces(StripLeft(s));
    CutTwice(s, StripLeft(s), Strip(s));
  }

  lemma {:induction false} StripLeftDrops(a: string, rest: string)
    requires forall c :: c in a ==> Space(c)
    ensures StripLeft(a + rest) == StripLeft(rest)
  {
    if a == "" {
      assert a + rest == rest;
    } else {
      assert (a + rest)[1..] == a[1..] + rest;
      StripLeftDrops(a[1..], rest);
    }
  }

  lemma {:induction false} StripRightDrops(rest: string, b: string)
    requires forall c :: c in b ==> Space(c)
    ensures StripRight(rest + b) == StripRight(rest)
  {
    if b == "" {
      assert rest + b == rest;
    } else {
      assert (rest + b)[..|rest + b| - 1] == rest + b[..|b| - 1];
      StripRightDrops(rest, b[..|b| - 1]);
    }
  }

  /** And it finds the core of any text so surrounded. */
  lemma StripFinds(s: string, a: string, core: string, b: string)
    requires Surrounds(s, a, core, b) && core != "" && !Space(core[0]) && !Space(core[|core| - 1])
    ensures Strip(s) == core
  {
    Regroup(a, core, b);
    StripLeftDrops(a, core + b);
    StripRightDrops(core, b);
  }

  lemma CutTwice(s: string, left: string, core: string)
    requires |left| <= |s| && s[|s| - |left|..] == left && core <= left
    requires forall k :: 0 <= k < |s| - |left| ==> Space(s[k])
    requires forall k :: |core| <= k < |left| ==> Space(left[k])
    ensures Surrounds(s, s[..|s| - |left|], core, left[|core|..])
  {
    assert left == core + left[|core|..];
    Regroup(s[..|s| - |left|], core, left[|core|..]);
  }

  lemma {:induction false} LeftSpaces(s: string)
    ensures s[|s| - |StripLeft(s)|..] == StripLeft(s)
    ensures forall k :: 0 <= k < |s| - |StripLeft(s)| ==> Space(s[k])
  {
    if s != "" && Space(s[0]) {
      LeftSpaces(s[1..]);
      assert forall k :: 0 < k < |s| ==> s[k] == s[1..][k - 1];
    }
  }

  lemma {:induction false} RightSpaces(s: string)
    ensures forall k :: |StripRight(s)| <= k < |s| ==> Space(s[k])
    ensures StripRight(s) != "" ==> !Space(StripRight(s)[|StripRight(s)| - 1])
    ensures StripRight(s) != "" ==> StripRight(s)[0] == s[0]
  {
    if s != "" && Space(s[|s| - 1]) {
      RightSpaces(s[..|s| - 1]);
    }
  }

  /** The characters up to the first white space. */
  function FirstWord(s: string): (r: string)
    ensures r <= s
    ensures r == "" <==> s == "" || Space(s[0])
  {
    if s == "" || Space(s[0]) then "" else [s[0]] + FirstWord(s[1..])
  }

  /** `"\n".join(lines)` */
  function Join(lines: seq<string>): string {
    if lines == [] then "" else if |lines| == 1 then lines[0] else lines[0] + "\n" + Join(lines[1..])
  }
}
