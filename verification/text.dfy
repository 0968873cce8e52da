/**
 The few pieces of Python's `str` behaviour that the Dockerfile processor relies
 on, over `string` (= `seq<char>`): whitespace, upper-casing, `strip()`,
 `split('\n')` and its inverse `'\n'.join`, the first word of `split()`, and
 substring containment.
 */
module Text {

  /** `str.isspace` for one character: CPython's whitespace table, by code point. */
  predicate IsSpace(c: char) {
    var n := c as int;
    || (9 <= n <= 13)          // \t \n \v \f \r
    || (28 <= n <= 32)         // file/group/record/unit separators and ' '
    || n == 0x85 || n == 0xA0 || n == 0x1680
    || (0x2000 <= n <= 0x200A)
    || n == 0x2028 || n == 0x2029 || n == 0x202F || n == 0x205F || n == 0x3000
  }

  /** `str.upper` on one character, for ASCII letters only. */
  function UpperChar(c: char): char {
    if 'a' <= c <= 'z' then (c as int - 32) as char else c
  }

  function Upper(s: string): string {
    seq(|s|, i requires 0 <= i < |s| => UpperChar(s[i]))
  }

  /** `str.lstrip()`: the longest suffix of `s` that does not start with whitespace. */
  function TrimStart(s: string): (r: string)
    ensures |r| <= |s| && r == s[|s| - |r|..]
    ensures forall i :: 0 <= i < |s| - |r| ==> IsSpace(s[i])
    ensures |r| > 0 ==> !IsSpace(r[0])
    decreases |s|
  {
    if |s| > 0 && IsSpace(s[0]) then TrimStart(s[1..]) else s
  }

  /** `str.rstrip()`: the longest prefix of `s` that does not end with whitespace. */
  function TrimEnd(s: string): (r: string)
    ensures |r| <= |s| && r == s[..|r|]
    ensures forall i :: |r| <= i < |s| ==> IsSpace(s[i])
    ensures |r| > 0 ==> !IsSpace(r[|r| - 1])
    decreases |s|
  {
    if |s| > 0 && IsSpace(s[|s| - 1]) then TrimEnd(s[..|s| - 1]) else s
  }

  /** `str.strip()`. */
  function Strip(s: string): string {
    TrimEnd(TrimStart(s))
  }

  /** Index of the first '\n' of `s`, or `|s|` when there is none. */
  function LineEnd(s: string): (k: nat)
    ensures k <= |s|
    ensures forall i :: 0 <= i < k ==> s[i] != '\n'
    ensures k < |s| ==> s[k] == '\n'
    decreases |s|
  {
    if |s| == 0 || s[0] == '\n' then 0 else 1 + LineEnd(s[1..])
  }

  lemma AppendAssoc(a: string, b: string, c: string)
    ensures a + (b + c) == (a + b) + c
  {
    var l, r := a + (b + c), (a + b) + c;
    assert |l| == |r|;
    forall i | 0 <= i < |l|
      ensures l[i] == r[i]
    {
      if i < |a| {
      } else if i < |a| + |b| {
        assert l[i] == (b + c)[i - |a|];
      } else {
        assert l[i] == (b + c)[i - |a|];
      }
    }
  }

  lemma SliceCons(s: string, k: nat)
    requires 0 < k <= |s|
    ensures [s[0]] + s[1..][..k - 1] == s[..k]
  {
    var l := [s[0]] + s[1..][..k - 1];
    assert |l| == k;
    forall i | 0 <= i < k
      ensures l[i] == s[i]
    {
      if i > 0 {
        assert l[i] == s[1..][i - 1];
      }
    }
  }

  lemma SliceTail(s: string, k: nat)
    requires 0 < k <= |s|
    ensures s[1..][k - 1..] == s[k..]
  {
    var l := s[1..][k - 1..];
    assert |l| == |s| - k;
    forall i | 0 <= i < |l|
      ensures l[i] == s[k + i]
    {
      assert l[i] == s[1..][k - 1 + i];
    }
  }

  /** Dropping `n` characters from `a + t`, when `a` has at least `n`, drops them from `a`. */
  lemma DropConcat(a: string, t: string, n: nat)
    requires n <= |a|
    ensures (a + t)[n..] == a[n..] + t
  {
    var l, r := (a + t)[n..], a[n..] + t;
    assert |l| == |r|;
    forall i | 0 <= i < |l|
      ensures l[i] == r[i]
    {
      assert l[i] == (a + t)[n + i];
    }
  }

  lemma PrefixOfConcat(p: string, a: string, t: string)
    requires p <= a
    ensures p <= a + t
  {
    assert forall i :: 0 <= i < |p| ==> (a + t)[i] == a[i];
  }

  /** A prefix holding no '\n' of `a + "\n" + b` is a prefix of `a`. */
  lemma PrefixBeforeNewline(p: string, a: string, b: string)
    requires '\n' !in p && p <= a + ("\n" + b)
    ensures p <= a
  {
    var s := a + ("\n" + b);
    assert s[|a|] == '\n';
    assert forall i :: 0 <= i < |p| ==> s[i] == p[i] && p[i] in p;
    assert |p| <= |a|;
    assert forall i :: 0 <= i < |p| ==> a[i] == s[i];
  }

  lemma DropTwice(s: string, i: nat, j: nat)
    requires i + j <= |s|
    ensures s[i..][j..] == s[i + j..]
  {
    var l := s[i..][j..];
    assert |l| == |s| - i - j;
    forall n | 0 <= n < |l|
      ensures l[n] == s[i + j + n]
    {
      assert l[n] == s[i..][j + n];
    }
  }

  lemma AbsentFromTail(c: char, s: string)
    requires |s| > 0 && c !in s
    ensures c !in s[1..]
  {
    assert s == [s[0]] + s[1..];
  }

  /** A prefix of `s` holding no '\n' lies within the first line of `s`. */
  lemma PrefixInFirstLine(p: string, s: string)
    requires '\n' !in p && p <= s
    ensures |p| <= LineEnd(s) && p <= s[..LineEnd(s)]
  {
    assert forall i :: 0 <= i < |p| ==> s[i] == p[i] && p[i] in p;
  }

  /** A prefix of a prefix of `s` is a prefix of `s`. */
  lemma PrefixTrans(p: string, q: string, s: string)
    requires p <= q && q <= s
    ensures p <= s
  {
    assert forall i :: 0 <= i < |p| ==> p[i] == q[i] == s[i];
  }

  /** `'\n'.join(lines)`. */
  function Join(lines: seq<string>): string {
    if |lines| == 0 then []
    else if |lines| == 1 then lines[0]
    else lines[0] + "\n" + Join(lines[1..])
  }

  lemma JoinCons(head: string, rest: seq<string>)
    requires |rest| > 0
    ensures Join([head] + rest) == head + "\n" + Join(rest)
  {
    assert ([head] + rest)[1..] == rest;
  }

  /** `s.split('\n')`: never empty, no piece holds a '\n', and joining the pieces gives `s` back. */
  function Split(s: string): (lines: seq<string>)
    ensures |lines| > 0
    ensures forall i :: 0 <= i < |lines| ==> '\n' !in lines[i]
    ensures Join(lines) == s
    decreases |s|
  {
    var k := LineEnd(s);
    if k == |s| then
      [s]
    else
      var rest := Split(s[k + 1..]);
      assert ([s[..k]] + rest)[1..] == rest;
      assert s == s[..k] + "\n" + s[k + 1..];
      [s[..k]] + rest
  }

  /** The first line of `l + t` is `l` when `l` holds no '\n' and `t` is empty or starts a new line. */
  lemma LineEndOfConcat(l: string, t: string)
    requires '\n' !in l
    requires |t| == 0 || t[0] == '\n'
    ensures LineEnd(l + t) == |l|
  {
    var s := l + t;
    assert forall i :: 0 <= i < |l| ==> s[i] == l[i];
    assert |s| > |l| ==> s[|l|] == '\n';
  }

  lemma SplitLine(l: string)
    requires '\n' !in l
    ensures Split(l) == [l]
  {
    LineEndOfConcat(l, []);
    assert l + [] == l;
  }

  lemma SplitCons(head: string, tail: string)
    requires '\n' !in head
    ensures Split(head + "\n" + tail) == [head] + Split(tail)
  {
    var s := head + "\n" + tail;
    assert s == head + ("\n" + tail);
    LineEndOfConcat(head, "\n" + tail);
    assert s[..|head|] == head;
    assert s[|head| + 1..] == tail;
  }

  /** Splitting the join of newline-free lines gives the lines back. */
  lemma {:induction false} SplitJoin(lines: seq<string>)
    requires |lines| > 0
    requires forall i :: 0 <= i < |lines| ==> '\n' !in lines[i]
    ensures Split(Join(lines)) == lines
    decreases |lines|
  {
    if |lines| == 1 {
      SplitLine(lines[0]);
    } else {
      SplitJoin(lines[1..]);
      SplitCons(lines[0], Join(lines[1..]));
      assert lines == [lines[0]] + lines[1..];
    }
  }

  /** `p` occurs in `s` at some position. */
  predicate Contains(s: string, p: string)
    decreases |s|
  {
    p <= s || (|s| > 0 && Contains(s[1..], p))
  }

  /** The first word of `line.split()` for a `line` that does not start with whitespace:
      the longest prefix free of whitespace. */
  function FirstToken(line: string): (tok: string)
    ensures tok <= line
    ensures forall i :: 0 <= i < |tok| ==> !IsSpace(tok[i])
    ensures |tok| < |line| ==> IsSpace(line[|tok|])
    decreases |line|
  {
    if |line| == 0 || IsSpace(line[0]) then [] else [line[0]] + FirstToken(line[1..])
  }

  // ---------------------------------------------------------------------------
  // Upper-casing commutes with the other operations: it changes letters only,
  // and no letter is whitespace, '\n' or '#'.
  // ---------------------------------------------------------------------------

  function UpperLines(lines: seq<string>): (r: seq<string>)
    ensures |r| == |lines|
    ensures forall i :: 0 <= i < |lines| ==> r[i] == Upper(lines[i])
  {
    if |lines| == 0 then [] else [Upper(lines[0])] + UpperLines(lines[1..])
  }

  lemma UpperDrop(s: string, i: nat)
    requires i <= |s|
    ensures Upper(s)[i..] == Upper(s[i..])
  {
  }

  lemma UpperTake(s: string, n: nat)
    requires n <= |s|
    ensures Upper(s)[..n] == Upper(s[..n])
  {
  }

  lemma UpperIdempotent(s: string)
    ensures Upper(Upper(s)) == Upper(s)
  {
  }

  /** Upper-casing never turns whitespace into non-whitespace or back. */
  lemma UpperCharSpace(c: char)
    ensures IsSpace(UpperChar(c)) == IsSpace(c)
  {
  }

  lemma {:induction false} TrimStartUpper(s: string)
    ensures TrimStart(Upper(s)) == Upper(TrimStart(s))
    decreases |s|
  {
    if |s| > 0 {
      var u := Upper(s);
      UpperCharSpace(s[0]);
      assert u[0] == UpperChar(s[0]);
      if IsSpace(s[0]) {
        UpperDrop(s, 1);
        TrimStartUpper(s[1..]);
      }
    }
  }

  lemma {:induction false} TrimEndUpper(s: string)
    ensures TrimEnd(Upper(s)) == Upper(TrimEnd(s))
    decreases |s|
  {
    if |s| > 0 {
      var u, n := Upper(s), |s| - 1;
      UpperCharSpace(s[n]);
      assert u[n] == UpperChar(s[n]);
      if IsSpace(s[n]) {
        UpperTake(s, n);
        TrimEndUpper(s[..n]);
        assert TrimEnd(u) == TrimEnd(u[..n]);
        assert TrimEnd(s) == TrimEnd(s[..n]);
      } else {
        assert TrimEnd(u) == u;
        assert TrimEnd(s) == s;
      }
    }
  }

  lemma StripUpper(s: string)
    ensures Strip(Upper(s)) == Upper(Strip(s))
  {
    TrimStartUpper(s);
    TrimEndUpper(TrimStart(s));
  }

  lemma {:induction false} LineEndUpper(s: string)
    ensures LineEnd(Upper(s)) == LineEnd(s)
    decreases |s|
  {
    if |s| > 0 && s[0] != '\n' {
      UpperDrop(s, 1);
      LineEndUpper(s[1..]);
    }
  }

  lemma {:induction false} SplitUpper(s: string)
    ensures Split(Upper(s)) == UpperLines(Split(s))
    decreases |s|
  {
    var k := LineEnd(s);
    LineEndUpper(s);
    if k < |s| {
      UpperDrop(s, k + 1);
      UpperTake(s, k);
      SplitUpper(s[k + 1..]);
      assert Split(s) == [s[..k]] + Split(s[k + 1..]);
      assert UpperLines(Split(s)) == [Upper(s[..k])] + UpperLines(Split(s[k + 1..]));
    }
  }

  lemma FirstTokenUpper(line: string)
    ensures FirstToken(Upper(line)) == Upper(FirstToken(line))
  {
    var n := |FirstToken(line)|;
    var u := Upper(line);
    forall i | 0 <= i < n
      ensures !IsSpace(u[i])
    {
      assert line[i] == FirstToken(line)[i];
    }
    FirstTokenOf(u, n);
    UpperTake(line, n);
  }

  // ---------------------------------------------------------------------------
  // Strip and FirstToken are determined by where the whitespace is.
  // ---------------------------------------------------------------------------

  /** `s.strip()` is `s[a..b]` when everything outside `[a, b)` is whitespace and the
      ends of `s[a..b]` are not. */
  lemma StripOf(s: string, a: nat, b: nat)
    requires a < b <= |s|
    requires forall i :: 0 <= i < a ==> IsSpace(s[i])
    requires forall i :: b <= i < |s| ==> IsSpace(s[i])
    requires !IsSpace(s[a]) && !IsSpace(s[b - 1])
    ensures Strip(s) == s[a..b]
  {
    TrimStartAt(s, a);
    TrimEndOfDrop(s, a, b);
    assert Strip(s) == TrimEnd(s[a..]);
  }

  lemma TrimEndOfDrop(s: string, a: nat, b: nat)
    requires a < b <= |s|
    requires forall i :: b <= i < |s| ==> IsSpace(s[i])
    requires !IsSpace(s[b - 1])
    ensures TrimEnd(s[a..]) == s[a..b]
  {
    var t := s[a..];
    forall i | b - a <= i < |t|
      ensures IsSpace(t[i])
    {
      assert t[i] == s[a + i];
    }
    assert t[b - a - 1] == s[b - 1];
    TrimEndAt(t, b - a);
    TakeOfDrop(s, a, b);
  }

  lemma TakeOfDrop(s: string, a: nat, b: nat)
    requires a <= b <= |s|
    ensures s[a..][..b - a] == s[a..b]
  {
    var l := s[a..][..b - a];
    assert |l| == b - a;
    forall i | 0 <= i < |l|
      ensures l[i] == s[a + i]
    {
      assert l[i] == s[a..][i];
    }
  }

  /** `s.lstrip()` is `s[a..]` when `s[..a]` is whitespace and `s[a]` is not. */
  lemma {:induction false} TrimStartAt(s: string, a: nat)
    requires a < |s|
    requires forall i :: 0 <= i < a ==> IsSpace(s[i])
    requires !IsSpace(s[a])
    ensures TrimStart(s) == s[a..]
    decreases a
  {
    if a > 0 {
      var t := s[1..];
      assert forall i :: 0 <= i < a - 1 ==> t[i] == s[i + 1];
      assert t[a - 1] == s[a];
      TrimStartAt(t, a - 1);
      DropTwice(s, 1, a - 1);
    }
  }

  /** `s.rstrip()` is `s[..b]` when `s[b..]` is whitespace and `s[b - 1]` is not. */
  lemma {:induction false} TrimEndAt(s: string, b: nat)
    requires 0 < b <= |s|
    requires forall i :: b <= i < |s| ==> IsSpace(s[i])
    requires !IsSpace(s[b - 1])
    ensures TrimEnd(s) == s[..b]
    decreases |s| - b
  {
    if b < |s| {
      var t := s[..|s| - 1];
      assert forall i :: b <= i < |t| ==> t[i] == s[i];
      assert t[b - 1] == s[b - 1];
      TrimEndAt(t, b);
      assert t[..b] == s[..b];
    }
  }

  /** The first word of `line` is `line[..n]` when those characters are not whitespace and
      `line[n]`, if any, is. */
  lemma FirstTokenOf(line: string, n: nat)
    requires n <= |line|
    requires forall i :: 0 <= i < n ==> !IsSpace(line[i])
    requires n == |line| || IsSpace(line[n])
    ensures FirstToken(line) == line[..n]
  {
    var tok := FirstToken(line);
    assert |tok| == n;
    assert tok == line[..|tok|];
  }
}
