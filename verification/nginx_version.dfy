/**
 The version rewrite of `DockerfileProcessor.process_nginx_version`: pass 1
 rewrites every line that begins with `ENV NGINX_VERSION` into
 `ENV NGINX_VERSION=<version>`, pass 2 replaces every literal
 `$NGINX_VERSION` by the version.
 */
module NginxVersion {
  import opened Text

  /** The text a line must begin with for pass 1 to rewrite it. */
  const EnvPrefix: string := "ENV NGINX_VERSION"

  /** The variable reference that pass 2 replaces. */
  const Placeholder: string := "$NGINX_VERSION"

  /** The line pass 1 puts in place of every matching line. */
  function EnvLine(version: string): string {
    EnvPrefix + "=" + version
  }

  /** The replacement template of pass 1 is taken literally by `re.sub` only when the
      version holds no backslash. */
  predicate LiteralTemplate(version: string) {
    '\\' !in version
  }

  /** A release number such as `1.22`: non-empty, digits and dots only. */
  predicate IsDottedVersion(version: string) {
    && |version| > 0
    && forall i :: 0 <= i < |version| ==> version[i] == '.' || '0' <= version[i] <= '9'
  }

  /** A version pass 2 cannot splice into a new placeholder: it is non-empty, holds no `$`,
      and does not begin with a character of `$NGINX_VERSION`. */
  predicate SpliceFree(version: string) {
    |version| > 0 && '$' !in version && version[0] !in Placeholder
  }

  // ---------------------------------------------------------------------------
  // Pass 1: a multi-line regular-expression substitution that replaces every line
  // beginning with `ENV NGINX_VERSION` by `ENV NGINX_VERSION=<version>`
  // ---------------------------------------------------------------------------

  function RewriteLine(line: string, version: string): string {
    if EnvPrefix <= line then EnvLine(version) else line
  }

  function RewriteLines(lines: seq<string>, version: string): (r: seq<string>)
    ensures |r| == |lines|
    ensures forall i :: 0 <= i < |lines| ==> r[i] == RewriteLine(lines[i], version)
  {
    if |lines| == 0 then [] else [RewriteLine(lines[0], version)] + RewriteLines(lines[1..], version)
  }

  /** Pass 1, line by line: every physical line is rewritten on its own. */
  function RewriteEnvLines(content: string, version: string): string
    requires LiteralTemplate(version)
  {
    Join(RewriteLines(Split(content), version))
  }

  /** Pass 1 as `re.sub` performs it: a left-to-right scan that tries the pattern at
      every position. Under `re.MULTILINE`, `^` holds at the start and right after each
      '\n'; the greedy `.*` runs up to the next '\n' (which `.` does not match), where
      `$` holds; the scan goes on after the match, and a replacement is never rescanned. */
  function ScanEnvLines(s: string, repl: string, atLineStart: bool): string
    decreases |s|
  {
    if atLineStart && EnvPrefix <= s then
      var k := LineEnd(s);
      assert s[0] == 'E';
      repl + ScanEnvLines(s[k..], repl, false)
    else if |s| == 0 then
      []
    else
      [s[0]] + ScanEnvLines(s[1..], repl, s[0] == '\n')
  }

  // ---------------------------------------------------------------------------
  // Pass 2: every literal `$NGINX_VERSION` replaced by the version
  // ---------------------------------------------------------------------------

  /** Left-to-right, non-overlapping replacement of `$NGINX_VERSION`; the inserted
      version is never rescanned. Text without the placeholder comes back unchanged,
      and every character of the result comes from the text or from the version. */
  function ReplacePlaceholder(s: string, version: string): (r: string)
    ensures !Contains(s, Placeholder) ==> r == s
    ensures forall c :: c in r ==> c in s || c in version
    decreases |s|
  {
    if Placeholder <= s then
      version + ReplacePlaceholder(s[|Placeholder|..], version)
    else if |s| == 0 then
      []
    else
      [s[0]] + ReplacePlaceholder(s[1..], version)
  }

  function ReplaceLines(lines: seq<string>, version: string): (r: seq<string>)
    ensures |r| == |lines|
    ensures forall i :: 0 <= i < |lines| ==> r[i] == ReplacePlaceholder(lines[i], version)
  {
    if |lines| == 0 then [] else [ReplacePlaceholder(lines[0], version)] + ReplaceLines(lines[1..], version)
  }

  // ---------------------------------------------------------------------------
  // Both passes
  // ---------------------------------------------------------------------------

  /** The text `process_nginx_version` returns for file content `content`. */
  function ProcessNginxVersion(content: string, version: string): string
    requires LiteralTemplate(version)
  {
    ReplacePlaceholder(RewriteEnvLines(content, version), version)
  }

  /** The two-expression sed script the processor stands in for, for a version that sed
      copies into its replacement text as it is (`SedLiteral`): sed applies both
      substitutions to each line in turn. */
  function SedLine(line: string, version: string): string {
    ReplacePlaceholder(RewriteLine(line, version), version)
  }

  function SedLines(lines: seq<string>, version: string): (r: seq<string>)
    ensures |r| == |lines|
    ensures forall i :: 0 <= i < |lines| ==> r[i] == SedLine(lines[i], version)
  {
    if |lines| == 0 then [] else [SedLine(lines[0], version)] + SedLines(lines[1..], version)
  }

  function SedScript(content: string, version: string): string {
    Join(SedLines(Split(content), version))
  }

  /** The versions sed takes literally in the replacement of an `s` command: a backslash
      escapes and `&` stands for the matched text there, a `/` ends the command and a
      newline ends the expression. */
  predicate SedLiteral(version: string) {
    '\\' !in version && '&' !in version && '/' !in version && '\n' !in version
  }

  // ---------------------------------------------------------------------------
  // Pass 1: properties
  // ---------------------------------------------------------------------------

  /** For a version without '\n', pass 1 keeps the number of lines, rewrites every line
      that begins with `ENV NGINX_VERSION` (not only the first) to `ENV NGINX_VERSION=<version>`,
      and leaves every other line as it was. */
  lemma RewriteEnvLinesPerLine(content: string, version: string)
    requires LiteralTemplate(version)
    requires '\n' !in version
    ensures var before, after := Split(content), Split(RewriteEnvLines(content, version));
      && |after| == |before|
      && forall i :: 0 <= i < |before| ==>
           && (EnvPrefix <= before[i] ==> after[i] == EnvLine(version))
           && (!(EnvPrefix <= before[i]) ==> after[i] == before[i])
  {
    var rs := RewriteLines(Split(content), version);
    assert '\n' !in EnvLine(version);
    SplitJoin(rs);
  }

  /** With no line beginning with `ENV NGINX_VERSION`, pass 1 is the identity. */
  lemma NoEnvLineUnchanged(content: string, version: string)
    requires LiteralTemplate(version)
    requires forall i :: 0 <= i < |Split(content)| ==> !(EnvPrefix <= Split(content)[i])
    ensures RewriteEnvLines(content, version) == content
  {
    var ls := Split(content);
    assert RewriteLines(ls, version) == ls;
  }

  /** For a version without '\n', pass 1 applied to its own output changes nothing: the
      lines it wrote still begin with `ENV NGINX_VERSION` and are rewritten to themselves. */
  lemma RewriteEnvLinesIdempotent(content: string, version: string)
    requires LiteralTemplate(version)
    requires '\n' !in version
    ensures RewriteEnvLines(RewriteEnvLines(content, version), version) == RewriteEnvLines(content, version)
  {
    var rs := RewriteLines(Split(content), version);
    assert '\n' !in EnvLine(version);
    SplitJoin(rs);
    assert EnvPrefix <= EnvLine(version);
    assert RewriteLines(rs, version) == rs;
  }

  /** Away from a line start, or at one that does not begin with `ENV NGINX_VERSION`, the
      scan copies the rest of the current line. */
  lemma {:induction false} ScanRestOfLine(t: string, repl: string, atLineStart: bool)
    requires atLineStart ==> !(EnvPrefix <= t)
    ensures ScanEnvLines(t, repl, atLineStart)
         == t[..LineEnd(t)] + ScanEnvLines(t[LineEnd(t)..], repl, false)
    decreases |t|
  {
    if |t| == 0 {
      assert t[..0] == [] && t[0..] == t;
    } else if t[0] == '\n' {
      assert t[..0] == [] && t[0..] == t;
      assert ScanEnvLines(t, repl, atLineStart) == [t[0]] + ScanEnvLines(t[1..], repl, true);
    } else {
      var k := LineEnd(t);
      var rest := ScanEnvLines(t[k..], repl, false);
      ScanRestOfLine(t[1..], repl, false);
      CopyFirstLine(t);
      AppendAssoc([t[0]], t[1..][..k - 1], rest);
    }
  }

  /** At a line start the scan emits the rewritten first line, then goes on from its end. */
  lemma ScanFirstLine(s: string, version: string)
    ensures var k := LineEnd(s);
      ScanEnvLines(s, EnvLine(version), true)
      == RewriteLine(s[..k], version) + ScanEnvLines(s[k..], EnvLine(version), false)
  {
    var k := LineEnd(s);
    if EnvPrefix <= s {
      ScanEnvLine(s, version);
    } else if |s| > 0 && s[0] != '\n' {
      ScanRestOfLine(s, EnvLine(version), true);
      OtherLineKept(s, version);
    } else {
      assert s[..k] == [] && s[k..] == s;
    }
  }

  /** A line that begins with `ENV NGINX_VERSION` is replaced whole. */
  lemma ScanEnvLine(s: string, version: string)
    requires EnvPrefix <= s
    ensures var k := LineEnd(s);
      && ScanEnvLines(s, EnvLine(version), true) == EnvLine(version) + ScanEnvLines(s[k..], EnvLine(version), false)
      && RewriteLine(s[..k], version) == EnvLine(version)
  {
    assert '\n' !in EnvPrefix;
    PrefixInFirstLine(EnvPrefix, s);
  }

  /** A line that does not begin with `ENV NGINX_VERSION` is kept by pass 1, and so is its
      first line when the whole text does not begin so. */
  lemma OtherLineKept(s: string, version: string)
    requires !(EnvPrefix <= s)
    ensures RewriteLine(s[..LineEnd(s)], version) == s[..LineEnd(s)]
  {
    var k := LineEnd(s);
    if EnvPrefix <= s[..k] {
      PrefixTrans(EnvPrefix, s[..k], s);
    }
  }

  /** How the first line of `s` sits in `s[1..]` when `s` does not start with '\n'. */
  lemma CopyFirstLine(s: string)
    requires |s| > 0 && s[0] != '\n'
    ensures var k, t := LineEnd(s), s[1..];
      && LineEnd(t) == k - 1
      && [s[0]] + t[..k - 1] == s[..k]
      && t[k - 1..] == s[k..]
  {
    var k := LineEnd(s);
    assert k == 1 + LineEnd(s[1..]);
    SliceCons(s, k);
    SliceTail(s, k);
  }

  /** The `re.sub` scan and the line-by-line rewrite agree on every text. */
  lemma {:induction false} ScanMatchesRewriteEnvLines(content: string, version: string)
    requires LiteralTemplate(version)
    ensures ScanEnvLines(content, EnvLine(version), true) == RewriteEnvLines(content, version)
    decreases |content|
  {
    var k := LineEnd(content);
    var repl := EnvLine(version);
    ScanFirstLine(content, version);
    if k == |content| {
      assert content[..k] == content && content[k..] == [];
    } else {
      var rest := content[k + 1..];
      ScanMatchesRewriteEnvLines(rest, version);
      DropTwice(content, k, 1);
      assert ScanEnvLines(content[k..], repl, false) == "\n" + ScanEnvLines(rest, repl, true);
      var ls := Split(content);
      var first, others := RewriteLine(content[..k], version), RewriteLines(Split(rest), version);
      assert ls == [content[..k]] + Split(rest);
      assert RewriteLines(ls, version) == [first] + others;
      JoinCons(first, others);
      AppendAssoc(first, "\n", Join(others));
    }
  }

  // ---------------------------------------------------------------------------
  // Pass 2: properties
  // ---------------------------------------------------------------------------

  /** Text with no '$' holds no placeholder. */
  lemma {:induction false} NoDollarNoPlaceholder(s: string)
    requires '$' !in s
    ensures !Contains(s, Placeholder)
    decreases |s|
  {
    assert Placeholder[0] == '$';
    if |s| > 0 {
      assert s[0] in s;
      AbsentFromTail('$', s);
      NoDollarNoPlaceholder(s[1..]);
    }
  }

  /** Pass 2 copies the first character when no placeholder starts there. */
  lemma ReplaceCopies(s: string, version: string)
    requires |s| > 0 && !(Placeholder <= s)
    ensures ReplacePlaceholder(s, version) == [s[0]] + ReplacePlaceholder(s[1..], version)
  {
  }

  /** Pass 2 puts the version in place of a placeholder at the start. */
  lemma ReplaceSubstitutes(s: string, version: string)
    requires Placeholder <= s
    ensures ReplacePlaceholder(s, version) == version + ReplacePlaceholder(s[|Placeholder|..], version)
  {
  }

  /** Text before the first '$' passes through pass 2 untouched. */
  lemma {:induction false} ReplaceAfterDollarFree(a: string, t: string, version: string)
    requires '$' !in a
    ensures ReplacePlaceholder(a + t, version) == a + ReplacePlaceholder(t, version)
    decreases |a|
  {
    if |a| > 0 {
      assert (a + t)[0] == a[0] && a[0] in a;
      ReplaceCopies(a + t, version);
      DropConcat(a, t, 1);
      AbsentFromTail('$', a);
      ReplaceAfterDollarFree(a[1..], t, version);
      AppendAssoc([a[0]], a[1..], ReplacePlaceholder(t, version));
      assert [a[0]] + a[1..] == a;
    } else {
      assert a + t == t;
    }
  }

  /** A braced reference `${NGINX_VERSION}` is not the literal `$NGINX_VERSION`: text whose
      only '$' opens such a reference comes back from pass 2 unchanged. */
  lemma BracedReferenceKept(a: string, b: string, version: string)
    requires '$' !in a && '$' !in b
    ensures ReplacePlaceholder(a + "${" + b, version) == a + "${" + b
  {
    var t := "${" + b;
    assert t[1..] == "{" + b;
    NoDollarNoPlaceholder(t[1..]);
    assert t[1] == '{' && Placeholder[1] == 'N';
    assert !(Placeholder <= t);
    assert !Contains(t, Placeholder);
    assert a + "${" + b == a + t;
    ReplaceAfterDollarFree(a, t, version);
  }

  /** No placeholder reaches across a '\n', so pass 2 works line by line. */
  lemma ReplaceAcrossNewline(a: string, b: string, version: string)
    ensures ReplacePlaceholder(a + "\n" + b, version)
         == ReplacePlaceholder(a, version) + "\n" + ReplacePlaceholder(b, version)
  {
    AppendAssoc(a, "\n", b);
    ReplaceBeforeNewline(a, b, version);
    AppendAssoc(ReplacePlaceholder(a, version), "\n", ReplacePlaceholder(b, version));
  }

  lemma {:induction false} ReplaceBeforeNewline(a: string, b: string, version: string)
    ensures ReplacePlaceholder(a + ("\n" + b), version)
         == ReplacePlaceholder(a, version) + ("\n" + ReplacePlaceholder(b, version))
    decreases |a|
  {
    var s := a + ("\n" + b);
    var rb := "\n" + ReplacePlaceholder(b, version);
    if |a| == 0 {
      assert s == "\n" + b;
      assert s[0] != Placeholder[0];
      ReplaceCopies(s, version);
      assert s[1..] == b;
    } else if Placeholder <= s {
      var n := |Placeholder|;
      assert '\n' !in Placeholder;
      PrefixBeforeNewline(Placeholder, a, b);
      ReplaceSubstitutes(s, version);
      ReplaceSubstitutes(a, version);
      DropConcat(a, "\n" + b, n);
      ReplaceBeforeNewline(a[n..], b, version);
      AppendAssoc(version, ReplacePlaceholder(a[n..], version), rb);
    } else {
      if Placeholder <= a {
        PrefixOfConcat(Placeholder, a, "\n" + b);
      }
      ReplaceCopies(s, version);
      ReplaceCopies(a, version);
      DropConcat(a, "\n" + b, 1);
      ReplaceBeforeNewline(a[1..], b, version);
      AppendAssoc([a[0]], ReplacePlaceholder(a[1..], version), rb);
    }
  }

  lemma {:induction false} ReplaceJoin(lines: seq<string>, version: string)
    ensures ReplacePlaceholder(Join(lines), version) == Join(ReplaceLines(lines, version))
    decreases |lines|
  {
    if |lines| > 1 {
      var rest := lines[1..];
      ReplaceAcrossNewline(lines[0], Join(rest), version);
      ReplaceJoin(rest, version);
      assert ReplaceLines(lines, version) == [ReplacePlaceholder(lines[0], version)] + ReplaceLines(rest, version);
      JoinCons(ReplacePlaceholder(lines[0], version), ReplaceLines(rest, version));
    }
  }

  /** When the first character of the version does not occur in `q`, a prefix `q` of
      pass 2's output was already a prefix of its input. */
  lemma {:induction false} PrefixThroughReplace(t: string, q: string, version: string)
    requires |version| > 0 && version[0] !in q
    ensures q <= ReplacePlaceholder(t, version) ==> q <= t
    decreases |t|
  {
    var r := ReplacePlaceholder(t, version);
    if |q| == 0 {
    } else if Placeholder <= t {
      assert r[0] == version[0] && version[0] !in q && q[0] in q;
    } else if |t| > 0 {
      var r' := ReplacePlaceholder(t[1..], version);
      assert r == [t[0]] + r';
      assert forall c :: c in q[1..] ==> c in q;
      PrefixThroughReplace(t[1..], q[1..], version);
      if q <= r {
        assert q[1..] <= r';
        assert q == [t[0]] + q[1..];
      }
    }
  }

  /** `!Contains(r, p)` survives prepending text that cannot start `p`. */
  lemma {:induction false} PrependKeepsAbsent(v: string, r: string, p: string)
    requires |p| > 0 && p[0] !in v
    requires !Contains(r, p)
    ensures !Contains(v + r, p)
    decreases |v|
  {
    if |v| == 0 {
      assert v + r == r;
    } else {
      assert (v + r)[0] == v[0] && v[0] in v;
      assert (v + r)[1..] == v[1..] + r;
      assert forall c :: c in v[1..] ==> c in v;
      PrependKeepsAbsent(v[1..], r, p);
    }
  }

  /** For a version pass 2 cannot splice into a placeholder, no placeholder is left after
      pass 2 — neither an old one nor one formed by splicing the version in. */
  lemma {:induction false} PlaceholderEliminated(s: string, version: string)
    requires SpliceFree(version)
    ensures !Contains(ReplacePlaceholder(s, version), Placeholder)
    decreases |s|
  {
    var r := ReplacePlaceholder(s, version);
    if Placeholder <= s {
      var r' := ReplacePlaceholder(s[|Placeholder|..], version);
      PlaceholderEliminated(s[|Placeholder|..], version);
      assert Placeholder[0] == '$';
      PrependKeepsAbsent(version, r', Placeholder);
    } else if |s| > 0 {
      var r' := ReplacePlaceholder(s[1..], version);
      PlaceholderEliminated(s[1..], version);
      assert forall c :: c in Placeholder[1..] ==> c in Placeholder;
      PrefixThroughReplace(s[1..], Placeholder[1..], version);
      assert r == [s[0]] + r' && r[1..] == r';
    }
  }

  /** For a version for which no placeholder is left, pass 2 applied to its own output
      changes nothing. */
  lemma ReplacePlaceholderIdempotent(s: string, version: string)
    requires SpliceFree(version)
    ensures ReplacePlaceholder(ReplacePlaceholder(s, version), version) == ReplacePlaceholder(s, version)
  {
    PlaceholderEliminated(s, version);
  }

  // ---------------------------------------------------------------------------
  // Both passes: properties
  // ---------------------------------------------------------------------------

  lemma DottedVersionFacts(version: string)
    requires IsDottedVersion(version)
    ensures LiteralTemplate(version) && '\n' !in version && '$' !in version
    ensures SpliceFree(version) && version[0] !in EnvPrefix
  {
  }

  /** The two passes over the whole text apply both substitutions to each line in turn. */
  lemma ProcessLineByLine(content: string, version: string)
    requires LiteralTemplate(version)
    ensures ProcessNginxVersion(content, version) == Join(SedLines(Split(content), version))
  {
    var ls := Split(content);
    ReplaceJoin(RewriteLines(ls, version), version);
    assert ReplaceLines(RewriteLines(ls, version), version) == SedLines(ls, version);
  }

  /** The claim of the method's documentation: for a version sed copies literally, the two
      passes do what the two-expression sed script does. */
  lemma MatchesSedScript(content: string, version: string)
    requires SedLiteral(version)
    ensures ProcessNginxVersion(content, version) == SedScript(content, version)
  {
    ProcessLineByLine(content, version);
  }

  /** For a version without '\n', line i of the output is the sed script applied to line i
      of the input, and there are as many lines as before. */
  lemma OutputLines(content: string, version: string)
    requires LiteralTemplate(version)
    requires '\n' !in version
    ensures Split(ProcessNginxVersion(content, version)) == SedLines(Split(content), version)
    ensures |Split(ProcessNginxVersion(content, version))| == |Split(content)|
  {
    var ls := Split(content);
    var out := SedLines(ls, version);
    ProcessLineByLine(content, version);
    forall i | 0 <= i < |out|
      ensures '\n' !in out[i]
    {
      SedLineNoNewline(ls[i], version);
    }
    SplitJoin(out);
  }

  /** The sed script keeps a line a line when the version holds no '\n'. */
  lemma SedLineNoNewline(line: string, version: string)
    requires '\n' !in line && '\n' !in version
    ensures '\n' !in SedLine(line, version)
  {
    assert '\n' !in EnvLine(version);
    assert '\n' !in RewriteLine(line, version);
  }

  /** For a release number, each output line is `ENV NGINX_VERSION=<version>` where the
      input line began with `ENV NGINX_VERSION`, and the input line with its placeholders
      replaced otherwise. */
  lemma ProcessPerLine(content: string, version: string)
    requires IsDottedVersion(version)
    ensures var before, after := Split(content), Split(ProcessNginxVersion(content, version));
      && |after| == |before|
      && forall i :: 0 <= i < |before| ==>
           && (EnvPrefix <= before[i] ==> after[i] == EnvLine(version))
           && (!(EnvPrefix <= before[i]) ==> after[i] == ReplacePlaceholder(before[i], version))
  {
    DottedVersionFacts(version);
    OutputLines(content, version);
    EnvLineKept(version);
  }

  /** For a release number, pass 2 leaves the line pass 1 writes alone. */
  lemma EnvLineKept(version: string)
    requires IsDottedVersion(version)
    ensures ReplacePlaceholder(EnvLine(version), version) == EnvLine(version)
  {
    DottedVersionFacts(version);
    assert '$' !in EnvPrefix + "=";
    NoDollarNoPlaceholder(EnvLine(version));
  }

  /** For a release number, no `$NGINX_VERSION` is left in the output. */
  lemma ProcessEliminatesPlaceholder(content: string, version: string)
    requires IsDottedVersion(version)
    ensures !Contains(ProcessNginxVersion(content, version), Placeholder)
  {
    DottedVersionFacts(version);
    PlaceholderEliminated(RewriteEnvLines(content, version), version);
  }

  lemma SedLineIdempotent(line: string, version: string)
    requires IsDottedVersion(version)
    ensures SedLine(SedLine(line, version), version) == SedLine(line, version)
  {
    DottedVersionFacts(version);
    if EnvPrefix <= line {
      EnvLineKept(version);
      assert EnvPrefix <= EnvLine(version);
    } else {
      PrefixThroughReplace(line, EnvPrefix, version);
      PlaceholderEliminated(line, version);
    }
  }

  /** For a release number, processing already processed text changes nothing. */
  lemma ProcessIdempotent(content: string, version: string)
    requires IsDottedVersion(version)
    ensures ProcessNginxVersion(ProcessNginxVersion(content, version), version)
         == ProcessNginxVersion(content, version)
  {
    DottedVersionFacts(version);
    var ls := Split(content);
    var once := ProcessNginxVersion(content, version);
    ProcessLineByLine(content, version);
    OutputLines(content, version);
    ProcessLineByLine(once, version);
    forall i | 0 <= i < |ls|
      ensures SedLine(SedLine(ls[i], version), version) == SedLine(ls[i], version)
    {
      SedLineIdempotent(ls[i], version);
    }
    assert SedLines(SedLines(ls, version), version) == SedLines(ls, version);
  }

  // ---------------------------------------------------------------------------
  // One line at a time
  // ---------------------------------------------------------------------------

  lemma RewriteEnvLinesOneLine(line: string, version: string)
    requires LiteralTemplate(version) && '\n' !in line
    ensures RewriteEnvLines(line, version) == RewriteLine(line, version)
  {
    SplitLine(line);
  }

  lemma RewriteEnvLinesCons(head: string, tail: string, version: string)
    requires LiteralTemplate(version) && '\n' !in head
    ensures RewriteEnvLines(head + "\n" + tail, version)
         == RewriteLine(head, version) + "\n" + RewriteEnvLines(tail, version)
  {
    SplitCons(head, tail);
    var rest := RewriteLines(Split(tail), version);
    assert RewriteLines([head] + Split(tail), version) == [RewriteLine(head, version)] + rest;
    JoinCons(RewriteLine(head, version), rest);
  }

  lemma ProcessOneLine(line: string, version: string)
    requires LiteralTemplate(version) && '\n' !in line
    ensures ProcessNginxVersion(line, version) == SedLine(line, version)
  {
    RewriteEnvLinesOneLine(line, version);
  }

  lemma ProcessCons(head: string, tail: string, version: string)
    requires LiteralTemplate(version) && '\n' !in head
    ensures ProcessNginxVersion(head + "\n" + tail, version)
         == SedLine(head, version) + "\n" + ProcessNginxVersion(tail, version)
  {
    RewriteEnvLinesCons(head, tail, version);
    ReplaceAcrossNewline(RewriteLine(head, version), RewriteEnvLines(tail, version), version);
  }

  lemma ReplaceAtPlaceholder(t: string, version: string)
    ensures ReplacePlaceholder(Placeholder + t, version) == version + ReplacePlaceholder(t, version)
  {
    assert (Placeholder + t)[|Placeholder|..] == t;
  }

  // ---------------------------------------------------------------------------
  // Scenarios
  // ---------------------------------------------------------------------------

  /** The empty version is why `IsDottedVersion` asks for a non-empty one: removing the
      placeholder from `$NGINX$NGINX_VERSION_VERSION` (followed by any `rest`) splices a new
      one together. */
  lemma EmptyVersionLeavesPlaceholder(rest: string)
    requires '$' !in rest && '\n' !in rest
    ensures ProcessNginxVersion("$" + ("NGINX" + (Placeholder + ("_VERSION" + rest))), "") == Placeholder + rest
    ensures Contains(ProcessNginxVersion("$" + ("NGINX" + (Placeholder + ("_VERSION" + rest))), ""), Placeholder)
  {
    var tail := "_VERSION" + rest;
    var s := "$" + ("NGINX" + (Placeholder + tail));
    SpliceNoNewline(rest);
    ProcessOneLine(s, "");
    assert s[0] == '$' && EnvPrefix[0] == 'E';
    assert RewriteLine(s, "") == s;
    SpliceRemoved(rest);
    SpliceShape(rest);
    assert Placeholder <= Placeholder + rest;
  }

  /** A one-letter version can complete a placeholder too: with `N`, pass 2 turns
      `$NGINX_VERSIO$NGINX_VERSION` into `$NGINX_VERSION`. */
  lemma LetterVersionLeavesPlaceholder()
    ensures ReplacePlaceholder("$NGINX_VERSIO" + Placeholder, "N") == Placeholder
    ensures Contains(ReplacePlaceholder("$NGINX_VERSIO" + Placeholder, "N"), Placeholder)
  {
    var s := "$NGINX_VERSIO" + Placeholder;
    assert s[13] == '$' && Placeholder[13] == 'N';
    assert !(Placeholder <= s);
    assert s[1..] == "NGINX_VERSIO" + Placeholder;
    ReplaceAfterDollarFree("NGINX_VERSIO", Placeholder, "N");
    ReplaceAtPlaceholder([], "N");
    assert Placeholder + [] == Placeholder;
    assert "$" + ("NGINX_VERSIO" + "N") == Placeholder;
    assert Placeholder <= Placeholder;
  }

  lemma SpliceNoNewline(rest: string)
    requires '\n' !in rest
    ensures '\n' !in "$" + ("NGINX" + (Placeholder + ("_VERSION" + rest)))
  {
  }

  /** Pass 2 with the empty version on the spliced text. */
  lemma SpliceRemoved(rest: string)
    requires '$' !in rest
    ensures ReplacePlaceholder("$" + ("NGINX" + (Placeholder + ("_VERSION" + rest))), "")
         == "$" + ("NGINX" + ("_VERSION" + rest))
  {
    var tail := "_VERSION" + rest;
    var x := Placeholder + tail;
    var u := "NGINX" + x;
    var s := "$" + u;
    SpliceNoMatch(x);
    ReplaceCopies(s, "");
    assert s[1..] == u && [s[0]] == "$";
    ReplaceAfterDollarFree("NGINX", x, "");
    ReplaceAtPlaceholder(tail, "");
    DollarFreeTail(rest);
    NoDollarNoPlaceholder(tail);
    calc {
      ReplacePlaceholder(s, "");
      "$" + ReplacePlaceholder(u, "");
      "$" + ("NGINX" + ReplacePlaceholder(x, ""));
      { assert ReplacePlaceholder(x, "") == "" + ReplacePlaceholder(tail, ""); }
      "$" + ("NGINX" + ("" + tail));
      { assert "" + tail == tail; }
      "$" + ("NGINX" + tail);
    }
  }

  lemma DollarFreeTail(rest: string)
    requires '$' !in rest
    ensures '$' !in "_VERSION" + rest
  {
  }

  /** `$NGINX$...` does not begin with `$NGINX_VERSION`. */
  lemma SpliceNoMatch(x: string)
    requires |x| > 0 && x[0] == '$'
    ensures !(Placeholder <= "$" + ("NGINX" + x))
  {
    var s := "$" + ("NGINX" + x);
    assert s[6] == x[0];
    assert Placeholder[6] == '_';
  }

  lemma SpliceShape(rest: string)
    ensures "$" + ("NGINX" + ("_VERSION" + rest)) == Placeholder + rest
  {
    AppendAssoc("NGINX", "_VERSION", rest);
    AppendAssoc("$", "NGINX" + "_VERSION", rest);
    assert "$" + ("NGINX" + "_VERSION") == Placeholder;
  }

  /** Bumping `ENV NGINX_VERSION=<previous>` to a release number touches that line only:
      a following line that is not an ENV line and holds no '$' is kept. */
  lemma ScenarioVersionBump(previous: string, line: string, version: string)
    requires '\n' !in previous && IsDottedVersion(version)
    requires '\n' !in line && '$' !in line && !(EnvPrefix <= line)
    ensures ProcessNginxVersion(EnvLine(previous) + "\n" + (line + "\n"), version)
         == EnvLine(version) + "\n" + (line + "\n")
  {
    DottedVersionFacts(version);
    var l1 := EnvLine(previous);
    assert '\n' !in l1;
    EnvLineBySed(previous, version);
    ProcessLastLine(line, version);
    ProcessCons(l1, line + "\n", version);
  }

  /** The sed script turns any `ENV NGINX_VERSION=...` line into the new one. */
  lemma EnvLineBySed(previous: string, version: string)
    requires IsDottedVersion(version)
    ensures SedLine(EnvLine(previous), version) == EnvLine(version)
  {
    PrefixOfConcat(EnvPrefix, EnvPrefix, "=" + previous);
    AppendAssoc(EnvPrefix, "=", previous);
    EnvLineKept(version);
  }

  /** A last line that is not an ENV line and holds no '$' comes through unchanged. */
  lemma ProcessLastLine(line: string, version: string)
    requires LiteralTemplate(version)
    requires '\n' !in line && '$' !in line && !(EnvPrefix <= line)
    ensures ProcessNginxVersion(line + "\n", version) == line + "\n"
  {
    ProcessOneLine("", version);
    NoDollarNoPlaceholder(line);
    assert SedLine(line, version) == line;
    ProcessCons(line, "", version);
    assert line + "\n" + "" == line + "\n";
  }

  /** `ENV NGINX_VERSION=1.20\nRUN x\n` with version 1.22 becomes `ENV NGINX_VERSION=1.22\nRUN x\n`. */
  lemma ScenarioVersionBumpExample()
    ensures ProcessNginxVersion(EnvLine("1.20") + "\n" + ("RUN x" + "\n"), "1.22")
         == EnvLine("1.22") + "\n" + ("RUN x" + "\n")
  {
    assert !(EnvPrefix <= "RUN x");
    ScenarioVersionBump("1.20", "RUN x", "1.22");
  }

  /** Both the `ENV NGINX_VERSION 1.20` form and a longer name such as `NGINX_VERSION_FOO`
      begin with `ENV NGINX_VERSION`, so pass 1 rewrites both lines, not only the first. */
  lemma ScenarioEveryMatchingLine(a: string, b: string, version: string)
    requires '\n' !in a && '\n' !in b && LiteralTemplate(version)
    ensures RewriteEnvLines(EnvPrefix + a + "\n" + (EnvPrefix + b), version)
         == EnvLine(version) + "\n" + EnvLine(version)
  {
    var l1, l2 := EnvPrefix + a, EnvPrefix + b;
    assert '\n' !in l1 && '\n' !in l2;
    assert EnvPrefix <= l1 && EnvPrefix <= l2;
    RewriteEnvLinesCons(l1, l2, version);
    RewriteEnvLinesOneLine(l2, version);
  }

  /** The pattern is anchored at the line start: an indented ENV line is not rewritten. */
  lemma ScenarioIndentedLineKept(indent: string, rest: string, version: string)
    requires |indent| > 0 && indent[0] == ' ' && '\n' !in indent + rest && LiteralTemplate(version)
    ensures RewriteEnvLines(indent + EnvPrefix + rest, version) == indent + EnvPrefix + rest
  {
    var l := indent + EnvPrefix + rest;
    assert l[0] == ' ' && EnvPrefix[0] == 'E';
    assert '\n' !in l;
    RewriteEnvLinesOneLine(l, version);
  }
}
