/**
 The basic syntax check `DockerfileProcessor.validate_dockerfile_syntax`: a
 Dockerfile passes when some line starts with `FROM` and every line that is
 neither blank nor a `#` comment has a first word that, upper-cased, is a known
 instruction.
 */
module DockerfileSyntax {
  import opened Text

  /** The instruction names the check knows, in the order the source lists them. The
      check only asks whether a word is one of them (`IsInstruction`), so the names are
      kept as a list. */
  const Instructions: seq<string> := [
    "FROM", "RUN", "CMD", "LABEL", "EXPOSE", "ENV", "ADD", "COPY",
    "ENTRYPOINT", "VOLUME", "USER", "WORKDIR", "ARG", "ONBUILD",
    "STOPSIGNAL", "HEALTHCHECK", "SHELL"
  ]

  /** `w` is a known instruction name. */
  predicate IsInstruction(w: string) {
    exists j :: 0 <= j < |Instructions| && Instructions[j] == w
  }

  /** The lines the check walks: the content with surrounding whitespace stripped, cut at
      every newline. */
  function Lines(content: string): seq<string> {
    Split(Strip(content))
  }

  /** The test of the first rule: the stripped, upper-cased line begins with `FROM`. */
  predicate MentionsFrom(line: string) {
    "FROM" <= Upper(Strip(line))
  }

  /** The instruction word of a line: the first whitespace-separated word of the stripped
      line, upper-cased; empty for a blank line. */
  function Instruction(line: string): string {
    Upper(FirstToken(Strip(line)))
  }

  /** Blank lines and lines whose first non-blank character is `#` are skipped. */
  predicate Skipped(line: string) {
    var l := Strip(line);
    |l| == 0 || l[0] == '#'
  }

  predicate LineOk(line: string) {
    Skipped(line) || IsInstruction(Instruction(line))
  }

  /** The two rules over the lines: some line starts with `FROM`, and every line is
      blank, a comment or a known instruction. */
  predicate ValidLines(lines: seq<string>) {
    HasFrom(lines) && AllLinesPass(lines)
  }

  /** The first rule: some line starts with `FROM`. */
  predicate HasFrom(lines: seq<string>) {
    exists i :: 0 <= i < |lines| && MentionsFrom(lines[i])
  }

  /** The second rule: every line is blank, a comment or a known instruction. */
  predicate AllLinesPass(lines: seq<string>) {
    Every(lines, LineOk)
  }

  /** `p` holds of every element of `s`. */
  predicate Every(s: seq<string>, p: string -> bool) {
    forall i :: 0 <= i < |s| ==> p(s[i])
  }

  lemma EveryExtend(s: seq<string>, i: nat, p: string -> bool)
    requires i < |s| && Every(s[..i], p) && p(s[i])
    ensures Every(s[..i + 1], p)
  {
    var prefix := s[..i + 1];
    forall j | 0 <= j < |prefix|
      ensures p(prefix[j])
    {
      if j < i {
        assert prefix[j] == s[..i][j];
      }
    }
  }

  lemma EveryAt(s: seq<string>, i: nat, p: string -> bool)
    requires i < |s| && !p(s[i])
    ensures !Every(s, p)
  {
  }

  /** What `validate_dockerfile_syntax` accepts. */
  predicate ValidSyntax(content: string) {
    ValidLines(Lines(content))
  }

  /** The check as the source runs it: first the `FROM` search, then the pass over the
      instructions. */
  method ValidateDockerfileSyntax(content: string) returns (ok: bool)
    ensures ok <==> ValidSyntax(content)
  {
    var lines := Lines(content);
    var hasFrom := AnyLineMentionsFrom(lines);
    if !hasFrom {
      return false;
    }
    ok := AllLinesOk(lines);
  }

  /** The first rule as the source runs it: a search that stops at the first line
      beginning with `FROM`. */
  method AnyLineMentionsFrom(lines: seq<string>) returns (hasFrom: bool)
    ensures hasFrom <==> exists j :: 0 <= j < |lines| && MentionsFrom(lines[j])
  {
    hasFrom := FindAny(lines, MentionsFrom);
  }

  /** Walks `s` and stops at the first element satisfying `p`, as a generator fed to
      `any` does. */
  method FindAny(s: seq<string>, p: string -> bool) returns (found: bool)
    ensures found <==> exists j :: 0 <= j < |s| && p(s[j])
  {
    found := false;
    var i := 0;
    while i < |s| && !found
      invariant 0 <= i <= |s|
      invariant found <==> exists j :: 0 <= j < i && p(s[j])
    {
      found := p(s[i]);
      i := i + 1;
    }
  }

  /** The loop over the lines, returning false at the first line that `CheckLine`
      rejects. */
  method AllLinesOk(lines: seq<string>) returns (ok: bool)
    ensures ok <==> AllLinesPass(lines)
  {
    var i := 0;
    while i < |lines|
      invariant 0 <= i <= |lines|
      invariant Every(lines[..i], LineOk)
    {
      var lineOk := CheckLine(lines[i]);
      if !lineOk {
        EveryAt(lines, i, LineOk);
        return false;
      }
      EveryExtend(lines, i, LineOk);
      i := i + 1;
    }
    assert lines[..i] == lines;
    return true;
  }

  /** `u` begins with the word `w`: `w` is a prefix, followed by whitespace or the end. */
  predicate StartsWithWord(u: string, w: string) {
    w <= u && (|u| == |w| || IsSpace(u[|w|]))
  }

  /** The stripped, upper-cased line begins with a known instruction name as a whole word. */
  ghost predicate KnownWordAtStart(raw: string) {
    exists w :: IsInstruction(w) && StartsWithWord(Upper(Strip(raw)), w)
  }

  /** One pass of the loop body: strip the line, skip it when blank or a comment, and
      otherwise look its first word up, upper-cased, among the instructions. A line that
      is not skipped passes exactly when its stripped, upper-cased text is an instruction
      name, alone or followed by whitespace. */
  method CheckLine(raw: string) returns (ok: bool)
    ensures ok <==> LineOk(raw)
    ensures !Skipped(raw) ==> (ok <==> KnownWordAtStart(raw))
  {
    var line := Strip(raw);
    if |line| == 0 || line[0] == '#' {
      return true;
    }
    var instruction := Upper(FirstToken(line));
    ok := IsInstruction(instruction);
    InstructionLookup(raw);
  }

  /** Every instruction name is made of capital letters. */
  lemma InstructionsAreCapitals(w: string)
    requires IsInstruction(w)
    ensures forall i :: 0 <= i < |w| ==> 'A' <= w[i] <= 'Z'
  {
    var j :| 0 <= j < |Instructions| && Instructions[j] == w;
  }

  /** No instruction name holds whitespace. */
  lemma InstructionsHaveNoSpace(w: string)
    requires IsInstruction(w)
    ensures forall i :: 0 <= i < |w| ==> !IsSpace(w[i])
  {
    InstructionsAreCapitals(w);
  }

  /** The instruction of a line is known exactly when the stripped, upper-cased line
      begins with a known instruction name as a whole word. */
  lemma InstructionLookup(raw: string)
    ensures IsInstruction(Instruction(raw)) <==> KnownWordAtStart(raw)
  {
    var u := Upper(Strip(raw));
    FirstTokenUpper(Strip(raw));
    if IsInstruction(Instruction(raw)) {
      TokenStartsWord(u);
    }
    if w :| IsInstruction(w) && StartsWithWord(u, w) {
      InstructionsHaveNoSpace(w);
      WordIsToken(u, w);
    }
  }

  lemma TokenStartsWord(u: string)
    ensures StartsWithWord(u, FirstToken(u))
  {
  }

  /** A whitespace-free word that `u` begins with is the first word of `u`. */
  lemma WordIsToken(u: string, w: string)
    requires forall i :: 0 <= i < |w| ==> !IsSpace(w[i])
    requires StartsWithWord(u, w)
    ensures FirstToken(u) == w
  {
    FirstTokenOf(u, |w|);
    assert u[..|w|] == w;
  }

  // ---------------------------------------------------------------------------
  // Properties
  // ---------------------------------------------------------------------------

  /** A line that is not blank after stripping always has a first word, so the
      instruction lookup never fails. */
  lemma StrippedLineHasInstruction(line: string)
    requires |Strip(line)| > 0
    ensures |FirstToken(Strip(line))| > 0
    ensures |Instruction(line)| > 0
  {
    var t := TrimStart(line);
    assert Strip(line)[0] == t[0];
  }

  /** `FROM` is the only known instruction that begins with `F`. */
  lemma OnlyFromStartsWithF(word: string)
    requires IsInstruction(word) && |word| > 0 && word[0] == 'F'
    ensures word == "FROM"
  {
    var j :| 0 <= j < |Instructions| && Instructions[j] == word;
  }

  /** Only `FROM` among the known instructions begins with `FROM`. */
  lemma OnlyFromStartsWithFrom(word: string)
    requires IsInstruction(word) && "FROM" <= word
    ensures word == "FROM"
  {
    assert word[0] == 'F';
    OnlyFromStartsWithF(word);
  }

  /** The upper-cased first word of `l` is a prefix of the upper-cased `l`. */
  lemma UpperTokenPrefix(l: string)
    ensures Upper(FirstToken(l)) <= Upper(l)
  {
    UpperTake(l, |FirstToken(l)|);
  }

  /** When the upper-cased `l` starts with `FROM`, so does its upper-cased first word:
      none of those four letters is whitespace. */
  lemma FromPrefixInToken(l: string)
    requires "FROM" <= Upper(l)
    ensures "FROM" <= Upper(FirstToken(l))
  {
    var tok := FirstToken(l);
    forall k | 0 <= k < 4
      ensures !IsSpace(l[k])
    {
      assert UpperChar(l[k]) == "FROM"[k];
    }
    assert |tok| >= 4;
    UpperTokenPrefix(l);
  }

  /** On a line the second rule accepts, starting with `FROM` and having the instruction
      `FROM` are the same thing (a line such as `FROMAGE x` passes the first test only). */
  lemma MentionsFromIffFromInstruction(line: string)
    requires LineOk(line)
    ensures MentionsFrom(line) <==> Instruction(line) == "FROM"
  {
    if MentionsFrom(line) {
      FromLineHasFromInstruction(line);
    }
    if Instruction(line) == "FROM" {
      FromInstructionMentionsFrom(line);
    }
  }

  /** A line starting with `FROM` is neither blank nor a comment. */
  lemma FromLineNotSkipped(line: string)
    requires MentionsFrom(line)
    ensures !Skipped(line)
  {
    assert Upper(Strip(line))[0] == 'F';
  }

  lemma FromLineHasFromInstruction(line: string)
    requires LineOk(line) && MentionsFrom(line)
    ensures Instruction(line) == "FROM"
  {
    FromPrefixInToken(Strip(line));
    FromLineNotSkipped(line);
    OnlyFromStartsWithFrom(Instruction(line));
  }

  lemma FromInstructionMentionsFrom(line: string)
    requires Instruction(line) == "FROM"
    ensures MentionsFrom(line)
  {
    UpperTokenPrefix(Strip(line));
  }

  /** The check accepts exactly when every line is blank, a comment or a known
      instruction, and at least one line's instruction is `FROM`. */
  lemma ValidIffFromInstruction(content: string)
    ensures var lines := Lines(content);
      ValidSyntax(content) <==>
        && (forall i :: 0 <= i < |lines| ==> LineOk(lines[i]))
        && (exists i :: 0 <= i < |lines| && Instruction(lines[i]) == "FROM")
  {
    var lines := Lines(content);
    if forall i :: 0 <= i < |lines| ==> LineOk(lines[i]) {
      HasFromIffFromInstruction(lines);
    }
  }

  /** When every line passes the second rule, some line starts with `FROM` exactly when
      some line's instruction is `FROM`. */
  lemma HasFromIffFromInstruction(lines: seq<string>)
    requires forall i :: 0 <= i < |lines| ==> LineOk(lines[i])
    ensures HasFrom(lines) <==> exists i :: 0 <= i < |lines| && Instruction(lines[i]) == "FROM"
  {
    if HasFrom(lines) {
      var i :| 0 <= i < |lines| && MentionsFrom(lines[i]);
      MentionsFromIffFromInstruction(lines[i]);
    }
    if i :| 0 <= i < |lines| && Instruction(lines[i]) == "FROM" {
      MentionsFromIffFromInstruction(lines[i]);
    }
  }

  /** A document with no line starting with `FROM` is rejected, whatever else it holds. */
  lemma NoFromRejected(content: string)
    requires forall i :: 0 <= i < |Lines(content)| ==> !("FROM" <= Upper(Strip(Lines(content)[i])))
    ensures !ValidSyntax(content)
  {
  }

  /** Upper-casing one line changes neither of its two tests. */
  lemma UpperLine(line: string)
    ensures MentionsFrom(Upper(line)) <==> MentionsFrom(line)
    ensures LineOk(Upper(line)) <==> LineOk(line)
  {
    UpperLineFrom(line);
    UpperLineOk(line);
  }

  lemma UpperLineFrom(line: string)
    ensures MentionsFrom(Upper(line)) <==> MentionsFrom(line)
  {
    StripUpper(line);
    UpperIdempotent(Strip(line));
  }

  lemma UpperLineOk(line: string)
    ensures LineOk(Upper(line)) <==> LineOk(line)
  {
    var l := Strip(line);
    StripUpper(line);
    FirstTokenUpper(l);
    UpperIdempotent(FirstToken(l));
    assert |l| > 0 ==> (Upper(l)[0] == '#' <==> l[0] == '#');
  }

  /** Upper-casing the whole document does not change the verdict. */
  lemma UpperInvariant(content: string)
    ensures ValidSyntax(Upper(content)) <==> ValidSyntax(content)
  {
    UpperLinesOf(content);
    UpperHasFrom(Lines(content));
    UpperAllLinesPass(Lines(content));
  }

  /** The lines of the upper-cased document are the upper-cased lines. */
  lemma UpperLinesOf(content: string)
    ensures Lines(Upper(content)) == UpperLines(Lines(content))
  {
    StripUpper(content);
    SplitUpper(Strip(content));
  }

  lemma UpperHasFrom(lines: seq<string>)
    ensures HasFrom(UpperLines(lines)) <==> HasFrom(lines)
  {
    var upper := UpperLines(lines);
    forall i | 0 <= i < |lines|
      ensures MentionsFrom(upper[i]) <==> MentionsFrom(lines[i])
    {
      UpperLine(lines[i]);
    }
  }

  lemma UpperAllLinesPass(lines: seq<string>)
    ensures AllLinesPass(UpperLines(lines)) <==> AllLinesPass(lines)
  {
    var upper := UpperLines(lines);
    forall i | 0 <= i < |lines|
      ensures LineOk(upper[i]) <==> LineOk(lines[i])
    {
      UpperLine(lines[i]);
    }
  }

  /** Documents that differ only in the case of letters get the same verdict. */
  lemma CaseInsensitive(a: string, b: string)
    requires Upper(a) == Upper(b)
    ensures ValidSyntax(a) <==> ValidSyntax(b)
  {
    UpperInvariant(a);
    UpperInvariant(b);
  }

  // ---------------------------------------------------------------------------
  // Scenarios
  // ---------------------------------------------------------------------------

  lemma FromInTwoLines(first: string, second: string)
    requires MentionsFrom(first)
    ensures HasFrom([first, second])
  {
    assert [first, second][0] == first;
  }

  lemma TwoLinesPass(first: string, second: string)
    requires LineOk(first) && LineOk(second)
    ensures AllLinesPass([first, second])
  {
    var lines := [first, second];
    forall i | 0 <= i < |lines|
      ensures LineOk(lines[i])
    {
      assert lines[i] == first || lines[i] == second;
    }
  }

  /** Two lines pass when the first starts with `FROM` and both pass the second rule. */
  lemma AcceptTwoLines(first: string, second: string)
    requires MentionsFrom(first) && LineOk(first) && LineOk(second)
    ensures ValidLines([first, second])
  {
    FromInTwoLines(first, second);
    TwoLinesPass(first, second);
  }

  /** Two lines fail when either fails the second rule. */
  lemma RejectTwoLines(first: string, second: string)
    requires !LineOk(first) || !LineOk(second)
    ensures !ValidLines([first, second])
  {
    var lines := [first, second];
    assert lines[0] == first && lines[1] == second;
    assert !AllLinesPass(lines);
  }

  lemma NoFromInTwoLines(first: string, second: string)
    requires !MentionsFrom(first) && !MentionsFrom(second)
    ensures !HasFrom([first, second])
  {
    var lines := [first, second];
    forall i | 0 <= i < |lines|
      ensures !MentionsFrom(lines[i])
    {
      assert lines[i] == first || lines[i] == second;
    }
  }

  /** Two lines fail when neither starts with `FROM`. */
  lemma RejectTwoLinesNoFrom(first: string, second: string)
    requires !MentionsFrom(first) && !MentionsFrom(second)
    ensures !ValidLines([first, second])
  {
    NoFromInTwoLines(first, second);
  }

  /** A single line fails when it fails the second rule. */
  lemma RejectOneLine(line: string)
    requires !LineOk(line)
    ensures !ValidLines([line])
  {
    assert [line][0] == line;
    assert !AllLinesPass([line]);
  }

  /** Stripping a two-line document that starts and ends without whitespace leaves it
      as it is, apart from one final newline. */
  lemma StripTwoLines(content: string, first: string, second: string)
    requires |first| > 0 && !IsSpace(first[0])
    requires |second| > 0 && !IsSpace(second[|second| - 1])
    requires content == first + "\n" + second || content == first + "\n" + second + "\n"
    ensures Strip(content) == first + "\n" + second
  {
    var c := first + "\n" + second;
    assert c[0] == first[0] && c[|c| - 1] == second[|second| - 1];
    if content == c {
      StripOf(c, 0, |c|);
      assert c[0..|c|] == c;
    } else {
      StripOf(content, 0, |c|);
      assert content[0..|c|] == c;
    }
  }

  /** The lines of a two-line document whose text starts and ends without whitespace,
      with or without a final newline. */
  lemma TwoLines(content: string, first: string, second: string)
    requires '\n' !in first && '\n' !in second
    requires |first| > 0 && !IsSpace(first[0])
    requires |second| > 0 && !IsSpace(second[|second| - 1])
    requires content == first + "\n" + second || content == first + "\n" + second + "\n"
    ensures Lines(content) == [first, second]
  {
    StripTwoLines(content, first, second);
    SplitCons(first, second);
    SplitLine(second);
  }

  /** A one-line document. */
  lemma OneLine(line: string)
    requires '\n' !in line
    requires |line| > 0 && !IsSpace(line[0]) && !IsSpace(line[|line| - 1])
    ensures Lines(line) == [line]
    ensures Strip(line) == line
  {
    StripOf(line, 0, |line|);
    assert line[0..|line|] == line;
    SplitLine(line);
  }

  /** A line made of a word, a space and a rest that ends in a non-space: stripping
      leaves it as it is, and its instruction is the upper-cased word. */
  lemma WordLine(word: string, rest: string)
    requires |word| > 0 && forall i :: 0 <= i < |word| ==> !IsSpace(word[i])
    requires |rest| > 0 && !IsSpace(rest[|rest| - 1])
    ensures Strip(word + " " + rest) == word + " " + rest
    ensures Instruction(word + " " + rest) == Upper(word)
  {
    WordLineStrip(word, rest);
    WordLineToken(word, rest);
  }

  lemma WordLineStrip(word: string, rest: string)
    requires |word| > 0 && !IsSpace(word[0])
    requires |rest| > 0 && !IsSpace(rest[|rest| - 1])
    ensures Strip(word + " " + rest) == word + " " + rest
  {
    var line := word + " " + rest;
    assert line[|line| - 1] == rest[|rest| - 1];
    StripOf(line, 0, |line|);
    assert line[0..|line|] == line;
  }

  lemma WordLineToken(word: string, rest: string)
    requires |word| > 0 && forall i :: 0 <= i < |word| ==> !IsSpace(word[i])
    ensures FirstToken(word + " " + rest) == word
  {
    var line := word + " " + rest;
    assert line[|word|] == ' ';
    assert forall i :: 0 <= i < |word| ==> line[i] == word[i];
    FirstTokenOf(line, |word|);
    assert line[..|word|] == word;
  }

  /** A line that is neither blank nor a comment and whose instruction is unknown fails
      the second rule. */
  lemma UnknownInstruction(line: string)
    requires Strip(line) == line && |line| > 0 && line[0] != '#'
    requires !IsInstruction(Instruction(line))
    ensures !LineOk(line)
  {
  }

  /** A line that is neither blank nor a comment and whose instruction is known passes
      the second rule. */
  lemma KnownInstruction(line: string)
    requires Strip(line) == line && |line| > 0 && line[0] != '#'
    requires IsInstruction(Instruction(line))
    ensures LineOk(line)
  {
  }

  /** `FROM` and `RUN` are known instructions. */
  lemma KnownNames()
    ensures IsInstruction("FROM") && IsInstruction("RUN")
  {
    assert Instructions[0] == "FROM" && Instructions[1] == "RUN";
  }

  /** `FOOBAR` and `FROMAGE` are not. */
  lemma UnknownNames()
    ensures !IsInstruction("FOOBAR") && !IsInstruction("FROMAGE")
  {
  }

  /** A comment line neither starts with `FROM` nor fails the second rule. */
  lemma CommentLine(line: string)
    requires |line| > 0 && line[0] == '#'
    ensures !MentionsFrom(line) && Skipped(line)
  {
    assert TrimStart(line) == line;
    assert Strip(line)[0] == '#';
    assert Upper(Strip(line))[0] == '#';
  }

  lemma FromLine(image: string)
    requires |image| > 0 && !IsSpace(image[|image| - 1])
    ensures MentionsFrom("FROM " + image) && LineOk("FROM " + image)
  {
    assert "FROM " + image == "FROM" + " " + image;
    WordLine("FROM", image);
    assert Upper("FROM") == "FROM";
    KnownNames();
    FromInstructionMentionsFrom("FROM " + image);
    KnownInstruction("FROM " + image);
  }

  lemma RunLine(command: string)
    requires |command| > 0 && !IsSpace(command[|command| - 1])
    ensures LineOk("RUN " + command) && !MentionsFrom("RUN " + command)
  {
    var line := "RUN " + command;
    assert line == "RUN" + " " + command;
    WordLine("RUN", command);
    assert Upper("RUN") == "RUN";
    KnownNames();
    KnownInstruction(line);
    assert Upper(Strip(line))[0] == 'R';
  }

  /** A word that is not an instruction, a space and a rest that ends in a non-space make
      a line that fails the second rule. */
  lemma UnknownWordLine(word: string, rest: string)
    requires |word| > 0 && word[0] != '#' && forall i :: 0 <= i < |word| ==> !IsSpace(word[i])
    requires !IsInstruction(Upper(word))
    requires |rest| > 0 && !IsSpace(rest[|rest| - 1])
    ensures !LineOk(word + " " + rest)
  {
    var line := word + " " + rest;
    WordLine(word, rest);
    assert line[0] == word[0];
    UnknownInstruction(line);
  }

  lemma UnknownLine(args: string)
    requires |args| > 0 && !IsSpace(args[|args| - 1])
    ensures !LineOk("FOOBAR " + args)
  {
    assert "FOOBAR" + " " == "FOOBAR ";
    assert Upper("FOOBAR") == "FOOBAR";
    UnknownNames();
    UnknownWordLine("FOOBAR", args);
  }

  /** `FROMAGE <args>` starts with `FROM` once stripped and upper-cased, yet fails the
      second rule. */
  lemma FromPrefixLine(args: string)
    requires |args| > 0 && !IsSpace(args[|args| - 1])
    ensures MentionsFrom("FROMAGE " + args) && !LineOk("FROMAGE " + args)
  {
    assert "FROMAGE" + " " == "FROMAGE ";
    assert Upper("FROMAGE") == "FROMAGE";
    UnknownNames();
    UnknownWordLine("FROMAGE", args);
    FromWordLine("FROMAGE", args);
  }

  /** A line whose first word begins with `FROM` starts with `FROM`. */
  lemma FromWordLine(word: string, rest: string)
    requires |word| > 0 && forall i :: 0 <= i < |word| ==> !IsSpace(word[i])
    requires "FROM" <= word
    requires |rest| > 0 && !IsSpace(rest[|rest| - 1])
    ensures MentionsFrom(word + " " + rest)
  {
    var line := word + " " + rest;
    WordLine(word, rest);
    assert line[..4] == word[..4];
    StrippedFromMention(line);
  }

  lemma StrippedFromMention(line: string)
    requires Strip(line) == line && |line| >= 4 && line[..4] == "FROM"
    ensures MentionsFrom(line)
  {
    UpperTake(line, 4);
    assert Upper("FROM") == "FROM";
  }

  lemma MinimalLines(image: string, command: string)
    requires |image| > 0 && '\n' !in image
    requires |command| > 0 && '\n' !in command && !IsSpace(command[|command| - 1])
    ensures Lines("FROM " + image + "\nRUN " + command + "\n") == ["FROM " + image, "RUN " + command]
  {
    var first, second := "FROM " + image, "RUN " + command;
    assert "FROM " + image + "\nRUN " + command + "\n" == first + "\n" + second + "\n";
    assert second[|second| - 1] == command[|command| - 1];
    TwoLines("FROM " + image + "\nRUN " + command + "\n", first, second);
  }

  /** A base image and one command pass. */
  lemma ScenarioMinimalAccepted(image: string, command: string)
    requires |image| > 0 && '\n' !in image && !IsSpace(image[|image| - 1])
    requires |command| > 0 && '\n' !in command && !IsSpace(command[|command| - 1])
    ensures ValidSyntax("FROM " + image + "\nRUN " + command + "\n")
  {
    MinimalLines(image, command);
    FromLine(image);
    RunLine(command);
    AcceptTwoLines("FROM " + image, "RUN " + command);
  }

  lemma UpperConcat(a: string, b: string)
    ensures Upper(a + b) == Upper(a) + Upper(b)
  {
  }

  lemma LowerCaseUpper(image: string, command: string)
    ensures Upper("from " + image + "\nrun " + command + "\n")
         == Upper("FROM " + image + "\nRUN " + command + "\n")
  {
    UpperConcat("from " + image + "\nrun " + command, "\n");
    UpperConcat("FROM " + image + "\nRUN " + command, "\n");
    UpperConcat("from " + image + "\nrun ", command);
    UpperConcat("FROM " + image + "\nRUN ", command);
    UpperConcat("from " + image, "\nrun ");
    UpperConcat("FROM " + image, "\nRUN ");
    UpperConcat("from ", image);
    UpperConcat("FROM ", image);
    assert Upper("from ") == Upper("FROM ");
    assert Upper("\nrun ") == Upper("\nRUN ");
  }

  /** The same document in lower case passes too. */
  lemma ScenarioLowerCaseAccepted(image: string, command: string)
    requires |image| > 0 && '\n' !in image && !IsSpace(image[|image| - 1])
    requires |command| > 0 && '\n' !in command && !IsSpace(command[|command| - 1])
    ensures ValidSyntax("from " + image + "\nrun " + command + "\n")
  {
    ScenarioMinimalAccepted(image, command);
    LowerCaseUpper(image, command);
    CaseInsensitive("from " + image + "\nrun " + command + "\n", "FROM " + image + "\nRUN " + command + "\n");
  }

  /** The lines of `<p><a>\n<q><b>` for newline-free pieces, when the text starts and
      ends without whitespace. */
  lemma PrefixedTwoLines(p: string, a: string, q: string, b: string)
    requires '\n' !in p && '\n' !in a && '\n' !in q && '\n' !in b
    requires |p| > 0 && !IsSpace(p[0])
    requires |b| > 0 && !IsSpace(b[|b| - 1])
    ensures Lines(p + a + ("\n" + q) + b) == [p + a, q + b]
  {
    var first, second := p + a, q + b;
    AppendAssoc(first, "\n", q);
    AppendAssoc(first + "\n", q, b);
    assert first[0] == p[0] && second[|second| - 1] == b[|b| - 1];
    TwoLines(p + a + "\n" + q + b, first, second);
  }

  /** An unknown instruction fails the second rule even after a `FROM` line. */
  lemma ScenarioUnknownInstructionRejected(image: string, args: string)
    requires |image| > 0 && '\n' !in image
    requires |args| > 0 && '\n' !in args && !IsSpace(args[|args| - 1])
    ensures !ValidSyntax("FROM " + image + "\nFOOBAR " + args)
  {
    assert "\n" + "FOOBAR " == "\nFOOBAR ";
    PrefixedTwoLines("FROM ", image, "FOOBAR ", args);
    UnknownLine(args);
    RejectTwoLines("FROM " + image, "FOOBAR " + args);
  }

  /** A `FROM` that is only mentioned in a comment does not count. */
  lemma ScenarioCommentedFromRejected(image: string, command: string)
    requires |image| > 0 && '\n' !in image
    requires |command| > 0 && '\n' !in command && !IsSpace(command[|command| - 1])
    ensures !ValidSyntax("# FROM " + image + "\nRUN " + command)
  {
    assert "\n" + "RUN " == "\nRUN ";
    PrefixedTwoLines("# FROM ", image, "RUN ", command);
    CommentLine("# FROM " + image);
    RunLine(command);
    RejectTwoLinesNoFrom("# FROM " + image, "RUN " + command);
  }

  /** A line such as `FROMAGE x` starts with `FROM` but is no instruction, so the document
      fails the second rule. */
  lemma ScenarioFromPrefixRejected(args: string)
    requires |args| > 0 && '\n' !in args && !IsSpace(args[|args| - 1])
    ensures !ValidSyntax("FROMAGE " + args)
  {
    var line := "FROMAGE " + args;
    assert line[|line| - 1] == args[|args| - 1];
    OneLine(line);
    FromPrefixLine(args);
    RejectOneLine(line);
  }
}
