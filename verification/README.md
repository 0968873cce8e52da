# Dockerfile processor of the nginx container test suite, in Dafny

The test suite of the nginx container image carries a small Python helper,
`DockerfileProcessor`, that stands in for two `sed` expressions and checks a Dockerfile's
basic shape. This project models its two pure operations on text and proves what they
do.

- **`process_nginx_version`** runs two passes over the Dockerfile text:
  - Pass 1 is `re.sub` with `re.MULTILINE`. It rewrites every line that begins with
    `ENV NGINX_VERSION` to `ENV NGINX_VERSION=<version>`.
  - Pass 2 is `str.replace`. It puts the version in place of every literal
    `$NGINX_VERSION`.

  Module `NginxVersion` models both passes:
  - Pass 1 appears twice: as the position-by-position scan that `re.sub` performs
    (`ScanEnvLines`) and as a line-by-line rewrite (`RewriteEnvLines`). A lemma proves
    the two equal.
  - Pass 2 is `ReplacePlaceholder`, a left-to-right, non-overlapping replacement.
  - The two passes together are `ProcessNginxVersion`. They are proved to work line by
    line (`ProcessLineByLine`).
  - The sed script named in the method's docstring is modelled per line (`SedScript`).
    The whole operation is proved to agree with it for a version sed copies literally.
  - Also proved: for a version without a newline, the line count is kept. Pass 1
    leaves every line that does not begin with `ENV NGINX_VERSION` untouched; pass 2
    then replaces the placeholders in it. For a
    release-number version, no placeholder is left, and each pass, like the whole
    operation, is idempotent. Pass 1 alone is idempotent for any version without a
    newline. Pass 2 alone is idempotent for any non-empty version without `$` whose
    first character does not occur in `$NGINX_VERSION`.
- **`validate_dockerfile_syntax`** accepts a text when two rules hold:
  - some line, stripped and upper-cased, starts with `FROM`;
  - every line that is not blank or a `#` comment has a first word that, upper-cased, is
    one of seventeen known instructions.

  The source keeps the seventeen names in a set and only tests membership. The model
  keeps them as a list (`Instructions`) and reads membership as "equal to some entry"
  (`IsInstruction`), which is the same test.

  Module `DockerfileSyntax` states the verdict as a predicate (`ValidSyntax`). It
  models the method as the source runs it (`ValidateDockerfileSyntax`: the `any` scan,
  then the loop) and proves the method returns exactly that predicate. Further lemmas
  prove:
  - Under the second rule, "starts with `FROM`" means "the instruction is `FROM`".
  - The verdict ignores letter case.
  - Concrete documents are accepted or rejected as expected.
- Module `Text` holds the Python `str` behaviour both rely on:
  - `isspace` by CPython's table;
  - ASCII `upper`;
  - `strip`;
  - `split('\n')` and `'\n'.join`;
  - the first word of `split()`;
  - substring containment.

Strings are `seq<char>`. The version is a parameter. Reading and writing files is not
modelled.

Two facts about the code are worth knowing:
- Every line that begins with `ENV NGINX_VERSION` is rewritten, not only the first.
- No placeholder is left after pass 2 is guaranteed for a non-empty version without `$`
  whose first character does not occur in `$NGINX_VERSION`, such as a release number.
  Some versions do leave one: `EmptyVersionLeavesPlaceholder` shows a text where the
  empty version does, and `LetterVersionLeavesPlaceholder` one where the version `N`
  does.

## Model

| member | source | states |
|---|---|---|
| `Text.IsSpace` | test/dockerfile_processor.py:106 | definition: the characters `str.isspace` accepts, by CPython's table; `TrimStart`, `TrimEnd`, `StripOf` and `FirstTokenOf` state what stripping and splitting on it mean |
| `Text.UpperChar` | test/dockerfile_processor.py:94 | definition: ASCII `upper` of one character; `UpperCharSpace` states it keeps whitespace apart |
| `Text.Upper` | test/dockerfile_processor.py:94 | definition: `UpperChar` on every character; `UpperIdempotent`, `StripUpper`, `FirstTokenUpper` and `SplitUpper` state how it commutes with the other operations |
| `Text.Strip` | test/dockerfile_processor.py:91 | definition: `rstrip` of `lstrip`; `StripOf` states it is the slice between the first and last non-whitespace characters |
| `Text.Join` | test/dockerfile_processor.py:91 | definition: `'\n'.join`; `Split` and `SplitJoin` state it is the inverse of `split('\n')` |
| `Text.Contains` | test/dockerfile_processor.py:53 | definition: substring occurrence at some position; `NoDollarNoPlaceholder`, `PlaceholderEliminated`, `EmptyVersionLeavesPlaceholder` and `LetterVersionLeavesPlaceholder` state when the placeholder occurs |
| `Text.Split` | test/dockerfile_processor.py:91 | `split('\n')` yields at least one piece, no piece holds a newline, and joining the pieces with newlines gives the text back |
| `Text.SplitJoin` | test/dockerfile_processor.py:91 | splitting the newline-join of newline-free lines gives exactly those lines back |
| `Text.TrimStart` | test/dockerfile_processor.py:106 | `lstrip` yields a suffix of the text; everything removed is whitespace, and the result does not start with whitespace |
| `Text.TrimEnd` | test/dockerfile_processor.py:106 | `rstrip` yields a prefix of the text; everything removed is whitespace, and the result does not end with whitespace |
| `Text.StripOf` | test/dockerfile_processor.py:106 | `strip` of a text is the slice between its first and last non-whitespace characters |
| `Text.FirstToken` | test/dockerfile_processor.py:111 | the first word is a prefix of the line without whitespace, followed by whitespace or the end of the line |
| `Text.FirstTokenOf` | test/dockerfile_processor.py:111 | the first word is `line[..n]` exactly when the first `n` characters are not whitespace and the next one, if any, is |
| `Text.StripUpper` | test/dockerfile_processor.py:94 | stripping and upper-casing commute, as `line.strip().upper()` relies on |
| `Text.FirstTokenUpper` | test/dockerfile_processor.py:111 | taking the first word and upper-casing commute |
| `Text.SplitUpper` | test/dockerfile_processor.py:91 | the lines of the upper-cased text are the upper-cased lines |
| `NginxVersion.RewriteLine` | test/dockerfile_processor.py:50 | definition: one line is replaced by `ENV NGINX_VERSION=<version>` when it begins with `ENV NGINX_VERSION`; `ScanFirstLine`, `ScanEnvLine` and `ScanRestOfLine` state that the regex scan does the same to a line, and `OtherLineKept` that a non-matching line is kept |
| `NginxVersion.RewriteEnvLines` | test/dockerfile_processor.py:50 | definition: pass 1 line by line; `ScanMatchesRewriteEnvLines` states it equals the `re.sub` scan, and `RewriteEnvLinesPerLine` what it does to each line |
| `NginxVersion.ScanEnvLines` | test/dockerfile_processor.py:50 | definition: the `re.sub` position scan with `^` after each newline and `.*` stopping at one; `ScanMatchesRewriteEnvLines` states its meaning |
| `NginxVersion.ProcessNginxVersion` | test/dockerfile_processor.py:50-53 | definition: pass 2 applied to the result of pass 1; `ProcessLineByLine`, `ProcessPerLine`, `ProcessEliminatesPlaceholder` and `ProcessIdempotent` state what it returns |
| `NginxVersion.RewriteEnvLinesIdempotent` | test/dockerfile_processor.py:50 | for a version without newline, pass 1 applied to its own output gives that output back |
| `NginxVersion.RewriteLines` | test/dockerfile_processor.py:50 | pass 1 keeps the number of lines, and line i of the result is line i rewritten on its own |
| `NginxVersion.ScanRestOfLine` | test/dockerfile_processor.py:50 | away from a line start, or at one not beginning with `ENV NGINX_VERSION`, the `re.sub` scan copies the rest of the line up to the next newline |
| `NginxVersion.ScanFirstLine` | test/dockerfile_processor.py:50 | at a line start the scan emits the rewritten first line (`.*` stops at the newline) and continues from that line's end |
| `NginxVersion.ScanEnvLine` | test/dockerfile_processor.py:50 | a line beginning with `ENV NGINX_VERSION` is replaced whole by `ENV NGINX_VERSION=<version>` |
| `NginxVersion.ScanMatchesRewriteEnvLines` | test/dockerfile_processor.py:50 | the multiline `re.sub` scan over the whole text equals rewriting each line separately |
| `NginxVersion.RewriteEnvLinesPerLine` | test/dockerfile_processor.py:50 | for a version without newline, pass 1 keeps the line count, turns every line beginning with `ENV NGINX_VERSION` (all of them, not only the first) into the ENV line, and leaves every other line as it was |
| `NginxVersion.NoEnvLineUnchanged` | test/dockerfile_processor.py:50 | with no line beginning with `ENV NGINX_VERSION`, pass 1 returns the text unchanged |
| `NginxVersion.ScenarioEveryMatchingLine` | test/dockerfile_processor.py:50 | two lines that begin with `ENV NGINX_VERSION` (such as `ENV NGINX_VERSION 1.20` and `ENV NGINX_VERSION_FOO=x`) are both rewritten |
| `NginxVersion.ScenarioIndentedLineKept` | test/dockerfile_processor.py:50 | the pattern is anchored: an indented ENV line is left alone |
| `NginxVersion.ReplacePlaceholder` | test/dockerfile_processor.py:53 | pass 2 returns text without `$NGINX_VERSION` unchanged, and every character of its result comes from the text or from the version |
| `NginxVersion.NoDollarNoPlaceholder` | test/dockerfile_processor.py:53 | text without `$` holds no placeholder |
| `NginxVersion.ReplaceAfterDollarFree` | test/dockerfile_processor.py:53 | text before the first `$` passes through pass 2 untouched |
| `NginxVersion.BracedReferenceKept` | test/dockerfile_processor.py:53 | the braced reference `${NGINX_VERSION}` is not the literal placeholder, and text whose only `$` opens one is kept |
| `NginxVersion.ReplaceAcrossNewline` | test/dockerfile_processor.py:53 | no placeholder spans a newline, so pass 2 over `a\nb` is pass 2 over `a` and over `b` |
| `NginxVersion.ReplaceJoin` | test/dockerfile_processor.py:53 | pass 2 over joined lines is the join of pass 2 over each line |
| `NginxVersion.PrefixThroughReplace` | test/dockerfile_processor.py:53 | for a non-empty version whose first character does not occur in `q`, a prefix `q` of pass 2's output was already a prefix of its input |
| `NginxVersion.PlaceholderEliminated` | test/dockerfile_processor.py:53 | for a non-empty version without `$` whose first character does not occur in `$NGINX_VERSION`, no placeholder is left, for any content: neither an old one nor one spliced together around an inserted version |
| `NginxVersion.ReplacePlaceholderIdempotent` | test/dockerfile_processor.py:53 | for a non-empty version without `$` whose first character does not occur in `$NGINX_VERSION`, pass 2 applied to its own output gives that output back |
| `NginxVersion.EmptyVersionLeavesPlaceholder` | test/dockerfile_processor.py:53 | with the empty version, `$NGINX$NGINX_VERSION_VERSION` becomes `$NGINX_VERSION`, so a placeholder remains |
| `NginxVersion.LetterVersionLeavesPlaceholder` | test/dockerfile_processor.py:53 | with the one-letter version `N`, `$NGINX_VERSIO$NGINX_VERSION` becomes `$NGINX_VERSION`, so a placeholder remains |
| `NginxVersion.SedLine` | test/dockerfile_processor.py:37 | definition: the two sed expressions applied to one line in turn; `MatchesSedScript`, `OutputLines` and `SedLineIdempotent` state its meaning |
| `NginxVersion.SedScript` | test/dockerfile_processor.py:37 | definition: sed's per-line application over the newline-split text; `MatchesSedScript` states that for a version sed copies literally the two passes give the same text |
| `NginxVersion.SedLines` | test/dockerfile_processor.py:37 | the per-line substitutions keep the number of lines and apply both expressions to each line in turn |
| `NginxVersion.ProcessLineByLine` | test/dockerfile_processor.py:50-53 | the two passes over the whole text equal both substitutions applied to each line in turn |
| `NginxVersion.MatchesSedScript` | test/dockerfile_processor.py:37 | the docstring's claim, for a version without `\`, `&`, `/` or newline (the characters sed does not copy literally into a replacement): the two passes give what the sed script gives |
| `NginxVersion.SedLineNoNewline` | test/dockerfile_processor.py:37 | for a version without newline, both substitutions turn a line into a line |
| `NginxVersion.OutputLines` | test/dockerfile_processor.py:50-53 | for a version without newline, the output has as many lines as the input, and line i of the output is both substitutions applied to line i |
| `NginxVersion.EnvLineKept` | test/dockerfile_processor.py:50-53 | for a release number, pass 2 leaves the line written by pass 1 alone |
| `NginxVersion.ProcessPerLine` | test/dockerfile_processor.py:32-60 | for a release number, each output line is `ENV NGINX_VERSION=<version>` where the input line began with `ENV NGINX_VERSION`, and the input line with its placeholders replaced otherwise |
| `NginxVersion.ProcessEliminatesPlaceholder` | test/dockerfile_processor.py:32-60 | for a release number, no `$NGINX_VERSION` is left in the returned text |
| `NginxVersion.SedLineIdempotent` | test/dockerfile_processor.py:37 | for a release number, applying both substitutions to a line twice is the same as once |
| `NginxVersion.ProcessIdempotent` | test/dockerfile_processor.py:32-60 | for a release number, processing already processed text changes nothing |
| `NginxVersion.RewriteEnvLinesCons` | test/dockerfile_processor.py:50 | pass 1 over a first line and the rest is pass 1 over each, joined by the newline |
| `NginxVersion.ProcessOneLine` | test/dockerfile_processor.py:50-53 | on one line, the two passes are both substitutions applied to that line |
| `NginxVersion.ProcessCons` | test/dockerfile_processor.py:50-53 | both passes over a first line and the rest are both substitutions on the first line, a newline, and both passes on the rest |
| `NginxVersion.ScenarioVersionBump` | test/dockerfile_processor.py:32-60 | bumping `ENV NGINX_VERSION=<previous>` to a release number changes that line only; a following line with no `$` that is not an ENV line is kept |
| `NginxVersion.ScenarioVersionBumpExample` | test/dockerfile_processor.py:32-60 | `ENV NGINX_VERSION=1.20\nRUN x\n` with version `1.22` becomes `ENV NGINX_VERSION=1.22\nRUN x\n` |
| `DockerfileSyntax.Lines` | test/dockerfile_processor.py:91 | definition: the stripped content cut at every newline; `TwoLines`, `OneLine` and `UpperLinesOf` state it on concrete and upper-cased documents |
| `DockerfileSyntax.MentionsFrom` | test/dockerfile_processor.py:94 | definition: the stripped, upper-cased line begins with `FROM`; `MentionsFromIffFromInstruction` states that on an accepted line this is the `FROM` instruction |
| `DockerfileSyntax.Instruction` | test/dockerfile_processor.py:111 | definition: the upper-cased first word of the stripped line; `StrippedLineHasInstruction` states it exists and `InstructionLookup` when it is known |
| `DockerfileSyntax.Skipped` | test/dockerfile_processor.py:106-108 | definition: the stripped line is empty or begins with `#`; `CommentLine` and `FromLineNotSkipped` state it on concrete lines |
| `DockerfileSyntax.LineOk` | test/dockerfile_processor.py:106-113 | definition: the second rule on one line; `CheckLine` and `InstructionLookup` state it as an instruction name at the start of the line |
| `DockerfileSyntax.HasFrom` | test/dockerfile_processor.py:94 | definition: the first rule, some line starts with `FROM`; `AnyLineMentionsFrom` states the scan returns it and `HasFromIffFromInstruction` what it means under the second rule |
| `DockerfileSyntax.AllLinesPass` | test/dockerfile_processor.py:105-115 | definition: the second rule, every line passes `LineOk`; `AllLinesOk` states the loop returns it |
| `DockerfileSyntax.ValidSyntax` | test/dockerfile_processor.py:91-115 | definition: both rules over the lines; `ValidateDockerfileSyntax` states the method returns it, and `ValidIffFromInstruction` and `CaseInsensitive` what it means |
| `DockerfileSyntax.ValidateDockerfileSyntax` | test/dockerfile_processor.py:81-115 | the method returns true exactly when some line starts with `FROM` and every line is blank, a comment or a known instruction |
| `DockerfileSyntax.AnyLineMentionsFrom` | test/dockerfile_processor.py:94-96 | the `any` scan is true exactly when some line, stripped and upper-cased, starts with `FROM` |
| `DockerfileSyntax.FindAny` | test/dockerfile_processor.py:94 | a scan that stops at the first hit finds one exactly when some element satisfies the test |
| `DockerfileSyntax.AllLinesOk` | test/dockerfile_processor.py:105-115 | the loop, calling the loop body on each line and returning false at the first failure, returns true exactly when every line passes the per-line rule |
| `DockerfileSyntax.CheckLine` | test/dockerfile_processor.py:106-113 | one loop step passes exactly when the per-line rule holds, and a line that is not blank or a comment passes exactly when its stripped, upper-cased text is a known instruction name, alone or followed by whitespace |
| `DockerfileSyntax.InstructionLookup` | test/dockerfile_processor.py:111-113 | the first word of a line is a known instruction exactly when the stripped, upper-cased line begins with a known instruction name followed by whitespace or the end |
| `DockerfileSyntax.IsInstruction` | test/dockerfile_processor.py:99-112 | definition: the word equals one of the seventeen listed names; `KnownNames`, `InstructionsAreCapitals` and `OnlyFromStartsWithF` state what that admits |
| `DockerfileSyntax.KnownNames` | test/dockerfile_processor.py:99-103 | `FROM` and `RUN` are known instructions |
| `DockerfileSyntax.InstructionsAreCapitals` | test/dockerfile_processor.py:99-103 | every known instruction name is made of the capital letters `A` to `Z` only |
| `DockerfileSyntax.OnlyFromStartsWithF` | test/dockerfile_processor.py:99-103 | the only known instruction beginning with `F` is `FROM` |
| `DockerfileSyntax.InstructionsHaveNoSpace` | test/dockerfile_processor.py:99-103 | no known instruction name holds whitespace |
| `DockerfileSyntax.StrippedLineHasInstruction` | test/dockerfile_processor.py:111 | a line that is not blank after stripping has a non-empty first word, so `split()[0]` cannot fail |
| `DockerfileSyntax.OnlyFromStartsWithFrom` | test/dockerfile_processor.py:99-103 | among the seventeen known instructions only `FROM` begins with `FROM` |
| `DockerfileSyntax.MentionsFromIffFromInstruction` | test/dockerfile_processor.py:94-113 | on a line the second rule accepts, starting with `FROM` and having the instruction `FROM` are the same |
| `DockerfileSyntax.FromLineNotSkipped` | test/dockerfile_processor.py:107 | a line starting with `FROM` is neither blank nor a comment |
| `DockerfileSyntax.HasFromIffFromInstruction` | test/dockerfile_processor.py:94-113 | when every line passes the second rule, some line starts with `FROM` exactly when some line has the instruction `FROM` |
| `DockerfileSyntax.ValidIffFromInstruction` | test/dockerfile_processor.py:91-115 | a document passes exactly when every line is blank, a comment or a known instruction, and some line's instruction is `FROM` |
| `DockerfileSyntax.UpperLine` | test/dockerfile_processor.py:94-113 | upper-casing a line changes neither of its two tests |
| `DockerfileSyntax.UpperInvariant` | test/dockerfile_processor.py:91-115 | upper-casing the whole document does not change the verdict |
| `DockerfileSyntax.CaseInsensitive` | test/dockerfile_processor.py:91-115 | documents that differ only in letter case get the same verdict |
| `DockerfileSyntax.UnknownWordLine` | test/dockerfile_processor.py:111-113 | a line made of a word that is not a known instruction in upper case, a space and more text fails the second rule |
| `DockerfileSyntax.FromWordLine` | test/dockerfile_processor.py:94 | a line whose first word begins with `FROM` starts with `FROM` once stripped and upper-cased |
| `DockerfileSyntax.FromPrefixLine` | test/dockerfile_processor.py:94-113 | `FROMAGE <args>` starts with `FROM` yet fails the second rule |
| `DockerfileSyntax.CommentLine` | test/dockerfile_processor.py:107-108 | a `#` line is skipped and does not count as starting with `FROM` |
| `DockerfileSyntax.AcceptTwoLines` | test/dockerfile_processor.py:94-115 | two lines pass when the first starts with `FROM` and both pass the second rule |
| `DockerfileSyntax.RejectTwoLines` | test/dockerfile_processor.py:112-113 | two lines fail when either fails the second rule |
| `DockerfileSyntax.RejectTwoLinesNoFrom` | test/dockerfile_processor.py:94-96 | two lines fail when neither starts with `FROM` |
| `DockerfileSyntax.TwoLines` | test/dockerfile_processor.py:91 | a two-line document, with or without a final newline, splits into its two lines once stripped |
| `DockerfileSyntax.ScenarioMinimalAccepted` | test/dockerfile_processor.py:91-115 | `FROM <image>\nRUN <command>\n` passes |
| `DockerfileSyntax.ScenarioLowerCaseAccepted` | test/dockerfile_processor.py:91-115 | `from <image>\nrun <command>\n` passes too |
| `DockerfileSyntax.ScenarioUnknownInstructionRejected` | test/dockerfile_processor.py:105-113 | `FROM <image>\nFOOBAR <args>` fails on the unknown instruction |
| `DockerfileSyntax.ScenarioCommentedFromRejected` | test/dockerfile_processor.py:94-96 | `# FROM <image>\nRUN <command>` fails: a `FROM` inside a comment does not count |
| `DockerfileSyntax.ScenarioFromPrefixRejected` | test/dockerfile_processor.py:94-113 | `FROMAGE <args>` passes the first rule but fails the second |

## Left out

- File input and output are not modelled. That covers `__init__`'s existence check, the
  read at lines 46-47, the optional write at lines 55-58, `create_temp_dockerfile`
  (`mkstemp`) and the static `replace_version_in_file`. The model starts from the text
  as the read returns it. That read is in text mode, which turns `\r\n` and a lone `\r`
  into `\n` before pass 1 runs; that translation is not modelled, so a file with lone
  `\r` line ends is one line to the model's content but several to the code.
- `ProcessNginxVersion` and `RewriteEnvLines` require a version without a backslash.
  `re.sub` reads backslash escapes and group references in its replacement template, and
  the model takes the template literally.
- `NginxVersion.SedLine`: it is sed with the version copied literally into the
  replacement. Real sed reads `\` and `&` there and ends the command at a `/` or a
  newline, so `NginxVersion.MatchesSedScript` asks for a version without those
  characters; for a version such as `1&2` the docstring's sed command differs from the
  code.
- `Text.UpperChar` maps ASCII letters only. Python's `str.upper` also maps non-ASCII
  characters, some to more than one character (`ß` to `SS`), and that is not modelled.
- `NginxVersion.PlaceholderEliminated` and `NginxVersion.ReplacePlaceholderIdempotent`
  require a non-empty version without `$` whose first character does not occur in
  `$NGINX_VERSION` (`SpliceFree`). That condition is enough, not necessary; the empty
  version and the version `N` are cases where a placeholder is left
  (`EmptyVersionLeavesPlaceholder`, `LetterVersionLeavesPlaceholder`).
  `NginxVersion.ProcessEliminatesPlaceholder`,
  `NginxVersion.ProcessIdempotent` and `NginxVersion.ProcessPerLine` ask for a release
  number (digits and dots, non-empty), which meets that condition.
- `NginxVersion.RewriteEnvLinesPerLine`, `NginxVersion.OutputLines` and
  `NginxVersion.RewriteEnvLinesIdempotent` require a version without a newline. A newline
  in the version would add lines, and a second pass 1 could then rewrite one of them
  (`1\nENV NGINX_VERSION` grows the text again).
- The command-line entry point is not modelled. No test module uses this file:
  `test_container_basics.py` imports a different `DockerfileProcessor` from
  `container_ci_suite`.
