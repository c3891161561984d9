/**
 * The markdown validators (lib/validation-utils.ts). Each validator walks the lines of the content
 * and pushes issues, carrying a line number from 1; the methods below do the same walk and are proved
 * equal to the specification functions, about which the properties are stated.
 * The regular expressions the validators use are modelled by scanners that follow JavaScript's
 * leftmost, greedy matching for the particular patterns involved.
 */
module ValidationUtils {
  import opened Wrappers
  import opened Text

  datatype Severity = Error | Warning | Info
  datatype ErrorKind = Syntax | Structure | Content | Format
  datatype WarningKind = StyleWarning | BestPracticeWarning | AccessibilityWarning
  datatype SuggestionKind = ImprovementSuggestion | OptimizationSuggestion | AccessibilitySuggestion

  /** Every message the validators emit; `Wording` gives its text and `Hint` the advice attached to it. */
  datatype Message =
    | MisplacedFence | UnclosedBold | UnclosedItalic | UnclosedCode | EmptyLinkUrl
    | NoHeading | SkippedLevel(level: nat, expected: nat)
    | LongLine | TooManyBlankLines | TrailingWhitespace
    | ClickHere | UrlAsText | MissingAlt
    | MissingLanguage | MissingTableSeparator | ListSpacing
    | NoSetupSection | NoVersionHeader | FewQuestions

  function Wording(m: Message): string
  {
    match m
    case MisplacedFence => "Code block markers should be on their own line"
    case UnclosedBold => "Unclosed bold formatting"
    case UnclosedItalic => "Unclosed italic formatting"
    case UnclosedCode => "Unclosed inline code"
    case EmptyLinkUrl => "Link URL is empty"
    case NoHeading => "Document should have at least one heading"
    case SkippedLevel(level, expected) =>
      "Heading level " + NatToString(level) + " should not skip level " + NatToString(expected)
    case LongLine => "Line is very long (consider breaking it up)"
    case TooManyBlankLines => "Too many consecutive blank lines"
    case TrailingWhitespace => "Trailing whitespace detected"
    case ClickHere => "Use descriptive link text instead of \"click here\""
    case UrlAsText => "Link text should be descriptive, not the URL"
    case MissingAlt => "Image missing alt text"
    case MissingLanguage => "Code block missing language specification"
    case MissingTableSeparator => "Table missing header separator"
    case ListSpacing => "Inconsistent list item spacing"
    case NoSetupSection => "Documentation should include Installation or Getting Started section"
    case NoVersionHeader => "Changelog should include version headers (e.g., ## [1.0.0])"
    case FewQuestions => "FAQ should include multiple questions"
  }

  /** The `suggestion` text that accompanies a warning or suggestion (errors carry none). */
  function Hint(m: Message): string
  {
    match m
    case LongLine => "Break long lines at around 80-100 characters"
    case TooManyBlankLines => "Use at most 2 blank lines between sections"
    case TrailingWhitespace => "Remove trailing spaces"
    case ClickHere => "Replace \"click here\" with descriptive text like \"read our documentation\""
    case UrlAsText => "Use descriptive text for the link"
    case MissingAlt => "Add descriptive alt text for the image"
    case MissingLanguage => "Specify the language for syntax highlighting (e.g., ```javascript)"
    case MissingTableSeparator => "Add a separator row (e.g., | --- | --- |) after the header"
    case ListSpacing => "Use exactly one space after list markers"
    case _ => ""
  }

  datatype ValidationError = ValidationError(kind: ErrorKind, message: Message, line: Option<nat>, severity: Severity)
  datatype ValidationWarning = ValidationWarning(kind: WarningKind, message: Message, line: Option<nat>, suggestion: Option<string>)
  datatype ValidationSuggestion = ValidationSuggestion(kind: SuggestionKind, message: Message, line: Option<nat>, suggestion: string)

  datatype ValidationResult = ValidationResult(
    isValid: bool,
    errors: seq<ValidationError>,
    warnings: seq<ValidationWarning>,
    suggestions: seq<ValidationSuggestion>)

  // ---------------------------------------------------------------------------------------------
  // Line-by-line accumulation

  /** What a `lines.forEach` pass pushes for the first `k` lines, `f` giving each line's items. */
  function PerLine<T>(lines: seq<string>, k: nat, f: (string, nat) -> seq<T>): seq<T>
    requires k <= |lines|
  {
    if k == 0 then [] else PerLine(lines, k - 1, f) + f(lines[k - 1], k)
  }

  /** An item is pushed by a pass exactly when some line pushes it. */
  lemma {:induction false} InPerLine<T>(lines: seq<string>, k: nat, f: (string, nat) -> seq<T>, x: T)
    requires k <= |lines|
    ensures x in PerLine(lines, k, f) <==> exists m :: 0 <= m < k && x in f(lines[m], m + 1)
  {
    if k > 0 {
      InPerLine(lines, k - 1, f, x);
      if x in f(lines[k - 1], k) {
        assert 0 <= k - 1 < k && x in f(lines[k - 1], k - 1 + 1);
      }
    }
  }

  // ---------------------------------------------------------------------------------------------
  // Links and images: `/\[([^\]]*)\]\(([^)]*)\)/g` and `/!\[([^\]]*)\]\(([^)]*)\)/g`

  datatype Link = Link(text: string, url: string)

  predicate NoChar(s: string, c: char)
  {
    forall i :: 0 <= i < |s| ==> s[i] != c
  }

  /** The match of the link pattern that starts at index `i`, if any: its two groups and its end.
      `[^\]]*` runs to the first `]`, and `[^)]*` to the first `)` after the `(`. */
  function LinkAt(s: string, i: nat): (r: Option<(Link, nat)>)
    ensures r.Some? ==> i < r.value.1 <= |s|
  {
    if i < |s| && s[i] == '[' then
      match Find(s, "]", i + 1)
      case None => None
      case Some(j) =>
        if j + 1 < |s| && s[j + 1] == '(' then
          match Find(s, ")", j + 2)
          case None => None
          case Some(k) => Some((Link(s[i + 1..j], s[j + 2..k]), k + 1))
        else None
    else None
  }

  /** A match is the text `[text](url)`, with no `]` in the text and no `)` in the URL. */
  lemma LinkAtMatches(s: string, i: nat)
    requires LinkAt(s, i).Some?
    ensures var (l, e) := LinkAt(s, i).value;
      var j := i + 1 + |l.text|;
      && e == j + 3 + |l.url| && s[i] == '['
      && s[i + 1..j] == l.text && s[j] == ']' && s[j + 1] == '('
      && s[j + 2..e - 1] == l.url && s[e - 1] == ')'
      && NoChar(l.text, ']') && NoChar(l.url, ')')
  {
    LinkTextMatches(s, i);
    LinkUrlMatches(s, i);
  }

  lemma LinkTextMatches(s: string, i: nat)
    requires LinkAt(s, i).Some?
    ensures var l := LinkAt(s, i).value.0;
      var j := i + 1 + |l.text|;
      && s[i] == '[' && j < |s| && s[i + 1..j] == l.text && s[j] == ']' && NoChar(l.text, ']')
  {
    var j := Find(s, "]", i + 1).value;
    assert LinkAt(s, i).value.0.text == s[i + 1..j];
    GroupUpTo(s, ']', i + 1);
  }

  lemma LinkUrlMatches(s: string, i: nat)
    requires LinkAt(s, i).Some?
    ensures var (l, e) := LinkAt(s, i).value;
      var j := i + 1 + |l.text|;
      && e == j + 3 + |l.url| && s[j + 1] == '(' && s[j + 2..e - 1] == l.url && s[e - 1] == ')'
      && NoChar(l.url, ')')
  {
    var j := Find(s, "]", i + 1).value;
    var k := Find(s, ")", j + 2).value;
    assert LinkAt(s, i).value == (Link(s[i + 1..j], s[j + 2..k]), k + 1);
    GroupUpTo(s, ')', j + 2);
  }

  /** `[^c]*c` from `from`: the run up to the first `c` holds no `c`. */
  lemma GroupUpTo(s: string, c: char, from: nat)
    requires Find(s, [c], from).Some?
    ensures var j := Find(s, [c], from).value; s[j] == c && NoChar(s[from..j], c)
  {
    var j := Find(s, [c], from).value;
    FindSpec(s, [c], from);
    assert s[j..j + 1] == [c];
    forall t | 0 <= t < j - from ensures s[from..j][t] != c {
      assert !OccursAt(s, [c], from + t);
      assert s[from + t..from + t + 1] == [s[from + t]];
    }
  }

  /** Conversely, the first `c` at or after `from` is what the search finds. */
  lemma FirstOccurrence(s: string, c: char, from: nat, j: nat)
    requires from <= j < |s| && s[j] == c
    requires forall t :: from <= t < j ==> s[t] != c
    ensures Find(s, [c], from) == Some(j)
  {
    FindSpec(s, [c], from);
    assert OccursAt(s, [c], j) by {
      assert s[j..j + 1] == [c];
    }
    forall t | from <= t < j ensures !OccursAt(s, [c], t) {
      assert s[t..t + 1] == [s[t]];
    }
  }

  /** The matches `exec` returns, scanning from `from`: a failed attempt moves on one character,
      a match resumes after its end. */
  function Links(s: string, from: nat): seq<Link>
    decreases |s| - from
  {
    if from >= |s| then []
    else match LinkAt(s, from)
      case Some((l, e)) => [l] + Links(s, e)
      case None => Links(s, from + 1)
  }

  /** A line that is exactly one well-formed link yields exactly that link. */
  lemma SingleLink(text: string, url: string)
    requires NoChar(text, ']') && NoChar(url, ')')
    ensures Links("[" + text + "](" + url + ")", 0) == [Link(text, url)]
  {
    var s := "[" + text + "](" + url + ")";
    SingleLinkAt(text, url);
    assert Links(s, 0) == [Link(text, url)] + Links(s, |s|);
  }

  lemma SingleLinkAt(text: string, url: string)
    requires NoChar(text, ']') && NoChar(url, ')')
    ensures var s := "[" + text + "](" + url + ")"; LinkAt(s, 0) == Some((Link(text, url), |s|))
  {
    var s := "[" + text + "](" + url + ")";
    var j := |text| + 1;
    var k := |s| - 1;
    SingleLinkBrackets(text, url);
    FirstOccurrence(s, ']', 1, j);
    FirstOccurrence(s, ')', j + 2, k);
    assert s[1..j] == text && s[j + 2..k] == url;
  }

  lemma SingleLinkBrackets(text: string, url: string)
    requires NoChar(text, ']') && NoChar(url, ')')
    ensures var s := "[" + text + "](" + url + ")"; var j := |text| + 1;
      && s[0] == '[' && s[j] == ']' && s[j + 1] == '(' && s[|s| - 1] == ')'
      && (forall t :: 1 <= t < j ==> s[t] != ']')
      && (forall t :: j + 2 <= t < |s| - 1 ==> s[t] != ')')
  {
    var s := "[" + text + "](" + url + ")";
    var j := |text| + 1;
    assert forall t :: 1 <= t < j ==> s[t] == text[t - 1];
    assert forall t :: j + 2 <= t < |s| - 1 ==> s[t] == url[t - j - 2];
  }

  /** The match of the image pattern at `i`: a `!` followed by a link match. */
  function ImageAt(s: string, i: nat): (r: Option<(Link, nat)>)
    ensures r.Some? ==> i < r.value.1 <= |s|
  {
    if i < |s| && s[i] == '!' then LinkAt(s, i + 1) else None
  }

  function Images(s: string, from: nat): seq<Link>
    decreases |s| - from
  {
    if from >= |s| then []
    else match ImageAt(s, from)
      case Some((l, e)) => [l] + Images(s, e)
      case None => Images(s, from + 1)
  }

  // ---------------------------------------------------------------------------------------------
  // validateSyntax

  function SyntaxError(message: Message, n: nat): ValidationError
  {
    ValidationError(Syntax, message, Some(n), Error)
  }

  /** One "Link URL is empty" error per link whose URL is empty or blank. */
  function EmptyLinkErrors(links: seq<Link>, n: nat): seq<ValidationError>
  {
    if links == [] then []
    else (if IsBlank(links[0].url) then [SyntaxError(EmptyLinkUrl, n)] else []) + EmptyLinkErrors(links[1..], n)
  }

  /** At most one error per link, each the same "Link URL is empty" error, and some error exactly
      when some link's URL is blank. */
  lemma {:induction false} EmptyLinkErrorsSpec(links: seq<Link>, n: nat)
    ensures |EmptyLinkErrors(links, n)| <= |links|
    ensures forall e :: e in EmptyLinkErrors(links, n) ==> e == SyntaxError(EmptyLinkUrl, n)
    ensures EmptyLinkErrors(links, n) != [] <==> exists l :: l in links && IsBlank(l.url)
  {
    if links != [] {
      EmptyLinkErrorsSpec(links[1..], n);
      if exists l :: l in links[1..] && IsBlank(l.url) {
        var l :| l in links[1..] && IsBlank(l.url);
        assert l in links;
      }
      if exists l :: l in links && IsBlank(l.url) {
        var l :| l in links && IsBlank(l.url);
        if l != links[0] {
          assert l in links[1..];
        }
      }
    }
  }

  lemma EmptyLinkErrorsCons(link: Link, rest: seq<Link>, n: nat)
    ensures EmptyLinkErrors([link] + rest, n) == Flag(IsBlank(link.url), SyntaxError(EmptyLinkUrl, n)) + EmptyLinkErrors(rest, n)
  {
    assert ([link] + rest)[1..] == rest;
  }

  /** One step of the `exec` loop over a line's links. */
  lemma LinkErrorsStep(line: string, pos: nat, n: nat)
    requires pos < |line|
    ensures LinkAt(line, pos).Some? ==>
      EmptyLinkErrors(Links(line, pos), n)
      == Flag(IsBlank(LinkAt(line, pos).value.0.url), SyntaxError(EmptyLinkUrl, n))
         + EmptyLinkErrors(Links(line, LinkAt(line, pos).value.1), n)
    ensures LinkAt(line, pos).None? ==> EmptyLinkErrors(Links(line, pos), n) == EmptyLinkErrors(Links(line, pos + 1), n)
  {
    if LinkAt(line, pos).Some? {
      var (link, e) := LinkAt(line, pos).value;
      assert Links(line, pos) == [link] + Links(line, e);
      EmptyLinkErrorsCons(link, Links(line, e), n);
    }
  }

  predicate FenceMisplaced(line: string)
  {
    Contains(line, "```") && !StartsWith(Trim(line), "```")
  }

  /** The defect that the syntax error `m` reports is present on `line`. */
  predicate Defect(line: string, m: Message)
  {
    match m
    case MisplacedFence => FenceMisplaced(line)
    case UnclosedBold => Count(line, "**") % 2 != 0
    case UnclosedItalic => Count(line, "*") % 2 != 0
    case UnclosedCode => Count(line, "`") % 2 != 0
    case EmptyLinkUrl => exists l :: l in Links(line, 0) && IsBlank(l.url)
    case _ => false
  }

  /** `[x]` when `b` holds, else nothing: one conditional push. */
  function Flag<T(!new)>(b: bool, x: T): (r: seq<T>)
    ensures forall y :: y in r <==> b && y == x
  {
    if b then [x] else []
  }

  /** The errors `validateSyntax` pushes for line number `n`, in push order. */
  function SyntaxErrorsOfLine(line: string, n: nat): seq<ValidationError>
  {
    Flag(FenceMisplaced(line), SyntaxError(MisplacedFence, n))
    + Flag(Count(line, "**") % 2 != 0, SyntaxError(UnclosedBold, n))
    + Flag(Count(line, "*") % 2 != 0, SyntaxError(UnclosedItalic, n))
    + Flag(Count(line, "`") % 2 != 0, SyntaxError(UnclosedCode, n))
    + EmptyLinkErrors(Links(line, 0), n)
  }

  /** A line's syntax errors are exactly one per defect it has, at its own line number. */
  lemma SyntaxOfLineIff(line: string, n: nat, e: ValidationError)
    ensures e in SyntaxErrorsOfLine(line, n) <==> e == SyntaxError(e.message, n) && Defect(line, e.message)
  {
    if e in SyntaxErrorsOfLine(line, n) {
      LineErrorIsDefect(line, n, e);
    }
    if e == SyntaxError(e.message, n) && Defect(line, e.message) {
      DefectIsReported(line, n, e);
    }
  }

  lemma LineErrorIsDefect(line: string, n: nat, e: ValidationError)
    requires e in SyntaxErrorsOfLine(line, n)
    ensures e == SyntaxError(e.message, n) && Defect(line, e.message)
  {
    EmptyLinkErrorsSpec(Links(line, 0), n);
  }

  lemma DefectIsReported(line: string, n: nat, e: ValidationError)
    requires e == SyntaxError(e.message, n) && Defect(line, e.message)
    ensures e in SyntaxErrorsOfLine(line, n)
  {
    var links := EmptyLinkErrors(Links(line, 0), n);
    EmptyLinkErrorsSpec(Links(line, 0), n);
    if e.message == EmptyLinkUrl {
      assert exists l :: l in Links(line, 0) && IsBlank(l.url);
      assert links != [];
      assert links[0] in links;
      assert links[0] == e;
    }
  }

  function SyntaxErrors(lines: seq<string>): seq<ValidationError>
  {
    PerLine(lines, |lines|, SyntaxErrorsOfLine)
  }

  /** Each syntax error is reported at line `n` exactly when line `n` has the matching defect. */
  lemma SyntaxErrorIff(lines: seq<string>, n: nat, m: Message)
    ensures SyntaxError(m, n) in SyntaxErrors(lines) <==> 1 <= n <= |lines| && Defect(lines[n - 1], m)
  {
    if SyntaxError(m, n) in SyntaxErrors(lines) {
      SyntaxErrorSound(lines, n, m);
    }
    if 1 <= n <= |lines| && Defect(lines[n - 1], m) {
      SyntaxErrorComplete(lines, n, m);
    }
  }

  lemma SyntaxErrorSound(lines: seq<string>, n: nat, m: Message)
    requires SyntaxError(m, n) in SyntaxErrors(lines)
    ensures 1 <= n <= |lines| && Defect(lines[n - 1], m)
  {
    var e := SyntaxError(m, n);
    InPerLine(lines, |lines|, SyntaxErrorsOfLine, e);
    var k :| 0 <= k < |lines| && e in SyntaxErrorsOfLine(lines[k], k + 1);
    SyntaxOfLineIff(lines[k], k + 1, e);
  }

  lemma SyntaxErrorComplete(lines: seq<string>, n: nat, m: Message)
    requires 1 <= n <= |lines| && Defect(lines[n - 1], m)
    ensures SyntaxError(m, n) in SyntaxErrors(lines)
  {
    var e := SyntaxError(m, n);
    SyntaxOfLineIff(lines[n - 1], n, e);
    assert 0 <= n - 1 < |lines| && e in SyntaxErrorsOfLine(lines[n - 1], n - 1 + 1);
    InPerLine(lines, |lines|, SyntaxErrorsOfLine, e);
  }

  /** Every syntax error is an error-severity issue carrying a line number. */
  lemma SyntaxErrorShape(lines: seq<string>, e: ValidationError)
    requires e in SyntaxErrors(lines)
    ensures e.kind == Syntax && e.severity == Error && e.line.Some? && 1 <= e.line.value <= |lines|
  {
    InPerLine(lines, |lines|, SyntaxErrorsOfLine, e);
    var k :| 0 <= k < |lines| && e in SyntaxErrorsOfLine(lines[k], k + 1);
    SyntaxOfLineIff(lines[k], k + 1, e);
  }

  /** A `* item` bullet line has a single `*` and so is reported as unclosed italic. */
  lemma BulletIsUnclosedItalic(rest: string)
    requires NoChar(rest, '*')
    ensures Count("* " + rest, "*") == 1
  {
    NoStarCount(rest, 0);
    assert CountFrom("* " + rest, "*", 1) == CountFrom(rest, "*", 0) by {
      ShiftedCount("* " + rest, rest, 1);
    }
  }

  lemma {:induction false} NoStarCount(s: string, i: nat)
    requires NoChar(s, '*')
    ensures CountFrom(s, "*", i) == 0
    decreases |s| - i
  {
    if i + 1 <= |s| {
      assert s[i..i + 1] != "*" by { assert s[i..i + 1][0] == s[i]; }
      NoStarCount(s, i + 1);
    }
  }

  /** Counting from `k` in `s` is counting from the start in the part of `s` from `k + 1` on,
      when the character at `k` is not a star. */
  lemma {:induction false} ShiftedCount(s: string, t: string, k: nat)
    requires k + 1 + |t| == |s| && s[k + 1..] == t && k < |s| && s[k] != '*'
    ensures CountFrom(s, "*", k) == CountFrom(t, "*", 0)
  {
    assert s[k..k + 1] != "*" by { assert s[k..k + 1][0] == s[k]; }
    CountShift(s, t, k + 1, 0);
  }

  lemma {:induction false} CountShift(s: string, t: string, d: nat, i: nat)
    requires d + |t| == |s| && s[d..] == t && i <= |t|
    ensures CountFrom(s, "*", d + i) == CountFrom(t, "*", i)
    decreases |t| - i
  {
    if i + 1 <= |t| {
      assert s[d + i..d + i + 1] == t[i..i + 1];
      if t[i..i + 1] == "*" {
        CountShift(s, t, d, i + 1);
      } else {
        CountShift(s, t, d, i + 1);
      }
    }
  }

  // ---------------------------------------------------------------------------------------------
  // validateStructure

  predicate IsHeading(line: string)
  {
    StartsWith(Trim(line), "#")
  }

  /** The length of the run of `#` at the start of `s` (`s.match(/^#+/)[0].length`). */
  function LeadingHashes(s: string): (n: nat)
    ensures n <= |s| && forall i :: 0 <= i < n ==> s[i] == '#'
    ensures n == |s| || s[n] != '#'
    decreases |s|
  {
    if s != [] && s[0] == '#' then 1 + LeadingHashes(s[1..]) else 0
  }

  function HeadingLevel(line: string): nat
  {
    LeadingHashes(Trim(line))
  }

  /** The level of the nearest heading among the first `k` lines, or 0 when there is none. */
  function LastLevel(lines: seq<string>, k: nat): nat
    requires k <= |lines|
  {
    if k == 0 then 0
    else if IsHeading(lines[k - 1]) then HeadingLevel(lines[k - 1])
    else LastLevel(lines, k - 1)
  }

  /** Line `n` is a heading deeper than one level below the previous heading, or below level 0
      when it is the first heading. */
  predicate SkipsLevel(lines: seq<string>, n: nat)
    requires 1 <= n <= |lines|
  {
    IsHeading(lines[n - 1]) && HeadingLevel(lines[n - 1]) > LastLevel(lines, n - 1) + 1
  }

  function SkipWarning(lines: seq<string>, n: nat): ValidationError
    requires 1 <= n <= |lines|
  {
    ValidationError(Structure, SkippedLevel(HeadingLevel(lines[n - 1]), LastLevel(lines, n - 1) + 1), Some(n), Warning)
  }

  /** The hierarchy warnings for the first `k` lines. */
  function HierarchyWarnings(lines: seq<string>, k: nat): seq<ValidationError>
    requires k <= |lines|
  {
    if k == 0 then []
    else HierarchyWarnings(lines, k - 1) + (if SkipsLevel(lines, k) then [SkipWarning(lines, k)] else [])
  }

  /** The hierarchy pass warns at exactly the lines that skip a level, with the level expected there. */
  lemma HierarchyWarningIff(lines: seq<string>, k: nat)
    requires k <= |lines|
    ensures forall e :: e in HierarchyWarnings(lines, k) ==>
      e.line.Some? && 1 <= e.line.value <= k && SkipsLevel(lines, e.line.value) && e == SkipWarning(lines, e.line.value)
    ensures forall n :: 1 <= n <= k && SkipsLevel(lines, n) ==> SkipWarning(lines, n) in HierarchyWarnings(lines, k)
  {
    forall e | e in HierarchyWarnings(lines, k)
      ensures e.line.Some? && 1 <= e.line.value <= k && SkipsLevel(lines, e.line.value) && e == SkipWarning(lines, e.line.value)
    {
      HierarchyWarningSound(lines, k, e);
    }
    forall n | 1 <= n <= k && SkipsLevel(lines, n)
      ensures SkipWarning(lines, n) in HierarchyWarnings(lines, k)
    {
      HierarchyWarningComplete(lines, k, n);
    }
  }

  lemma {:induction false} HierarchyWarningSound(lines: seq<string>, k: nat, e: ValidationError)
    requires k <= |lines| && e in HierarchyWarnings(lines, k)
    ensures e.line.Some? && 1 <= e.line.value <= k && SkipsLevel(lines, e.line.value) && e == SkipWarning(lines, e.line.value)
  {
    var prev := HierarchyWarnings(lines, k - 1);
    var last := if SkipsLevel(lines, k) then [SkipWarning(lines, k)] else [];
    assert HierarchyWarnings(lines, k) == prev + last;
    if e in prev {
      HierarchyWarningSound(lines, k - 1, e);
    } else {
      assert e in last;
    }
  }

  lemma {:induction false} HierarchyWarningComplete(lines: seq<string>, k: nat, n: nat)
    requires k <= |lines| && 1 <= n <= k && SkipsLevel(lines, n)
    ensures SkipWarning(lines, n) in HierarchyWarnings(lines, k)
  {
    var prev := HierarchyWarnings(lines, k - 1);
    var last := if SkipsLevel(lines, k) then [SkipWarning(lines, k)] else [];
    assert HierarchyWarnings(lines, k) == prev + last;
    if n < k {
      HierarchyWarningComplete(lines, k - 1, n);
    } else {
      assert SkipWarning(lines, n) in last;
    }
  }

  predicate HasHeading(lines: seq<string>)
  {
    exists i :: 0 <= i < |lines| && IsHeading(lines[i])
  }

  function StructureErrors(lines: seq<string>): (r: seq<ValidationError>)
    ensures !HasHeading(lines) <==> (|r| > 0 && r[0] == ValidationError(Structure, NoHeading, None, Warning))
    ensures forall e :: e in r ==> e.severity == Warning
  {
    HierarchyWarningIff(lines, |lines|);
    (if HasHeading(lines) then [] else [ValidationError(Structure, NoHeading, None, Warning)])
    + HierarchyWarnings(lines, |lines|)
  }

  // ---------------------------------------------------------------------------------------------
  // validateContentQuality

  const MaxLineLength := 120

  function StyleWarningAt(message: Message, n: nat): ValidationWarning
  {
    ValidationWarning(StyleWarning, message, Some(n), Some(Hint(message)))
  }

  function LongLineOf(line: string, n: nat): seq<ValidationWarning>
  {
    if |line| > MaxLineLength then [StyleWarningAt(LongLine, n)] else []
  }

  function TrailingOf(line: string, n: nat): seq<ValidationWarning>
  {
    if line != TrimEnd(line) then [StyleWarningAt(TrailingWhitespace, n)] else []
  }

  /** The number of blank lines directly before line `k + 1`. */
  function BlankRun(lines: seq<string>, k: nat): nat
    requires k <= |lines|
  {
    if k == 0 || !IsBlank(lines[k - 1]) then 0 else 1 + BlankRun(lines, k - 1)
  }

  /** The blank-line warnings for the first `k` lines: line `k` is flagged when it is blank and
      extends a run of more than two. */
  function BlankWarnings(lines: seq<string>, k: nat): seq<ValidationWarning>
    requires k <= |lines|
  {
    if k == 0 then []
    else
      BlankWarnings(lines, k - 1)
      + (if IsBlank(lines[k - 1]) && BlankRun(lines, k - 1) + 1 > 2 then [StyleWarningAt(TooManyBlankLines, k)] else [])
  }

  /** A run of at least three blank lines ends at line `k`. */
  lemma ThreeBlank(lines: seq<string>, k: nat)
    requires 1 <= k <= |lines| && IsBlank(lines[k - 1])
    ensures BlankRun(lines, k - 1) >= 2 <==> k >= 3 && IsBlank(lines[k - 2]) && IsBlank(lines[k - 3])
  {
    if k >= 2 && IsBlank(lines[k - 2]) {
      assert BlankRun(lines, k - 1) == 1 + BlankRun(lines, k - 2);
      if k >= 3 && IsBlank(lines[k - 3]) {
        assert BlankRun(lines, k - 2) == 1 + BlankRun(lines, k - 3);
      }
    }
  }

  /** Line `k` adds its warning to those of the lines before it. */
  lemma BlankWarningStep(lines: seq<string>, k: nat, n: nat)
    requires 1 <= k <= |lines|
    ensures StyleWarningAt(TooManyBlankLines, n) in BlankWarnings(lines, k) <==>
      StyleWarningAt(TooManyBlankLines, n) in BlankWarnings(lines, k - 1)
      || (n == k && IsBlank(lines[k - 1]) && BlankRun(lines, k - 1) >= 2)
  {
    var fires := IsBlank(lines[k - 1]) && BlankRun(lines, k - 1) + 1 > 2;
    var last := if fires then [StyleWarningAt(TooManyBlankLines, k)] else [];
    assert BlankWarnings(lines, k) == BlankWarnings(lines, k - 1) + last;
  }

  /** The blank-line warning falls on the third and each later line of a run of blank lines. */
  lemma {:induction false} BlankRunWarningIff(lines: seq<string>, k: nat, n: nat)
    requires k <= |lines|
    ensures StyleWarningAt(TooManyBlankLines, n) in BlankWarnings(lines, k) <==>
      3 <= n <= k && IsBlank(lines[n - 1]) && IsBlank(lines[n - 2]) && IsBlank(lines[n - 3])
  {
    if k > 0 {
      BlankRunWarningIff(lines, k - 1, n);
      BlankWarningStep(lines, k, n);
      if n == k && IsBlank(lines[k - 1]) {
        ThreeBlank(lines, k);
      }
    }
  }

  function QualityWarnings(lines: seq<string>): seq<ValidationWarning>
  {
    PerLine(lines, |lines|, LongLineOf) + BlankWarnings(lines, |lines|) + PerLine(lines, |lines|, TrailingOf)
  }

  /** The long-line warning falls exactly on the lines longer than 120 characters. */
  lemma LongLineIff(lines: seq<string>, n: nat)
    ensures StyleWarningAt(LongLine, n) in PerLine(lines, |lines|, LongLineOf) <==>
      1 <= n <= |lines| && |lines[n - 1]| > MaxLineLength
  {
    var w := StyleWarningAt(LongLine, n);
    InPerLine(lines, |lines|, LongLineOf, w);
    if w in PerLine(lines, |lines|, LongLineOf) {
      var k :| 0 <= k < |lines| && w in LongLineOf(lines[k], k + 1);
      assert k + 1 == n;
    }
    if 1 <= n <= |lines| && |lines[n - 1]| > MaxLineLength {
      assert w in LongLineOf(lines[n - 1], n - 1 + 1);
    }
  }

  /** The trailing-whitespace warning falls exactly on the lines that end in whitespace. */
  lemma TrailingIff(lines: seq<string>, n: nat)
    ensures StyleWarningAt(TrailingWhitespace, n) in PerLine(lines, |lines|, TrailingOf) <==>
      1 <= n <= |lines| && lines[n - 1] != [] && IsSpace(lines[n - 1][|lines[n - 1]| - 1])
  {
    var w := StyleWarningAt(TrailingWhitespace, n);
    InPerLine(lines, |lines|, TrailingOf, w);
    if w in PerLine(lines, |lines|, TrailingOf) {
      var k :| 0 <= k < |lines| && w in TrailingOf(lines[k], k + 1);
      assert k + 1 == n;
      TrimEndChanges(lines[k]);
    }
    if 1 <= n <= |lines| && lines[n - 1] != [] && IsSpace(lines[n - 1][|lines[n - 1]| - 1]) {
      TrimEndChanges(lines[n - 1]);
      assert w in TrailingOf(lines[n - 1], n - 1 + 1);
    }
  }

  // ---------------------------------------------------------------------------------------------
  // validateAccessibility

  function A11y(message: Message, n: nat): ValidationSuggestion
  {
    ValidationSuggestion(AccessibilitySuggestion, message, Some(n), Hint(message))
  }

  predicate VagueText(text: string)
  {
    ToLower(text) == "click here" || ToLower(text) == "here"
  }

  function LinkSuggestions(links: seq<Link>, n: nat): (r: seq<ValidationSuggestion>)
    ensures A11y(ClickHere, n) in r <==> exists l :: l in links && VagueText(l.text)
    ensures A11y(UrlAsText, n) in r <==> exists l :: l in links && l.text == l.url
    ensures A11y(MissingAlt, n) !in r
  {
    if links == [] then []
    else
      (if VagueText(links[0].text) then [A11y(ClickHere, n)] else [])
      + (if links[0].text == links[0].url then [A11y(UrlAsText, n)] else [])
      + LinkSuggestions(links[1..], n)
  }

  function AltSuggestions(images: seq<Link>, n: nat): (r: seq<ValidationSuggestion>)
    ensures forall x :: x in r ==> x == A11y(MissingAlt, n)
    ensures r != [] <==> exists l :: l in images && IsBlank(l.text)
  {
    if images == [] then []
    else (if IsBlank(images[0].text) then [A11y(MissingAlt, n)] else []) + AltSuggestions(images[1..], n)
  }

  function LinkSuggestionsOfLine(line: string, n: nat): seq<ValidationSuggestion>
  {
    LinkSuggestions(Links(line, 0), n)
  }

  function AltSuggestionsOfLine(line: string, n: nat): seq<ValidationSuggestion>
  {
    AltSuggestions(Images(line, 0), n)
  }

  function AccessibilitySuggestions(lines: seq<string>): seq<ValidationSuggestion>
  {
    PerLine(lines, |lines|, LinkSuggestionsOfLine) + PerLine(lines, |lines|, AltSuggestionsOfLine)
  }

  // ---------------------------------------------------------------------------------------------
  // validateBestPractices

  function Improvement(message: Message): ValidationSuggestion
  {
    ValidationSuggestion(ImprovementSuggestion, message, None, Hint(message))
  }

  /** The class `\w`. */
  predicate IsWordChar(c: char)
  {
    'a' <= c <= 'z' || 'A' <= c <= 'Z' || '0' <= c <= '9' || c == '_'
  }

  function WordRunEnd(s: string, from: nat): (r: nat)
    requires from <= |s|
    ensures from <= r <= |s| && (r == |s| || !IsWordChar(s[r]))
    ensures forall j :: from <= j < r ==> IsWordChar(s[j])
    decreases |s| - from
  {
    if from < |s| && IsWordChar(s[from]) then WordRunEnd(s, from + 1) else from
  }

  /** The match of `/```(\w+)?\n/` at `i`: whether the language group matched, and the match's end.
      The greedy `\w+` can only give back word characters, never the newline the pattern needs. */
  function FenceAt(s: string, i: nat): (r: Option<(bool, nat)>)
    ensures r.Some? ==> i < r.value.1 <= |s| && s[r.value.1 - 1] == '\n'
    ensures r.Some? ==> (r.value.0 <==> r.value.1 > i + 4)
  {
    if OccursAt(s, "```", i) then
      var j := WordRunEnd(s, i + 3);
      if j < |s| && s[j] == '\n' then Some((j > i + 3, j + 1)) else None
    else None
  }

  /** The suggestions of the `while (exec)` loop over the whole content, from index `from`. */
  function FenceSuggestions(s: string, from: nat): seq<ValidationSuggestion>
    decreases |s| - from
  {
    if from >= |s| then []
    else match FenceAt(s, from)
      case Some((hasLanguage, e)) =>
        (if hasLanguage then [] else [Improvement(MissingLanguage)]) + FenceSuggestions(s, e)
      case None => FenceSuggestions(s, from + 1)
  }

  /** As written the pattern also matches closing fences: a block fenced as "```js\n…\n```\n" with a
      language still draws the suggestion, from its closing fence. */
  lemma ClosingFenceDrawsSuggestion(body: string)
    requires NoChar(body, '`')
    ensures FenceSuggestions("```js\n" + body + "\n```\n", 0) == [Improvement(MissingLanguage)]
  {
    var s := "```js\n" + body + "\n```\n";
    var close := 6 + |body| + 1;
    OpeningFence(body);
    BodyHasNoFence(body);
    NoFencesBetween(s, 6, close);
    ClosingFence(body);
  }

  lemma OpeningFence(body: string)
    ensures FenceAt("```js\n" + body + "\n```\n", 0) == Some((true, 6))
  {
    var s := "```js\n" + body + "\n```\n";
    assert s[..3] == "```";
    assert s[3] == 'j' && s[4] == 's' && s[5] == '\n';
    assert WordRunEnd(s, 5) == 5;
    assert WordRunEnd(s, 3) == 5;
  }

  lemma BodyHasNoFence(body: string)
    requires NoChar(body, '`')
    ensures var s := "```js\n" + body + "\n```\n";
      forall t :: 6 <= t < 6 + |body| + 1 ==> FenceAt(s, t).None?
  {
    var s := "```js\n" + body + "\n```\n";
    forall t | 6 <= t < 6 + |body| + 1
      ensures FenceAt(s, t).None?
    {
      if t < 6 + |body| {
        assert s[t] == body[t - 6];
      } else {
        assert s[t] == '\n';
      }
    }
  }

  lemma ClosingFence(body: string)
    ensures var s := "```js\n" + body + "\n```\n";
      FenceAt(s, 6 + |body| + 1) == Some((false, |s|))
  {
    var s := "```js\n" + body + "\n```\n";
    var close := 6 + |body| + 1;
    assert s[close..close + 3] == "```";
    assert WordRunEnd(s, close + 3) == close + 3;
  }

  lemma {:induction false} NoFencesBetween(s: string, from: nat, to: nat)
    requires from <= to <= |s|
    requires forall t :: from <= t < to ==> FenceAt(s, t).None?
    ensures FenceSuggestions(s, from) == FenceSuggestions(s, to)
    decreases (to as int) - (from as int)
  {
    if from < to {
      NoFencesBetween(s, from + 1, to);
    }
  }

  /** `/^\|[\s\-:|]+\|$/` without the `m` flag: the whole line is a separator row. */
  predicate IsSeparatorRow(line: string)
  {
    && |line| >= 3 && line[0] == '|' && line[|line| - 1] == '|'
    && forall i :: 1 <= i < |line| - 1 ==> IsSpace(line[i]) || line[i] == '-' || line[i] == ':' || line[i] == '|'
  }

  function TableSuggestions(lines: seq<string>): (r: seq<ValidationSuggestion>)
    ensures r != [] <==>
      (exists i :: 0 <= i < |lines| && Contains(lines[i], "|"))
      && (forall i :: 0 <= i < |lines| && Contains(lines[i], "|") ==> !IsSeparatorRow(lines[i]))
  {
    var hasTable := exists i :: 0 <= i < |lines| && Contains(lines[i], "|");
    var hasSeparator := exists i :: 0 <= i < |lines| && Contains(lines[i], "|") && IsSeparatorRow(lines[i]);
    if hasTable && !hasSeparator then [Improvement(MissingTableSeparator)] else []
  }

  predicate IsMarker(c: char)
  {
    c == '-' || c == '*' || c == '+'
  }

  /** `^` under the `m` flag: the start of the content or just after a line terminator. */
  predicate LineStart(s: string, i: nat)
  {
    i == 0 || (i <= |s| && IsLineTerminator(s[i - 1]))
  }

  /** The match of `/^[\s]*[-*+]\s/m` at `i`: the greedy whitespace run (which may cross lines) must
      be followed by a marker and one whitespace character; shorter runs end on whitespace, not on a
      marker. The result is the match's end. */
  function ListItemAt(s: string, i: nat): (r: Option<nat>)
    ensures r.Some? ==> i < r.value <= |s|
  {
    if i <= |s| && LineStart(s, i) then
      var j := SkipSpaces(s, i);
      if j + 1 < |s| && IsMarker(s[j]) && IsSpace(s[j + 1]) then Some(j + 2) else None
    else None
  }

  function ListItems(s: string, from: nat): seq<string>
    decreases |s| - from
  {
    if from >= |s| then []
    else match ListItemAt(s, from)
      case Some(e) => [s[from..e]] + ListItems(s, e)
      case None => ListItems(s, from + 1)
  }

  /** `/^[\s]*[-*+]\s{2,}/` on one matched item. */
  predicate WideItem(item: string)
  {
    var j := SkipSpaces(item, 0);
    j + 2 < |item| && IsMarker(item[j]) && IsSpace(item[j + 1]) && IsSpace(item[j + 2])
  }

  function ListSuggestions(content: string): seq<ValidationSuggestion>
  {
    var items := ListItems(content, 0);
    if exists i :: 0 <= i < |items| && WideItem(items[i]) then [Improvement(ListSpacing)] else []
  }

  /** Every item the list pattern matches ends one character after its marker, so the wider pattern
      never matches it. */
  lemma {:induction false} ListItemsNeverWide(s: string, from: nat)
    ensures forall i :: 0 <= i < |ListItems(s, from)| ==> !WideItem(ListItems(s, from)[i])
    decreases |s| - from
  {
    if from < |s| {
      match ListItemAt(s, from)
      case Some(e) =>
        ListItemsNeverWide(s, e);
        var item := s[from..e];
        var j := SkipSpaces(s, from);
        assert e == j + 2;
        assert forall t :: 0 <= t < j - from ==> IsSpace(item[t]);
        assert !IsSpace(item[j - from]);
        SkipSpacesIs(item, 0, j - from);
        assert [item] + ListItems(s, e) == ListItems(s, from);
      case None =>
        ListItemsNeverWide(s, from + 1);
    }
  }

  lemma {:induction false} SkipSpacesIs(s: string, from: nat, k: nat)
    requires from <= k < |s| && !IsSpace(s[k]) && forall t :: from <= t < k ==> IsSpace(s[t])
    ensures SkipSpaces(s, from) == k
    decreases k - from
  {
    if from < k {
      SkipSpacesIs(s, from + 1, k);
    }
  }

  /** So the list-spacing suggestion is never made. */
  lemma ListSpacingNeverSuggested(content: string)
    ensures ListSuggestions(content) == []
  {
    ListItemsNeverWide(content, 0);
  }

  function BestPracticeSuggestions(content: string): seq<ValidationSuggestion>
  {
    FenceSuggestions(content, 0) + TableSuggestions(Lines(content)) + ListSuggestions(content)
  }

  // ---------------------------------------------------------------------------------------------
  // validateMarkdownContent, quickValidate, validateDocumentType

  function ErrorCount(errors: seq<ValidationError>): (n: nat)
    ensures n <= |errors|
    ensures n == 0 <==> forall i :: 0 <= i < |errors| ==> errors[i].severity != Error
  {
    if errors == [] then 0
    else ErrorCount(errors[..|errors| - 1]) + (if errors[|errors| - 1].severity == Error then 1 else 0)
  }

  /** The combined result: syntax then structure errors, quality warnings, accessibility then
      best-practice suggestions; valid exactly when no collected error has severity `error`. */
  function Validate(content: string): (r: ValidationResult)
    ensures r.isValid <==> forall i :: 0 <= i < |r.errors| ==> r.errors[i].severity != Error
  {
    var lines := Lines(content);
    var errors := SyntaxErrors(lines) + StructureErrors(lines);
    ValidationResult(
      ErrorCount(errors) == 0,
      errors,
      QualityWarnings(lines),
      AccessibilitySuggestions(lines) + BestPracticeSuggestions(content))
  }

  /** Structure issues are warnings: they never make a document invalid; syntax errors always do. */
  lemma ValidIffNoSyntaxErrors(content: string)
    ensures Validate(content).isValid <==> SyntaxErrors(Lines(content)) == []
  {
    var lines := Lines(content);
    var errors := SyntaxErrors(lines) + StructureErrors(lines);
    if SyntaxErrors(lines) != [] {
      var e := SyntaxErrors(lines)[0];
      SyntaxErrorShape(lines, e);
      assert errors[0] == e;
    }
  }

  datatype QuickResult = QuickResult(isValid: bool, errorCount: nat)

  function QuickValidate(content: string): (r: QuickResult)
    ensures r.errorCount == ErrorCount(Validate(content).errors)
    ensures r.isValid == Validate(content).isValid
  {
    var errorCount := ErrorCount(Validate(content).errors);
    QuickResult(errorCount == 0, errorCount)
  }

  datatype DocType = Docs | Changelog | Faq


  predicate IsDigitOrDot(c: char)
  {
    '0' <= c <= '9' || c == '.'
  }

  function DigitDotRunEnd(s: string, from: nat): (r: nat)
    requires from <= |s|
    ensures from <= r <= |s| && (r == |s| || !IsDigitOrDot(s[r]))
    ensures forall j :: from <= j < r ==> IsDigitOrDot(s[j])
    decreases |s| - from
  {
    if from < |s| && IsDigitOrDot(s[from]) then DigitDotRunEnd(s, from + 1) else from
  }

  /** `/## \[[\d.]+\]/` matches at `i`. */
  predicate VersionHeaderAt(s: string, i: nat)
  {
    OccursAt(s, "## [", i) && var j := DigitDotRunEnd(s, i + 4); j > i + 4 && j < |s| && s[j] == ']'
  }

  predicate HasVersionHeader(s: string)
  {
    exists i :: 0 <= i < |s| && VersionHeaderAt(s, i)
  }

  /** The first line terminator at or after `from`, or the end. */
  function LineEnd(s: string, from: nat): (r: nat)
    requires from <= |s|
    ensures from <= r <= |s| && (r == |s| || IsLineTerminator(s[r]))
    ensures forall j :: from <= j < r ==> !IsLineTerminator(s[j])
    decreases |s| - from
  {
    if from < |s| && !IsLineTerminator(s[from]) then LineEnd(s, from + 1) else from
  }

  /** The last `?` in `s[lo..hi]`. */
  function LastQuestionMark(s: string, lo: nat, hi: nat): (r: Option<nat>)
    requires lo <= hi <= |s|
    ensures r.Some? ==> lo <= r.value < hi && s[r.value] == '?'
    ensures r.Some? ==> forall j :: r.value < j < hi ==> s[j] != '?'
    ensures r.None? ==> forall j :: lo <= j < hi ==> s[j] != '?'
    decreases hi - lo
  {
    if hi == lo then None else if s[hi - 1] == '?' then Some(hi - 1) else LastQuestionMark(s, lo, hi - 1)
  }

  /** The match of `/### .*\?/` at `i`: the greedy `.*` stops at the end of the line and gives back
      characters until the last `?` of that line. The result is the match's end. */
  function QuestionAt(s: string, i: nat): (r: Option<nat>)
    ensures r.Some? ==> i < r.value <= |s|
  {
    if OccursAt(s, "### ", i) then
      match LastQuestionMark(s, i + 4, LineEnd(s, i + 4))
      case Some(q) => Some(q + 1)
      case None => None
    else None
  }

  /** The number of matches of `content.match(/### .*\?/g)`, scanning from `from`. */
  function QuestionCount(s: string, from: nat): nat
    decreases |s| - from
  {
    if from >= |s| then 0
    else match QuestionAt(s, from)
      case Some(e) => 1 + QuestionCount(s, e)
      case None => QuestionCount(s, from + 1)
  }

  /** The issues `validateDocumentType` adds for the given type. */
  function TypeErrors(content: string, t: DocType): (r: seq<ValidationError>)
    ensures |r| <= 1
    ensures forall e :: e in r ==> e.kind == Content && e.severity == Warning && e.line == None
    ensures t == Docs ==> (r != [] <==> !Contains(content, "## Installation") && !Contains(content, "## Getting Started"))
    ensures t == Changelog ==> (r != [] <==> !HasVersionHeader(content))
    ensures t == Faq ==> (r != [] <==> QuestionCount(content, 0) < 2)
  {
    match t
    case Docs =>
      if !Contains(content, "## Installation") && !Contains(content, "## Getting Started")
      then [ValidationError(Content, NoSetupSection, None, Warning)] else []
    case Changelog =>
      if !HasVersionHeader(content) then [ValidationError(Content, NoVersionHeader, None, Warning)] else []
    case Faq =>
      if QuestionCount(content, 0) < 2 then [ValidationError(Content, FewQuestions, None, Warning)] else []
  }

  /** The base result with the type issues appended; valid only if the base is valid and no type issue
      was added, although those issues are only warnings. */
  function ValidateDocumentType(content: string, t: DocType): (r: ValidationResult)
    ensures r.errors == Validate(content).errors + TypeErrors(content, t)
    ensures r.warnings == Validate(content).warnings && r.suggestions == Validate(content).suggestions
    ensures r.isValid <==> Validate(content).isValid && TypeErrors(content, t) == []
  {
    var base := Validate(content);
    var extra := TypeErrors(content, t);
    base.(errors := base.errors + extra, isValid := base.isValid && |extra| == 0)
  }

  /** A type issue makes the result invalid even though its severity is only `warning`: the result's
      validity then disagrees with the severity rule of `validateMarkdownContent`. */
  lemma TypeWarningInvalidates(content: string, t: DocType)
    requires Validate(content).isValid && TypeErrors(content, t) != []
    ensures !ValidateDocumentType(content, t).isValid
    ensures forall e :: e in ValidateDocumentType(content, t).errors ==> e.severity != Error
  {
    var base := Validate(content);
    forall e | e in base.errors ensures e.severity != Error {
      var i :| 0 <= i < |base.errors| && base.errors[i] == e;
    }
  }

  // ---------------------------------------------------------------------------------------------
  // The validators as the source runs them

  method ValidateSyntax(content: string) returns (errors: seq<ValidationError>)
    ensures errors == SyntaxErrors(Lines(content))
  {
    var lines := Lines(content);
    errors := [];
    var index := 0;
    while index < |lines|
      invariant 0 <= index <= |lines|
      invariant errors == PerLine(lines, index, SyntaxErrorsOfLine)
    {
      var found := CheckLineSyntax(lines[index], index + 1);
      errors := errors + found;
      index := index + 1;
    }
  }

  /** The body of `validateSyntax`'s `forEach` for one line. */
  method CheckLineSyntax(line: string, lineNumber: nat) returns (found: seq<ValidationError>)
    ensures found == SyntaxErrorsOfLine(line, lineNumber)
  {
    found := [];
    if Contains(line, "```") && !StartsWith(Trim(line), "```") {
      found := found + [SyntaxError(MisplacedFence, lineNumber)];
    }
    assert found == Flag(FenceMisplaced(line), SyntaxError(MisplacedFence, lineNumber));
    ghost var upToBold := found;
    if Count(line, "**") % 2 != 0 {
      found := found + [SyntaxError(UnclosedBold, lineNumber)];
    }
    assert found == upToBold + Flag(Count(line, "**") % 2 != 0, SyntaxError(UnclosedBold, lineNumber));
    ghost var upToItalic := found;
    if Count(line, "*") % 2 != 0 {
      found := found + [SyntaxError(UnclosedItalic, lineNumber)];
    }
    assert found == upToItalic + Flag(Count(line, "*") % 2 != 0, SyntaxError(UnclosedItalic, lineNumber));
    ghost var upToCode := found;
    if Count(line, "`") % 2 != 0 {
      found := found + [SyntaxError(UnclosedCode, lineNumber)];
    }
    assert found == upToCode + Flag(Count(line, "`") % 2 != 0, SyntaxError(UnclosedCode, lineNumber));
    var linkErrors := CheckLinks(line, lineNumber);
    found := found + linkErrors;
  }

  /** One `linkRegex.exec(line)` from `pos`: what it pushes, and where the next search starts. */
  method NextLink(line: string, pos: nat, n: nat) returns (pushed: seq<ValidationError>, next: nat)
    requires pos < |line|
    ensures pos < next
    ensures EmptyLinkErrors(Links(line, pos), n) == pushed + EmptyLinkErrors(Links(line, next), n)
  {
    LinkErrorsStep(line, pos, n);
    var found := LinkAt(line, pos);
    if found.Some? {
      // `if (!url.trim()) errors.push(...)`
      pushed := Flag(IsBlank(found.value.0.url), SyntaxError(EmptyLinkUrl, n));
      next := found.value.1;
    } else {
      pushed := [];
      next := pos + 1;
    }
  }

  /** The `exec` loop over a line's links, pushing an error for each link with a blank URL. */
  method CheckLinks(line: string, lineNumber: nat) returns (linkErrors: seq<ValidationError>)
    ensures linkErrors == EmptyLinkErrors(Links(line, 0), lineNumber)
  {
    ghost var all := EmptyLinkErrors(Links(line, 0), lineNumber);
    var pos := 0;
    linkErrors := [];
    while pos < |line|
      invariant linkErrors + EmptyLinkErrors(Links(line, pos), lineNumber) == all
      decreases |line| - pos
    {
      var pushed, next := NextLink(line, pos, lineNumber);
      ghost var rest := EmptyLinkErrors(Links(line, next), lineNumber);
      assert linkErrors + (pushed + rest) == (linkErrors + pushed) + rest;
      linkErrors := linkErrors + pushed;
      pos := next;
    }
  }

  method ValidateStructure(content: string) returns (errors: seq<ValidationError>)
    ensures errors == StructureErrors(Lines(content))
  {
    var lines := Lines(content);
    errors := [];
    var hasHeading := AnyHeading(lines);
    if !hasHeading {
      errors := errors + [ValidationError(Structure, NoHeading, None, Warning)];
    }
    var hierarchy := CheckHierarchy(lines);
    errors := errors + hierarchy;
  }

  /** `lines.some(line => line.trim().startsWith('#'))` */
  method AnyHeading(lines: seq<string>) returns (hasHeading: bool)
    ensures hasHeading == HasHeading(lines)
  {
    hasHeading := false;
    var i := 0;
    while i < |lines| && !hasHeading
      invariant 0 <= i <= |lines|
      invariant hasHeading <==> exists j :: 0 <= j < i && IsHeading(lines[j])
    {
      hasHeading := IsHeading(lines[i]);
      i := i + 1;
    }
  }

  /** The heading-hierarchy `forEach`, tracking the current level. */
  method CheckHierarchy(lines: seq<string>) returns (warnings: seq<ValidationError>)
    ensures warnings == HierarchyWarnings(lines, |lines|)
  {
    warnings := [];
    var currentLevel := 0;
    var index := 0;
    while index < |lines|
      invariant 0 <= index <= |lines|
      invariant warnings == HierarchyWarnings(lines, index) && currentLevel == LastLevel(lines, index)
    {
      var trimmed := Trim(lines[index]);
      if StartsWith(trimmed, "#") {
        var level := LeadingHashes(trimmed);
        if level > currentLevel + 1 {
          warnings := warnings + [ValidationError(Structure, SkippedLevel(level, currentLevel + 1), Some(index + 1), Warning)];
        }
        currentLevel := level;
      }
      index := index + 1;
    }
  }

  method CheckLongLines(lines: seq<string>) returns (long: seq<ValidationWarning>)
    ensures long == PerLine(lines, |lines|, LongLineOf)
  {
    long := [];
    var index := 0;
    while index < |lines|
      invariant 0 <= index <= |lines|
      invariant long == PerLine(lines, index, LongLineOf)
    {
      if |lines[index]| > MaxLineLength {
        long := long + [StyleWarningAt(LongLine, index + 1)];
      }
      index := index + 1;
    }
  }

  /** The `consecutiveBlanks` counter loop. */
  method CheckBlankLines(lines: seq<string>) returns (blanks: seq<ValidationWarning>)
    ensures blanks == BlankWarnings(lines, |lines|)
  {
    blanks := [];
    var consecutiveBlanks := 0;
    var index := 0;
    while index < |lines|
      invariant 0 <= index <= |lines|
      invariant blanks == BlankWarnings(lines, index) && consecutiveBlanks == BlankRun(lines, index)
    {
      var blank := IsBlank(lines[index]);
      assert BlankRun(lines, index + 1) == if blank then consecutiveBlanks + 1 else 0;
      assert BlankWarnings(lines, index + 1) == blanks
        + if blank && consecutiveBlanks + 1 > 2 then [StyleWarningAt(TooManyBlankLines, index + 1)] else [];
      if blank {
        consecutiveBlanks := consecutiveBlanks + 1;
        if consecutiveBlanks > 2 {
          blanks := blanks + [StyleWarningAt(TooManyBlankLines, index + 1)];
        }
      } else {
        consecutiveBlanks := 0;
      }
      index := index + 1;
    }
  }

  method CheckTrailing(lines: seq<string>) returns (trailing: seq<ValidationWarning>)
    ensures trailing == PerLine(lines, |lines|, TrailingOf)
  {
    trailing := [];
    var index := 0;
    while index < |lines|
      invariant 0 <= index <= |lines|
      invariant trailing == PerLine(lines, index, TrailingOf)
    {
      if lines[index] != TrimEnd(lines[index]) {
        trailing := trailing + [StyleWarningAt(TrailingWhitespace, index + 1)];
      }
      index := index + 1;
    }
  }

  method ValidateContentQuality(content: string) returns (warnings: seq<ValidationWarning>)
    ensures warnings == QualityWarnings(Lines(content))
  {
    var lines := Lines(content);
    var long := CheckLongLines(lines);
    var blanks := CheckBlankLines(lines);
    var trailing := CheckTrailing(lines);
    warnings := long + blanks + trailing;
  }

  method ValidateAccessibility(content: string) returns (suggestions: seq<ValidationSuggestion>)
    ensures suggestions == AccessibilitySuggestions(Lines(content))
  {
    var lines := Lines(content);
    var links := [];
    var index := 0;
    while index < |lines|
      invariant 0 <= index <= |lines|
      invariant links == PerLine(lines, index, LinkSuggestionsOfLine)
    {
      links := links + LinkSuggestionsOfLine(lines[index], index + 1);
      index := index + 1;
    }
    var images := [];
    index := 0;
    while index < |lines|
      invariant 0 <= index <= |lines|
      invariant images == PerLine(lines, index, AltSuggestionsOfLine)
    {
      images := images + AltSuggestionsOfLine(lines[index], index + 1);
      index := index + 1;
    }
    suggestions := links + images;
  }

  /** One `codeBlockRegex.exec(content)` from `pos`: what it pushes, and where the next search starts. */
  method NextFence(content: string, pos: nat) returns (pushed: seq<ValidationSuggestion>, next: nat)
    requires pos < |content|
    ensures pos < next
    ensures FenceSuggestions(content, pos) == pushed + FenceSuggestions(content, next)
  {
    var found := FenceAt(content, pos);
    if found.Some? {
      // `if (!match[1]) suggestions.push(...)`
      pushed := Flag(!found.value.0, Improvement(MissingLanguage));
      next := found.value.1;
    } else {
      pushed := [];
      next := pos + 1;
    }
  }

  /** The `while (exec)` loop over the content's code fences. */
  method CheckFences(content: string) returns (suggestions: seq<ValidationSuggestion>)
    ensures suggestions == FenceSuggestions(content, 0)
  {
    ghost var all := FenceSuggestions(content, 0);
    suggestions := [];
    var pos := 0;
    while pos < |content|
      invariant suggestions + FenceSuggestions(content, pos) == all
      decreases |content| - pos
    {
      var pushed, next := NextFence(content, pos);
      ghost var rest := FenceSuggestions(content, next);
      assert suggestions + (pushed + rest) == (suggestions + pushed) + rest;
      suggestions := suggestions + pushed;
      pos := next;
    }
  }

  method ValidateBestPractices(content: string) returns (suggestions: seq<ValidationSuggestion>)
    ensures suggestions == BestPracticeSuggestions(content)
  {
    suggestions := CheckFences(content);
    suggestions := suggestions + TableSuggestions(Lines(content)) + ListSuggestions(content);
  }

  method ValidateMarkdownContent(content: string) returns (result: ValidationResult)
    ensures result == Validate(content)
  {
    var syntaxErrors := ValidateSyntax(content);
    var structureErrors := ValidateStructure(content);
    var contentWarnings := ValidateContentQuality(content);
    var accessibility := ValidateAccessibility(content);
    var bestPractice := ValidateBestPractices(content);
    var errors := syntaxErrors + structureErrors;
    result := ValidationResult(ErrorCount(errors) == 0, errors, contentWarnings, accessibility + bestPractice);
  }
}
