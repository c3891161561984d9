/**
 * The markdown helpers of lib/markdown-utils.ts: splitting a document into its top-level
 * sections, the table of contents over its second-level headings, the fence and emphasis
 * parity check, and the word count and reading time.
 */
module MarkdownUtils {
  import opened Wrappers
  import opened Text

  datatype SectionType = Docs | Changelog | Faq

  datatype MarkdownSection = MarkdownSection(title: string, content: string, sectionType: SectionType)

  // ---------------------------------------------------------------------------------------------
  // Lines that start with a marker

  /** The indices, below `k`, of the lines that start with `p`, in increasing order. */
  function Indices(lines: seq<string>, k: nat, p: string): (r: seq<nat>)
    requires k <= |lines|
    ensures forall j :: 0 <= j < |r| ==> r[j] < k && StartsWith(lines[r[j]], p)
  {
    if k == 0 then []
    else Indices(lines, k - 1, p) + (if StartsWith(lines[k - 1], p) then [k - 1] else [])
  }

  /** Exactly the lines below `k` that start with `p` are listed, each once, in increasing order. */
  lemma {:induction false} IndicesSpec(lines: seq<string>, k: nat, p: string)
    requires k <= |lines|
    ensures forall j :: 0 <= j < |Indices(lines, k, p)| ==>
      Indices(lines, k, p)[j] < k && StartsWith(lines[Indices(lines, k, p)[j]], p)
    ensures forall i, j :: 0 <= i < j < |Indices(lines, k, p)| ==> Indices(lines, k, p)[i] < Indices(lines, k, p)[j]
    ensures forall i :: 0 <= i < k && StartsWith(lines[i], p) ==> i in Indices(lines, k, p)
  {
    if k > 0 {
      IndicesSpec(lines, k - 1, p);
    }
  }

  /** The last listed line, if any, is the last line below `k` that starts with `p`. */
  lemma LastIndex(lines: seq<string>, k: nat, p: string)
    requires k <= |lines| && Indices(lines, k, p) != []
    ensures var hs := Indices(lines, k, p);
      forall i :: hs[|hs| - 1] < i < k ==> !StartsWith(lines[i], p)
  {
    IndicesSpec(lines, k, p);
    var hs := Indices(lines, k, p);
    forall i | hs[|hs| - 1] < i < k
      ensures !StartsWith(lines[i], p)
    {
      forall j | 0 <= j < |hs|
        ensures hs[j] != i
      {
        if j < |hs| - 1 {
          assert hs[j] < hs[|hs| - 1];
        }
      }
    }
  }

  // ---------------------------------------------------------------------------------------------
  // extractSections

  /** A line that opens a section: it starts with `"# "`. */
  predicate IsSectionHeading(line: string)
  {
    StartsWith(line, "# ")
  }

  /** The section opened at line `h` and running up to, not including, line `end`: the heading's
      text after `"# "`, trimmed, and the lines in between, joined and trimmed. */
  function SectionOf(lines: seq<string>, h: nat, end: nat): MarkdownSection
    requires h < end <= |lines| && |lines[h]| >= 2
  {
    MarkdownSection(Trim(lines[h][2..]), Trim(Join(lines[h + 1..end], "\n")), Docs)
  }

  /** The sections of the first `k` lines: one per heading, in order, the last running to line `k`.
      Lines before the first heading belong to no section. */
  function SectionsUpTo(lines: seq<string>, k: nat): (r: seq<MarkdownSection>)
    requires k <= |lines|
    ensures |r| == |Indices(lines, k, "# ")|
  {
    var hs := Indices(lines, k, "# ");
    IndicesSpec(lines, k, "# ");
    seq(|hs|, j requires 0 <= j < |hs| => SectionOf(lines, hs[j], if j + 1 < |hs| then hs[j + 1] else k))
  }

  /** `extractSections(content)`, as a definition over the content's lines. */
  function Sections(content: string): seq<MarkdownSection>
  {
    SectionsUpTo(Lines(content), |Lines(content)|)
  }

  /** A heading at line `k` closes the open section at `k` and opens a new, empty one. */
  lemma SectionsAtHeading(lines: seq<string>, k: nat)
    requires k < |lines| && IsSectionHeading(lines[k])
    ensures SectionsUpTo(lines, k + 1) == SectionsUpTo(lines, k) + [SectionOf(lines, k, k + 1)]
  {
    var hs := Indices(lines, k, "# ");
    assert Indices(lines, k + 1, "# ") == hs + [k];
    IndicesSpec(lines, k, "# ");
    var a := SectionsUpTo(lines, k + 1);
    var b := SectionsUpTo(lines, k) + [SectionOf(lines, k, k + 1)];
    assert |a| == |b|;
    forall j | 0 <= j < |a|
      ensures a[j] == b[j]
    {
    }
  }

  /** Any other line at `k` extends the open section, if there is one. */
  lemma SectionsAtOther(lines: seq<string>, k: nat)
    requires k < |lines| && !IsSectionHeading(lines[k])
    ensures var hs := Indices(lines, k, "# ");
      hs == [] ==> SectionsUpTo(lines, k + 1) == []
    ensures var hs := Indices(lines, k, "# ");
      hs != [] ==>
        SectionsUpTo(lines, k + 1) == SectionsUpTo(lines, k)[..|hs| - 1] + [SectionOf(lines, hs[|hs| - 1], k + 1)]
  {
    var hs := Indices(lines, k, "# ");
    assert Indices(lines, k + 1, "# ") == hs;
    IndicesSpec(lines, k, "# ");
    if hs != [] {
      var a := SectionsUpTo(lines, k + 1);
      var b := SectionsUpTo(lines, k)[..|hs| - 1] + [SectionOf(lines, hs[|hs| - 1], k + 1)];
      assert |a| == |b|;
      forall j | 0 <= j < |a|
        ensures a[j] == b[j]
      {
      }
    }
  }

  /** The section the loop holds open, with its body still to be joined. */
  function Open(current: Option<MarkdownSection>, body: seq<string>): seq<MarkdownSection>
  {
    if current.Some? then [current.value.(content := Trim(Join(body, "\n")))] else []
  }

  /** The loop's state after the first `k` lines: the open section is the one of the last heading
      so far, holding the lines after it, and the closed ones are all the sections before it. */
  ghost predicate ScanInv(lines: seq<string>, k: nat, sections: seq<MarkdownSection>,
                          current: Option<MarkdownSection>, body: seq<string>)
  {
    && k <= |lines|
    && var hs := Indices(lines, k, "# ");
    && (current.None? <==> hs == [])
    && (current.Some? ==>
          && current.value == MarkdownSection(Trim(lines[hs[|hs| - 1]][2..]), "", Docs)
          && body == lines[hs[|hs| - 1] + 1..k])
    && sections + Open(current, body) == SectionsUpTo(lines, k)
  }

  lemma ScanHeading(lines: seq<string>, k: nat, sections: seq<MarkdownSection>,
                    current: Option<MarkdownSection>, body: seq<string>)
    requires ScanInv(lines, k, sections, current, body) && k < |lines| && IsSectionHeading(lines[k])
    ensures ScanInv(lines, k + 1, sections + Open(current, body),
                    Some(MarkdownSection(Trim(lines[k][2..]), "", Docs)), [])
  {
    SectionsAtHeading(lines, k);
    assert Indices(lines, k + 1, "# ") == Indices(lines, k, "# ") + [k];
  }

  /** At any other line, the line joins the open section's body. */
  lemma ScanOther(lines: seq<string>, k: nat, sections: seq<MarkdownSection>,
                  current: MarkdownSection, body: seq<string>)
    requires ScanInv(lines, k, sections, Some(current), body) && k < |lines| && !IsSectionHeading(lines[k])
    ensures ScanInv(lines, k + 1, sections, Some(current), body + [lines[k]])
  {
    var hs := Indices(lines, k, "# ");
    ScanOtherOpen(lines, k, sections, current, body, hs);
    ScanInvIntro(lines, k + 1, sections, current, body + [lines[k]], hs);
  }

  /** Before the first heading a line opens nothing, and the sections stay empty. */
  lemma ScanOtherNone(lines: seq<string>, k: nat, sections: seq<MarkdownSection>, body: seq<string>)
    requires ScanInv(lines, k, sections, None, body) && k < |lines| && !IsSectionHeading(lines[k])
    ensures ScanInv(lines, k + 1, sections, None, body)
  {
    assert sections + Open(None, body) == sections;
    SectionsAtOther(lines, k);
    assert Indices(lines, k + 1, "# ") == [];
  }

  /** A line that is not a heading joins the open section's body. */
  lemma ScanOtherOpen(lines: seq<string>, k: nat, sections: seq<MarkdownSection>,
                      current: MarkdownSection, body: seq<string>, hs: seq<nat>)
    requires k < |lines| && !IsSectionHeading(lines[k]) && hs == Indices(lines, k, "# ") && hs != []
    requires current == MarkdownSection(Trim(lines[hs[|hs| - 1]][2..]), "", Docs)
    requires body == lines[hs[|hs| - 1] + 1..k]
    requires sections + Open(Some(current), body) == SectionsUpTo(lines, k)
    ensures hs == Indices(lines, k + 1, "# ")
    ensures body + [lines[k]] == lines[hs[|hs| - 1] + 1..k + 1]
    ensures sections + Open(Some(current), body + [lines[k]]) == SectionsUpTo(lines, k + 1)
  {
    SectionsAtOther(lines, k);
    assert Indices(lines, k + 1, "# ") == hs;
    var h := hs[|hs| - 1];
    SliceExtend(lines, h + 1, k);
    OpenIsSection(lines, h, k + 1, current, body + [lines[k]]);
    ExtendOpen(sections, Some(current), body, lines[k], SectionsUpTo(lines, k), SectionsUpTo(lines, k + 1),
               SectionOf(lines, h, k + 1));
  }

  lemma SliceExtend(lines: seq<string>, i: nat, k: nat)
    requires i <= k < |lines|
    ensures lines[i..k] + [lines[k]] == lines[i..k + 1]
  {
  }

  /** The open section, with the body between its heading and `end`, is that heading's section. */
  lemma OpenIsSection(lines: seq<string>, h: nat, end: nat, current: MarkdownSection, body: seq<string>)
    requires h < end <= |lines| && |lines[h]| >= 2
    requires current == MarkdownSection(Trim(lines[h][2..]), "", Docs) && body == lines[h + 1..end]
    ensures Open(Some(current), body) == [SectionOf(lines, h, end)]
  {
  }

  /** Replacing the open section by its extension replaces the last of all the sections. */
  lemma ExtendOpen(sections: seq<MarkdownSection>, current: Option<MarkdownSection>, body: seq<string>,
                   line: string, all: seq<MarkdownSection>, all': seq<MarkdownSection>, section: MarkdownSection)
    requires current.Some? && sections + Open(current, body) == all
    requires |all| >= 1 && all' == all[..|all| - 1] + [section] && Open(current, body + [line]) == [section]
    ensures sections + Open(current, body + [line]) == all'
  {
    assert sections == all[..|all| - 1];
  }

  /** The invariant with a section open, from its parts. */
  lemma ScanInvIntro(lines: seq<string>, k: nat, sections: seq<MarkdownSection>, current: MarkdownSection,
                     body: seq<string>, hs: seq<nat>)
    requires k <= |lines| && hs == Indices(lines, k, "# ") && hs != []
    requires current == MarkdownSection(Trim(lines[hs[|hs| - 1]][2..]), "", Docs)
    requires body == lines[hs[|hs| - 1] + 1..k]
    requires sections + Open(Some(current), body) == SectionsUpTo(lines, k)
    ensures ScanInv(lines, k, sections, Some(current), body)
  {
  }

  /** One pass of the `for (const line of lines)` body. */
  method ScanLine(ghost lines: seq<string>, ghost k: nat, line: string, sections: seq<MarkdownSection>,
                  currentSection: Option<MarkdownSection>, currentContent: seq<string>)
    returns (sections': seq<MarkdownSection>, currentSection': Option<MarkdownSection>, currentContent': seq<string>)
    requires ScanInv(lines, k, sections, currentSection, currentContent) && k < |lines| && line == lines[k]
    ensures ScanInv(lines, k + 1, sections', currentSection', currentContent')
  {
    sections', currentSection', currentContent' := sections, currentSection, currentContent;
    if StartsWith(line, "# ") {
      ScanHeading(lines, k, sections, currentSection, currentContent);
      if currentSection.Some? {
        // Save previous section
        sections' := sections + [currentSection.value.(content := Trim(Join(currentContent, "\n")))];
      }
      var title := Trim(line[2..]);
      currentSection' := Some(MarkdownSection(title, "", Docs));
      currentContent' := [];
    } else {
      if currentSection.Some? {
        ScanOther(lines, k, sections, currentSection.value, currentContent);
        currentContent' := currentContent + [line];
      } else {
        ScanOtherNone(lines, k, sections, currentContent);
      }
    }
  }

  /** `extractSections`: a loop that closes the open section at each heading and collects the
      other lines into it. */
  method ExtractSections(content: string) returns (sections: seq<MarkdownSection>)
    ensures sections == Sections(content)
  {
    var lines := Lines(content);
    sections := [];
    var currentSection: Option<MarkdownSection> := None;
    var currentContent: seq<string> := [];
    for k := 0 to |lines|
      invariant ScanInv(lines, k, sections, currentSection, currentContent)
    {
      sections, currentSection, currentContent := ScanLine(lines, k, lines[k], sections, currentSection, currentContent);
    }
    ghost var closed := sections;
    // Save last section
    if currentSection.Some? {
      sections := sections + [currentSection.value.(content := Trim(Join(currentContent, "\n")))];
    }
    assert sections == closed + Open(currentSection, currentContent);
  }

  /** One section per `"# "` line, in order, titled by that line; its content is the lines after
      it up to the next `"# "` line or the end, none of them a heading; every section is of type docs. */
  lemma SectionsFollowHeadings(content: string, j: nat)
    requires j < |Sections(content)|
    ensures var lines := Lines(content); var hs := Indices(lines, |lines|, "# ");
      var end := if j + 1 < |hs| then hs[j + 1] else |lines|;
      && |Sections(content)| == |hs|
      && IsSectionHeading(lines[hs[j]])
      && hs[j] < end <= |lines|
      && Sections(content)[j].title == Trim(lines[hs[j]][2..])
      && Sections(content)[j].content == Trim(Join(lines[hs[j] + 1..end], "\n"))
      && (forall i :: hs[j] < i < end ==> !IsSectionHeading(lines[i]))
      && Sections(content)[j].sectionType == Docs
  {
    var lines := Lines(content);
    SectionAt(lines, |lines|, j);
  }

  /** The `j`th section of the first `k` lines runs from its heading to the next one, or to `k`. */
  lemma SectionAt(lines: seq<string>, k: nat, j: nat)
    requires k <= |lines| && j < |SectionsUpTo(lines, k)|
    ensures var hs := Indices(lines, k, "# "); var end := if j + 1 < |hs| then hs[j + 1] else k;
      && IsSectionHeading(lines[hs[j]])
      && hs[j] < end <= k
      && SectionsUpTo(lines, k)[j] == SectionOf(lines, hs[j], end)
      && (forall i :: hs[j] < i < end ==> !IsSectionHeading(lines[i]))
  {
    var hs := Indices(lines, k, "# ");
    if j + 1 < |hs| {
      IndicesIncrease(lines, k, "# ", j);
    }
    NoIndexBetween(lines, k, "# ", j);
  }

  /** Two consecutive listed lines are in increasing order. */
  lemma IndicesIncrease(lines: seq<string>, k: nat, p: string, j: nat)
    requires k <= |lines| && j + 1 < |Indices(lines, k, p)|
    ensures Indices(lines, k, p)[j] < Indices(lines, k, p)[j + 1]
  {
    IndicesSpec(lines, k, p);
  }

  /** No line strictly between two consecutive listed lines (or after the last) starts with `p`. */
  lemma NoIndexBetween(lines: seq<string>, k: nat, p: string, j: nat)
    requires k <= |lines| && j < |Indices(lines, k, p)|
    ensures var hs := Indices(lines, k, p); var end := if j + 1 < |hs| then hs[j + 1] else k;
      forall i :: hs[j] < i < end ==> !StartsWith(lines[i], p)
  {
    IndicesSpec(lines, k, p);
    var hs := Indices(lines, k, p);
    var end := if j + 1 < |hs| then hs[j + 1] else k;
    forall i | hs[j] < i < end
      ensures !StartsWith(lines[i], p)
    {
      SortedGap(hs, j, i, end);
    }
  }

  lemma SortedGap(hs: seq<nat>, j: nat, i: nat, end: nat)
    requires forall a, b :: 0 <= a < b < |hs| ==> hs[a] < hs[b]
    requires j < |hs| && hs[j] < i < end && (j + 1 < |hs| ==> end == hs[j + 1])
    ensures i !in hs
  {
    forall t | 0 <= t < |hs|
      ensures hs[t] != i
    {
      if t < j {
        assert hs[t] < hs[j];
      } else if t > j + 1 {
        assert hs[j + 1] < hs[t];
      }
    }
  }

  /** A document without a `"# "` line has no sections: whatever precedes the first heading is dropped. */
  lemma NoHeadingNoSections(content: string)
    requires forall i :: 0 <= i < |Lines(content)| ==> !IsSectionHeading(Lines(content)[i])
    ensures Sections(content) == []
  {
    var lines := Lines(content);
    NoMatchNoIndices(lines, |lines|, "# ");
  }

  lemma {:induction false} NoMatchNoIndices(lines: seq<string>, k: nat, p: string)
    requires k <= |lines| && forall i :: 0 <= i < k ==> !StartsWith(lines[i], p)
    ensures Indices(lines, k, p) == []
  {
    if k > 0 {
      NoMatchNoIndices(lines, k - 1, p);
    }
  }

  // ---------------------------------------------------------------------------------------------
  // generateTOC

  /** `- [title](#anchor)` for a line that starts with `"## "`. */
  function TocEntry(line: string): string
    requires |line| >= 3
  {
    var title := Trim(line[3..]);
    "- [" + title + "](#" + Anchor(title) + ")"
  }

  /** The entries for the `"## "` lines below `k`, in order. */
  function TocEntries(lines: seq<string>, k: nat): (r: seq<string>)
    requires k <= |lines|
    ensures |r| == |Indices(lines, k, "## ")|
  {
    var hs := Indices(lines, k, "## ");
    IndicesSpec(lines, k, "## ");
    seq(|hs|, j requires 0 <= j < |hs| => TocEntry(lines[hs[j]]))
  }

  lemma TocEntriesStep(lines: seq<string>, k: nat)
    requires k < |lines|
    ensures StartsWith(lines[k], "## ") ==> TocEntries(lines, k + 1) == TocEntries(lines, k) + [TocEntry(lines[k])]
    ensures !StartsWith(lines[k], "## ") ==> TocEntries(lines, k + 1) == TocEntries(lines, k)
  {
    var hs := Indices(lines, k, "## ");
    IndicesSpec(lines, k, "## ");
    if StartsWith(lines[k], "## ") {
      assert Indices(lines, k + 1, "## ") == hs + [k];
      var a := TocEntries(lines, k + 1);
      var b := TocEntries(lines, k) + [TocEntry(lines[k])];
      forall j | 0 <= j < |a|
        ensures a[j] == b[j]
      {
      }
    } else {
      assert Indices(lines, k + 1, "## ") == hs;
    }
  }

  const TocHeader: string := "## Table of Contents\n\n"

  /** The text `generateTOC` returns for the given lines. */
  function Toc(lines: seq<string>): string
  {
    var entries := TocEntries(lines, |lines|);
    if |entries| > 0 then TocHeader + Join(entries, "\n") + "\n\n" else ""
  }

  /** `generateTOC`: the `forEach` pushing one entry per `"## "` line. */
  method GenerateToc(content: string) returns (text: string)
    ensures text == Toc(Lines(content))
  {
    var lines := Lines(content);
    var toc: seq<string> := [];
    for index := 0 to |lines|
      invariant toc == TocEntries(lines, index)
    {
      TocEntriesStep(lines, index);
      var line := lines[index];
      if StartsWith(line, "## ") {
        var title := Trim(line[3..]);
        var anchor := Anchor(title);
        toc := toc + ["- [" + title + "](#" + anchor + ")"];
      }
    }
    text := if |toc| > 0 then TocHeader + Join(toc, "\n") + "\n\n" else "";
  }

  /** The table of contents is empty exactly when no line starts with `"## "`, and otherwise is the
      header, then the entries, then a blank line. */
  lemma TocEmptyIff(lines: seq<string>)
    ensures Toc(lines) == "" <==> forall i :: 0 <= i < |lines| ==> !StartsWith(lines[i], "## ")
    ensures Toc(lines) != "" ==>
      StartsWith(Toc(lines), TocHeader) && Toc(lines)[|Toc(lines)| - 2..] == "\n\n"
  {
    IndicesSpec(lines, |lines|, "## ");
    var hs := Indices(lines, |lines|, "## ");
    if hs != [] {
      assert hs[0] < |lines|;
      assert |Toc(lines)| > 0;
    } else {
      forall i | 0 <= i < |lines|
        ensures !StartsWith(lines[i], "## ")
      {
        assert i !in hs;
      }
    }
  }

  /** Each entry links its title to an anchor made only of `[a-z0-9-]`, without doubled dashes. */
  lemma TocEntryShape(line: string)
    requires |line| >= 3
    ensures var title := Trim(line[3..]); var a := Anchor(title);
      && TocEntry(line) == "- [" + title + "](#" + a + ")"
      && DashChars(a) && NoDoubleDash(a)
  {
    DashifyShape(ToLower(Trim(line[3..])));
  }

  // ---------------------------------------------------------------------------------------------
  // validateMarkdown

  datatype MarkdownCheck = MarkdownCheck(isValid: bool, errors: seq<string>)

  const UnclosedCodeBlock: string := "Unclosed code block detected"
  const UnclosedBoldText: string := "Unclosed bold formatting detected"
  const UnclosedItalicText: string := "Unclosed italic formatting detected"

  function When(b: bool, message: string): (r: seq<string>)
    ensures forall m :: m in r <==> b && m == message
  {
    if b then [message] else []
  }

  /** `validateMarkdown`: one error per odd count of fences, of `**` and of `*`, valid exactly
      when none was reported. */
  function ValidateMarkdown(content: string): (r: MarkdownCheck)
    ensures UnclosedCodeBlock in r.errors <==> Count(content, "```") % 2 != 0
    ensures UnclosedBoldText in r.errors <==> Count(content, "**") % 2 != 0
    ensures UnclosedItalicText in r.errors <==> Count(content, "*") % 2 != 0
    ensures |r.errors| <= 3
    ensures r.isValid <==> r.errors == []
    ensures r.isValid <==>
      Count(content, "```") % 2 == 0 && Count(content, "**") % 2 == 0 && Count(content, "*") % 2 == 0
  {
    var errors := When(Count(content, "```") % 2 != 0, UnclosedCodeBlock)
      + When(Count(content, "**") % 2 != 0, UnclosedBoldText)
      + When(Count(content, "*") % 2 != 0, UnclosedItalicText);
    MarkdownCheck(|errors| == 0, errors)
  }

  // ---------------------------------------------------------------------------------------------
  // getWordCount and getReadingTime

  /** `content.trim().split(/\s+/).length` */
  function WordCount(content: string): (n: nat)
    ensures n >= 1
  {
    |SplitWs(Trim(content))|
  }

  /** Empty or blank text still counts one word: splitting `""` yields `[""]`. */
  lemma BlankIsOneWord(content: string)
    requires IsBlank(content)
    ensures WordCount(content) == 1
  {
    BlankIffTrimEmpty(content);
  }

  /** A word: non-empty and without whitespace. */
  predicate IsWord(w: string)
  {
    w != [] && forall i :: 0 <= i < |w| ==> !IsSpace(w[i])
  }

  lemma {:induction false} JoinEnds(words: seq<string>)
    requires words != [] && forall i :: 0 <= i < |words| ==> IsWord(words[i])
    ensures var s := Join(words, " ");
      s != [] && !IsSpace(s[0]) && !IsSpace(s[|s| - 1]) && |s| >= |words[0]|
  {
    if |words| > 1 {
      JoinEnds(words[1..]);
      var s := Join(words, " ");
      var t := Join(words[1..], " ");
      assert s == words[0] + " " + t;
      assert s[0] == words[0][0];
      assert s[|s| - 1] == t[|t| - 1];
    }
  }

  /** A word splits to itself. */
  lemma SplitWsWord(w: string)
    requires IsWord(w)
    ensures SplitWs(w) == [w]
  {
    assert FirstSpace(w, 0).None?;
  }

  /** A word, one space and a text starting with a non-space split at that space. */
  lemma SplitWsCons(w: string, t: string)
    requires IsWord(w) && t != [] && !IsSpace(t[0])
    ensures SplitWs(w + " " + t) == [w] + SplitWs(t)
  {
    var s := w + " " + t;
    assert forall j :: 0 <= j < |w| ==> s[j] == w[j];
    assert s[|w|] == ' ' && s[|w| + 1] == t[0];
    assert FirstSpace(s, 0) == Some(|w|);
    assert SkipSpaces(s, |w| + 1) == |w| + 1;
    assert SkipSpaces(s, |w|) == |w| + 1;
    assert s[|w| + 1..] == t;
    assert s[..|w|] == w;
  }

  /** Splitting words joined by single spaces gives the words back. */
  lemma {:induction false} SplitWsJoin(words: seq<string>)
    requires words != [] && forall i :: 0 <= i < |words| ==> IsWord(words[i])
    ensures SplitWs(Join(words, " ")) == words
    decreases |words|
  {
    if |words| == 1 {
      SplitWsWord(words[0]);
    } else {
      var t := Join(words[1..], " ");
      assert Join(words, " ") == words[0] + " " + t;
      JoinEnds(words[1..]);
      SplitWsCons(words[0], t);
      SplitWsJoin(words[1..]);
      assert words == [words[0]] + words[1..];
    }
  }

  /** Words separated by single spaces are counted one each. */
  lemma WordCountOfWords(words: seq<string>)
    requires words != [] && forall i :: 0 <= i < |words| ==> IsWord(words[i])
    ensures WordCount(Join(words, " ")) == |words|
  {
    var s := Join(words, " ");
    JoinEnds(words);
    assert TrimStart(s) == s;
    assert TrimEnd(s) == s;
    SplitWsJoin(words);
  }

  const WordsPerMinute: nat := 200

  /** `Math.ceil(getWordCount(content) / 200)`: the least number of minutes at 200 words a minute. */
  function ReadingTime(content: string): (minutes: nat)
    ensures minutes >= 1
    ensures (minutes - 1) * WordsPerMinute < WordCount(content) <= minutes * WordsPerMinute
  {
    (WordCount(content) + WordsPerMinute - 1) / WordsPerMinute
  }
}
