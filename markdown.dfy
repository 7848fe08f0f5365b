/** The line-by-line formatter that `DiagnosisDisplay` applies to the diagnosis text. Instead of
    React elements it produces one `Block` per line. */
module Markdown {
  import opened Text

  /** What a line is rendered as: a heading of level 1 to 3 with its marker removed, a numbered
      list item kept verbatim, a line break, or a paragraph kept verbatim. */
  datatype Block = Heading(level: nat, text: string) | ListItem(text: string) | LineBreak | Paragraph(text: string)

  /** The marker of a heading of the given level: that many `#` and a space. */
  function HeadingMarker(level: nat): (m: string)
    ensures |m| == level + 1 && m[level] == ' '
    ensures forall i :: 0 <= i < level ==> m[i] == '#'
  {
    if level == 0 then " " else "#" + HeadingMarker(level - 1)
  }

  /** The number of ASCII digits at the start of `s`. */
  function LeadingDigits(s: string): (n: nat)
    ensures n <= |s|
    ensures forall i :: 0 <= i < n ==> IsDigit(s[i])
    ensures n < |s| ==> !IsDigit(s[n])
  {
    if s != [] && IsDigit(s[0]) then 1 + LeadingDigits(s[1..]) else 0
  }

  /** Whether `line` matches `/^\d+\.\s/`. Since `.` is not a digit, the greedy `\d+` can only
      succeed with the whole leading run of digits. */
  predicate StartsWithListMarker(line: string) {
    var n := LeadingDigits(line);
    1 <= n && n + 1 < |line| && line[n] == '.' && IsSpace(line[n + 1])
  }

  /** `/^\d+\.\s/` matches with `k` digits. */
  predicate ListMarkerAt(line: string, k: int) {
    1 <= k && k + 1 < |line| && (forall i :: 0 <= i < k ==> IsDigit(line[i])) &&
    line[k] == '.' && IsSpace(line[k + 1])
  }

  /** The only digit count with which the regular expression can match is the leading run. */
  lemma ListMarkerAtUnique(line: string, k: int)
    requires ListMarkerAt(line, k)
    ensures k == LeadingDigits(line)
  {
    assert !IsDigit(line[k]);
  }

  /** The list-marker test accepts a line exactly when the regular expression matches it for some
      number of digits. */
  lemma ListMarkerIffMatch(line: string)
    ensures StartsWithListMarker(line) <==> exists k :: ListMarkerAt(line, k)
  {
    if StartsWithListMarker(line) {
      assert ListMarkerAt(line, LeadingDigits(line));
    }
    forall k | ListMarkerAt(line, k) ensures StartsWithListMarker(line) {
      ListMarkerAtUnique(line, k);
    }
  }

  /** One line of `renderMarkdown`: the heading tests in the order "### ", "## ", "# ", then the
      numbered-list test, then the blank test. */
  function Classify(line: string): (b: Block)
    ensures b.Heading? ==> 1 <= b.level <= 3 && b.level < |line| && b.text == line[b.level + 1..]
    ensures b.ListItem? || b.Paragraph? ==> b.text == line
    ensures b.LineBreak? <==> AllSpace(line)
  {
    TrimEmptyIffAllSpace(line);
    MarkersExclusive(line);
    if StartsWith(line, "### ") then Heading(3, line[4..])
    else if StartsWith(line, "## ") then Heading(2, line[3..])
    else if StartsWith(line, "# ") then Heading(1, line[2..])
    else if StartsWithListMarker(line) then ListItem(line)
    else if Trim(line) == [] then LineBreak
    else Paragraph(line)
  }

  lemma HeadingMarkers()
    ensures HeadingMarker(1) == "# " && HeadingMarker(2) == "## " && HeadingMarker(3) == "### "
  {
  }

  /** The first character of each heading marker and of a list marker. */
  lemma MarkerFirstCharacters(line: string)
    ensures StartsWith(line, "### ") ==> line[0] == '#' && line[1] == '#' && line[2] == '#'
    ensures StartsWith(line, "## ") ==> line[0] == '#' && line[1] == '#' && line[2] == ' '
    ensures StartsWith(line, "# ") ==> line[0] == '#' && line[1] == ' '
    ensures StartsWithListMarker(line) ==> IsDigit(line[0])
  {
    if StartsWith(line, "### ") {
      assert line[..4][0] == '#' && line[..4][1] == '#' && line[..4][2] == '#';
    }
    if StartsWith(line, "## ") {
      assert line[..3][0] == '#' && line[..3][1] == '#' && line[..3][2] == ' ';
    }
    if StartsWith(line, "# ") {
      assert line[..2][0] == '#' && line[..2][1] == ' ';
    }
  }

  /** The line shapes the classifier tests for exclude one another. */
  lemma MarkersExclusive(line: string)
    ensures StartsWith(line, "### ") ==> !StartsWith(line, "## ") && !StartsWith(line, "# ")
    ensures StartsWith(line, "## ") ==> !StartsWith(line, "# ")
    ensures StartsWith(line, "# ") || StartsWith(line, "## ") || StartsWith(line, "### ") ==>
      !StartsWithListMarker(line) && !AllSpace(line)
    ensures StartsWithListMarker(line) ==> !AllSpace(line)
  {
    MarkerFirstCharacters(line);
  }

  /** The classification is exact: each kind of block is produced for precisely the lines with
      the corresponding shape. In particular a line starting "### " is never a level-2 or
      level-1 heading. */
  lemma ClassifyKinds(line: string)
    ensures (Classify(line).Heading? && Classify(line).level == 3) <==> StartsWith(line, "### ")
    ensures (Classify(line).Heading? && Classify(line).level == 2) <==> StartsWith(line, "## ")
    ensures (Classify(line).Heading? && Classify(line).level == 1) <==> StartsWith(line, "# ")
    ensures Classify(line).ListItem? <==> StartsWithListMarker(line)
    ensures Classify(line).LineBreak? <==> AllSpace(line)
    ensures Classify(line).Paragraph? <==>
      !StartsWith(line, "# ") && !StartsWith(line, "## ") && !StartsWith(line, "### ") &&
      !StartsWithListMarker(line) && !AllSpace(line)
  {
    TrimEmptyIffAllSpace(line);
    MarkersExclusive(line);
  }

  /** The source text of a block, for every kind but the line break (which forgets its white
      space): the marker put back in front of a heading, the line itself otherwise. */
  function Source(b: Block): string {
    match b
    case Heading(level, text) => HeadingMarker(level) + text
    case ListItem(text) => text
    case LineBreak => []
    case Paragraph(text) => text
  }

  /** Classification drops only the heading marker: every line that is not blank can be
      rebuilt from its block, and a heading's level is between 1 and 3. */
  lemma {:induction false} ClassifyLossless(line: string)
    ensures Classify(line).Heading? ==> 1 <= Classify(line).level <= 3
    ensures !Classify(line).LineBreak? ==> Source(Classify(line)) == line
  {
    HeadingMarkers();
    var b := Classify(line);
    if b.Heading? {
      var m := HeadingMarker(b.level);
      assert line[..|m|] == m;
      assert line == line[..|m|] + line[|m|..];
    }
  }

  /** `renderMarkdown`: split at every '\n' and classify each line. */
  function RenderMarkdown(text: string): (blocks: seq<Block>)
    ensures |blocks| == Count(text, '\n') + 1
  {
    var lines := Split(text, '\n');
    seq(|lines|, i requires 0 <= i < |lines| => Classify(lines[i]))
  }

  /** There is exactly one block per line of the text, in the order of the lines. */
  lemma RenderMarkdownPerLine(lines: seq<string>)
    requires |lines| >= 1
    requires forall i :: 0 <= i < |lines| ==> '\n' !in lines[i]
    ensures |RenderMarkdown(Join(lines, '\n'))| == |lines|
    ensures forall i :: 0 <= i < |lines| ==> RenderMarkdown(Join(lines, '\n'))[i] == Classify(lines[i])
  {
    SplitJoin(lines, '\n');
  }
}
