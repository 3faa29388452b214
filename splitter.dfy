/**
 * Splitting a document body into raw slide texts. Three mechanisms make a
 * slide break: a line of dashes between blank lines, a run of three or more
 * blank lines, and a level-1 heading on a slide that already has content.
 * The first two are found line by line and marked with a break marker; the
 * text is then cut at the markers, and every piece is cut again at inferred
 * level-1 headings.
 */
module Splitter {
  import opened Wrappers
  import opened Strings

  /** The line that marks a slide break between the phases of `split`. */
  const Sentinel: string := "\0SLIDE_BREAK\0"

  /** `line.trim().is_empty()`. */
  predicate IsBlank(line: string)
  {
    Trim(line) == []
  }

  /** `is_dash_separator`: three or more characters, all of them `-`. */
  predicate IsDashSeparator(line: string)
  {
    |line| >= 3 && forall i :: 0 <= i < |line| ==> line[i] == '-'
  }

  /** The characters a directive key may hold: ASCII letters and digits, `-` and `_`. */
  predicate IsKeyChar(c: char)
  {
    ('a' <= c <= 'z') || ('A' <= c <= 'Z') || ('0' <= c <= '9') || c == '-' || c == '_'
  }

  /** `is_directive`: `@`, then key characters up to the first `:`. */
  predicate IsDirective(line: string)
  {
    && |line| > 0 && line[0] == '@'
    && ':' in line
    && forall j :: 1 <= j < IndexOf(line, ':').value ==> IsKeyChar(line[j])
  }

  /** Separator lines, directive lines and the break marker are told apart, and none of them is blank. */
  lemma LineKindsDisjoint(line: string)
    ensures IsDashSeparator(line) ==> !IsDirective(line) && !IsBlank(line) && line != Sentinel
    ensures IsDirective(line) ==> !IsBlank(line) && line != Sentinel
    ensures !IsBlank(Sentinel) && !IsDashSeparator(Sentinel) && !IsDirective(Sentinel)
  {
    assert Sentinel[0] == '\0' && Sentinel[|Sentinel| - 1] == '\0';
    assert TrimStart(Sentinel) == Sentinel;
    assert TrimEnd(Sentinel) == Sentinel;
    if |line| > 0 && (line[0] == '-' || line[0] == '@') {
      assert TrimStart(line) == line;
      TrimEndFacts(line);
    }
  }

  /** `@`, a key of key characters, `:` and any value make a directive line. */
  lemma DirectiveShape(key: string, value: string)
    requires forall j :: 0 <= j < |key| ==> IsKeyChar(key[j])
    ensures IsDirective("@" + key + ":" + value)
  {
    var line := "@" + key + ":" + value;
    assert line[|key| + 1] == ':';
    assert ':' !in line[..|key| + 1] by {
      forall j | 0 <= j < |key| + 1
        ensures line[j] != ':'
      {
        if j > 0 {
          assert line[j] == key[j - 1];
        }
      }
    }
    assert IndexOf(line, ':') == Some(|key| + 1);
  }

  // ---------------------------------------------------------------------
  // Phase 1: dash separators
  // ---------------------------------------------------------------------

  predicate NextBlank(lines: seq<string>, k: nat)
    requires k < |lines|
  {
    k + 1 >= |lines| || IsBlank(lines[k + 1])
  }

  /**
   * Line `k` becomes a break: it is a dash separator, the next line is blank
   * or missing, and the previous line is missing, blank, a break marker, or
   * itself a separator that became a break.
   */
  predicate Converted(lines: seq<string>, k: nat)
    requires k < |lines|
    decreases k
  {
    && IsDashSeparator(Trim(lines[k]))
    && NextBlank(lines, k)
    && (k == 0 || IsBlank(lines[k - 1]) || lines[k - 1] == Sentinel || Converted(lines, k - 1))
  }

  /** Line `k` is the blank line after a break, which the break swallows. */
  predicate Skipped(lines: seq<string>, k: nat)
    requires k < |lines|
  {
    k > 0 && Converted(lines, k - 1) && IsBlank(lines[k])
  }

  /** Line `k` is a blank line kept until the break right after it removes it. */
  predicate Popped(lines: seq<string>, k: nat)
    requires k < |lines|
  {
    !Skipped(lines, k) && IsBlank(lines[k]) && k + 1 < |lines| && Converted(lines, k + 1)
  }

  /** What line `k` contributes before a break after it is considered. */
  function Tentative(lines: seq<string>, k: nat): seq<string>
    requires k < |lines|
  {
    if Converted(lines, k) then [Sentinel] else if Skipped(lines, k) then [] else [lines[k]]
  }

  /** What line `k` contributes to the output of the first phase. */
  function Emit(lines: seq<string>, k: nat): seq<string>
    requires k < |lines|
  {
    if Popped(lines, k) then [] else Tentative(lines, k)
  }

  /** The contributions of the first `m` lines, in order. */
  function MarkedUpTo(lines: seq<string>, m: nat): seq<string>
    requires m <= |lines|
  {
    if m == 0 then [] else MarkedUpTo(lines, m - 1) + Emit(lines, m - 1)
  }

  /** The output of the first phase: every line's contribution, in order. */
  function Marked(lines: seq<string>): seq<string>
  {
    MarkedUpTo(lines, |lines|)
  }

  /** The output before line `i` is looked at: the last line's contribution may still lose a break after it. */
  function MarkedBefore(lines: seq<string>, i: nat): seq<string>
    requires i <= |lines|
  {
    if i == 0 then [] else MarkedUpTo(lines, i - 1) + Tentative(lines, i - 1)
  }

  /** The state of the first phase's loop before it looks at line `i`. */
  ghost predicate MarkInv(lines: seq<string>, i: nat, out: seq<string>)
  {
    && i <= |lines|
    && (i < |lines| ==> !Skipped(lines, i))
    && out == MarkedBefore(lines, i)
  }

  /** The first phase of `split`: separator lines with blank neighbours become break markers. */
  method MarkSeparators(lines: seq<string>) returns (outputLines: seq<string>)
    ensures outputLines == Marked(lines)
  {
    var i := 0;
    outputLines := [];
    while i < |lines|
      invariant MarkInv(lines, i, outputLines)
      decreases |lines| - i
    {
      i, outputLines := MarkLine(lines, i, outputLines);
    }
    if |lines| > 0 {
      assert !Popped(lines, |lines| - 1);
    }
  }

  /** One iteration of the first phase's loop: a break for a separator between blank lines, else the line itself. */
  method MarkLine(lines: seq<string>, i: nat, outputLines: seq<string>) returns (i': nat, outputLines': seq<string>)
    requires i < |lines| && MarkInv(lines, i, outputLines)
    ensures i < i' && MarkInv(lines, i', outputLines')
  {
    var line := lines[i];
    var trimmed := Trim(line);
    if IsDashSeparator(trimmed) {
      var last := if |outputLines| > 0 then Some(outputLines[|outputLines| - 1]) else None;
      var prevBlank := i == 0 || (last.Some? && IsBlank(last.value)) || (last.Some? && last.value == Sentinel);
      var nextBlank := i + 1 >= |lines| || IsBlank(lines[i + 1]);
      if prevBlank && nextBlank {
        assert Converted(lines, i) by {
          PrevBlankAt(lines, i, outputLines);
        }
        outputLines' := outputLines;
        if last.Some? && IsBlank(last.value) {
          outputLines' := outputLines'[..|outputLines'| - 1];
        }
        outputLines' := outputLines' + [Sentinel];
        i' := i;
        if i + 1 < |lines| && IsBlank(lines[i + 1]) {
          i' := i' + 1;
        }
        i' := i' + 1;
        assert i' == AfterBreak(lines, i) && outputLines' == DropBlank(outputLines) + [Sentinel];
        BreakStep(lines, i, outputLines);
        return;
      }
      assert !Converted(lines, i) by {
        PrevBlankAt(lines, i, outputLines);
      }
    }
    outputLines' := outputLines + [line];
    i' := i + 1;
    PushStep(lines, i, outputLines);
  }

  /** At a line the loop visits, its test of the previous output line is the test `Converted` makes of the previous input line. */
  lemma PrevBlankAt(lines: seq<string>, i: nat, out: seq<string>)
    requires i < |lines| && !Skipped(lines, i)
    requires out == MarkedBefore(lines, i)
    ensures i > 0 ==> |out| > 0
    ensures (i == 0 || (|out| > 0 && (IsBlank(out[|out| - 1]) || out[|out| - 1] == Sentinel)))
        <==> (i == 0 || IsBlank(lines[i - 1]) || lines[i - 1] == Sentinel || Converted(lines, i - 1))
  {
    LineKindsDisjoint(lines[i]);
    if i > 0 && Skipped(lines, i - 1) {
      assert i >= 2;
      assert Emit(lines, i - 2) == [Sentinel];
    }
  }

  /** A break at a visited line replaces the output as the contributions say. */
  lemma BreakAt(lines: seq<string>, i: nat, out: seq<string>)
    requires i < |lines| && !Skipped(lines, i) && Converted(lines, i)
    requires out == MarkedBefore(lines, i)
    ensures DropBlank(out) + [Sentinel] == MarkedBefore(lines, i + 1)
  {
    LineKindsDisjoint(Sentinel);
    if i > 0 {
      if Skipped(lines, i - 1) {
        assert i >= 2;
        assert Emit(lines, i - 2) == [Sentinel];
        assert Emit(lines, i - 1) == [];
      } else {
        assert Tentative(lines, i - 1) == [lines[i - 1]];
      }
    }
  }

  /** The blank line after a break is swallowed and adds nothing; the line after that is not swallowed. */
  lemma AfterBreakAt(lines: seq<string>, i: nat)
    requires i < |lines| && Converted(lines, i)
    ensures i + 1 < |lines| && IsBlank(lines[i + 1]) ==>
      Skipped(lines, i + 1) && MarkedBefore(lines, i + 2) == MarkedBefore(lines, i + 1)
    ensures i + 2 < |lines| ==> !Skipped(lines, i + 2)
  {
    assert !IsBlank(lines[i]);
    if i + 1 < |lines| && IsBlank(lines[i + 1]) {
      assert Emit(lines, i) == Tentative(lines, i);
      assert !Converted(lines, i + 1);
    }
  }

  /** Where the loop goes on after a break at line `i`: past the blank line after it, if there is one. */
  function AfterBreak(lines: seq<string>, i: nat): nat
    requires i < |lines|
  {
    if i + 1 < |lines| && IsBlank(lines[i + 1]) then i + 2 else i + 1
  }

  /** The output without its last line, when that line is blank. */
  function DropBlank(out: seq<string>): seq<string>
  {
    if |out| > 0 && IsBlank(out[|out| - 1]) then out[..|out| - 1] else out
  }

  /** A break at a visited line keeps the loop's state as the contributions say. */
  lemma BreakStep(lines: seq<string>, i: nat, out: seq<string>)
    requires i < |lines| && MarkInv(lines, i, out) && Converted(lines, i)
    ensures MarkInv(lines, AfterBreak(lines, i), DropBlank(out) + [Sentinel])
  {
    BreakAt(lines, i, out);
    AfterBreakAt(lines, i);
    if i + 1 < |lines| && IsBlank(lines[i + 1]) {
      assert AfterBreak(lines, i) == i + 2;
    } else {
      assert i + 1 == |lines|;
    }
  }

  /** Pushing a visited line that does not become a break keeps the loop's state as the contributions say. */
  lemma PushStep(lines: seq<string>, i: nat, out: seq<string>)
    requires i < |lines| && MarkInv(lines, i, out) && !Converted(lines, i)
    ensures MarkInv(lines, i + 1, out + [lines[i]])
  {
    PushAt(lines, i, out);
  }

  /** Pushing a visited line that does not become a break extends the output as the contributions say. */
  lemma PushAt(lines: seq<string>, i: nat, out: seq<string>)
    requires i < |lines| && !Skipped(lines, i) && !Converted(lines, i)
    requires out == MarkedBefore(lines, i)
    ensures out + [lines[i]] == MarkedBefore(lines, i + 1)
    ensures i + 1 < |lines| ==> !Skipped(lines, i + 1)
  {
    if i > 0 {
      assert Emit(lines, i - 1) == Tentative(lines, i - 1);
    }
  }

  // ---------------------------------------------------------------------
  // Phase 2: runs of blank lines
  // ---------------------------------------------------------------------

  /** Which lines are blank; the second phase looks at a line only through this. */
  function Blanks(s: seq<string>): seq<bool>
  {
    seq(|s|, j requires 0 <= j < |s| => IsBlank(s[j]))
  }

  /** The number of consecutive blank lines ending at line `j`. */
  function RunBefore(b: seq<bool>, j: nat): (n: nat)
    requires j < |b|
    ensures n <= j + 1
    decreases j
  {
    if !b[j] then 0 else 1 + (if j == 0 then 0 else RunBefore(b, j - 1))
  }

  /** The number of consecutive blank lines starting at line `j`. */
  function RunAfter(b: seq<bool>, j: nat): (n: nat)
    requires j <= |b|
    ensures j + n <= |b|
    decreases |b| - j
  {
    if j == |b| || !b[j] then 0 else 1 + RunAfter(b, j + 1)
  }

  /**
   * What line `j` contributes to the output of the second phase: a blank
   * line in a run of fewer than three stays, the third line of a longer run
   * becomes a break and the other lines of that run are dropped; every other
   * line stays.
   */
  function Collapse(s: seq<string>, b: seq<bool>, j: nat): seq<string>
    requires |b| == |s| && j < |s|
  {
    if !b[j] then [s[j]]
    else if RunBefore(b, j) + RunAfter(b, j) - 1 < 3 then [s[j]]
    else if RunBefore(b, j) == 3 then [Sentinel]
    else []
  }

  function CollapsedUpTo(s: seq<string>, b: seq<bool>, m: nat): seq<string>
    requires |b| == |s| && m <= |s|
  {
    if m == 0 then [] else CollapsedUpTo(s, b, m - 1) + Collapse(s, b, m - 1)
  }

  /** The output of the second phase: every line's contribution, in order. */
  function Collapsed(s: seq<string>): seq<string>
  {
    CollapsedUpTo(s, Blanks(s), |s|)
  }

  /** The blank lines of the run in progress that are still kept: fewer than three of them. */
  function Pending(blankCount: nat): nat
  {
    if blankCount < 3 then blankCount else 0
  }

  /** The state of the second phase's loop before it looks at line `k`. */
  ghost predicate CollapseInv(s: seq<string>, b: seq<bool>, k: nat, blankCount: nat, out: seq<string>)
  {
    && |b| == |s|
    && k <= |s|
    && blankCount == (if k == 0 then 0 else RunBefore(b, k - 1))
    && Pending(blankCount) <= k
    && out == CollapsedUpTo(s, b, k - Pending(blankCount)) + s[k - Pending(blankCount)..k]
  }

  /** The second phase of `split`: three or more consecutive blank lines become one break marker. */
  method CollapseBlankRuns(outputLines: seq<string>) returns (finalLines: seq<string>)
    ensures finalLines == Collapsed(outputLines)
  {
    ghost var b := Blanks(outputLines);
    finalLines := [];
    var blankCount: nat := 0;
    for k := 0 to |outputLines|
      invariant CollapseInv(outputLines, b, k, blankCount, finalLines)
    {
      blankCount, finalLines := CollapseLine(outputLines, b, k, blankCount, finalLines);
    }
    CollapseDone(outputLines, b, blankCount, finalLines);
  }

  /** One iteration of the second phase's loop. */
  method CollapseLine(s: seq<string>, ghost b: seq<bool>, k: nat, blankCount: nat, finalLines: seq<string>)
    returns (blankCount': nat, finalLines': seq<string>)
    requires k < |s| && b == Blanks(s) && CollapseInv(s, b, k, blankCount, finalLines)
    ensures CollapseInv(s, b, k + 1, blankCount', finalLines')
  {
    var line := s[k];
    if line == Sentinel {
      LineKindsDisjoint(line);
      EndRunStep(s, b, k, blankCount, finalLines);
      return 0, finalLines + [line];
    }
    if IsBlank(line) {
      blankCount' := blankCount + 1;
      if blankCount' < 3 {
        ShortRunStep(s, b, k, blankCount, finalLines);
        finalLines' := finalLines + [line];
      } else if blankCount' == 3 {
        ThirdBlankStep(s, b, k, blankCount, finalLines);
        finalLines' := finalLines[..|finalLines| - 1];
        finalLines' := finalLines'[..|finalLines'| - 1];
        finalLines' := finalLines' + [Sentinel];
      } else {
        LongRunStep(s, b, k, blankCount, finalLines);
        finalLines' := finalLines;
      }
    } else {
      EndRunStep(s, b, k, blankCount, finalLines);
      blankCount' := 0;
      finalLines' := finalLines + [line];
    }
  }

  /** After the last line, the kept blank lines of a final short run are part of the output. */
  lemma CollapseDone(s: seq<string>, b: seq<bool>, blankCount: nat, out: seq<string>)
    requires b == Blanks(s) && CollapseInv(s, b, |s|, blankCount, out)
    ensures out == Collapsed(s)
  {
    var n := |s|;
    var p := Pending(blankCount);
    if n > 0 {
      assert blankCount == RunBefore(b, n - 1);
      RunEnds(s, b, n);
      assert CollapsedUpTo(s, b, n) == CollapsedUpTo(s, b, n - p) + s[n - p..n];
      assert out == CollapsedUpTo(s, b, n - p) + s[n - p..n];
    }
  }

  /** A line that is not blank ends the run before it, which then stays as it is. */
  lemma EndRunStep(s: seq<string>, b: seq<bool>, k: nat, blankCount: nat, out: seq<string>)
    requires k < |s| && CollapseInv(s, b, k, blankCount, out) && !b[k]
    ensures CollapseInv(s, b, k + 1, 0, out + [s[k]])
  {
    if k > 0 {
      RunEnds(s, b, k);
    }
    assert out == CollapsedUpTo(s, b, k);
    assert CollapsedUpTo(s, b, k + 1) == CollapsedUpTo(s, b, k) + [s[k]];
  }

  /** The first and second blank line of a run are kept for now. */
  lemma ShortRunStep(s: seq<string>, b: seq<bool>, k: nat, blankCount: nat, out: seq<string>)
    requires k < |s| && CollapseInv(s, b, k, blankCount, out) && b[k] && blankCount + 1 < 3
    ensures CollapseInv(s, b, k + 1, blankCount + 1, out + [s[k]])
  {
    var start := k - blankCount;
    assert Pending(blankCount) == blankCount && Pending(blankCount + 1) == blankCount + 1;
    assert RunBefore(b, k) == blankCount + 1;
    AppendSlice(s, start, k, CollapsedUpTo(s, b, start), out);
  }

  lemma AppendSlice<T>(s: seq<T>, i: nat, k: nat, pre: seq<T>, out: seq<T>)
    requires i <= k < |s| && out == pre + s[i..k]
    ensures out + [s[k]] == pre + s[i..k + 1]
  {
    assert s[i..k + 1] == s[i..k] + [s[k]];
  }

  /** The third blank line of a run replaces the two kept lines by a break. */
  lemma ThirdBlankStep(s: seq<string>, b: seq<bool>, k: nat, blankCount: nat, out: seq<string>)
    requires k < |s| && CollapseInv(s, b, k, blankCount, out) && b[k] && blankCount + 1 == 3
    ensures |out| >= 2 && CollapseInv(s, b, k + 1, 3, out[..|out| - 1][..|out| - 2] + [Sentinel])
  {
    assert RunBefore(b, k) == 3;
    var pre := CollapsedUpTo(s, b, k - 2);
    assert |out| >= 2 && out[..|out| - 1][..|out| - 2] == pre by {
      DropLastTwo(pre, s[k - 2..k], out);
    }
    assert CollapsedUpTo(s, b, k + 1) == pre + [Sentinel] by {
      ThirdBlank(s, b, k);
    }
    assert s[k + 1..k + 1] == [];
  }

  lemma DropLastTwo<T>(pre: seq<T>, last: seq<T>, out: seq<T>)
    requires |last| == 2 && out == pre + last
    ensures |out| >= 2 && out[..|out| - 1][..|out| - 2] == pre
  {
  }

  /** Blank lines after the third of a run are dropped. */
  lemma LongRunStep(s: seq<string>, b: seq<bool>, k: nat, blankCount: nat, out: seq<string>)
    requires k < |s| && CollapseInv(s, b, k, blankCount, out) && b[k] && blankCount + 1 > 3
    ensures CollapseInv(s, b, k + 1, blankCount + 1, out)
  {
    assert Pending(blankCount) == 0 && Pending(blankCount + 1) == 0;
    assert out == CollapsedUpTo(s, b, k) by {
      assert s[k..k] == [];
    }
    assert RunBefore(b, k) == blankCount + 1;
    assert CollapsedUpTo(s, b, k + 1) == CollapsedUpTo(s, b, k) by {
      LateBlankDropped(s, b, k);
    }
    assert s[k + 1..k + 1] == [];
  }

  lemma LateBlankDropped(s: seq<string>, b: seq<bool>, k: nat)
    requires |b| == |s| && k < |s| && b[k] && RunBefore(b, k) > 3
    ensures Collapse(s, b, k) == []
  {
  }

  /**
   * When the run of blank lines before `k` ends at `k` and is fewer than
   * three lines long, those lines contribute themselves.
   */
  lemma RunEnds(s: seq<string>, b: seq<bool>, k: nat)
    requires |b| == |s| && 0 < k <= |s| && (k == |s| || !b[k])
    ensures var p := Pending(RunBefore(b, k - 1));
      CollapsedUpTo(s, b, k) == CollapsedUpTo(s, b, k - p) + s[k - p..k]
  {
    var p := Pending(RunBefore(b, k - 1));
    if p == 1 {
      RunEndsOne(s, b, k);
    } else if p == 2 {
      RunEndsTwo(s, b, k);
    }
  }

  lemma RunEndsOne(s: seq<string>, b: seq<bool>, k: nat)
    requires |b| == |s| && 0 < k <= |s| && (k == |s| || !b[k]) && RunBefore(b, k - 1) == 1
    ensures CollapsedUpTo(s, b, k) == CollapsedUpTo(s, b, k - 1) + s[k - 1..k]
  {
    assert RunAfter(b, k) == 0;
    assert Collapse(s, b, k - 1) == [s[k - 1]];
  }

  lemma RunEndsTwo(s: seq<string>, b: seq<bool>, k: nat)
    requires |b| == |s| && 1 < k <= |s| && (k == |s| || !b[k]) && RunBefore(b, k - 1) == 2
    ensures CollapsedUpTo(s, b, k) == CollapsedUpTo(s, b, k - 2) + s[k - 2..k]
  {
    assert RunAfter(b, k) == 0;
    assert RunAfter(b, k - 1) == 1;
    assert RunBefore(b, k - 2) == 1;
    assert Collapse(s, b, k - 1) == [s[k - 1]];
    assert Collapse(s, b, k - 2) == [s[k - 2]];
    assert CollapsedUpTo(s, b, k - 1) == CollapsedUpTo(s, b, k - 2) + [s[k - 2]];
    assert s[k - 2..k] == [s[k - 2], s[k - 1]];
  }

  /** The third blank line of a run turns the two kept before it and itself into one break. */
  lemma ThirdBlank(s: seq<string>, b: seq<bool>, k: nat)
    requires |b| == |s| && 2 <= k < |s| && b[k] && RunBefore(b, k - 1) == 2
    ensures CollapsedUpTo(s, b, k + 1) == CollapsedUpTo(s, b, k - 2) + [Sentinel]
  {
    assert RunBefore(b, k - 2) == 1;
    assert RunAfter(b, k - 1) >= 2;
    assert Collapse(s, b, k - 2) == [];
    assert Collapse(s, b, k - 1) == [];
    assert Collapse(s, b, k) == [Sentinel];
    assert CollapsedUpTo(s, b, k - 1) == CollapsedUpTo(s, b, k - 2);
    assert CollapsedUpTo(s, b, k) == CollapsedUpTo(s, b, k - 2);
  }

  // ---------------------------------------------------------------------
  // Trailing directives
  // ---------------------------------------------------------------------

  /** A line `strip_trailing_directives` walks over: blank, or a directive once trimmed. */
  predicate BlankOrDirective(line: string)
  {
    IsBlank(line) || IsDirective(Trim(line))
  }

  /** Where the trailing run of blank and directive lines starts. */
  function TrailStart(lines: seq<string>): (k: nat)
    ensures k <= |lines|
    ensures forall j :: k <= j < |lines| ==> BlankOrDirective(lines[j])
    ensures k == 0 || !BlankOrDirective(lines[k - 1])
  {
    if |lines| == 0 || !BlankOrDirective(lines[|lines| - 1]) then |lines|
    else
      var init := lines[..|lines| - 1];
      assert forall j :: 0 <= j < |init| ==> init[j] == lines[j];
      TrailStart(init)
  }

  /** The two properties of `TrailStart` pin it down. */
  lemma TrailStartUnique(lines: seq<string>, k: nat)
    requires k <= |lines|
    requires forall j :: k <= j < |lines| ==> BlankOrDirective(lines[j])
    requires k == 0 || !BlankOrDirective(lines[k - 1])
    ensures k == TrailStart(lines)
  {
  }

  /** The lines that are not blank. */
  function NonBlank(lines: seq<string>): (r: seq<string>)
    ensures |r| <= |lines| && forall j :: 0 <= j < |r| ==> !IsBlank(r[j])
  {
    if |lines| == 0 then []
    else NonBlank(lines[..|lines| - 1]) + (if IsBlank(lines[|lines| - 1]) then [] else [lines[|lines| - 1]])
  }

  /**
   * What `strip_trailing_directives` returns: the text unchanged and no
   * directives when its last line is neither blank nor a directive, and
   * otherwise the trimmed text before the trailing run and the non-blank
   * lines of that run.
   */
  function Stripped(text: string): (string, string)
  {
    var lines := Lines(text);
    var k := TrailStart(lines);
    if k == |lines| then (text, "")
    else (Trim(Join(lines[..k], "\n")), Join(NonBlank(lines[k..]), "\n"))
  }

  /** `strip_trailing_directives`. */
  method StripTrailingDirectives(text: string) returns (content: string, directives: string)
    ensures content == Stripped(text).0 && directives == Stripped(text).1
  {
    var lines := Lines(text);
    var splitAt := |lines|;
    for i := |lines| downto 0
      invariant splitAt == i
      invariant forall j :: i <= j < |lines| ==> BlankOrDirective(lines[j])
    {
      var trimmed := Trim(lines[i]);
      if trimmed == [] || IsDirective(trimmed) {
        splitAt := i;
      } else {
        break;
      }
    }
    TrailStartUnique(lines, splitAt);
    if splitAt == |lines| {
      return text, "";
    }
    content := Trim(Join(lines[..splitAt], "\n"));
    directives := Join(NonBlank(lines[splitAt..]), "\n");
  }

  /** The directive part holds the trailing directive lines only. */
  lemma StrippedKeepsOnlyDirectives(text: string)
    ensures var lines := Lines(text); var k := TrailStart(lines);
      && (k == |lines| ==> Stripped(text) == (text, ""))
      && forall l :: l in NonBlank(lines[k..]) ==> IsDirective(Trim(l))
  {
    var lines := Lines(text);
    var k := TrailStart(lines);
    NonBlankOfTrail(lines[k..]);
  }

  lemma {:induction false} NonBlankOfTrail(lines: seq<string>)
    requires forall j :: 0 <= j < |lines| ==> BlankOrDirective(lines[j])
    ensures forall l :: l in NonBlank(lines) ==> IsDirective(Trim(l))
  {
    if |lines| > 0 {
      NonBlankOfTrail(lines[..|lines| - 1]);
    }
  }

  // ---------------------------------------------------------------------
  // Phase 4: `# ` headings
  // ---------------------------------------------------------------------

  /** `s.chars().take_while(|&x| x == c).count()`. */
  function LeadingRun(s: string, c: char): (n: nat)
    ensures n <= |s| && forall j :: 0 <= j < n ==> s[j] == c
    ensures n < |s| ==> s[n] != c
  {
    if |s| > 0 && s[0] == c then 1 + LeadingRun(s[1..], c) else 0
  }

  /** The fence variables of `split_by_heading_inference`: whether a code fence is open, its character and its length. */
  datatype Fence = Fence(inCodeFence: bool, fenceChar: char, fenceLen: nat)

  /** The variables of `split_by_heading_inference` between two lines. */
  datatype Inference = Inference(current: string, hasContent: bool, fence: Fence)

  const Initial: Inference := Inference("", false, Fence(false, '`', 0))

  /**
   * The fence tracking for one trimmed line: inside a fence, a run of at
   * least the opening length of the fence character followed only by
   * whitespace closes it; outside, a line starting with three backticks or
   * three tildes opens one.
   */
  function Fenced(fence: Fence, trimmed: string): (r: Fence)
  {
    if fence.inCodeFence then
      var closing := LeadingRun(trimmed, fence.fenceChar);
      if closing >= fence.fenceLen && AllWhitespace(trimmed[closing..]) then fence.(inCodeFence := false) else fence
    else if StartsWith(trimmed, "```") || StartsWith(trimmed, "~~~") then
      Fence(true, trimmed[0], LeadingRun(trimmed, trimmed[0]))
    else fence
  }

  /** After its fence tracking, `line` starts a new slide: a `# ` heading outside a fence once the slide has content. */
  predicate StartsSlide(f: Inference, line: string)
  {
    !f.fence.inCodeFence && StartsWith(line, "# ") && f.hasContent
  }

  /** What a new slide starts with: only the trailing directives of the old one, on a line of their own. */
  function Restart(current: string): string
  {
    var trailing := Stripped(Trim(current)).1;
    if trailing != "" then trailing + "\n" else ""
  }

  /** The old slide a new one pushes: the old slide without its trailing directives, if anything is left. */
  function Content(current: string): seq<string>
  {
    var content := Stripped(Trim(current)).0;
    if content != "" then [content] else []
  }

  /** The last slide of a chunk: what is left once trimmed, if anything is. */
  function Finished(current: string): seq<string>
  {
    if Trim(current) != "" then [Trim(current)] else []
  }

  /** The state once `line` is appended; a line that is neither blank nor a directive is content. */
  function Appended(g: Inference, line: string, trimmed: string): Inference
  {
    g.(current := (if g.current != "" then g.current + "\n" else "") + line,
       hasContent := g.hasContent || (trimmed != "" && !IsDirective(trimmed)))
  }

  /** One line of `split_by_heading_inference`: the state after it. */
  function InferStep(st: Inference, line: string): Inference
  {
    var trimmed := Trim(line);
    var f := st.(fence := Fenced(st.fence, trimmed));
    Appended(if StartsSlide(f, line) then f.(current := Restart(f.current), hasContent := false) else f, line, trimmed)
  }

  /** The slides one line pushes: the old slide, when the line starts a new one. */
  function Pushed(st: Inference, line: string): seq<string>
  {
    var f := st.(fence := Fenced(st.fence, Trim(line)));
    if StartsSlide(f, line) then Content(f.current) else []
  }

  /** The state after the first `k` lines. */
  function StateAt(lines: seq<string>, k: nat): Inference
    requires k <= |lines|
  {
    if k == 0 then Initial else InferStep(StateAt(lines, k - 1), lines[k - 1])
  }

  /** The slides pushed by the first `k` lines. */
  function PushedUpTo(lines: seq<string>, k: nat): seq<string>
    requires k <= |lines|
  {
    Flatten(PushedParts(lines, k))
  }

  /** The slides each of the first `k` lines pushes. */
  function PushedParts(lines: seq<string>, k: nat): seq<seq<string>>
    requires k <= |lines|
  {
    seq(k, j requires 0 <= j < k => Pushed(StateAt(lines, j), lines[j]))
  }

  /** Line `k` adds what it pushes to what the lines before it pushed. */
  lemma PushedUpToStep(lines: seq<string>, k: nat)
    requires k < |lines|
    ensures PushedUpTo(lines, k + 1) == PushedUpTo(lines, k) + Pushed(StateAt(lines, k), lines[k])
  {
    var parts := PushedParts(lines, k + 1);
    assert parts[..k] == PushedParts(lines, k);
  }

  /** The slides `split_by_heading_inference` pushes for one chunk: those pushed at headings, then the rest. */
  function ChunkSlides(chunk: string): seq<string>
  {
    var lines := Lines(chunk);
    PushedUpTo(lines, |lines|) + Finished(StateAt(lines, |lines|).current)
  }

  /** The loop invariant of `split_by_heading_inference` after `k` lines. */
  predicate InferredUpTo(lines: seq<string>, k: nat, current: string, hasContent: bool, fence: Fence,
                         slides: seq<string>, slides': seq<string>)
  {
    k <= |lines| && StateAt(lines, k) == Inference(current, hasContent, fence) && slides' == slides + PushedUpTo(lines, k)
  }

  /** `split_by_heading_inference`. */
  method SplitByHeadingInference(chunk: string, slides: seq<string>) returns (slides': seq<string>)
    ensures slides' == slides + ChunkSlides(chunk)
  {
    var lines := Lines(chunk);
    var current := "";
    var hasContent := false;
    var inCodeFence := false;
    var fenceChar := '`';
    var fenceLen := 0;
    slides' := slides;
    for k := 0 to |lines|
      invariant InferredUpTo(lines, k, current, hasContent, Fence(inCodeFence, fenceChar, fenceLen), slides, slides')
    {
      current, hasContent, inCodeFence, fenceChar, fenceLen, slides' :=
        InferNext(lines, k, current, hasContent, inCodeFence, fenceChar, fenceLen, slides, slides');
    }
    assert ChunkSlides(chunk) == PushedUpTo(lines, |lines|) + Finished(current);
    AppendAssoc(slides, PushedUpTo(lines, |lines|), Finished(current));
    slides' := FinishChunk(current, slides');
  }

  /** One iteration of the loop of `split_by_heading_inference`, which keeps its invariant. */
  method InferNext(lines: seq<string>, k: nat, current: string, hasContent: bool, inCodeFence: bool,
                   fenceChar: char, fenceLen: nat, ghost slides0: seq<string>, slides: seq<string>)
    returns (current': string, hasContent': bool, inCodeFence': bool, fenceChar': char, fenceLen': nat,
             slides': seq<string>)
    requires k < |lines|
    requires InferredUpTo(lines, k, current, hasContent, Fence(inCodeFence, fenceChar, fenceLen), slides0, slides)
    ensures InferredUpTo(lines, k + 1, current', hasContent', Fence(inCodeFence', fenceChar', fenceLen'), slides0, slides')
  {
    ghost var st := Inference(current, hasContent, Fence(inCodeFence, fenceChar, fenceLen));
    assert StateAt(lines, k + 1) == InferStep(st, lines[k]);
    PushedUpToStep(lines, k);
    AppendAssoc(slides0, PushedUpTo(lines, k), Pushed(st, lines[k]));
    current', hasContent', inCodeFence', fenceChar', fenceLen', slides' :=
      InferLine(current, hasContent, inCodeFence, fenceChar, fenceLen, lines[k], slides);
  }

  lemma AppendAssoc<T>(a: seq<T>, b: seq<T>, c: seq<T>)
    ensures a + (b + c) == (a + b) + c
  {
  }

  /** The end of `split_by_heading_inference`: what is left is pushed once trimmed, unless nothing is. */
  method FinishChunk(current: string, slides: seq<string>) returns (slides': seq<string>)
    ensures slides' == slides + Finished(current)
  {
    var slideText := Trim(current);
    slides' := slides;
    if slideText != "" {
      slides' := slides' + [slideText];
    }
  }

  /** The body of the loop of `split_by_heading_inference`, for one line. */
  method InferLine(current: string, hasContent: bool, inCodeFence: bool, fenceChar: char, fenceLen: nat,
                   line: string, slides: seq<string>)
    returns (current': string, hasContent': bool, inCodeFence': bool, fenceChar': char, fenceLen': nat,
             slides': seq<string>)
    ensures var st := Inference(current, hasContent, Fence(inCodeFence, fenceChar, fenceLen));
      && InferStep(st, line) == Inference(current', hasContent', Fence(inCodeFence', fenceChar', fenceLen'))
      && slides' == slides + Pushed(st, line)
  {
    ghost var st := Inference(current, hasContent, Fence(inCodeFence, fenceChar, fenceLen));
    var trimmed := Trim(line);
    inCodeFence', fenceChar', fenceLen' := TrackFence(inCodeFence, fenceChar, fenceLen, trimmed);
    ghost var f := st.(fence := Fence(inCodeFence', fenceChar', fenceLen'));
    current', hasContent', slides' := current, hasContent, slides;
    if !inCodeFence' && StartsWith(line, "# ") && hasContent' {
      current', slides' := StartNewSlide(current', slides');
      hasContent' := false;
    }
    ghost var g := Inference(current', hasContent', f.fence);
    if current' != "" {
      current' := current' + "\n";
    }
    current' := current' + line;
    if trimmed != "" && !IsDirective(trimmed) {
      hasContent' := true;
    }
    assert Inference(current', hasContent', f.fence) == Appended(g, line, trimmed);
  }

  /** The start of a new slide in `split_by_heading_inference`: the old one is pushed without its trailing directives. */
  method StartNewSlide(current: string, slides: seq<string>) returns (current': string, slides': seq<string>)
    ensures current' == Restart(current) && slides' == slides + Content(current)
  {
    var slideText := Trim(current);
    var contentPart, trailingDirectives := StripTrailingDirectives(slideText);
    assert Content(current) == if contentPart != "" then [contentPart] else [];
    assert Restart(current) == if trailingDirectives != "" then trailingDirectives + "\n" else "";
    slides' := slides;
    if contentPart != "" {
      slides' := slides' + [contentPart];
    }
    current' := "";
    if trailingDirectives != "" {
      current' := current' + trailingDirectives + "\n";
    }
  }

  /** The fence tracking of `split_by_heading_inference` for one trimmed line. */
  method TrackFence(inCodeFence: bool, fenceChar: char, fenceLen: nat, trimmed: string)
    returns (inCodeFence': bool, fenceChar': char, fenceLen': nat)
    ensures Fence(inCodeFence', fenceChar', fenceLen') == Fenced(Fence(inCodeFence, fenceChar, fenceLen), trimmed)
  {
    inCodeFence', fenceChar', fenceLen' := inCodeFence, fenceChar, fenceLen;
    if inCodeFence {
      var closingCount := LeadingRun(trimmed, fenceChar);
      if closingCount >= fenceLen && AllWhitespace(trimmed[closingCount..]) {
        inCodeFence' := false;
      }
    } else if StartsWith(trimmed, "```") || StartsWith(trimmed, "~~~") {
      inCodeFence' := true;
      fenceChar' := trimmed[0];
      fenceLen' := LeadingRun(trimmed, fenceChar');
    }
  }

  // ---------------------------------------------------------------------
  // Phase 3 and the whole split
  // ---------------------------------------------------------------------

  /** The pieces of the joined lines between break markers, each trimmed. */
  function Chunks(finalLines: seq<string>): (chunks: seq<string>)
  {
    var parts := SplitOn(Join(finalLines, "\n"), Sentinel);
    seq(|parts|, i requires 0 <= i < |parts| => Trim(parts[i]))
  }

  /** The slides of one chunk; an empty chunk has none. */
  function ChunkPart(chunk: string): seq<string>
  {
    if chunk == "" then [] else ChunkSlides(chunk)
  }

  /** The slides of every chunk. */
  function ChunkParts(chunks: seq<string>): seq<seq<string>>
  {
    seq(|chunks|, i requires 0 <= i < |chunks| => ChunkPart(chunks[i]))
  }

  /** The pieces one after another. */
  function Flatten(parts: seq<seq<string>>): seq<string>
  {
    if |parts| == 0 then [] else Flatten(parts[..|parts| - 1]) + parts[|parts| - 1]
  }

  /** The lines of a body once CRLF line endings are normalised. */
  function BodyLines(body: string): seq<string>
  {
    Split(ReplaceAll(body, "\r\n", "\n"), '\n')
  }

  /** What `split` returns for a body. */
  function Slides(body: string): seq<string>
  {
    Flatten(ChunkParts(Chunks(Collapsed(Marked(BodyLines(body))))))
  }

  /** `split`: the four phases in turn. */
  method SplitSlides(body: string) returns (slides: seq<string>)
    ensures slides == Slides(body)
  {
    var chunks := BreakIntoChunks(body);
    ghost var parts := ChunkParts(chunks);
    slides := [];
    for i := 0 to |chunks|
      invariant slides == Flatten(parts[..i])
    {
      slides := SplitChunk(chunks, parts, i, slides);
    }
    assert parts[..|chunks|] == parts;
  }

  /** The first three phases of `split`: the trimmed chunks between breaks. */
  method BreakIntoChunks(body: string) returns (chunks: seq<string>)
    ensures chunks == Chunks(Collapsed(Marked(BodyLines(body))))
  {
    var normalized := ReplaceAll(body, "\r\n", "\n");
    var lines := Split(normalized, '\n');
    var outputLines := MarkSeparators(lines);
    var finalLines := CollapseBlankRuns(outputLines);
    var result := Join(finalLines, "\n");
    var parts := SplitOn(result, Sentinel);
    chunks := seq(|parts|, i requires 0 <= i < |parts| => Trim(parts[i]));
  }

  /** One iteration of the last loop of `split`: an empty chunk is skipped, any other is split at headings. */
  method SplitChunk(chunks: seq<string>, ghost parts: seq<seq<string>>, i: nat, slides: seq<string>)
    returns (slides': seq<string>)
    requires parts == ChunkParts(chunks) && i < |chunks| && slides == Flatten(parts[..i])
    ensures slides' == Flatten(parts[..i + 1])
  {
    assert parts[..i + 1][..i] == parts[..i];
    assert parts[i] == ChunkPart(chunks[i]);
    slides' := slides;
    if chunks[i] != "" {
      slides' := SplitByHeadingInference(chunks[i], slides');
    }
  }

  // ---------------------------------------------------------------------
  // Properties of the split
  // ---------------------------------------------------------------------

  /** Without separator lines the first phase changes nothing. */
  lemma MarkedWithoutSeparators(lines: seq<string>)
    requires forall j :: 0 <= j < |lines| ==> !IsDashSeparator(Trim(lines[j]))
    ensures Marked(lines) == lines
  {
    assert forall j :: 0 <= j < |lines| ==> PlainLine(lines, j);
    MarkedUpToPlain(lines, |lines|);
  }

  /** Line `j` is not a separator. */
  predicate PlainLine(lines: seq<string>, j: nat)
    requires j < |lines|
  {
    !IsDashSeparator(Trim(lines[j]))
  }

  lemma {:induction false} MarkedUpToPlain(lines: seq<string>, m: nat)
    requires m <= |lines|
    requires forall j :: 0 <= j < |lines| ==> PlainLine(lines, j)
    ensures MarkedUpTo(lines, m) == lines[..m]
  {
    if m > 0 {
      MarkedUpToPlain(lines, m - 1);
      var k := m - 1;
      assert Emit(lines, k) == [lines[k]] by {
        assert PlainLine(lines, k);
        assert k > 0 ==> PlainLine(lines, k - 1);
        assert k + 1 < |lines| ==> PlainLine(lines, k + 1);
        PlainEmit(lines, k);
      }
      PrefixStep(MarkedUpTo(lines, k), lines, k);
    }
  }

  lemma PrefixStep<T>(a: seq<T>, s: seq<T>, k: nat)
    requires k < |s| && a == s[..k]
    ensures a + [s[k]] == s[..k + 1]
  {
    assert s[..k + 1] == s[..k] + [s[k]];
  }

  lemma PlainEmit(lines: seq<string>, k: nat)
    requires k < |lines| && PlainLine(lines, k)
    requires k > 0 ==> PlainLine(lines, k - 1)
    requires k + 1 < |lines| ==> PlainLine(lines, k + 1)
    ensures Emit(lines, k) == [lines[k]]
  {
    assert !Converted(lines, k);
    assert k > 0 ==> !Converted(lines, k - 1);
    assert k + 1 < |lines| ==> !Converted(lines, k + 1);
  }

  /** No three consecutive lines are blank. */
  predicate NoLongBlankRun(s: seq<string>)
  {
    forall j :: 0 <= j && j + 2 < |s| ==> !(IsBlank(s[j]) && IsBlank(s[j + 1]) && IsBlank(s[j + 2]))
  }

  /** Without three consecutive blank lines the second phase changes nothing. */
  lemma CollapsedWithoutLongRuns(s: seq<string>)
    requires NoLongBlankRun(s)
    ensures Collapsed(s) == s
  {
    var b := Blanks(s);
    assert NoThreeTrue(b) by {
      forall j | 0 <= j && j + 2 < |b|
        ensures !(b[j] && b[j + 1] && b[j + 2])
      {
      }
    }
    CollapsedUpToPlain(s, b, |s|);
  }

  /** No three consecutive flags are set. */
  predicate NoThreeTrue(b: seq<bool>)
  {
    forall j :: 0 <= j && j + 2 < |b| ==> !(b[j] && b[j + 1] && b[j + 2])
  }

  lemma {:induction false} CollapsedUpToPlain(s: seq<string>, b: seq<bool>, m: nat)
    requires |b| == |s| && m <= |s| && NoThreeTrue(b)
    ensures CollapsedUpTo(s, b, m) == s[..m]
  {
    if m > 0 {
      CollapsedUpToPlain(s, b, m - 1);
      var j := m - 1;
      assert Collapse(s, b, j) == [s[j]] by {
        if b[j] {
          ShortRuns(s, b, j);
        }
      }
      PrefixStep(CollapsedUpTo(s, b, j), s, j);
    }
  }

  /** Without three consecutive blank lines every run of blank lines is shorter than three. */
  lemma ShortRuns(s: seq<string>, b: seq<bool>, j: nat)
    requires |b| == |s| && j < |s| && b[j] && NoThreeTrue(b)
    ensures RunBefore(b, j) + RunAfter(b, j) - 1 < 3
  {
    RunBeforeBlanks(b, j);
    RunAfterBlanks(b, j);
    var start := j + 1 - RunBefore(b, j);
    if start + 2 < |s| {
      assert !(b[start] && b[start + 1] && b[start + 2]);
    }
  }

  /** The lines counted by `RunBefore` are blank. */
  lemma {:induction false} RunBeforeBlanks(b: seq<bool>, j: nat)
    requires j < |b|
    ensures forall i :: j - RunBefore(b, j) < i <= j ==> b[i]
    decreases j
  {
    if b[j] && j > 0 {
      RunBeforeBlanks(b, j - 1);
    }
  }

  /** The lines counted by `RunAfter` are blank. */
  lemma {:induction false} RunAfterBlanks(b: seq<bool>, j: nat)
    requires j <= |b|
    ensures forall i :: j <= i < j + RunAfter(b, j) ==> b[i]
    decreases |b| - j
  {
    if j < |b| && b[j] {
      RunAfterBlanks(b, j + 1);
    }
  }

  /** Every slide is non-empty and has no whitespace at either end. */
  predicate AllTrimmed(slides: seq<string>)
  {
    |slides| == 0 || (AllTrimmed(slides[..|slides| - 1]) && IsTrimmedSlide(slides[|slides| - 1]))
  }

  predicate IsTrimmedSlide(t: string)
  {
    t != "" && Trim(t) == t
  }

  lemma {:induction false} AllTrimmedConcat(a: seq<string>, b: seq<string>)
    requires AllTrimmed(a) && AllTrimmed(b)
    ensures AllTrimmed(a + b)
  {
    if |b| > 0 {
      var init := b[..|b| - 1];
      AllTrimmedConcat(a, init);
      assert (a + b)[..|a + b| - 1] == a + init;
    } else {
      assert a + b == a;
    }
  }

  /** `AllTrimmed` speaks of every element. */
  lemma {:induction false} AllTrimmedEach(slides: seq<string>)
    requires AllTrimmed(slides)
    ensures forall i :: 0 <= i < |slides| ==> IsTrimmedSlide(slides[i])
  {
    if |slides| > 0 {
      var init := slides[..|slides| - 1];
      AllTrimmedEach(init);
      assert forall i :: 0 <= i < |init| ==> init[i] == slides[i];
    }
  }

  /** The content part of a trimmed text is trimmed. */
  lemma StrippedContentTrimmed(text: string)
    requires Trim(text) == text
    ensures Trim(Stripped(text).0) == Stripped(text).0
  {
    var lines := Lines(text);
    var k := TrailStart(lines);
    if k == |lines| {
      assert Stripped(text).0 == text;
    } else {
      assert Stripped(text).0 == Trim(Join(lines[..k], "\n"));
      TrimTwice(Join(lines[..k], "\n"));
    }
  }

  lemma ContentTrimmed(current: string)
    ensures AllTrimmed(Content(current))
  {
    TrimTwice(current);
    StrippedContentTrimmed(Trim(current));
  }

  lemma FinishedTrimmed(current: string)
    ensures AllTrimmed(Finished(current))
  {
    TrimTwice(current);
  }

  lemma PushedUpToTrimmed(lines: seq<string>, k: nat)
    requires k <= |lines|
    ensures AllTrimmed(PushedUpTo(lines, k))
  {
    var parts := PushedParts(lines, k);
    forall j | 0 <= j < |parts|
      ensures AllTrimmed(parts[j])
    {
      PushedTrimmed(StateAt(lines, j), lines[j]);
    }
    FlattenTrimmed(parts);
  }

  lemma PushedTrimmed(st: Inference, line: string)
    ensures AllTrimmed(Pushed(st, line))
  {
    ContentTrimmed(st.current);
  }

  /** Every slide of a chunk is non-empty and trimmed. */
  lemma ChunkPartTrimmed(chunk: string)
    ensures AllTrimmed(ChunkPart(chunk))
  {
    if chunk != "" {
      var lines := Lines(chunk);
      PushedUpToTrimmed(lines, |lines|);
      FinishedTrimmed(StateAt(lines, |lines|).current);
      AllTrimmedConcat(PushedUpTo(lines, |lines|), Finished(StateAt(lines, |lines|).current));
    }
  }

  lemma {:induction false} FlattenTrimmed(parts: seq<seq<string>>)
    requires forall i :: 0 <= i < |parts| ==> AllTrimmed(parts[i])
    ensures AllTrimmed(Flatten(parts))
  {
    if |parts| > 0 {
      var init := parts[..|parts| - 1];
      assert forall i :: 0 <= i < |init| ==> init[i] == parts[i];
      FlattenTrimmed(init);
      AllTrimmedConcat(Flatten(init), parts[|parts| - 1]);
    }
  }

  /** Every slide `split` returns is non-empty and trimmed. */
  lemma SlidesAreTrimmed(body: string)
    ensures forall i :: 0 <= i < |Slides(body)| ==> Slides(body)[i] != "" && Trim(Slides(body)[i]) == Slides(body)[i]
  {
    var chunks := Chunks(Collapsed(Marked(BodyLines(body))));
    var parts := ChunkParts(chunks);
    forall i | 0 <= i < |parts|
      ensures AllTrimmed(parts[i])
    {
      ChunkPartTrimmed(chunks[i]);
    }
    FlattenTrimmed(parts);
    AllTrimmedEach(Flatten(parts));
  }

  /**
   * A line pushes at most one slide, and only when it starts with `# `, the
   * slide so far has content and the line leaves no code fence open.
   */
  lemma PushedOnlyAtHeadings(st: Inference, line: string)
    ensures |Pushed(st, line)| <= 1
    ensures Pushed(st, line) != [] ==>
      StartsWith(line, "# ") && st.hasContent && !Fenced(st.fence, Trim(line)).inCodeFence
  {
  }

  /** Inside a code fence that the line does not close, nothing is pushed and the line is appended. */
  lemma FenceHidesHeadings(st: Inference, line: string)
    requires Fenced(st.fence, Trim(line)).inCodeFence
    ensures Pushed(st, line) == []
    ensures InferStep(st, line).current == (if st.current != "" then st.current + "\n" else "") + line
    ensures InferStep(st, line).hasContent ==> st.hasContent || !IsBlank(line)
  {
  }

  /** A line starting with three backticks or tildes outside a fence opens one at least three long. */
  lemma FenceOpens(fence: Fence, trimmed: string)
    requires !fence.inCodeFence && (StartsWith(trimmed, "```") || StartsWith(trimmed, "~~~"))
    ensures var r := Fenced(fence, trimmed); r.inCodeFence && r.fenceChar == trimmed[0] && r.fenceLen >= 3
  {
    var c := trimmed[0];
    assert trimmed[1] == c && trimmed[2] == c;
  }

  /**
   * A `# ` line that starts a slide begins it with the directives the old
   * slide ended with, then the heading, and a heading line always counts as content.
   */
  lemma HeadingStartsSlide(st: Inference, line: string)
    requires StartsSlide(st.(fence := Fenced(st.fence, Trim(line))), line)
    ensures var r := Restart(st.current);
      InferStep(st, line).current == (if r != "" then r + "\n" else "") + line
    ensures InferStep(st, line).hasContent
    ensures Pushed(st, line) == Content(st.current)
  {
    assert line[0] == '#';
    assert TrimStart(line) == line;
    assert Trim(line) != [] && Trim(line)[0] == '#' by {
      TrimEndFacts(line);
    }
  }

  /** `## ` and deeper headings never start a slide. */
  lemma SubheadingNeverSplits(st: Inference, line: string)
    requires StartsWith(line, "##")
    ensures Pushed(st, line) == []
  {
    PushedOnlyAtHeadings(st, line);
    assert line[1] == '#';
  }

  /**
   * A code fence closes exactly on a line that, once trimmed, starts with at
   * least as many fence characters as opened it and has only whitespace after them.
   */
  lemma FenceClosesIff(fence: Fence, trimmed: string)
    requires fence.inCodeFence && !IsWhitespace(fence.fenceChar)
    ensures !Fenced(fence, trimmed).inCodeFence <==>
      exists n :: fence.fenceLen <= n <= |trimmed| && AllWhitespace(trimmed[n..])
        && forall j :: 0 <= j < n ==> trimmed[j] == fence.fenceChar
  {
    var c := fence.fenceChar;
    var run := LeadingRun(trimmed, c);
    if !Fenced(fence, trimmed).inCodeFence {
      assert AllWhitespace(trimmed[run..]);
    }
    if exists n :: fence.fenceLen <= n <= |trimmed| && AllWhitespace(trimmed[n..])
        && forall j :: 0 <= j < n ==> trimmed[j] == c {
      var n :| fence.fenceLen <= n <= |trimmed| && AllWhitespace(trimmed[n..])
        && forall j :: 0 <= j < n ==> trimmed[j] == c;
      assert n < |trimmed| ==> trimmed[n..][0] == trimmed[n] && IsWhitespace(trimmed[n]);
      assert run == n;
    }
  }

  /**
   * A separator line between blank lines (or the ends of the text) becomes a
   * break, and the blank lines on each side are dropped.
   */
  lemma SeparatorBecomesBreak(lines: seq<string>, k: nat)
    requires k < |lines| && IsDashSeparator(Trim(lines[k]))
    requires k + 1 >= |lines| || IsBlank(lines[k + 1])
    requires k == 0 || IsBlank(lines[k - 1])
    ensures Emit(lines, k) == [Sentinel]
    ensures k + 1 < |lines| ==> Emit(lines, k + 1) == []
    ensures k > 0 ==> Emit(lines, k - 1) == []
  {
    assert Converted(lines, k);
    assert !IsBlank(lines[k]);
    if k > 0 && !Skipped(lines, k - 1) {
      assert Popped(lines, k - 1);
    }
  }

  /** Inside a run of blank flags starting at `i`, the run before `i + t` is `t + 1` long. */
  lemma {:induction false} RunBeforeIn(b: seq<bool>, i: nat, t: nat)
    requires i + t < |b| && (i == 0 || !b[i - 1])
    requires forall j :: i <= j <= i + t ==> b[j]
    ensures RunBefore(b, i + t) == t + 1
  {
    if t > 0 {
      RunBeforeIn(b, i, t - 1);
    } else if i > 0 {
      assert RunBefore(b, i - 1) == 0;
    }
  }

  /** Inside a run of `n` blank flags starting at `i`, the run after `i + t` is `n - t` long. */
  lemma {:induction false} RunAfterIn(b: seq<bool>, i: nat, n: nat, t: nat)
    requires t <= n && i + n <= |b| && (i + n == |b| || !b[i + n])
    requires forall j :: i <= j < i + n ==> b[j]
    ensures RunAfter(b, i + t) == n - t
    decreases n - t
  {
    if t < n {
      RunAfterIn(b, i, n, t + 1);
    }
  }

  /** The first three lines of a long run of blank lines leave one break. */
  lemma LongRunHead(s: seq<string>, b: seq<bool>, i: nat, n: nat)
    requires |b| == |s| && n >= 3 && i + n <= |b|
    requires (i == 0 || !b[i - 1]) && (i + n == |b| || !b[i + n])
    requires forall j :: i <= j < i + n ==> b[j]
    ensures CollapsedUpTo(s, b, i + 3) == CollapsedUpTo(s, b, i) + [Sentinel]
  {
    LongRunCollapse(s, b, i, n, 0);
    LongRunCollapse(s, b, i, n, 1);
    LongRunCollapse(s, b, i, n, 2);
    assert CollapsedUpTo(s, b, i + 1) == CollapsedUpTo(s, b, i);
    assert CollapsedUpTo(s, b, i + 2) == CollapsedUpTo(s, b, i);
  }

  /** The lines of a long run of blank lines after its third leave nothing. */
  lemma {:induction false} LongRunTail(s: seq<string>, b: seq<bool>, i: nat, n: nat, t: nat)
    requires |b| == |s| && 3 <= t <= n && i + n <= |b|
    requires (i == 0 || !b[i - 1]) && (i + n == |b| || !b[i + n])
    requires forall j :: i <= j < i + n ==> b[j]
    ensures CollapsedUpTo(s, b, i + t) == CollapsedUpTo(s, b, i + 3)
  {
    if t > 3 {
      LongRunTail(s, b, i, n, t - 1);
      LongRunDropped(s, b, i, n, t - 1);
    }
  }

  lemma LongRunDropped(s: seq<string>, b: seq<bool>, i: nat, n: nat, u: nat)
    requires |b| == |s| && 3 <= u < n && i + n <= |b|
    requires (i == 0 || !b[i - 1]) && (i + n == |b| || !b[i + n])
    requires forall j :: i <= j < i + n ==> b[j]
    ensures CollapsedUpTo(s, b, i + u + 1) == CollapsedUpTo(s, b, i + u)
  {
    LongRunCollapse(s, b, i, n, u);
    assert CollapsedUpTo(s, b, i + u + 1) == CollapsedUpTo(s, b, i + u) + Collapse(s, b, i + u);
  }

  /** Within a run of three or more blank lines only the third becomes a break. */
  lemma LongRunCollapse(s: seq<string>, b: seq<bool>, i: nat, n: nat, u: nat)
    requires |b| == |s| && n >= 3 && u < n && i + n <= |b|
    requires (i == 0 || !b[i - 1]) && (i + n == |b| || !b[i + n])
    requires forall j :: i <= j < i + n ==> b[j]
    ensures Collapse(s, b, i + u) == (if u == 2 then [Sentinel] else [])
  {
    RunBeforeIn(b, i, u);
    RunAfterIn(b, i, n, u);
  }

  /** A maximal run of three or more blank lines becomes exactly one break. */
  lemma LongRunBecomesOneBreak(s: seq<string>, i: nat, n: nat)
    requires n >= 3 && i + n <= |s|
    requires forall j :: i <= j < i + n ==> IsBlank(s[j])
    requires (i == 0 || !IsBlank(s[i - 1])) && (i + n == |s| || !IsBlank(s[i + n]))
    ensures CollapsedUpTo(s, Blanks(s), i + n) == CollapsedUpTo(s, Blanks(s), i) + [Sentinel]
  {
    LongRunHead(s, Blanks(s), i, n);
    LongRunTail(s, Blanks(s), i, n, n);
  }
}
