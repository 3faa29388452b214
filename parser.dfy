/**
 * The slide data model and the parser's pure helpers: layout classification
 * of a slide from its directives and blocks, the reveal-step count of a
 * slide, and the plain text of inline markup.
 */
module Parser {
  import opened Wrappers
  import opened Strings

  type Byte = x: int | 0 <= x < 256

  datatype Inline =
    | Text(s: string)
    | Bold(children: seq<Inline>)
    | Italic(children: seq<Inline>)
    | Strikethrough(children: seq<Inline>)
    | Code(s: string)
    | Link(linkText: seq<Inline>, url: string)

  datatype ListMarker = Static | NextStep | WithPrev | Ordered

  datatype ListItem = ListItem(marker: ListMarker, inlines: seq<Inline>, children: seq<ListItem>)

  datatype ImageDirectives = ImageDirectives(
    width: Option<string>, height: Option<string>, fill: bool, fit: bool, align: Option<string>)

  datatype Block =
    | Heading(level: Byte, inlines: seq<Inline>)
    | Paragraph(inlines: seq<Inline>)
    | List(ordered: bool, items: seq<ListItem>)
    | Image(alt: string, path: string, directives: ImageDirectives)
    | CodeBlock(language: Option<string>, code: string, highlightLines: seq<nat>)
    | BlockQuote(inlines: seq<Inline>)
    | Table(headers: seq<seq<Inline>>, rows: seq<seq<seq<Inline>>>)
    | HorizontalRule
    | Diagram(content: string)
    | ColumnSeparator

  datatype Directive = Directive(name: string, value: string)

  datatype Layout = Title | Section | Image | Gallery | Quote | Code | Bullet | Diagram | TwoColumn | Content

  // ---------------------------------------------------------------------
  // Plain text of inlines
  // ---------------------------------------------------------------------

  /** The text of a run of inlines with all markup dropped: text and code verbatim, the rest by their children. */
  function PlainText(inlines: seq<Inline>): string
    decreases inlines
  {
    if inlines == [] then "" else PlainText(inlines[..|inlines| - 1]) + PlainTextOf(inlines[|inlines| - 1])
  }

  function PlainTextOf(inline: Inline): string
    decreases inline
  {
    match inline
    case Text(s) => s
    case Code(s) => s
    case Bold(children) => PlainText(children)
    case Italic(children) => PlainText(children)
    case Strikethrough(children) => PlainText(children)
    case Link(linkText, _) => PlainText(linkText)
  }

  lemma PlainTextSnoc(inlines: seq<Inline>, i: nat)
    requires i < |inlines|
    ensures PlainText(inlines[..i + 1]) == PlainText(inlines[..i]) + PlainTextOf(inlines[i])
  {
    assert inlines[..i + 1][..i] == inlines[..i];
  }

  /** `inlines_to_text`: appends the text of each inline in turn. */
  method InlinesToText(inlines: seq<Inline>) returns (text: string)
    ensures text == PlainText(inlines)
    decreases inlines
  {
    text := "";
    for i := 0 to |inlines|
      invariant text == PlainText(inlines[..i])
    {
      PlainTextSnoc(inlines, i);
      match inlines[i]
      case Text(s) =>
        text := text + s;
      case Bold(children) =>
        var t := InlinesToText(children);
        text := text + t;
      case Italic(children) =>
        var t := InlinesToText(children);
        text := text + t;
      case Strikethrough(children) =>
        var t := InlinesToText(children);
        text := text + t;
      case Code(s) =>
        text := text + s;
      case Link(linkText, _) =>
        var t := InlinesToText(linkText);
        text := text + t;
    }
    assert inlines[..|inlines|] == inlines;
  }

  /** `inline_text_len`: the byte length of an inline's text, summed over its children. */
  function InlineTextLen(inline: Inline): nat
    decreases inline
  {
    match inline
    case Text(s) => Utf8Len(s)
    case Code(s) => Utf8Len(s)
    case Bold(children) => TextLen(children)
    case Italic(children) => TextLen(children)
    case Strikethrough(children) => TextLen(children)
    case Link(linkText, _) => TextLen(linkText)
  }

  /** The sum of `inline_text_len` over a run of inlines. */
  function TextLen(inlines: seq<Inline>): nat
    decreases inlines
  {
    if inlines == [] then 0 else TextLen(inlines[..|inlines| - 1]) + InlineTextLen(inlines[|inlines| - 1])
  }

  /** `inline_text_len` is the byte length of the inline's plain text. */
  lemma {:induction false} InlineTextLenIsByteLength(inline: Inline)
    ensures InlineTextLen(inline) == Utf8Len(PlainTextOf(inline))
    decreases inline
  {
    match inline
    case Text(_) =>
    case Code(_) =>
    case Bold(children) => TextLenIsByteLength(children);
    case Italic(children) => TextLenIsByteLength(children);
    case Strikethrough(children) => TextLenIsByteLength(children);
    case Link(linkText, _) => TextLenIsByteLength(linkText);
  }

  /** Summing `inline_text_len` over a run of inlines gives the byte length of `inlines_to_text` of the run. */
  lemma {:induction false} TextLenIsByteLength(inlines: seq<Inline>)
    ensures TextLen(inlines) == Utf8Len(PlainText(inlines))
    decreases inlines
  {
    if inlines != [] {
      var init, last := inlines[..|inlines| - 1], inlines[|inlines| - 1];
      TextLenIsByteLength(init);
      InlineTextLenIsByteLength(last);
      Utf8LenConcat(PlainText(init), PlainTextOf(last));
    }
  }

  // ---------------------------------------------------------------------
  // Reveal steps
  // ---------------------------------------------------------------------

  /** The markers of a list in document order: each item, then its children. */
  function Markers(items: seq<ListItem>): seq<ListMarker>
    decreases items
  {
    if items == [] then []
    else
      var last := items[|items| - 1];
      Markers(items[..|items| - 1]) + [last.marker] + Markers(last.children)
  }

  function Occurrences<T(==)>(s: seq<T>, x: T): nat
  {
    if s == [] then 0 else Occurrences(s[..|s| - 1], x) + (if s[|s| - 1] == x then 1 else 0)
  }

  lemma {:induction false} OccurrencesConcat<T>(a: seq<T>, b: seq<T>, x: T)
    ensures Occurrences(a + b, x) == Occurrences(a, x) + Occurrences(b, x)
  {
    if b == [] {
      assert a + b == a;
    } else {
      assert (a + b)[..|a + b| - 1] == a + b[..|b| - 1];
      OccurrencesConcat(a, b[..|b| - 1], x);
    }
  }

  /** The number of `+` markers anywhere in a list, nested items included. */
  function NextStepCount(items: seq<ListItem>): nat
  {
    Occurrences(Markers(items), NextStep)
  }

  /** `count_next_steps`: one per `NextStep` item, plus the count of its children, over all items. */
  method CountNextSteps(items: seq<ListItem>) returns (count: nat)
    ensures count == NextStepCount(items)
    decreases items
  {
    count := 0;
    for i := 0 to |items|
      invariant count == NextStepCount(items[..i])
    {
      var item := items[i];
      assert items[..i + 1][..i] == items[..i];
      assert Markers(items[..i + 1]) == Markers(items[..i]) + [item.marker] + Markers(item.children);
      OccurrencesConcat(Markers(items[..i]) + [item.marker], Markers(item.children), NextStep);
      OccurrencesConcat(Markers(items[..i]), [item.marker], NextStep);
      assert Occurrences([item.marker], NextStep) == if item.marker == NextStep then 1 else 0 by {
        assert [item.marker][..0] == [];
      }
      if item.marker == NextStep {
        count := count + 1;
      }
      var nested := CountNextSteps(item.children);
      count := count + nested;
    }
    assert items[..|items|] == items;
  }

  /**
   * The reveal steps one block contributes: its `+` markers for a list, the
   * diagram step count for a diagram, and none for any other block.
   * `count_diagram_steps` belongs to the diagram renderer and is a parameter here.
   */
  function BlockSteps(b: Block, diagramSteps: string -> nat): nat
  {
    match b
    case List(_, items) => NextStepCount(items)
    case Diagram(content) => diagramSteps(content)
    case _ => 0
  }

  /** `Iterator::max` followed by `unwrap_or(0)`: the largest element, or 0 for no elements. */
  function MaxOrZero(s: seq<nat>): (m: nat)
    ensures forall i :: 0 <= i < |s| ==> s[i] <= m
    ensures s == [] ==> m == 0
    ensures s != [] ==> exists i :: 0 <= i < |s| && s[i] == m
  {
    if s == [] then 0
    else
      var rest := MaxOrZero(s[..|s| - 1]);
      assert forall i :: 0 <= i < |s| - 1 ==> s[..|s| - 1][i] == s[i];
      if s[|s| - 1] <= rest && |s| > 1 then rest else s[|s| - 1]
  }

  /** Dropping a zero from a sequence of counts leaves its maximum as it was. */
  lemma {:induction false} MaxOrZeroWithoutZero(s: seq<nat>, k: nat)
    requires k < |s| && s[k] == 0
    ensures MaxOrZero(s[..k] + s[k + 1..]) == MaxOrZero(s)
  {
    WithoutNotLarger(s, k);
    WithoutNotSmaller(s, k);
  }

  lemma {:induction false} WithoutNotLarger(s: seq<nat>, k: nat)
    requires k < |s|
    ensures MaxOrZero(s[..k] + s[k + 1..]) <= MaxOrZero(s)
  {
    var left, right := s[..k], s[k + 1..];
    var t := left + right;
    if t != [] {
      var j :| 0 <= j < |t| && t[j] == MaxOrZero(t);
      if j < k {
        assert t[j] == left[j];
      } else {
        assert t[j] == right[j - k];
      }
    }
  }

  lemma {:induction false} WithoutNotSmaller(s: seq<nat>, k: nat)
    requires k < |s| && s[k] == 0
    ensures MaxOrZero(s) <= MaxOrZero(s[..k] + s[k + 1..])
  {
    var left, right := s[..k], s[k + 1..];
    var t := left + right;
    var i :| 0 <= i < |s| && s[i] == MaxOrZero(s);
    if i < k {
      assert t[i] == left[i];
    } else if i > k {
      assert t[i - 1] == right[i - 1 - k];
    }
  }

  /** The step counts of the blocks, in order. */
  function StepCounts(blocks: seq<Block>, diagramSteps: string -> nat): (counts: seq<nat>)
    ensures |counts| == |blocks|
  {
    seq(|blocks|, i requires 0 <= i < |blocks| => BlockSteps(blocks[i], diagramSteps))
  }

  /** `compute_max_steps`: the largest step count of any block, 0 when there are no blocks. */
  function MaxSteps(blocks: seq<Block>, diagramSteps: string -> nat): (m: nat)
    ensures forall i :: 0 <= i < |blocks| ==> BlockSteps(blocks[i], diagramSteps) <= m
    ensures blocks == [] ==> m == 0
    ensures blocks != [] ==> exists i :: 0 <= i < |blocks| && BlockSteps(blocks[i], diagramSteps) == m
  {
    var counts := StepCounts(blocks, diagramSteps);
    assert forall i :: 0 <= i < |blocks| ==> counts[i] == BlockSteps(blocks[i], diagramSteps);
    MaxOrZero(counts)
  }

  /** Removing a block that is neither a list nor a diagram leaves the maximum as it was. */
  lemma MaxStepsIgnoresOtherBlocks(blocks: seq<Block>, k: nat, diagramSteps: string -> nat)
    requires k < |blocks| && !blocks[k].List? && !blocks[k].Diagram?
    ensures MaxSteps(blocks[..k] + blocks[k + 1..], diagramSteps) == MaxSteps(blocks, diagramSteps)
  {
    var counts := StepCounts(blocks, diagramSteps);
    var without := blocks[..k] + blocks[k + 1..];
    assert StepCounts(without, diagramSteps) == counts[..k] + counts[k + 1..] by {
      assert forall i :: 0 <= i < k ==> without[i] == blocks[i];
      assert forall i :: k <= i < |without| ==> without[i] == blocks[i + 1];
    }
    assert counts[k] == 0;
    MaxOrZeroWithoutZero(counts, k);
  }

  // ---------------------------------------------------------------------
  // Layout classification
  // ---------------------------------------------------------------------

  const LayoutNames: set<string> :=
    {"title", "section", "image", "gallery", "quote", "code", "bullets", "bullet", "diagram", "two-column"}

  /** The layout an explicit `@layout` value selects; an unknown value selects `Content`. */
  function LayoutFromValue(v: string): (l: Layout)
    ensures l == Layout.Content <==> v !in LayoutNames
    ensures l == Bullet <==> v == "bullets" || v == "bullet"
  {
    match v
    case "title" => Title
    case "section" => Section
    case "image" => Layout.Image
    case "gallery" => Gallery
    case "quote" => Quote
    case "code" => Layout.Code
    case "bullets" => Bullet
    case "bullet" => Bullet
    case "diagram" => Layout.Diagram
    case "two-column" => TwoColumn
    case _ => Layout.Content
  }

  /** The index of the first directive named `layout`, if any. */
  function FirstLayoutDirective(directives: seq<Directive>): (r: Option<nat>)
    ensures r.None? <==> forall i :: 0 <= i < |directives| ==> directives[i].name != "layout"
    ensures r.Some? ==> r.value < |directives| && directives[r.value].name == "layout"
    ensures r.Some? ==> forall j :: 0 <= j < r.value ==> directives[j].name != "layout"
  {
    if directives == [] then None
    else if directives[0].name == "layout" then Some(0)
    else
      match FirstLayoutDirective(directives[1..])
      case None => None
      case Some(k) => Some(k + 1)
  }

  datatype BlockKind = HeadingKind | ParagraphKind | ListKind | ImageKind | CodeKind
                     | QuoteKind | TableKind | RuleKind | DiagramKind | SeparatorKind

  function KindOf(b: Block): BlockKind
  {
    match b
    case Heading(_, _) => HeadingKind
    case Paragraph(_) => ParagraphKind
    case List(_, _) => ListKind
    case Image(_, _, _) => ImageKind
    case CodeBlock(_, _, _) => CodeKind
    case BlockQuote(_) => QuoteKind
    case Table(_, _) => TableKind
    case HorizontalRule => RuleKind
    case Diagram(_) => DiagramKind
    case ColumnSeparator => SeparatorKind
  }

  /** `Kinds(blocks)[k]` is the number of blocks of kind `k`. */
  function Kinds(blocks: seq<Block>): multiset<BlockKind>
  {
    if blocks == [] then multiset{} else Kinds(blocks[..|blocks| - 1]) + multiset{KindOf(blocks[|blocks| - 1])}
  }

  /** Some block has kind `k` exactly when the count of `k` is positive. */
  lemma {:induction false} KindsPositive(blocks: seq<Block>, k: BlockKind)
    ensures Kinds(blocks)[k] > 0 <==> exists i :: 0 <= i < |blocks| && KindOf(blocks[i]) == k
  {
    if blocks != [] {
      var init := blocks[..|blocks| - 1];
      KindsPositive(init, k);
      assert forall i :: 0 <= i < |init| ==> init[i] == blocks[i];
    }
  }

  /** When every block has one of the `allowed` kinds, every other kind is counted zero times. */
  lemma {:induction false} KindsOnly(blocks: seq<Block>, allowed: set<BlockKind>)
    requires forall i :: 0 <= i < |blocks| ==> KindOf(blocks[i]) in allowed
    ensures forall k :: k !in allowed ==> Kinds(blocks)[k] == 0
  {
    if blocks != [] {
      var init := blocks[..|blocks| - 1];
      assert forall i :: 0 <= i < |init| ==> init[i] == blocks[i];
      KindsOnly(init, allowed);
    }
  }

  /** The levels of the headings among `blocks`, in order. */
  function HeadingLevels(blocks: seq<Block>): (levels: seq<Byte>)
    ensures |levels| == Kinds(blocks)[HeadingKind]
  {
    if blocks == [] then []
    else
      var last := blocks[|blocks| - 1];
      HeadingLevels(blocks[..|blocks| - 1]) + (if last.Heading? then [last.level] else [])
  }

  /** A paragraph of fewer than 120 bytes of text. */
  predicate IsShortParagraph(b: Block)
  {
    b.Paragraph? && TextLen(b.inlines) < 120
  }

  function ShortParagraphs(blocks: seq<Block>): nat
  {
    if blocks == [] then 0
    else ShortParagraphs(blocks[..|blocks| - 1]) + (if IsShortParagraph(blocks[|blocks| - 1]) then 1 else 0)
  }

  /** The block that makes a level-1 heading a title slide: a level-2 heading or a short paragraph. */
  predicate IsTitleCompanion(b: Block)
  {
    (b.Heading? && b.level == 2) || IsShortParagraph(b)
  }

  /** The counters `classify_layout` keeps while it walks the blocks. */
  datatype Tally = Tally(
    headings: seq<Byte>, paragraphs: nat, shortParagraphs: nat, lists: nat, images: nat,
    codeBlocks: nat, quotes: nat, diagrams: nat, tables: nat, columnSeparators: nat)

  /** The counters for `blocks`: the heading levels in order and the number of blocks of each kind. */
  function TallyOf(blocks: seq<Block>): Tally
  {
    var kinds := Kinds(blocks);
    Tally(HeadingLevels(blocks), kinds[ParagraphKind], ShortParagraphs(blocks), kinds[ListKind],
          kinds[ImageKind], kinds[CodeKind], kinds[QuoteKind], kinds[DiagramKind], kinds[TableKind],
          kinds[SeparatorKind])
  }

  /** The condition of the title rule as the code states it: a single heading, of level 1, and one other block that is a companion. */
  predicate TitleRule(blocks: seq<Block>)
  {
    var t := TallyOf(blocks);
    && |t.headings| == 1 && t.headings[0] == 1
    && |blocks| - 1 == 1
    && (t.shortParagraphs == 1 || |t.headings| == 1)
    && exists i :: 0 <= i < |blocks| && IsTitleCompanion(blocks[i])
  }

  /**
   * The rules that classify a slide without a `@layout` directive, tried in
   * order; `title` is the condition of the title rule.
   */
  function Rules(blocks: seq<Block>, title: bool): Layout
  {
    var t := TallyOf(blocks);
    if t.diagrams > 0 then Layout.Diagram
    else if t.columnSeparators > 0 then TwoColumn
    else if |t.headings| == 1 && t.headings[0] == 1 && |blocks| - 1 == 0 then Section
    else if title then Title
    else LaterRules(t, |blocks|)
  }

  /** The rules after the title rule, which depend on the counters alone. */
  function LaterRules(t: Tally, total: int): Layout
  {
    if |t.headings| == 1 && t.paragraphs == 0 && t.lists == 0 && t.images == 0
       && t.codeBlocks == 0 && t.quotes == 0 && t.tables == 0 then Section
    else if t.images == 1 && t.lists == 0 && t.codeBlocks == 0 && t.quotes == 0
       && t.tables == 0 && total - t.images - |t.headings| <= 1 then Layout.Image
    else if t.images >= 2 && t.lists == 0 && t.codeBlocks == 0 && t.quotes == 0
       && t.paragraphs == 0 && t.tables == 0 then Gallery
    else if t.quotes > 0 && t.lists == 0 && t.codeBlocks == 0 && t.images == 0 && t.tables == 0 then Quote
    else if t.codeBlocks > 0 && t.lists == 0 && t.images == 0 && t.quotes == 0 && t.tables == 0 then Layout.Code
    else if |t.headings| > 0 && t.lists > 0 && t.codeBlocks == 0 && t.images == 0 && t.quotes == 0 then Bullet
    else Layout.Content
  }

  /** The layout of a slide: its first `@layout` directive, or else the classification rules. */
  function LayoutOf(directives: seq<Directive>, blocks: seq<Block>): Layout
  {
    match FirstLayoutDirective(directives)
    case Some(i) => LayoutFromValue(directives[i].value)
    case None => Rules(blocks, TitleRule(blocks))
  }

  function Inc(n: nat, b: bool): nat
  {
    if b then n + 1 else n
  }

  /** The counters after one more block: the block is added to the counter of its kind and to no other. */
  function Counted(t: Tally, b: Block): Tally
  {
    var k := KindOf(b);
    Tally(
      t.headings + (if b.Heading? then [b.level] else []),
      Inc(t.paragraphs, k == ParagraphKind), Inc(t.shortParagraphs, IsShortParagraph(b)),
      Inc(t.lists, k == ListKind), Inc(t.images, k == ImageKind), Inc(t.codeBlocks, k == CodeKind),
      Inc(t.quotes, k == QuoteKind), Inc(t.diagrams, k == DiagramKind), Inc(t.tables, k == TableKind),
      Inc(t.columnSeparators, k == SeparatorKind))
  }

  /** Counting one more block changes the counters as `Counted` says. */
  lemma TallyOfSnoc(blocks: seq<Block>, b: Block)
    ensures TallyOf(blocks + [b]) == Counted(TallyOf(blocks), b)
  {
    var all := blocks + [b];
    assert all[..|all| - 1] == blocks;
  }

  /** One step of the counting loop. */
  method CountBlock(t: Tally, b: Block) returns (t': Tally)
    ensures t' == Counted(t, b)
  {
    t' := t;
    match b
    case Heading(level, _) =>
      t' := t.(headings := t.headings + [level]);
    case Paragraph(inlines) =>
      var textLen := TextLen(inlines);
      t' := t.(paragraphs := t.paragraphs + 1);
      if textLen < 120 {
        t' := t'.(shortParagraphs := t'.shortParagraphs + 1);
      }
    case List(_, _) =>
      t' := t.(lists := t.lists + 1);
    case Image(_, _, _) =>
      t' := t.(images := t.images + 1);
    case CodeBlock(_, _, _) =>
      t' := t.(codeBlocks := t.codeBlocks + 1);
    case BlockQuote(_) =>
      t' := t.(quotes := t.quotes + 1);
    case Diagram(_) =>
      t' := t.(diagrams := t.diagrams + 1);
    case Table(_, _) =>
      t' := t.(tables := t.tables + 1);
    case ColumnSeparator =>
      t' := t.(columnSeparators := t.columnSeparators + 1);
    case HorizontalRule =>
  }

  /** `classify_layout`. */
  method ClassifyLayout(directives: seq<Directive>, blocks: seq<Block>) returns (layout: Layout)
    ensures layout == LayoutOf(directives, blocks)
  {
    for i := 0 to |directives|
      invariant forall j :: 0 <= j < i ==> directives[j].name != "layout"
    {
      if directives[i].name == "layout" {
        return LayoutFromValue(directives[i].value);
      }
    }

    var t := Tally([], 0, 0, 0, 0, 0, 0, 0, 0, 0);
    for i := 0 to |blocks|
      invariant t == TallyOf(blocks[..i])
    {
      assert blocks[..i + 1] == blocks[..i] + [blocks[i]];
      TallyOfSnoc(blocks[..i], blocks[i]);
      t := CountBlock(t, blocks[i]);
    }
    assert blocks[..|blocks|] == blocks;
    layout := ClassifyCounted(blocks, t);
  }

  /** The rules of `classify_layout`, once the blocks are counted. */
  method ClassifyCounted(blocks: seq<Block>, t: Tally) returns (layout: Layout)
    requires t == TallyOf(blocks)
    ensures layout == Rules(blocks, TitleRule(blocks))
  {
    var total := |blocks|;
    if t.diagrams > 0 {
      return Layout.Diagram;
    }
    if t.columnSeparators > 0 {
      return TwoColumn;
    }
    if |t.headings| == 1 && t.headings[0] == 1 {
      var nonHeading := total - 1;
      if nonHeading == 0 {
        return Section;
      }
      if nonHeading == 1 && (t.shortParagraphs == 1 || |t.headings| == 1) {
        for j := 0 to |blocks|
          invariant forall k :: 0 <= k < j ==> !IsTitleCompanion(blocks[k])
        {
          match blocks[j]
          case Heading(level, _) =>
            if level == 2 {
              return Title;
            }
          case Paragraph(inlines) =>
            var textLen := TextLen(inlines);
            if textLen < 120 {
              return Title;
            }
          case _ =>
        }
      }
    }
    layout := ClassifyLater(t, total);
  }

  /** The rules of `classify_layout` after the title rule. */
  method ClassifyLater(t: Tally, total: int) returns (layout: Layout)
    ensures layout == LaterRules(t, total)
  {
    if |t.headings| == 1 && t.paragraphs == 0 && t.lists == 0 && t.images == 0 && t.codeBlocks == 0
       && t.quotes == 0 && t.tables == 0 {
      return Section;
    }
    if t.images == 1 && t.lists == 0 && t.codeBlocks == 0 && t.quotes == 0 && t.tables == 0 {
      var other := total - t.images - |t.headings|;
      if other <= 1 {
        return Layout.Image;
      }
    }
    if t.images >= 2 && t.lists == 0 && t.codeBlocks == 0 && t.quotes == 0 && t.paragraphs == 0 && t.tables == 0 {
      return Gallery;
    }
    if t.quotes > 0 && t.lists == 0 && t.codeBlocks == 0 && t.images == 0 && t.tables == 0 {
      return Quote;
    }
    if t.codeBlocks > 0 && t.lists == 0 && t.images == 0 && t.quotes == 0 && t.tables == 0 {
      return Layout.Code;
    }
    if |t.headings| > 0 && t.lists > 0 && t.codeBlocks == 0 && t.images == 0 && t.quotes == 0 {
      return Bullet;
    }
    return Layout.Content;
  }

  // ---------------------------------------------------------------------
  // Properties of the classification
  // ---------------------------------------------------------------------

  /** The first `@layout` directive decides the layout, whatever the blocks and later directives. */
  lemma FirstLayoutDirectiveDecides(directives: seq<Directive>, blocks: seq<Block>, i: nat)
    requires i < |directives| && directives[i].name == "layout"
    requires forall j :: 0 <= j < i ==> directives[j].name != "layout"
    ensures LayoutOf(directives, blocks) == LayoutFromValue(directives[i].value)
  {
  }

  /** Without a `@layout` directive, a diagram block makes a diagram slide, and otherwise a column separator a two-column slide. */
  lemma DiagramThenTwoColumn(directives: seq<Directive>, blocks: seq<Block>, i: nat)
    requires forall j :: 0 <= j < |directives| ==> directives[j].name != "layout"
    requires i < |blocks| && (blocks[i].Diagram? || blocks[i].ColumnSeparator?)
    ensures blocks[i].Diagram? ==> LayoutOf(directives, blocks) == Layout.Diagram
    ensures (forall j :: 0 <= j < |blocks| ==> !blocks[j].Diagram?) ==> LayoutOf(directives, blocks) == TwoColumn
  {
    KindsPositive(blocks, DiagramKind);
    KindsPositive(blocks, SeparatorKind);
    assert KindOf(blocks[i]) == DiagramKind || KindOf(blocks[i]) == SeparatorKind;
  }

  lemma KindsSingle(b: Block)
    ensures Kinds([b]) == multiset{KindOf(b)}
    ensures HeadingLevels([b]) == if b.Heading? then [b.level] else []
    ensures ShortParagraphs([b]) == if IsShortParagraph(b) then 1 else 0
  {
    assert [b][..0] == [];
  }

  lemma KindsPair(a: Block, b: Block)
    ensures Kinds([a, b]) == multiset{KindOf(a), KindOf(b)}
    ensures HeadingLevels([a, b]) == (if a.Heading? then [a.level] else []) + (if b.Heading? then [b.level] else [])
  {
    assert [a, b][..1] == [a];
    KindsSingle(a);
  }

  /** A lone level-1 heading is a section slide. */
  lemma LoneTopHeadingIsSection(directives: seq<Directive>, inlines: seq<Inline>)
    requires forall j :: 0 <= j < |directives| ==> directives[j].name != "layout"
    ensures LayoutOf(directives, [Heading(1, inlines)]) == Section
  {
    KindsSingle(Heading(1, inlines));
  }

  /** A level-1 heading and one paragraph of fewer than 120 bytes, in either order, is a title slide. */
  lemma HeadingWithShortParagraphIsTitle(directives: seq<Directive>, blocks: seq<Block>, h: seq<Inline>, p: seq<Inline>)
    requires forall j :: 0 <= j < |directives| ==> directives[j].name != "layout"
    requires blocks == [Heading(1, h), Paragraph(p)] || blocks == [Paragraph(p), Heading(1, h)]
    requires TextLen(p) < 120
    ensures LayoutOf(directives, blocks) == Title
  {
    KindsPair(blocks[0], blocks[1]);
    assert IsTitleCompanion(Paragraph(p));
    if blocks[0].Paragraph? {
      assert IsTitleCompanion(blocks[0]);
    } else {
      assert IsTitleCompanion(blocks[1]);
    }
  }

  /**
   * A single heading of any level, with no block besides it other than
   * horizontal rules, is a section slide.
   */
  lemma SingleHeadingIsSection(directives: seq<Directive>, blocks: seq<Block>)
    requires forall j :: 0 <= j < |directives| ==> directives[j].name != "layout"
    requires Kinds(blocks)[HeadingKind] == 1
    requires forall k :: k != HeadingKind && k != RuleKind ==> Kinds(blocks)[k] == 0
    ensures LayoutOf(directives, blocks) == Section
  {
    NoTitleWithoutCompanion(blocks);
  }

  /** A slide with one heading and no paragraph never satisfies the title rule. */
  lemma NoTitleWithoutCompanion(blocks: seq<Block>)
    requires Kinds(blocks)[HeadingKind] == 1 && Kinds(blocks)[ParagraphKind] == 0
    ensures !TitleRule(blocks)
  {
    if TitleRule(blocks) {
      var i :| 0 <= i < |blocks| && IsTitleCompanion(blocks[i]);
      if blocks[i].Heading? {
        HeadingLevelsComplete(blocks, i);
      } else {
        assert KindOf(blocks[i]) == ParagraphKind;
        KindsPositive(blocks, ParagraphKind);
      }
    }
  }

  /** Every heading's level appears among the heading levels. */
  lemma {:induction false} HeadingLevelsComplete(blocks: seq<Block>, i: nat)
    requires i < |blocks| && blocks[i].Heading?
    ensures blocks[i].level in HeadingLevels(blocks)
  {
    var init := blocks[..|blocks| - 1];
    if i < |blocks| - 1 {
      HeadingLevelsComplete(init, i);
      assert init[i] == blocks[i];
    }
  }

  /** A slide of only paragraphs, lists, tables and rules matches no rule and is a content slide. */
  lemma PlainBlocksAreContent(directives: seq<Directive>, blocks: seq<Block>)
    requires forall j :: 0 <= j < |directives| ==> directives[j].name != "layout"
    requires forall i :: 0 <= i < |blocks| ==>
      blocks[i].Paragraph? || blocks[i].List? || blocks[i].Table? || blocks[i].HorizontalRule?
    ensures LayoutOf(directives, blocks) == Layout.Content
  {
    var kinds := [HeadingKind, ImageKind, CodeKind, QuoteKind, DiagramKind, SeparatorKind];
    forall k | k in kinds
      ensures Kinds(blocks)[k] == 0
    {
      KindsPositive(blocks, k);
    }
  }

  // ---------------------------------------------------------------------
  // The title rule
  // ---------------------------------------------------------------------

  /**
   * As written, the title rule also asks for a single heading, so the
   * level-2 companion it looks for can never be there: a level-1 heading
   * followed by a level-2 heading is a content slide.
   */
  lemma HeadingWithSubtitleIsContent(h1: seq<Inline>, h2: seq<Inline>)
    ensures LayoutOf([], [Heading(1, h1), Heading(2, h2)]) == Layout.Content
  {
    KindsPair(Heading(1, h1), Heading(2, h2));
  }

  /** The title rule as evidently intended: exactly one level-1 heading, one other block, and that block a companion. */
  predicate IntendedTitleRule(blocks: seq<Block>)
  {
    && Occurrences(HeadingLevels(blocks), 1) == 1
    && |blocks| == 2
    && exists i :: 0 <= i < |blocks| && IsTitleCompanion(blocks[i])
  }

  function IntendedLayoutOf(directives: seq<Directive>, blocks: seq<Block>): Layout
  {
    match FirstLayoutDirective(directives)
    case Some(i) => LayoutFromValue(directives[i].value)
    case None => Rules(blocks, IntendedTitleRule(blocks))
  }

  /** With the intended title rule, a level-1 heading and a level-2 heading make a title slide. */
  lemma IntendedHeadingWithSubtitleIsTitle(h1: seq<Inline>, h2: seq<Inline>)
    ensures IntendedLayoutOf([], [Heading(1, h1), Heading(2, h2)]) == Title
  {
    var blocks := [Heading(1, h1), Heading(2, h2)];
    KindsPair(blocks[0], blocks[1]);
    var levels := HeadingLevels(blocks);
    assert levels == [1, 2];
    assert Occurrences(levels, 1) == 1 by {
      assert levels[..1] == [1];
      assert levels[..1][..0] == [];
      assert Occurrences(levels[..1], 1) == 1;
    }
    assert IsTitleCompanion(blocks[1]);
  }

  /** The intended rule agrees with the written one on slides with at most one heading. */
  lemma IntendedAgreesOnOneHeading(directives: seq<Directive>, blocks: seq<Block>)
    requires |HeadingLevels(blocks)| <= 1
    ensures IntendedLayoutOf(directives, blocks) == LayoutOf(directives, blocks)
  {
    var headings := HeadingLevels(blocks);
    if |headings| == 1 {
      assert headings[..0] == [];
      assert Occurrences(headings, 1) == (if headings[0] == 1 then 1 else 0);
    } else {
      assert headings == [];
    }
  }
}
