/**
 * The converter from a presentation to LaTeX Beamer text. Output is the sequence of
 * lines the program writes with `WriteLine`, an empty string for a blank line.
 * Each step of the program is specified by a function and carried out by a method
 * that works as the program does, with loops over the document's parts.
 */
module Converter {
  import opened Document

  const BeginItemize := "\\begin{itemize}[<+->]"
  const EndItemize := "\\end{itemize}"
  const ItemPrefix := "\\item "
  const BeginFrame := "\\begin{frame}"
  const EndFrame := "\\end{frame}"

  // ---------------------------------------------------------------------------
  // Indentation

  /** `n` tab characters. */
  function Tabs(n: nat): (t: string)
    ensures |t| == n
    ensures forall i :: 0 <= i < n ==> t[i] == '\t'
  {
    if n == 0 then "" else Tabs(n - 1) + "\t"
  }

  /** The number of tabs written for an indent level: negative levels write none. */
  function TabCount(level: int): nat
  {
    if level < 0 then 0 else level
  }

  /** The line written for `text` at indent level `level`. */
  function Indented(text: string, level: int): (line: string)
    ensures |line| == TabCount(level) + |text|
    ensures forall i :: 0 <= i < TabCount(level) ==> line[i] == '\t'
    ensures line[TabCount(level)..] == text
  {
    Tabs(TabCount(level)) + text
  }

  /** Builds the line for `text` at `level`, one tab at a time. */
  method WriteWithIndent(text: string, level: Int32) returns (line: string)
    ensures |line| == TabCount(level) + |text|
    ensures forall i :: 0 <= i < TabCount(level) ==> line[i] == '\t'
    ensures line[TabCount(level)..] == text
    ensures line == Indented(text, level)
  {
    var indentlevel := level;
    if indentlevel < 0 {
      indentlevel := 0;
    }
    var sb := "";
    var i := 0;
    while i < indentlevel
      invariant 0 <= i <= indentlevel
      invariant sb == Tabs(i)
    {
      sb := sb + "\t";
      i := i + 1;
    }
    line := sb + text;
  }

  // ---------------------------------------------------------------------------
  // Output lines

  /**
   * The lines the converter writes, by what they mean. `ListBegin`, `ListEnd` and `Item`
   * carry the indent level they are written at.
   */
  datatype Line =
    | Blank
    | SectionLine(sectionTitle: string)
    | FrameBegin
    | FrameTitle(frameTitle: string)
    | ListBegin(beginLevel: int)
    | ListEnd(endLevel: int)
    | Item(itemLevel: int, text: string)
    | FrameEnd

  /** The text of an output line. */
  function Render(line: Line): string
  {
    match line
    case Blank => ""
    case SectionLine(t) => "\\section{" + t + "}"
    case FrameBegin => BeginFrame
    case FrameTitle(t) => "\\frametitle{" + t + "}"
    case ListBegin(level) => Indented(BeginItemize, level)
    case ListEnd(level) => Indented(EndItemize, level)
    case Item(level, text) => Indented(ItemPrefix + text, level)
    case FrameEnd => EndFrame
  }

  /** The texts of a sequence of output lines. */
  function RenderLines(lines: seq<Line>): seq<string>
  {
    seq(|lines|, i requires 0 <= i < |lines| => Render(lines[i]))
  }

  lemma RenderLinesAppend(a: seq<Line>, b: seq<Line>)
    ensures RenderLines(a + b) == RenderLines(a) + RenderLines(b)
  {
  }

  // ---------------------------------------------------------------------------
  // Titles

  /** A shape is a title when its placeholder has a valid type that is Title or CenteredTitle. */
  function IsTitleShape(shape: Shape): (r: bool)
    ensures r <==> shape.placeholder.Some? && shape.placeholder.value.phType.Some?
                   && (shape.placeholder.value.phType.value == Title
                       || shape.placeholder.value.phType.value == CenteredTitle)
  {
    match shape.placeholder
    case Some(Placeholder(Some(t))) =>
      (match t
       case Title => true
       case CenteredTitle => true
       case _ => false)
    case _ => false
  }

  /** The paragraphs of the title shapes among `shapes`, in document order. */
  function TitleParagraphs(shapes: seq<Shape>): seq<Paragraph>
  {
    if shapes == [] then []
    else
      var last := shapes[|shapes| - 1];
      TitleParagraphs(shapes[..|shapes| - 1]) + (if IsTitleShape(last) then last.paragraphs else [])
  }

  /** The texts of a sequence of paragraphs. */
  function Texts(ps: seq<Paragraph>): seq<string>
  {
    seq(|ps|, i requires 0 <= i < |ps| => ParagraphText(ps[i]))
  }

  /** The strings of `ts` with a line feed between each two of them. */
  function JoinLines(ts: seq<string>): string
  {
    if ts == [] then ""
    else if |ts| == 1 then ts[0]
    else ts[0] + "\n" + JoinLines(ts[1..])
  }

  lemma {:induction false} JoinLinesSnoc(ts: seq<string>, t: string)
    ensures JoinLines(ts + [t]) == if ts == [] then t else JoinLines(ts) + "\n" + t
  {
    if |ts| > 1 {
      assert (ts + [t])[1..] == ts[1..] + [t];
      JoinLinesSnoc(ts[1..], t);
    } else if |ts| == 1 {
      assert (ts + [t])[1..] == [t];
    }
  }

  /** The title of a slide: the texts of the title shapes' paragraphs, one per line. */
  function SlideTitle(slide: Slide): string
  {
    JoinLines(Texts(TitleParagraphs(slide.shapes)))
  }

  /** Concatenates the run texts of a paragraph. */
  method ReadParagraphText(p: Paragraph) returns (text: string)
    ensures text == ParagraphText(p)
  {
    text := "";
    var k := 0;
    while k < |p.runs|
      invariant 0 <= k <= |p.runs|
      invariant text == Concat(p.runs[..k])
    {
      assert p.runs[..k + 1][..k] == p.runs[..k];
      text := text + p.runs[k];
      k := k + 1;
    }
    assert p.runs[..k] == p.runs;
  }

  /**
   * Appends the paragraphs of one title shape to the title built so far, writing the
   * separator before each and setting it to a line feed after the first.
   */
  method AppendTitleParagraphs(title0: string, separator0: string, ghost before: seq<Paragraph>, ps: seq<Paragraph>)
    returns (title: string, separator: string)
    requires title0 == JoinLines(Texts(before))
    requires separator0 == if before == [] then "" else "\n"
    ensures title == JoinLines(Texts(before + ps))
    ensures separator == if before + ps == [] then "" else "\n"
  {
    title, separator := title0, separator0;
    var j := 0;
    assert before + ps[..0] == before;
    while j < |ps|
      invariant 0 <= j <= |ps|
      invariant title == JoinLines(Texts(before + ps[..j]))
      invariant separator == if before + ps[..j] == [] then "" else "\n"
    {
      var text := ReadParagraphText(ps[j]);
      assert before + ps[..j + 1] == (before + ps[..j]) + [ps[j]];
      assert Texts(before + ps[..j + 1]) == Texts(before + ps[..j]) + [text];
      JoinLinesSnoc(Texts(before + ps[..j]), text);
      title := title + separator + text;
      separator := "\n";
      j := j + 1;
    }
    assert ps[..j] == ps;
  }

  /**
   * Builds a slide's title: walks the title shapes and their paragraphs, writing a
   * separator before every paragraph but the first.
   */
  method GetSlideTitle(slide: Slide) returns (title: string)
    ensures title == SlideTitle(slide)
  {
    var shapes := slide.shapes;
    title := "";
    var separator := "";
    var i := 0;
    while i < |shapes|
      invariant 0 <= i <= |shapes|
      invariant title == JoinLines(Texts(TitleParagraphs(shapes[..i])))
      invariant separator == if TitleParagraphs(shapes[..i]) == [] then "" else "\n"
    {
      assert shapes[..i + 1][..i] == shapes[..i];
      if IsTitleShape(shapes[i]) {
        title, separator := AppendTitleParagraphs(title, separator, TitleParagraphs(shapes[..i]), shapes[i].paragraphs);
      } else {
        assert TitleParagraphs(shapes[..i]) + [] == TitleParagraphs(shapes[..i]);
      }
      i := i + 1;
    }
    assert shapes[..i] == shapes;
  }

  // ---------------------------------------------------------------------------
  // Counting slides

  /** A slide part counts as shown when it has a root whose `show` is absent or true. */
  predicate IsShown(part: SlidePart)
  {
    part.root.Some? && (part.root.value.show.ShowAbsent? || part.root.value.show == ShowValue(true))
  }

  /** The number of shown slide parts. */
  function CountShown(parts: seq<SlidePart>): (n: nat)
    ensures n <= |parts|
    ensures n == |parts| <==> forall i :: 0 <= i < |parts| ==> IsShown(parts[i])
    ensures n == 0 <==> forall i :: 0 <= i < |parts| ==> !IsShown(parts[i])
  {
    if parts == [] then 0
    else
      assert forall i :: 0 < i < |parts| ==> parts[i] == parts[1..][i - 1];
      (if IsShown(parts[0]) then 1 else 0) + CountShown(parts[1..])
  }

  /** The slide count the program reports: every part, or only the shown ones. */
  function SlidesCount(includeHidden: bool, parts: seq<SlidePart>): (n: nat)
    ensures n <= |parts|
    ensures includeHidden ==> n == |parts|
    ensures !includeHidden ==> (n == |parts| <==> forall i :: 0 <= i < |parts| ==> IsShown(parts[i]))
    ensures !includeHidden ==> (n == 0 <==> forall i :: 0 <= i < |parts| ==> !IsShown(parts[i]))
  {
    if includeHidden then |parts| else CountShown(parts)
  }

  // ---------------------------------------------------------------------------
  // Bulleted items

  /** The paragraphs that may become items: all of a slide's paragraphs but the first. */
  function BodyParagraphs(slide: Slide): seq<Paragraph>
  {
    var all := SlideParagraphs(slide);
    if all == [] then [] else all[1..]
  }

  /** The indent level a body paragraph is compared with: that of the paragraph before it, 0 for the first. */
  function PrevLevel(ps: seq<Paragraph>, i: nat): Int32
    requires i <= |ps|
  {
    if i == 0 then 0 else IndentLevel(ps[i - 1])
  }

  /** Whether one of the first `i` body paragraphs has text, that is, became an item. */
  predicate ItemBefore(ps: seq<Paragraph>, i: nat)
    requires i <= |ps|
  {
    i > 0 && (ItemBefore(ps, i - 1) || ParagraphText(ps[i - 1]) != "")
  }

  /** The opening of the outer list, written before the first item only. */
  function ListOpening(itemBefore: bool, level: Int32): seq<Line>
  {
    if itemBefore then [] else [ListBegin(level)]
  }

  /**
   * The change of nesting before an item at `level` after a paragraph at `prev`: one
   * list closing when the level drops, one list opening when it rises, however far.
   */
  function LevelChange(prev: Int32, level: Int32): seq<Line>
  {
    if prev > level then [ListEnd(level + 1)]
    else if prev < level then [ListBegin(level)]
    else []
  }

  /**
   * The lines written for a paragraph with text `text` at level `level`, after a
   * paragraph at level `prev`, when `itemBefore` tells whether an item was written
   * before: none when the text is empty; otherwise the list opening, the change of
   * nesting and the item line.
   */
  function ParagraphStep(text: string, level: Int32, prev: Int32, itemBefore: bool): seq<Line>
  {
    if text == "" then []
    else ListOpening(itemBefore, level) + LevelChange(prev, level) + [Item(level, text)]
  }

  /** The lines written for body paragraph `i`. */
  function ParagraphLines(ps: seq<Paragraph>, i: nat): seq<Line>
    requires i < |ps|
  {
    ParagraphStep(ParagraphText(ps[i]), IndentLevel(ps[i]), PrevLevel(ps, i), ItemBefore(ps, i))
  }

  /** The lines written for the first `n` body paragraphs. */
  function LinesUpTo(ps: seq<Paragraph>, n: nat): seq<Line>
    requires n <= |ps|
  {
    if n == 0 then [] else LinesUpTo(ps, n - 1) + ParagraphLines(ps, n - 1)
  }

  /**
   * The lines written for all body paragraphs, with the closing of the outer list,
   * unindented, when it was opened.
   */
  function ItemLines(ps: seq<Paragraph>): seq<Line>
  {
    LinesUpTo(ps, |ps|) + (if ItemBefore(ps, |ps|) then [ListEnd(0)] else [])
  }

  /**
   * The body of the paragraph loop for body paragraph `k`: the lines it writes given
   * the previous level and whether a list is already open.
   */
  method WriteParagraph(p: Paragraph, previndent: Int32, firstitemdone: bool)
    returns (written: seq<string>)
    ensures written == RenderLines(ParagraphStep(ParagraphText(p), IndentLevel(p), previndent, firstitemdone))
    ensures |written| > 0 <==> ParagraphText(p) != ""
  {
    var currentIndentLevel := IndentLevel(p);
    var paragraphText := ReadParagraphText(p);
    written := [];
    if |paragraphText| > 0 {
      var opening: seq<string> := [];
      if !firstitemdone {
        var line := WriteWithIndent(BeginItemize, currentIndentLevel);
        opening := [line];
      }
      var change: seq<string> := [];
      if previndent > currentIndentLevel {
        var line := WriteWithIndent(EndItemize, currentIndentLevel + 1);
        change := [line];
      } else if previndent < currentIndentLevel {
        var line := WriteWithIndent(BeginItemize, currentIndentLevel);
        change := [line];
      }
      var item := WriteWithIndent(ItemPrefix + paragraphText, currentIndentLevel);
      written := opening + change + [item];
    }
  }

  /**
   * The paragraph loop: `previndent` and `firstitemdone` carry the previous paragraph's
   * level and whether a list is open.
   */
  method WriteItems(ps: seq<Paragraph>) returns (lines: seq<string>)
    ensures lines == RenderLines(ItemLines(ps))
  {
    lines := [];
    var previndent: Int32 := 0;
    var firstitemdone := false;
    var k := 0;
    while k < |ps|
      invariant 0 <= k <= |ps|
      invariant lines == RenderLines(LinesUpTo(ps, k))
      invariant previndent == PrevLevel(ps, k)
      invariant firstitemdone == ItemBefore(ps, k)
    {
      var currentIndentLevel := IndentLevel(ps[k]);
      var written := WriteParagraph(ps[k], previndent, firstitemdone);
      if |written| > 0 {
        firstitemdone := true;
      }
      RenderLinesAppend(LinesUpTo(ps, k), ParagraphLines(ps, k));
      lines := lines + written;
      previndent := currentIndentLevel;
      k := k + 1;
    }
    if firstitemdone {
      lines := lines + [EndItemize];
      assert Render(ListEnd(0)) == EndItemize;
      RenderLinesAppend(LinesUpTo(ps, |ps|), [ListEnd(0)]);
    } else {
      assert ItemLines(ps) == LinesUpTo(ps, |ps|);
    }
  }

  // ---------------------------------------------------------------------------
  // Slides and the document

  /** The section heading written before a slide whose layout is a section header. */
  function SectionLines(layout: LayoutKind, title: string): seq<Line>
  {
    if layout == SectionHeader then [SectionLine(title), Blank] else []
  }

  /** The opening of a slide's frame, with its title. */
  function FrameHead(title: string): seq<Line>
  {
    [Blank, FrameBegin, FrameTitle(title), Blank]
  }

  /** The lines written for one slide part whose root is present. */
  function SlideLines(part: SlidePart): seq<Line>
    requires part.root.Some?
  {
    var slide := part.root.value;
    SectionLines(part.layout, SlideTitle(slide)) + FrameHead(SlideTitle(slide))
    + ItemLines(BodyParagraphs(slide)) + [FrameEnd]
  }

  predicate AllRootsPresent(parts: seq<SlidePart>)
  {
    forall i :: 0 <= i < |parts| ==> parts[i].root.Some?
  }

  /** The lines written for a sequence of slide parts, slide after slide. */
  function DocumentLines(parts: seq<SlidePart>): seq<Line>
    requires AllRootsPresent(parts)
  {
    if parts == [] then [] else DocumentLines(parts[..|parts| - 1]) + SlideLines(parts[|parts| - 1])
  }

  /** The lines of the first `i + 1` slide parts are those of the first `i` and then those of part `i`. */
  lemma DocumentLinesStep(parts: seq<SlidePart>, i: nat)
    requires i < |parts| && AllRootsPresent(parts)
    ensures AllRootsPresent(parts[..i]) && AllRootsPresent(parts[..i + 1])
    ensures DocumentLines(parts[..i + 1]) == DocumentLines(parts[..i]) + SlideLines(parts[i])
  {
    assert parts[..i + 1][..i] == parts[..i];
  }

  /** Writes the lines of one slide: section heading, frame head, items, frame end. */
  method WriteSlide(part: SlidePart) returns (lines: seq<string>)
    requires part.root.Some?
    ensures lines == RenderLines(SlideLines(part))
  {
    var slide := part.root.value;
    var section: seq<string> := [];
    if part.layout == SectionHeader {
      var sectionTitle := GetSlideTitle(slide);
      section := ["\\section{" + sectionTitle + "}", ""];
    }
    var title := GetSlideTitle(slide);
    var head := ["", BeginFrame, "\\frametitle{" + title + "}", ""];
    var all := ShapeParagraphs(slide.shapes);
    var body := if all == [] then [] else all[1..];
    var items := WriteItems(body);
    lines := section + head + items + [EndFrame];
    assert section == RenderLines(SectionLines(part.layout, title));
    assert head == RenderLines(FrameHead(title));
    assert [EndFrame] == RenderLines([FrameEnd]);
    RenderLinesAppend(SectionLines(part.layout, title), FrameHead(title));
    RenderLinesAppend(SectionLines(part.layout, title) + FrameHead(title), ItemLines(BodyParagraphs(slide)));
    RenderLinesAppend(SectionLines(part.layout, title) + FrameHead(title) + ItemLines(BodyParagraphs(slide)), [FrameEnd]);
  }

  /**
   * The program's run on a presentation: the slide count it reports, and the lines it
   * writes for every slide of the slide-id list, hidden or not.
   */
  method Convert(includeHidden: bool, presentation: Presentation) returns (slideCount: nat, lines: seq<string>)
    requires AllRootsPresent(presentation.slideIdList)
    ensures slideCount == SlidesCount(includeHidden, presentation.slideParts)
    ensures lines == RenderLines(DocumentLines(presentation.slideIdList))
  {
    var slides := presentation.slideIdList;
    lines := [];
    var i := 0;
    assert slides[..0] == [];
    while i < |slides|
      invariant 0 <= i <= |slides|
      invariant AllRootsPresent(slides[..i])
      invariant lines == RenderLines(DocumentLines(slides[..i]))
    {
      var slideLines := WriteSlide(slides[i]);
      DocumentLinesStep(slides, i);
      RenderLinesAppend(DocumentLines(slides[..i]), SlideLines(slides[i]));
      lines := lines + slideLines;
      i := i + 1;
    }
    assert slides[..i] == slides;
    slideCount := SlidesCount(includeHidden, presentation.slideParts);
  }
}
