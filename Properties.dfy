/**
 * What the converter's output is made of. Lines are counted by kind, and the number of
 * lines of each kind is stated exactly in terms of the slides and their paragraphs; the
 * kind of a line can be read back from its text, so the counts hold of the text too.
 */
module Properties {
  import opened Document
  import opened Converter

  // ---------------------------------------------------------------------------
  // Kinds of lines

  datatype LineKind = FrameOpen | FrameClose | ListOpen | ListClose | ItemLine | OtherLine

  /** The kind of an output line. */
  function Kind(line: Line): LineKind
  {
    match line
    case FrameBegin => FrameOpen
    case FrameEnd => FrameClose
    case ListBegin(_) => ListOpen
    case ListEnd(_) => ListClose
    case Item(_, _) => ItemLine
    case _ => OtherLine
  }

  /** A line of text without its leading tab characters. */
  function Unindent(text: string): (u: string)
    ensures |u| <= |text|
    ensures u == [] || u[0] != '\t'
  {
    if text != [] && text[0] == '\t' then Unindent(text[1..]) else text
  }

  lemma {:induction false} UnindentIndented(text: string, level: int)
    requires text == [] || text[0] != '\t'
    ensures Unindent(Indented(text, level)) == text
    decreases TabCount(level)
  {
    if TabCount(level) > 0 {
      var line := Indented(text, level);
      var rest := Indented(text, level - 1);
      assert line[1..] == rest by {
        assert |line[1..]| == |rest|;
        forall i | 0 <= i < |rest|
          ensures line[1..][i] == rest[i]
        {
          if i < TabCount(level - 1) {
            assert rest[i] == '\t';
          } else {
            assert rest[i] == rest[TabCount(level - 1)..][i - TabCount(level - 1)];
            assert line[1..][i] == line[TabCount(level)..][i - TabCount(level - 1)];
          }
        }
      }
      UnindentIndented(text, level - 1);
    }
  }

  /**
   * The kind of a line of text: the frame markers as written, and otherwise what the
   * line holds once its leading tabs are removed.
   */
  function TextKind(text: string): LineKind
  {
    if text == BeginFrame then FrameOpen
    else if text == EndFrame then FrameClose
    else
      var u := Unindent(text);
      if u == BeginItemize then ListOpen
      else if u == EndItemize then ListClose
      else if ItemPrefix <= u then ItemLine
      else OtherLine
  }

  /** An indented text that starts with a backslash reads back as that text, and is no frame marker. */
  lemma IndentedReadsBack(text: string, level: int)
    requires text != [] && text[0] == '\\'
    requires text != BeginFrame && text != EndFrame
    ensures Unindent(Indented(text, level)) == text
    ensures Indented(text, level) != BeginFrame && Indented(text, level) != EndFrame
  {
    UnindentIndented(text, level);
    if TabCount(level) > 0 {
      assert Indented(text, level)[0] == '\t';
    }
  }

  lemma ItemTextKind(level: int, text: string)
    ensures TextKind(Render(Item(level, text))) == ItemLine
  {
    var s := ItemPrefix + text;
    assert s[0] == '\\' && s[1] == 'i';
    IndentedReadsBack(s, level);
    assert ItemPrefix <= s;
  }

  lemma HeadingTextKind(line: Line)
    requires line.SectionLine? || line.FrameTitle?
    ensures TextKind(Render(line)) == OtherLine
  {
    var r := Render(line);
    assert r[0] == '\\' && r[1] != 'b' && r[1] != 'e' && r[1] != 'i';
    assert Unindent(r) == r;
  }

  /** The text of each line tells its kind, whatever the title, the item text or the level. */
  lemma TextKindOfRender(line: Line)
    ensures TextKind(Render(line)) == Kind(line)
  {
    match line
    case Blank =>
    case SectionLine(_) => HeadingTextKind(line);
    case FrameTitle(_) => HeadingTextKind(line);
    case FrameBegin =>
    case FrameEnd =>
    case ListBegin(level) => IndentedReadsBack(BeginItemize, level);
    case ListEnd(level) => IndentedReadsBack(EndItemize, level);
    case Item(level, text) => ItemTextKind(level, text);
  }

  /** The number of lines of kind `k`. */
  function CountKind(lines: seq<Line>, k: LineKind): (n: nat)
    ensures n <= |lines|
  {
    if lines == [] then 0
    else CountKind(lines[..|lines| - 1], k) + (if Kind(lines[|lines| - 1]) == k then 1 else 0)
  }

  /** The number of lines of text of kind `k`. */
  function CountTextKind(texts: seq<string>, k: LineKind): (n: nat)
    ensures n <= |texts|
  {
    if texts == [] then 0
    else CountTextKind(texts[..|texts| - 1], k) + (if TextKind(texts[|texts| - 1]) == k then 1 else 0)
  }

  /** Counting kinds in the written text gives the counts of the lines. */
  lemma {:induction false} CountRendered(lines: seq<Line>, k: LineKind)
    ensures CountTextKind(RenderLines(lines), k) == CountKind(lines, k)
  {
    if lines != [] {
      var init := lines[..|lines| - 1];
      CountRendered(init, k);
      assert RenderLines(lines)[..|lines| - 1] == RenderLines(init);
      TextKindOfRender(lines[|lines| - 1]);
    }
  }

  lemma {:induction false} CountKindAppend(a: seq<Line>, b: seq<Line>, k: LineKind)
    ensures CountKind(a + b, k) == CountKind(a, k) + CountKind(b, k)
  {
    if b == [] {
      assert a + b == a;
    } else {
      assert (a + b)[..|a + b| - 1] == a + b[..|b| - 1];
      CountKindAppend(a, b[..|b| - 1], k);
    }
  }

  lemma CountKindOne(line: Line, k: LineKind)
    ensures CountKind([line], k) == if Kind(line) == k then 1 else 0
  {
    assert [line][..0] == [];
  }

  lemma CountOptional(present: bool, line: Line, k: LineKind)
    ensures CountKind(if present then [line] else [], k) == if present && Kind(line) == k then 1 else 0
  {
    if present {
      CountKindOne(line, k);
    }
  }

  // ---------------------------------------------------------------------------
  // Counting paragraphs

  /** Body paragraph `i` has text, so it becomes an item. */
  predicate IsItem(ps: seq<Paragraph>, i: nat)
    requires i < |ps|
  {
    ParagraphText(ps[i]) != ""
  }

  /** Item `i` is deeper than the paragraph before it. */
  predicate Rises(ps: seq<Paragraph>, i: nat)
    requires i < |ps|
  {
    IsItem(ps, i) && PrevLevel(ps, i) < IndentLevel(ps[i])
  }

  /** Item `i` is shallower than the paragraph before it. */
  predicate Falls(ps: seq<Paragraph>, i: nat)
    requires i < |ps|
  {
    IsItem(ps, i) && PrevLevel(ps, i) > IndentLevel(ps[i])
  }

  function ItemsUpTo(ps: seq<Paragraph>, n: nat): nat
    requires n <= |ps|
  {
    if n == 0 then 0 else ItemsUpTo(ps, n - 1) + (if IsItem(ps, n - 1) then 1 else 0)
  }

  function RisesUpTo(ps: seq<Paragraph>, n: nat): nat
    requires n <= |ps|
  {
    if n == 0 then 0 else RisesUpTo(ps, n - 1) + (if Rises(ps, n - 1) then 1 else 0)
  }

  function FallsUpTo(ps: seq<Paragraph>, n: nat): nat
    requires n <= |ps|
  {
    if n == 0 then 0 else FallsUpTo(ps, n - 1) + (if Falls(ps, n - 1) then 1 else 0)
  }

  lemma {:induction false} ItemBeforeCount(ps: seq<Paragraph>, n: nat)
    requires n <= |ps|
    ensures ItemBefore(ps, n) <==> ItemsUpTo(ps, n) > 0
  {
    if n > 0 {
      ItemBeforeCount(ps, n - 1);
    }
  }

  /** An item was written before paragraph `i` exactly when one of the paragraphs before it has text. */
  lemma {:induction false} ItemBeforeIffSomeText(ps: seq<Paragraph>, i: nat)
    requires i <= |ps|
    ensures ItemBefore(ps, i) <==> exists j :: 0 <= j < i && ParagraphText(ps[j]) != ""
  {
    if i > 0 {
      ItemBeforeIffSomeText(ps, i - 1);
      if ParagraphText(ps[i - 1]) == "" && ItemBefore(ps, i) {
        var j :| 0 <= j < i - 1 && ParagraphText(ps[j]) != "";
        assert 0 <= j < i;
      }
    }
  }

  /**
   * The lines of one paragraph: without text it writes nothing; with text it writes
   * one item, one list opening if it is the first item, and at most one nesting change:
   * a list opening when it is deeper than the paragraph before it, a list closing when
   * it is shallower, however large the difference.
   */
  lemma ParagraphStepCount(text: string, level: Int32, prev: Int32, itemBefore: bool, k: LineKind)
    ensures CountKind(ParagraphStep(text, level, prev, itemBefore), k)
         == if text == "" then 0 else
            match k
            case ItemLine => 1
            case ListOpen => (if itemBefore then 0 else 1) + (if prev < level then 1 else 0)
            case ListClose => if prev > level then 1 else 0
            case _ => 0
  {
    if text != "" {
      var opening := ListOpening(itemBefore, level);
      var change := LevelChange(prev, level);
      var item := Item(level, text);
      CountKindAppend(opening + change, [item], k);
      CountKindAppend(opening, change, k);
      CountKindOne(item, k);
      ListOpeningCount(itemBefore, level, k);
      LevelChangeCount(prev, level, k);
    }
  }

  lemma ListOpeningCount(itemBefore: bool, level: Int32, k: LineKind)
    ensures CountKind(ListOpening(itemBefore, level), k) == if k == ListOpen && !itemBefore then 1 else 0
  {
    if !itemBefore {
      CountKindOne(ListBegin(level), k);
    }
  }

  /**
   * The list closed at a drop in level is one level deeper than the item, and since the
   * previous level is a larger 32-bit value, `level + 1` never overflows.
   */
  lemma DropClosesOneDeeper(prev: Int32, level: Int32)
    requires prev > level
    ensures level < MaxInt32
    ensures LevelChange(prev, level) == [ListEnd(level + 1)]
    ensures Render(LevelChange(prev, level)[0]) == Indented(EndItemize, level + 1)
  {
  }

  lemma LevelChangeCount(prev: Int32, level: Int32, k: LineKind)
    ensures CountKind(LevelChange(prev, level), k)
         == if (k == ListClose && prev > level) || (k == ListOpen && prev < level) then 1 else 0
  {
    if prev > level {
      CountKindOne(ListEnd(level + 1), k);
    } else if prev < level {
      CountKindOne(ListBegin(level), k);
    }
  }

  /** The lines of body paragraph `i`, kind by kind. */
  lemma ParagraphLinesCount(ps: seq<Paragraph>, i: nat, k: LineKind)
    requires i < |ps|
    ensures CountKind(ParagraphLines(ps, i), k)
         == match k
            case ItemLine => if IsItem(ps, i) then 1 else 0
            case ListOpen => (if IsItem(ps, i) && !ItemBefore(ps, i) then 1 else 0) + (if Rises(ps, i) then 1 else 0)
            case ListClose => if Falls(ps, i) then 1 else 0
            case _ => 0
  {
    var p := ps[i];
    ParagraphStepCount(ParagraphText(p), IndentLevel(p), PrevLevel(ps, i), ItemBefore(ps, i), k);
  }

  /** The lines of the first `n` body paragraphs, kind by kind. */
  lemma {:induction false} LinesUpToCount(ps: seq<Paragraph>, n: nat, k: LineKind)
    requires n <= |ps|
    ensures CountKind(LinesUpTo(ps, n), k)
         == match k
            case ItemLine => ItemsUpTo(ps, n)
            case ListOpen => (if ItemBefore(ps, n) then 1 else 0) + RisesUpTo(ps, n)
            case ListClose => FallsUpTo(ps, n)
            case _ => 0
  {
    if n > 0 {
      assert CountKind(LinesUpTo(ps, n), k)
          == CountKind(LinesUpTo(ps, n - 1), k) + CountKind(ParagraphLines(ps, n - 1), k) by {
        CountKindAppend(LinesUpTo(ps, n - 1), ParagraphLines(ps, n - 1), k);
      }
      LinesUpToCount(ps, n - 1, k);
      ParagraphLinesCount(ps, n - 1, k);
    }
  }

  /**
   * The items of a slide: one item line per body paragraph with text; one list opening
   * for the first item and one for every item deeper than the paragraph before it; one
   * list closing for every item shallower than the paragraph before it and one at the end.
   */
  lemma ItemLinesCount(ps: seq<Paragraph>, k: LineKind)
    ensures CountKind(ItemLines(ps), k)
         == var first := if ItemsUpTo(ps, |ps|) > 0 then 1 else 0;
            match k
            case ItemLine => ItemsUpTo(ps, |ps|)
            case ListOpen => first + RisesUpTo(ps, |ps|)
            case ListClose => first + FallsUpTo(ps, |ps|)
            case _ => 0
  {
    var n := |ps|;
    assert CountKind(ItemLines(ps), k)
        == CountKind(LinesUpTo(ps, n), k) + (if ItemBefore(ps, n) && k == ListClose then 1 else 0) by {
      CountKindAppend(LinesUpTo(ps, n), if ItemBefore(ps, n) then [ListEnd(0)] else [], k);
      CountOptional(ItemBefore(ps, n), ListEnd(0), k);
    }
    LinesUpToCount(ps, n, k);
    ItemBeforeCount(ps, n);
  }

  lemma HeadCount(title: string, k: LineKind)
    ensures CountKind(FrameHead(title), k)
         == match k
            case FrameOpen => 1
            case OtherLine => 3
            case _ => 0
  {
    assert FrameHead(title) == [Blank, FrameBegin] + [FrameTitle(title), Blank];
    CountKindAppend([Blank, FrameBegin], [FrameTitle(title), Blank], k);
    CountPair(Blank, FrameBegin, k);
    CountPair(FrameTitle(title), Blank, k);
  }

  lemma CountPair(a: Line, b: Line, k: LineKind)
    ensures CountKind([a, b], k) == (if Kind(a) == k then 1 else 0) + (if Kind(b) == k then 1 else 0)
  {
    assert [a, b][..1] == [a];
    CountKindOne(a, k);
  }

  /**
   * Every slide has exactly one frame opening and one frame closing, three or (with a
   * section heading) five other lines, and the item and list lines of its body paragraphs.
   */
  lemma SlideLinesCount(part: SlidePart, k: LineKind)
    requires part.root.Some?
    ensures CountKind(SlideLines(part), k)
         == match k
            case FrameOpen => 1
            case FrameClose => 1
            case OtherLine => if part.layout == SectionHeader then 5 else 3
            case _ => CountKind(ItemLines(BodyParagraphs(part.root.value)), k)
  {
    var slide := part.root.value;
    var title := SlideTitle(slide);
    var section := SectionLines(part.layout, title);
    var head := FrameHead(title);
    var items := ItemLines(BodyParagraphs(slide));
    assert CountKind(SlideLines(part), k)
        == CountKind(section, k) + CountKind(head, k) + CountKind(items, k) + CountKind([FrameEnd], k) by {
      CountKindAppend(section + head + items, [FrameEnd], k);
      CountKindAppend(section + head, items, k);
      CountKindAppend(section, head, k);
    }
    assert CountKind(section, k) == if part.layout == SectionHeader && k == OtherLine then 2 else 0 by {
      if part.layout == SectionHeader {
        CountPair(SectionLine(title), Blank, k);
      }
    }
    CountKindOne(FrameEnd, k);
    HeadCount(title, k);
    ItemLinesCount(BodyParagraphs(slide), k);
  }

  // ---------------------------------------------------------------------------
  // The document

  /** The lines of a presentation are those of its slides, in slide-id-list order. */
  lemma {:induction false} DocumentLinesAppend(a: seq<SlidePart>, b: seq<SlidePart>)
    requires AllRootsPresent(a) && AllRootsPresent(b)
    ensures AllRootsPresent(a + b)
    ensures DocumentLines(a + b) == DocumentLines(a) + DocumentLines(b)
  {
    forall i | 0 <= i < |a + b|
      ensures (a + b)[i].root.Some?
    {
      if i >= |a| {
        assert (a + b)[i] == b[i - |a|];
      }
    }
    if b == [] {
      assert a + b == a;
    } else {
      var init := b[..|b| - 1];
      assert AllRootsPresent(init) by {
        forall i | 0 <= i < |init| ensures init[i].root.Some? {
          assert init[i] == b[i];
        }
      }
      assert (a + b)[..|a + b| - 1] == a + init;
      assert (a + b)[|a + b| - 1] == b[|b| - 1];
      DocumentLinesAppend(a, init);
    }
  }


  /**
   * One frame per slide of the slide-id list, whatever its `show` flag: hidden slides
   * are converted like the others.
   */
  lemma {:induction false} OneFramePerSlide(parts: seq<SlidePart>)
    requires AllRootsPresent(parts)
    ensures CountKind(DocumentLines(parts), FrameOpen) == |parts|
    ensures CountKind(DocumentLines(parts), FrameClose) == |parts|
  {
    if parts != [] {
      var init := parts[..|parts| - 1];
      var last := parts[|parts| - 1];
      OneFramePerSlide(init);
      SlideLinesCount(last, FrameOpen);
      SlideLinesCount(last, FrameClose);
      CountKindAppend(DocumentLines(init), SlideLines(last), FrameOpen);
      CountKindAppend(DocumentLines(init), SlideLines(last), FrameClose);
    }
  }

  /**
   * The same holds of the written text: one `\begin{frame}` and one `\end{frame}`
   * `WriteLine` argument per slide. A title or item text may itself hold line feeds, so
   * this counts arguments, not physical lines of the file.
   */
  lemma OneFramePerSlideText(parts: seq<SlidePart>)
    requires AllRootsPresent(parts)
    ensures CountTextKind(RenderLines(DocumentLines(parts)), FrameOpen) == |parts|
    ensures CountTextKind(RenderLines(DocumentLines(parts)), FrameClose) == |parts|
  {
    OneFramePerSlide(parts);
    CountRendered(DocumentLines(parts), FrameOpen);
    CountRendered(DocumentLines(parts), FrameClose);
  }

  // ---------------------------------------------------------------------------
  // The nesting of lists

  lemma {:induction false} LinesUpToPrefix(ps: seq<Paragraph>, m: nat, n: nat)
    requires m <= n <= |ps|
    ensures LinesUpTo(ps, m) <= LinesUpTo(ps, n)
    decreases n
  {
    if m < n {
      LinesUpToPrefix(ps, m, n - 1);
    }
  }

  lemma {:induction false} NoItemNoLines(ps: seq<Paragraph>, n: nat)
    requires n <= |ps|
    requires !ItemBefore(ps, n)
    ensures LinesUpTo(ps, n) == []
  {
    if n > 0 {
      NoItemNoLines(ps, n - 1);
      assert !IsItem(ps, n - 1);
    }
  }

  /** The items of a slide start by opening the outer list, at the level of the first paragraph with text. */
  lemma FirstItemOpensList(ps: seq<Paragraph>, i: nat)
    requires i < |ps| && IsItem(ps, i) && !ItemBefore(ps, i)
    ensures ItemLines(ps) != [] && ItemLines(ps)[0] == ListBegin(IndentLevel(ps[i]))
  {
    NoItemNoLines(ps, i);
    LinesUpToPrefix(ps, i + 1, |ps|);
    assert LinesUpTo(ps, i + 1) == ParagraphLines(ps, i);
  }

  /**
   * The outer list is closed, unindented, by the last line exactly when some body
   * paragraph became an item; otherwise nothing at all is written for the paragraphs.
   */
  lemma ClosedAtEndIffItem(ps: seq<Paragraph>)
    ensures ItemsUpTo(ps, |ps|) > 0 <==> ItemLines(ps) != [] && ItemLines(ps)[|ItemLines(ps)| - 1] == ListEnd(0)
    ensures ItemsUpTo(ps, |ps|) == 0 ==> ItemLines(ps) == []
  {
    ItemBeforeCount(ps, |ps|);
    if !ItemBefore(ps, |ps|) {
      NoItemNoLines(ps, |ps|);
    }
  }

  /** Every body paragraph is at most one level away from the paragraph before it (from 0 for the first). */
  predicate UnitSteps(ps: seq<Paragraph>)
  {
    forall i :: 0 <= i < |ps| ==> -1 <= IndentLevel(ps[i]) - PrevLevel(ps, i) <= 1
  }

  /** Every body paragraph has text. */
  predicate AllItems(ps: seq<Paragraph>)
  {
    forall i :: 0 <= i < |ps| ==> ParagraphText(ps[i]) != ""
  }

  lemma {:induction false} RisesMinusFalls(ps: seq<Paragraph>, n: nat)
    requires n <= |ps| && UnitSteps(ps) && AllItems(ps)
    ensures RisesUpTo(ps, n) - FallsUpTo(ps, n) == PrevLevel(ps, n)
  {
    if n > 0 {
      RisesMinusFalls(ps, n - 1);
      var i := n - 1;
      assert -1 <= IndentLevel(ps[i]) - PrevLevel(ps, i) <= 1;
      assert IsItem(ps, i);
    }
  }

  /**
   * When every body paragraph has text and moves by at most one level, the list
   * openings and closings balance exactly when the last paragraph is at level 0.
   */
  lemma BalancedIffEndsAtZero(ps: seq<Paragraph>)
    requires ps != [] && UnitSteps(ps) && AllItems(ps)
    ensures CountKind(ItemLines(ps), ListOpen) == CountKind(ItemLines(ps), ListClose)
        <==> IndentLevel(ps[|ps| - 1]) == 0
  {
    ItemLinesCount(ps, ListOpen);
    ItemLinesCount(ps, ListClose);
    RisesMinusFalls(ps, |ps|);
  }

  // ---------------------------------------------------------------------------
  // Titles

  lemma {:induction false} NoTitleShapesNoParagraphs(shapes: seq<Shape>)
    requires forall i :: 0 <= i < |shapes| ==> !IsTitleShape(shapes[i])
    ensures TitleParagraphs(shapes) == []
  {
    if shapes != [] {
      NoTitleShapesNoParagraphs(shapes[..|shapes| - 1]);
    }
  }

  /** A slide without title shapes has the empty title. */
  lemma NoTitleShapesEmptyTitle(slide: Slide)
    requires forall i :: 0 <= i < |slide.shapes| ==> !IsTitleShape(slide.shapes[i])
    ensures SlideTitle(slide) == ""
  {
    NoTitleShapesNoParagraphs(slide.shapes);
  }

  /** Joining two non-empty groups of texts puts exactly one line feed between them. */
  lemma {:induction false} JoinLinesAppend(a: seq<string>, b: seq<string>)
    requires a != [] && b != []
    ensures JoinLines(a + b) == JoinLines(a) + "\n" + JoinLines(b)
  {
    if |a| == 1 {
      assert (a + b)[1..] == b;
    } else {
      assert (a + b)[1..] == a[1..] + b;
      JoinLinesAppend(a[1..], b);
    }
  }

  /**
   * The joined text starts with the first text, with no line feed before it, and is as
   * long as all the texts plus one line feed between each two.
   */
  lemma {:induction false} JoinLinesShape(ts: seq<string>)
    requires ts != []
    ensures ts[0] <= JoinLines(ts)
    ensures |JoinLines(ts)| == |Concat(ts)| + |ts| - 1
  {
    if |ts| > 1 {
      JoinLinesShape(ts[1..]);
      ConcatAppend([ts[0]], ts[1..]);
      assert [ts[0]] + ts[1..] == ts;
      assert Concat([ts[0]]) == ts[0] by { assert [ts[0]][..0] == []; }
    } else {
      assert Concat(ts) == ts[0] by { assert ts[..0] == []; }
    }
  }

  lemma {:induction false} TitleParagraphsAppend(a: seq<Shape>, b: seq<Shape>)
    ensures TitleParagraphs(a + b) == TitleParagraphs(a) + TitleParagraphs(b)
  {
    if b == [] {
      assert a + b == a;
    } else {
      assert (a + b)[..|a + b| - 1] == a + b[..|b| - 1];
      TitleParagraphsAppend(a, b[..|b| - 1]);
    }
  }

  lemma TextsAppend(a: seq<Paragraph>, b: seq<Paragraph>)
    ensures Texts(a + b) == Texts(a) + Texts(b)
  {
    forall i | 0 <= i < |a + b|
      ensures Texts(a + b)[i] == (Texts(a) + Texts(b))[i]
    {
      if i >= |a| {
        assert (a + b)[i] == b[i - |a|];
      }
    }
  }

  /** The paragraphs of two title shapes are separated by one line feed, as inside a shape. */
  lemma TitleAcrossShapes(show: ShowFlag, a: seq<Shape>, b: seq<Shape>)
    requires TitleParagraphs(a) != [] && TitleParagraphs(b) != []
    ensures SlideTitle(Slide(show, a + b))
         == SlideTitle(Slide(show, a)) + "\n" + SlideTitle(Slide(show, b))
  {
    TitleParagraphsAppend(a, b);
    TextsAppend(TitleParagraphs(a), TitleParagraphs(b));
    JoinLinesAppend(Texts(TitleParagraphs(a)), Texts(TitleParagraphs(b)));
  }

  // ---------------------------------------------------------------------------
  // Counting slides

  /** The shown slides of two groups of parts add up. */
  lemma {:induction false} CountShownAppend(a: seq<SlidePart>, b: seq<SlidePart>)
    ensures CountShown(a + b) == CountShown(a) + CountShown(b)
  {
    if a != [] {
      assert (a + b)[1..] == a[1..] + b;
      CountShownAppend(a[1..], b);
    } else {
      assert a + b == b;
    }
  }

  // ---------------------------------------------------------------------------
  // Examples

  /** A paragraph at `level` holding one run with `text`. */
  function P(level: Int32, text: string): (p: Paragraph)
    ensures ParagraphText(p) == text && IndentLevel(p) == level
  {
    assert [text][..0] == [];
    assert Concat([text]) == [] + text;
    Paragraph(Some(level), [text])
  }

  /** Items at levels 0, 1, 1, 0: one nested list, opened and closed once. */
  lemma NestedListExample()
    ensures ItemLines([P(0, "a"), P(1, "b"), P(1, "c"), P(0, "d")])
         == [ListBegin(0), Item(0, "a"), ListBegin(1), Item(1, "b"), Item(1, "c"),
             ListEnd(1), Item(0, "d"), ListEnd(0)]
  {
    var ps := [P(0, "a"), P(1, "b"), P(1, "c"), P(0, "d")];
    assert LinesUpTo(ps, 1) == [ListBegin(0), Item(0, "a")];
    assert LinesUpTo(ps, 2) == LinesUpTo(ps, 1) + [ListBegin(1), Item(1, "b")];
    assert LinesUpTo(ps, 3) == LinesUpTo(ps, 2) + [Item(1, "c")];
    assert LinesUpTo(ps, 4) == LinesUpTo(ps, 3) + [ListEnd(1), Item(0, "d")];
  }

  /**
   * Items at levels 0, 1, 2, 0: the drop from 2 to 0 closes one list only, so three
   * lists are opened and two closed.
   */
  lemma TwoLevelDropExample()
    ensures ItemLines([P(0, "a"), P(1, "b"), P(2, "c"), P(0, "d")])
         == [ListBegin(0), Item(0, "a"), ListBegin(1), Item(1, "b"), ListBegin(2), Item(2, "c"),
             ListEnd(1), Item(0, "d"), ListEnd(0)]
  {
    var ps := [P(0, "a"), P(1, "b"), P(2, "c"), P(0, "d")];
    assert LinesUpTo(ps, 1) == [ListBegin(0), Item(0, "a")];
    assert LinesUpTo(ps, 2) == LinesUpTo(ps, 1) + [ListBegin(1), Item(1, "b")];
    assert LinesUpTo(ps, 3) == LinesUpTo(ps, 2) + [ListBegin(2), Item(2, "c")];
    assert LinesUpTo(ps, 4) == LinesUpTo(ps, 3) + [ListEnd(1), Item(0, "d")];
  }

  /**
   * A first item deeper than level 0 opens two lists: the outer list, and the rise from
   * the initial previous level 0; only one of them is closed.
   */
  lemma FirstItemDeepExample()
    ensures ItemLines([P(2, "a")]) == [ListBegin(2), ListBegin(2), Item(2, "a"), ListEnd(0)]
  {
    var ps := [P(2, "a")];
    assert LinesUpTo(ps, 1) == [ListBegin(2), ListBegin(2), Item(2, "a")];
  }

  /** A title whose first paragraph is empty still starts the second one with a line feed. */
  lemma EmptyFirstTitleParagraphExample()
    ensures JoinLines(["", "x"]) == "\nx"
  {
    assert ["", "x"][1..] == ["x"];
  }

  /**
   * A paragraph without text writes nothing but still sets the previous level: the item
   * after it closes a list that was never opened.
   */
  lemma EmptyParagraphExample()
    ensures ItemLines([P(0, "a"), P(1, ""), P(0, "b")])
         == [ListBegin(0), Item(0, "a"), ListEnd(1), Item(0, "b"), ListEnd(0)]
  {
    var ps := [P(0, "a"), P(1, ""), P(0, "b")];
    assert LinesUpTo(ps, 1) == [ListBegin(0), Item(0, "a")];
    assert LinesUpTo(ps, 2) == LinesUpTo(ps, 1);
    assert LinesUpTo(ps, 3) == LinesUpTo(ps, 2) + [ListEnd(1), Item(0, "b")];
  }

  /** A title shape with the paragraphs "Foo" and "Bar" gives the title "Foo\nBar"; other shapes add nothing. */
  lemma TitleExample()
    ensures SlideTitle(Slide(ShowAbsent, [
              Shape(Some(Placeholder(Some(Title))), [P(0, "Foo"), P(0, "Bar")]),
              Shape(Some(Placeholder(Some(Body))), [P(0, "text")])]))
         == "Foo\nBar"
  {
    var shapes := [Shape(Some(Placeholder(Some(Title))), [P(0, "Foo"), P(0, "Bar")]),
                   Shape(Some(Placeholder(Some(Body))), [P(0, "text")])];
    assert shapes[..1][..0] == [];
    assert TitleParagraphs(shapes) == [P(0, "Foo"), P(0, "Bar")];
    assert Texts(TitleParagraphs(shapes)) == ["Foo", "Bar"];
  }
}
