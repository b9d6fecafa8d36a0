/**
 * The part of the OpenXml presentation document model that the converter reads,
 * as plain values. Nothing in a presentation is changed while it is converted.
 */
module Document {

  datatype Option<+T> = None | Some(value: T)

  /** C#'s `int`: a 32-bit signed integer. */
  type Int32 = x: int | -0x8000_0000 <= x < 0x8000_0000

  const MaxInt32: Int32 := 0x7FFF_FFFF

  /** The `type` of a slide's layout; only `SectionHeader` changes the output. */
  datatype LayoutKind = SectionHeader | OtherLayout

  /** The values of the `type` attribute of a placeholder (`PlaceholderValues`). */
  datatype PlaceholderType =
    | Title | Body | CenteredTitle | SubTitle | DateAndTime | SlideNumber
    | Footer | Header | Object | Chart | Table | ClipArt | Diagram | Media
    | SlideImage | Picture

  /**
   * The first placeholder child of a shape's non-visual properties.
   * `phType` is `None` when the `type` attribute is absent or holds no valid value.
   */
  datatype Placeholder = Placeholder(phType: Option<PlaceholderType>)

  /**
   * A text paragraph. `lvl` is the parsed `lvl` attribute of its properties: `None`
   * when the properties or the attribute are missing or when `int.Parse` throws
   * (text that is no number, or a number out of the 32-bit range).
   * `runs` are the texts of its text descendants, in document order.
   */
  datatype Paragraph = Paragraph(lvl: Option<Int32>, runs: seq<string>)

  /** A shape: its placeholder (if any) and the paragraphs of its text body. */
  datatype Shape = Shape(placeholder: Option<Placeholder>, paragraphs: seq<Paragraph>)

  /** The `show` attribute of a slide: absent, present without a valid value, or a value. */
  datatype ShowFlag = ShowAbsent | ShowUnparsable | ShowValue(shown: bool)

  /** A slide's root element: its visibility and its shapes in document order. */
  datatype Slide = Slide(show: ShowFlag, shapes: seq<Shape>)

  /** A slide part: the type of its layout and its root element, which may be missing. */
  datatype SlidePart = SlidePart(layout: LayoutKind, root: Option<Slide>)

  /**
   * A presentation: the slide parts its slide-id list refers to, in that list's order,
   * and the collection of all its slide parts.
   */
  datatype Presentation = Presentation(slideIdList: seq<SlidePart>, slideParts: seq<SlidePart>)

  /** The concatenation of a sequence of sequences, in order. */
  function Concat<T>(ss: seq<seq<T>>): seq<T>
  {
    if ss == [] then [] else Concat(ss[..|ss| - 1]) + ss[|ss| - 1]
  }

  lemma {:induction false} ConcatAppend<T>(a: seq<seq<T>>, b: seq<seq<T>>)
    ensures Concat(a + b) == Concat(a) + Concat(b)
  {
    if b == [] {
      assert a + b == a;
    } else {
      var init, last := b[..|b| - 1], b[|b| - 1];
      assert (a + b)[..|a + b| - 1] == a + init;
      assert (a + b)[|a + b| - 1] == last;
      ConcatAppend(a, init);
      calc {
        Concat(a + b);
        Concat(a + init) + last;
        (Concat(a) + Concat(init)) + last;
        Concat(a) + (Concat(init) + last);
      }
    }
  }

  /** The text of a paragraph: its run texts concatenated. */
  function ParagraphText(p: Paragraph): string
  {
    Concat(p.runs)
  }

  /** The indent level of a paragraph, 0 when its `lvl` is missing or unparsable. */
  function IndentLevel(p: Paragraph): Int32
  {
    match p.lvl
    case Some(n) => n
    case None => 0
  }

  /** The paragraphs of a sequence of shapes, shape by shape, in document order. */
  function ShapeParagraphs(shapes: seq<Shape>): seq<Paragraph>
  {
    if shapes == [] then []
    else ShapeParagraphs(shapes[..|shapes| - 1]) + shapes[|shapes| - 1].paragraphs
  }

  /** Every text paragraph of a slide, in document order. */
  function SlideParagraphs(slide: Slide): seq<Paragraph>
  {
    ShapeParagraphs(slide.shapes)
  }
}
