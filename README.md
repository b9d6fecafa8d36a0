# Pptx2Tex — a verified model of the slide-to-Beamer converter

Pptx2Tex reads a PowerPoint presentation (OpenXml) and writes a LaTeX Beamer file.
This project models the converter's core in Dafny and proves properties of that model.

**Slide count.** The converter first reports how many slides the presentation has. The
count is either every slide part, or only the parts whose root exists and whose `show`
attribute is absent or true.

**Slides.** Each slide of the slide-id list is written in list order, hidden or not:
- a slide whose layout is a section header first gets a `\section{title}` line and a
  blank line;
- then a blank line, `\begin{frame}`, `\frametitle{title}` and a blank line;
- then the bulleted items, then `\end{frame}`.

**Title.** A slide's title is the text of every paragraph of its title shapes, with a
line feed between each two. A title shape is one whose placeholder type is `Title` or
`CenteredTitle`.

**Items.** Every paragraph of the slide except the first is a candidate for an item.
- A paragraph without text writes nothing, but its level still becomes the "previous
  level".
- A paragraph with text writes, in order:
  - `\begin{itemize}[<+->]`, if it is the first item of the slide;
  - `\end{itemize}` at its level plus one, if its level is below the previous level;
  - or `\begin{itemize}[<+->]` at its level, if its level is above the previous level;
  - its `\item` line.
- Each of these lines is indented by one tab per level (none for a negative level).
- After the paragraphs, the outer list is closed once, if it was opened.
- Besides the outer list's opening before the first item, each item opens or closes at
  most one list, however far the level moves. So a slide whose items drop two levels at
  once gets an unbalanced `itemize` nesting; `Properties.TwoLevelDropExample` shows such
  a slide. A first item deeper than level 0 opens two lists, because the previous level
  starts at 0; `Properties.FirstItemDeepExample` shows one.
  `Properties.BalancedIffEndsAtZero` states when the nesting does balance.

## Files

- `Document.dfy` (module `Document`) holds the part of the presentation the converter
  reads, as plain values. This covers slide parts, layouts, slides and their `show`
  flag, shapes, placeholders, paragraphs with their `lvl` and their text runs, and C#'s
  32-bit `int`.
- `Converter.dfy` (module `Converter`) holds each step of the program twice:
  - as a function that says which lines it writes;
  - as a method that works as the program does, with its loops, proved equal to that
    function.

  Output is a sequence of `Line` values: a blank line, a section heading, a frame
  start, a frame title, a list start or end at a level, an item at a level, or a frame
  end. `Render` gives each one's text exactly as written.
- `Properties.dfy` (module `Properties`) holds the properties of the output:
  - exact counts of each kind of line;
  - one frame per slide;
  - how lists open, close and nest;
  - how titles are built;
  - concrete examples.

## Model

| member | source | states |
|---|---|---|
| Converter.Indented | PPT_To_Latex/Program.cs:147-156 | the indented line is `max(level, 0)` tab characters followed by the text, and nothing else |
| Converter.WriteWithIndent | PPT_To_Latex/Program.cs:147-159 | the loop clamps a negative level to zero and builds exactly that many tabs followed by the text; the result equals `Indented` |
| Properties.UnindentIndented | PPT_To_Latex/Program.cs:149-156 | removing the leading tabs of an indented line gives back the written text (for a text that does not itself start with a tab) |
| Properties.DropClosesOneDeeper | PPT_To_Latex/Program.cs:100-103 | the closing line at a drop in level is indented one level deeper than the item, and the `+1` never overflows, since the previous level is a larger 32-bit value |
| Converter.ReadParagraphText | PPT_To_Latex/Program.cs:84-91 | the loop over a paragraph's text elements yields the concatenation of their texts in order |
| Converter.IsTitleShape | PPT_To_Latex/Program.cs:205-224 | a shape is a title exactly when it has a placeholder with a valid type that is `Title` or `CenteredTitle` |
| Converter.JoinLinesSnoc | PPT_To_Latex/Program.cs:172-181 | one more paragraph adds a line feed and its text after at least one earlier paragraph (even an empty one), and only its text after none |
| Converter.AppendTitleParagraphs | PPT_To_Latex/Program.cs:171-182 | the inner loop extends the title by the texts of one shape's paragraphs, each after the separator; the separator is a line feed once any paragraph was seen |
| Converter.GetSlideTitle | PPT_To_Latex/Program.cs:161-185 | the title built by the loops is the texts of all title-shape paragraphs, in document order, joined by line feeds |
| Properties.JoinLinesAppend | PPT_To_Latex/Program.cs:166-182 | joining two non-empty groups of texts puts exactly one line feed between their joins |
| Properties.JoinLinesShape | PPT_To_Latex/Program.cs:166-182 | a title starts with its first paragraph's text and is as long as all texts plus one line feed between each two |
| Properties.TitleParagraphsAppend | PPT_To_Latex/Program.cs:163-165 | the title paragraphs of two groups of shapes are those of the first group followed by those of the second |
| Properties.TitleAcrossShapes | PPT_To_Latex/Program.cs:167-181 | the paragraphs of separate title shapes are separated by one line feed, as inside one shape (the separator is not reset per shape) |
| Properties.NoTitleShapesEmptyTitle | PPT_To_Latex/Program.cs:163-184 | a slide without title shapes has the empty title |
| Properties.EmptyFirstTitleParagraphExample | PPT_To_Latex/Program.cs:174-181 | the texts "" and "x" join to "\nx": the separator follows an empty paragraph too |
| Properties.TitleExample | PPT_To_Latex/Program.cs:161-185 | a title shape with paragraphs "Foo" and "Bar", next to a body shape, gives the title "Foo\nBar" |
| Converter.CountShown | PPT_To_Latex/Program.cs:196-199 | the number of shown parts is at most the number of parts; it equals it exactly when all are shown, and is zero exactly when none is |
| Converter.SlidesCount | PPT_To_Latex/Program.cs:187-202 | with hidden slides included, the count is the number of slide parts; otherwise it is the number of shown parts, with the same bounds and both iff cases |
| Properties.CountShownAppend | PPT_To_Latex/Program.cs:196-199 | the shown parts of two groups of parts add up |
| Converter.WriteParagraph | PPT_To_Latex/Program.cs:84-111 | one paragraph writes the lines `ParagraphStep` gives for its text, its level, the previous level and whether an item came before; it writes something exactly when its text is non-empty |
| Converter.WriteItems | PPT_To_Latex/Program.cs:60-139 | the paragraph loop, with `previndent` and `firstitemdone`, and the final closing write exactly `ItemLines` of the body paragraphs |
| Properties.ItemBeforeIffSomeText | PPT_To_Latex/Program.cs:93-99 | `firstitemdone` holds before paragraph `i` exactly when some earlier paragraph has text |
| Properties.ItemBeforeCount | PPT_To_Latex/Program.cs:93-99 | an item came before paragraph `n` exactly when the number of items among the first `n` paragraphs is positive |
| Properties.ListOpeningCount | PPT_To_Latex/Program.cs:95-99 | the outer list is opened once, before the first item only |
| Properties.LevelChangeCount | PPT_To_Latex/Program.cs:100-108 | a drop in level closes exactly one list and a rise opens exactly one, whatever the difference; an equal level does neither |
| Properties.ParagraphStepCount | PPT_To_Latex/Program.cs:93-111 | a paragraph without text writes nothing; one with text writes one item, one opening if it is the first item, and one opening or closing for a rise or drop in level |
| Properties.ParagraphLinesCount | PPT_To_Latex/Program.cs:93-112 | the same counts for body paragraph `i`, stated with the previous paragraph's level even when that paragraph had no text |
| Properties.LinesUpToCount | PPT_To_Latex/Program.cs:62-113 | the first `n` paragraphs write one item per paragraph with text; one opening if any item was written, plus one per rise; and one closing per drop |
| Properties.ItemLinesCount | PPT_To_Latex/Program.cs:60-139 | a slide's items: one item line per paragraph with text; openings = [some item] + rises; closings = [some item] + drops; no other lines |
| Properties.NoItemNoLines | PPT_To_Latex/Program.cs:93-113 | as long as no paragraph had text, nothing at all was written for the paragraphs |
| Properties.FirstItemOpensList | PPT_To_Latex/Program.cs:95-99 | the first line of a slide's items opens a list at the level of the first paragraph with text |
| Properties.ClosedAtEndIffItem | PPT_To_Latex/Program.cs:135-139 | the last item line is an unindented list closing exactly when some paragraph had text; otherwise nothing is written for the paragraphs |
| Properties.RisesMinusFalls | PPT_To_Latex/Program.cs:100-112 | when every paragraph has text and moves at most one level, rises minus drops is the last paragraph's level |
| Properties.BalancedIffEndsAtZero | PPT_To_Latex/Program.cs:93-139 | in that case, list openings equal list closings exactly when the last paragraph is at level 0 |
| Properties.NestedListExample | PPT_To_Latex/Program.cs:60-139 | items at levels 0, 1, 1, 0 give exactly: open(0), item a, open(1), item b, item c, close(1), item d, close(0) |
| Properties.TwoLevelDropExample | PPT_To_Latex/Program.cs:100-103 | items at levels 0, 1, 2, 0 open three lists and close two: the drop from 2 to 0 writes one `\end{itemize}` |
| Properties.FirstItemDeepExample | PPT_To_Latex/Program.cs:93-106 | a single item at level 2 writes two list openings, its item and one closing |
| Properties.EmptyParagraphExample | PPT_To_Latex/Program.cs:93-112 | an empty paragraph at level 1 between two level-0 items writes nothing, yet the next item closes a list that was never opened |
| Properties.TextKindOfRender | PPT_To_Latex/Program.cs:44-141 | the written text of every line tells its kind (frame start or end, list start or end, item, other), whatever its title, text or level |
| Properties.CountRendered | PPT_To_Latex/Program.cs:35-142 | counting kinds in the written text gives the counts of the structured lines |
| Properties.HeadCount | PPT_To_Latex/Program.cs:55-58 | a frame head is one frame start and three other lines |
| Properties.SlideLinesCount | PPT_To_Latex/Program.cs:41-141 | a slide writes one frame start, one frame end, three other lines (five with a section heading) and its items' lines |
| Converter.WriteSlide | PPT_To_Latex/Program.cs:41-141 | the loop body writes exactly `SlideLines`: the optional section heading, the frame head with the title, the items and the frame end |
| Converter.DocumentLinesStep | PPT_To_Latex/Program.cs:35-142 | the lines of the first `i + 1` slides are those of the first `i` followed by those of slide `i` |
| Properties.DocumentLinesAppend | PPT_To_Latex/Program.cs:35-142 | the lines of a presentation are those of its slides in slide-id-list order |
| Converter.Convert | PPT_To_Latex/Program.cs:31-142 | the reported count is `SlidesCount` of the slide parts; the lines written are those of every slide of the slide-id list, in order |
| Properties.OneFramePerSlide | PPT_To_Latex/Program.cs:35-142 | exactly one frame start and one frame end per slide of the slide-id list, whatever its `show` flag |
| Properties.OneFramePerSlideText | PPT_To_Latex/Program.cs:56-141 | the written text has exactly one `\begin{frame}` and one `\end{frame}` `WriteLine` argument per slide (a multi-paragraph title or a run text may itself hold line feeds, so this is not a count of physical lines in the file) |

## Left out

- Opening the package, `GetPartById` and `SlideLayoutPart` are not modelled. The
  presentation is given as values: the slide parts in slide-id-list order, all slide
  parts, and each part's layout type.
- The console line with the slide count and all `Debug.WriteLine` output are not
  modelled. `Convert` returns the count instead.
- Creating and closing the `.tex` file is not modelled. The file's content is the
  sequence of `WriteLine` arguments, and line endings are left to the writer.
- The picture loop (lines 116-133) is not modelled, because on success it only logs each
  image's name to the console. The model does not capture that the loop throws, ending
  the whole run, for a linked picture (no embedded relationship id) or for a
  relationship whose part is not an image part.
- `int.Parse` of the `lvl` attribute is not modelled as parsing. A paragraph's `lvl`
  is given already parsed, and `None` stands for every case where the program falls
  back to 0: no properties, no attributes, no `lvl`, text that is no number, or a number
  out of range.
- A slide's paragraphs are taken to be its shapes' paragraphs in document order.
  Paragraphs inside tables or graphic frames are not modelled.
- The nesting of shapes inside group shapes is not modelled: a slide's shapes are a
  flat sequence in document order.
- Convert and WriteSlide require every slide of the slide-id list to have a root and a
  layout. The program dereferences both and would throw otherwise. `SlidesCount`
  handles a missing root as the program does.
- Failures of the program that the model does not capture, where the model writes
  output instead:
  - a title shape without a text body: the program throws a null reference at line
    171, while the model's `Shape` always has a (possibly empty) paragraph list;
  - a slide layout without a `type` attribute: line 41 compares it without a null
    check and plausibly throws, while the model's `LayoutKind` reads it as `OtherLayout`;
  - a presentation without a slide-id list: the loop at line 35 throws, while the model
    takes the list as empty and writes nothing;
  - a `lvl` so large that the tab string exceeds .NET's string length limit: lines
    151-156 throw, while `Indented` builds the line for any level.
- `show` values are not modelled as text. The attribute is absent, present without a
  valid boolean, or a boolean.
- The program does not skip hidden slides when writing, has no blacklist of words, and
  saves no image files. The model follows the program on all three.
