/** The canvas surface: the drawing operations the report issues, in call order,
    with `showPage` as a page break; and the two fixed page furnishings, the
    header band and the footer, as the commands they draw. Fonts and colours
    are not part of the model. */
module Draw {
  import opened Common
  import opened Text
  import opened Geometry

  datatype Command =
    | RoundRect(x: int, y: int, width: int, height: int, radius: int)  // filled rounded box
    | Str(x: int, y: int, text: string)                                // left-aligned text
    | CentredStr(x: int, y: int, text: string)                         // text centred on x
    | Line(x1: int, y1: int, x2: int, y2: int)
    | Picture(x: int, y: int, width: int, height: int, image: Image)   // a cached evidence image
    | Rect(x: int, y: int, width: int, height: int)                    // stroked outline
    | Chart(x: int, y: int, width: int, height: int, bars: seq<Tally>) // the bar chart raster
    | TableAt(x: int, y: int, rows: seq<seq<string>>)
    | TextBlock(x: int, y: int, lines: seq<string>)
    | LinkArea(url: string, x1: int, y1: int, x2: int, y2: int)
    | PageBreak                                                        // showPage

  /** What a footer prints after "Page": a page number, or the closing page's "End". */
  datatype PageLabel = Number(n: nat) | End

  const Organisation := "Central " + "Coalfields " + "Limited " + "(CCL)"
  const LocationLabel := "Location: "
  const DroneLabel := " | Drone: "
  const DateLabel := " | Date: "
  const EndLabel := "End"
  const FooterText := "AI " + "Surveillance " + "Report - " + "Aerovania " + "Pvt. Ltd. | " + "Page "

  function LabelText(pageLabel: PageLabel): string
  {
    match pageLabel
    case Number(n) => NatToString(n)
    case End => EndLabel
  }

  function FooterCaption(pageLabel: PageLabel): string
  {
    FooterText + LabelText(pageLabel)
  }

  /** Different page labels give different footer captions. */
  lemma FooterCaptionInjective(a: PageLabel, b: PageLabel)
    requires FooterCaption(a) == FooterCaption(b)
    ensures a == b
  {
    assert LabelText(a) == FooterCaption(a)[|FooterText|..];
    assert LabelText(b) == FooterCaption(b)[|FooterText|..];
    match a
    case Number(m) =>
      assert '0' <= LabelText(a)[0] <= '9';
      if b.Number? { NatToStringInjective(m, b.n); }
    case End =>
  }

  /** The metadata line of every header. */
  function MetaLine(meta: SiteMeta): string
  {
    LocationLabel + meta.siteName + DroneLabel + meta.droneId + DateLabel + meta.date
  }

  /** The fixed header: a rounded panel of the header band, the organisation title,
      the page title in upper case and the metadata line (report.py:49-76). */
  function HeaderCommands(meta: SiteMeta, title: string): (cmds: seq<Command>)
    ensures |cmds| == 4
    ensures cmds[0] == RoundRect(25, HeaderBottom, PageWidth - 50, HeaderHeight, 20)
    ensures forall c :: c in cmds ==> Bottom(c) >= HeaderBottom && Top(c) <= PageHeight - HeaderTopMargin
  {
    [ RoundRect(25, HeaderBottom, PageWidth - 50, HeaderHeight, 20),
      Str(50, HeaderBottom + 70, Organisation),
      Str(50, HeaderBottom + 45, Upper(title)),
      Str(50, HeaderBottom + 25, MetaLine(meta)) ]
  }

  /** The footer: a rule at y = 40 and the caption at y = 25 (report.py:78-83). */
  function FooterCommands(pageLabel: PageLabel): (cmds: seq<Command>)
    ensures |cmds| == 2
    ensures forall c :: c in cmds ==> Top(c) <= FooterLineY
  {
    [ Line(FooterInset, FooterLineY, PageWidth - FooterInset, FooterLineY),
      CentredStr(PageWidth / 2, FooterCaptionY, FooterCaption(pageLabel)) ]
  }

  /** Lowest y a command marks (its baseline for text). A table and a text
      block are known here only by their anchor point: the table grows upward
      from it and the text block runs downward, so their extent is not
      modelled and InContentBand says nothing about them. */
  function Bottom(c: Command): int
  {
    match c
    case RoundRect(_, y, _, _, _) => y
    case Str(_, y, _) => y
    case CentredStr(_, y, _) => y
    case Line(_, y1, _, y2) => if y1 <= y2 then y1 else y2
    case Picture(_, y, _, _, _) => y
    case Rect(_, y, _, _) => y
    case Chart(_, y, _, _, _) => y
    case TableAt(_, y, _) => y
    case TextBlock(_, y, _) => y
    case LinkArea(_, _, y1, _, y2) => if y1 <= y2 then y1 else y2
    case PageBreak => 0
  }

  /** Highest y a command marks (its baseline for text). A table and a text
      block are known here only by their anchor point: the table grows upward
      from it and the text block runs downward, so their extent is not
      modelled and InContentBand says nothing about them. */
  function Top(c: Command): int
  {
    match c
    case RoundRect(_, y, _, h, _) => y + h
    case Str(_, y, _) => y
    case CentredStr(_, y, _) => y
    case Line(_, y1, _, y2) => if y1 <= y2 then y2 else y1
    case Picture(_, y, _, h, _) => y + h
    case Rect(_, y, _, h) => y + h
    case Chart(_, y, _, h, _) => y + h
    case TableAt(_, y, _) => y
    case TextBlock(_, y, _) => y
    case LinkArea(_, _, y1, _, y2) => if y1 <= y2 then y2 else y1
    case PageBreak => 0
  }

  /** The command stays strictly between the footer rule and the header band. */
  predicate InContentBand(c: Command)
  {
    FooterLineY < Bottom(c) && Top(c) < HeaderBottom
  }

  /** The canvas operations of a run of committed pages: each page's commands
      followed by its page break. */
  function Stream(pages: seq<seq<Command>>): seq<Command>
  {
    if pages == [] then []
    else Stream(pages[..|pages| - 1]) + pages[|pages| - 1] + [PageBreak]
  }

  /** Committing pages one run after another gives the runs' operations in order. */
  lemma {:induction false} StreamAppend(a: seq<seq<Command>>, b: seq<seq<Command>>)
    ensures Stream(a + b) == Stream(a) + Stream(b)
    decreases |b|
  {
    if b != [] {
      var b' := b[..|b| - 1];
      assert (a + b)[..|a + b| - 1] == a + b';
      StreamAppend(a, b');
    } else {
      assert a + b == a;
    }
  }

  /** Page breaks in a stream are exactly one per committed page, when pages
      hold no break of their own. */
  function Breaks(cmds: seq<Command>): nat
  {
    if cmds == [] then 0
    else Breaks(cmds[..|cmds| - 1]) + (if cmds[|cmds| - 1] == PageBreak then 1 else 0)
  }

  lemma {:induction false} BreaksAppend(a: seq<Command>, b: seq<Command>)
    ensures Breaks(a + b) == Breaks(a) + Breaks(b)
    decreases |b|
  {
    if b == [] {
      assert a + b == a;
    } else {
      assert (a + b)[..|a + b| - 1] == a + b[..|b| - 1];
      BreaksAppend(a, b[..|b| - 1]);
    }
  }

  lemma {:induction false} StreamBreaks(pages: seq<seq<Command>>)
    requires forall i :: 0 <= i < |pages| ==> PageBreak !in pages[i]
    ensures Breaks(Stream(pages)) == |pages|
  {
    if pages != [] {
      var p := pages[|pages| - 1];
      StreamBreaks(pages[..|pages| - 1]);
      NoBreaks(p);
      BreaksAppend(Stream(pages[..|pages| - 1]), p);
      BreaksAppend(Stream(pages[..|pages| - 1]) + p, [PageBreak]);
    }
  }

  lemma {:induction false} NoBreaks(cmds: seq<Command>)
    requires PageBreak !in cmds
    ensures Breaks(cmds) == 0
  {
    if cmds != [] {
      NoBreaks(cmds[..|cmds| - 1]);
    }
  }

  /** Header and footer draw no page break of their own. */
  lemma FurnishingsHaveNoBreak(meta: SiteMeta, title: string, pageLabel: PageLabel)
    ensures PageBreak !in HeaderCommands(meta, title)
    ensures PageBreak !in FooterCommands(pageLabel)
  {
  }

  /** The page ends with the footer carrying `pageLabel`. */
  predicate EndsWithFooter(page: seq<Command>, pageLabel: PageLabel)
  {
    |page| >= 2 && page[|page| - 2..] == FooterCommands(pageLabel)
  }

  /** A drawn page: no page break of its own, at least the header's four and
      the footer's two commands, and the footer carrying `pageLabel` last. */
  predicate FramedAs(page: seq<Command>, pageLabel: PageLabel)
  {
    PageBreak !in page && |page| >= 6 && EndsWithFooter(page, pageLabel)
  }

  /** Pages each framed, with the footers first, first + 1, ... */
  predicate FramedFrom(pages: seq<seq<Command>>, first: nat)
  {
    forall i :: 0 <= i < |pages| ==> FramedAs(pages[i], Number(first + i))
  }

  /** A finished document: every page framed, page i (from 0) carrying the
      footer "Page i+1" except the last, which carries "Page End", and one page
      break per page in the output. */
  predicate NumberedDocument(pages: seq<seq<Command>>)
  {
    && |pages| > 0
    && (forall i :: 0 <= i < |pages| ==> PageBreak !in pages[i] && |pages[i]| >= 6)
    && (forall i :: 0 <= i < |pages| - 1 ==> EndsWithFooter(pages[i], Number(i + 1)))
    && EndsWithFooter(pages[|pages| - 1], End)
    && Breaks(Stream(pages)) == |pages|
  }

  /** A page framed by the header and the footer, around a body without a
      page break, has no page break, at least the six framing commands, and
      ends with its footer. */
  lemma FramedPage(meta: SiteMeta, title: string, body: seq<Command>, pageLabel: PageLabel)
    requires PageBreak !in body
    ensures FramedAs(HeaderCommands(meta, title) + body + FooterCommands(pageLabel), pageLabel)
  {
    FurnishingsHaveNoBreak(meta, title, pageLabel);
    var page := HeaderCommands(meta, title) + body + FooterCommands(pageLabel);
    assert page[|page| - 2..] == FooterCommands(pageLabel);
  }
}
