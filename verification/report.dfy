/** The report object: a canvas that the drawing methods append to, page by
    page, and the per-build image cache. Each method is proved to append
    exactly the commands of the page description it draws; the whole build is
    proved to produce the cover page, the analytics page, the evidence pages
    of the plan and the conclusion page, numbered 1, 2, 3, ... and "End". */
module Report {
  import opened Common
  import opened Text
  import opened Geometry
  import opened Draw
  import opened Analytics
  import opened Images
  import opened Evidence

  /** The JSON body of a report request: optional site fields, an optional
      video link, and the violation records. */
  datatype ReportInput = ReportInput(
    location: Option<string>,
    date: Option<string>,
    droneId: Option<string>,
    videoLink: Option<string>,
    violations: seq<Record>)

  // The fixed text of the pages.
  const SiteKey := "Reporting " + "Site"
  const DateKey := "Deployment " + "Date"
  const DroneKey := "UAV " + "Hardware ID"
  const TotalKey := "Total " + "Violations"
  const RiskKey := "Primary " + "Risk Factor"
  const StatusKey := "Status"
  const StatusValue := "Review " + "Required"
  const NoRisk := "N/A"
  const SubmissionHeading := "Submission " + "Details"
  const SubmittedBy := "Submitted " + "By: " + "Aerovania " + "Pvt. Ltd."
  const SubmittedTo := "Submitted " + "To: CCL " + "Safety " + "Division"
  const VideoHeading := "Video " + "Evidence"
  const NoVideo := "No video " + "link " + "provided"
  const RemarksHeading := "Conclusion " + "& Statutory " + "Remarks"
  const CountRemark := "1. A " + "comprehensive " + "AI analysis " + "identified "
  const CountRemarkEnd := " safety " + "deviations."
  const PriorityRemark := "2. Priority " + "attention " + "is required " + "for: "
  const PriorityRemarkEnd := "."
  const EvidenceRemark := "3. All " + "visual " + "evidence " + "provided is " + "timestamped " + "and " + "geolocated."
  const MarshalRemark := "4. " + "Deployment " + "of safety " + "marshals is " + "advised at " + "coordinates " + "flagged in " + "this report."
  const ShelterRemark := "5. The rest " + "shelter and " + "lighting " + "arrangements " + "should be " + "reviewed as " + "per DGMS " + "guidelines."
  const Disclaimer := "Disclaimer: " + "This is an " + "AI-generated " + "report for " + "surveillance " + "support."
  const VerificationNotice := "Verification " + "by a Safety " + "Officer is " + "mandatory " + "before " + "statutory " + "action."
  const DefaultSite := "Site"
  const DefaultDate := "2026-01-01"
  const DefaultDrone := "DRONE-X"

  const CoverTitle := "Executive " + "Safety " + "Summary"
  const AnalyticsTitle := "Violation " + "Analytics " + "Overview"
  const ConclusionTitle := "Final " + "Inspection " + "Assessment"

  /** The site metadata of a build: missing fields take their defaults, and
      underscores in the site name become spaces (report.py:40-42, 363-368). */
  function SiteMetaOf(input: ReportInput): (meta: SiteMeta)
    ensures input.location.None? ==> meta.siteName == DefaultSite
    ensures input.date.None? ==> meta.date == DefaultDate
    ensures input.droneId.None? ==> meta.droneId == DefaultDrone
    ensures input.location.Some? ==> meta.siteName == ReplaceChar(input.location.value, '_', ' ')
    ensures input.date.Some? ==> meta.date == input.date.value
    ensures input.droneId.Some? ==> meta.droneId == input.droneId.value
    ensures '_' !in meta.siteName
  {
    SiteMeta(ReplaceChar(input.location.GetOr(DefaultSite), '_', ' '), input.date.GetOr(DefaultDate), input.droneId.GetOr(DefaultDrone))
  }

  // ---------------------------------------------------------------------------
  // The cover page.

  /** The RiskKey card: the humanised most frequent category, or
      NoRisk for an empty record set (report.py:97). */
  function PrimaryRisk(records: seq<Record>): (r: string)
    ensures records == [] ==> r == NoRisk
    ensures records != [] ==> exists i :: 0 <= i < |records| && r == Humanize(records[i].category)
  {
    if records == [] then NoRisk
    else
      var m := Mode(Categories(records));
      assert exists i :: 0 <= i < |records| && Categories(records)[i] == m;
      Humanize(m)
  }

  /** For a non-empty record set the RiskKey card shows the humanised mode:
      a category that occurs and that no other category outnumbers. */
  lemma PrimaryRiskIsMode(records: seq<Record>)
    requires records != []
    ensures var types := Categories(records); var m := Mode(types);
      && PrimaryRisk(records) == Humanize(m)
      && m in types
      && forall c :: Occurrences(types, c) <= Occurrences(types, m)
  {
    ModeIsMostFrequent(Categories(records));
  }

  /** The six summary cards, in grid order (report.py:108-115). */
  function CoverCards(meta: SiteMeta, records: seq<Record>): seq<Card>
  {
    [ Card(SiteKey, meta.siteName),
      Card(DateKey, meta.date),
      Card(DroneKey, meta.droneId),
      Card(TotalKey, NatToString(|records|)),
      Card(RiskKey, PrimaryRisk(records)),
      Card(StatusKey, StatusValue) ]
  }

  /** Card k: its box, its key and its value (report.py:135-148). */
  function CardCommands(k: nat, card: Card, gridTop: int): seq<Command>
  {
    [ RoundRect(CardX(k), CardY(gridTop, k), CardWidth, CardHeight, 14),
      Str(CardX(k) + 12, CardY(gridTop, k) + 48, card.key),
      Str(CardX(k) + 12, CardY(gridTop, k) + 25, card.value) ]
  }

  /** The first n cards, card after card. */
  function CardsUpTo(cards: seq<Card>, gridTop: int, n: nat): (cmds: seq<Command>)
    requires n <= |cards|
    ensures |cmds| == 3 * n
  {
    if n == 0 then [] else CardsUpTo(cards, gridTop, n - 1) + CardCommands(n - 1, cards[n - 1], gridTop)
  }

  /** What the grid draws: as many cards as it has cells for, in row-major order. */
  function CardGrid(cards: seq<Card>, gridTop: int): seq<Command>
  {
    CardsUpTo(cards, gridTop, Min(|cards|, GridCells))
  }

  /** The cover page's vertical positions, from the header down (report.py:101-189). */
  const GridTop: int := HeaderBottom - CoverGridDrop
  const SubmissionTitleY: int := GridBottom(GridTop) - 50
  const SubmissionBoxY: int := SubmissionTitleY - 25 - 65
  const VideoTitleY: int := SubmissionBoxY - 60
  const VideoBoxY: int := VideoTitleY - 25 - 55

  /** The video box content: the link and its clickable area, or a notice when the
      link is missing or empty. */
  function VideoCommands(videoLink: Option<string>): seq<Command>
  {
    if videoLink.Some? && videoLink.value != "" then
      [ Str(70, VideoBoxY + 22, videoLink.value),
        LinkArea(videoLink.value, 70, VideoBoxY + 10, PageWidth - 50, VideoBoxY + 40) ]
    else [Str(70, VideoBoxY + 22, NoVideo)]
  }

  /** The submission box and the video box frame, below the grid (report.py:155-176). */
  const SubmissionBlock: seq<Command> :=
    [ Str(50, SubmissionTitleY, SubmissionHeading),
      RoundRect(50, SubmissionBoxY, PageWidth - 100, 65, 16),
      Str(70, SubmissionBoxY + 40, SubmittedBy),
      Str(70, SubmissionBoxY + 20, SubmittedTo),
      Str(50, VideoTitleY, VideoHeading),
      RoundRect(50, VideoBoxY, PageWidth - 100, 55, 16) ]

  /** Everything the cover page draws between its header and its footer. */
  function CoverBody(meta: SiteMeta, records: seq<Record>, videoLink: Option<string>): seq<Command>
  {
    CardGrid(CoverCards(meta, records), GridTop) + SubmissionBlock + VideoCommands(videoLink)
  }

  function CoverPage(meta: SiteMeta, records: seq<Record>, videoLink: Option<string>): seq<Command>
  {
    HeaderCommands(meta, CoverTitle) + CoverBody(meta, records, videoLink) + FooterCommands(Number(1))
  }

  lemma {:induction false} CardsUpToAt(cards: seq<Card>, gridTop: int, n: nat, k: nat)
    requires k < n <= |cards|
    ensures CardsUpTo(cards, gridTop, n)[3 * k..3 * k + 3] == CardCommands(k, cards[k], gridTop)
  {
    if k < n - 1 {
      CardsUpToAt(cards, gridTop, n - 1, k);
      var prev := CardsUpTo(cards, gridTop, n - 1);
      assert CardsUpTo(cards, gridTop, n)[..3 * (n - 1)] == prev;
      assert CardsUpTo(cards, gridTop, n)[3 * k..3 * k + 3] == prev[3 * k..3 * k + 3];
    }
  }

  /** Card k of the grid shows the k-th key and value at row k div 3, column
      k mod 3: x = 50 + 185 col, y = grid top - 105 row. */
  lemma CardGridPlacement(cards: seq<Card>, gridTop: int, k: nat)
    requires k < |cards| && k < GridCells
    ensures var cmds := CardGrid(cards, gridTop);
      cmds[3 * k..3 * k + 3] == CardCommands(k, cards[k], gridTop)
      && cmds[3 * k] == RoundRect(50 + (k % 3) * 185, gridTop - (k / 3) * 105, 160, 70, 14)
  {
    CardsUpToAt(cards, gridTop, Min(|cards|, GridCells), k);
    var cmds := CardGrid(cards, gridTop);
    assert cmds[3 * k] == cmds[3 * k..3 * k + 3][0];
  }

  /** The "Total Violations" card reads back as the number of records, and the
      cover shows all six cards. */
  lemma CoverCardsFacts(meta: SiteMeta, records: seq<Record>)
    ensures |CoverCards(meta, records)| == GridCells
    ensures DecimalValue(CoverCards(meta, records)[3].value) == |records|
  {
    DecimalRoundTrip(|records|);
  }

  lemma {:induction false} CardsInBand(cards: seq<Card>, n: nat)
    requires n <= |cards| && n <= GridCells
    ensures forall c :: c in CardsUpTo(cards, GridTop, n) ==> InContentBand(c)
  {
    if n > 0 {
      CardsInBand(cards, n - 1);
      CardPlacement(GridTop, (n - 1) / 3, (n - 1) % 3);
    }
  }

  lemma BoxesInBand(videoLink: Option<string>)
    ensures forall c :: c in SubmissionBlock ==> InContentBand(c)
    ensures forall c :: c in VideoCommands(videoLink) ==> InContentBand(c)
  {
    HeaderBottomValue();
  }

  /** Nothing the cover page draws between its header and footer reaches into
      either: the grid starts below the header band and the video box ends above
      the footer rule. */
  lemma CoverInBand(meta: SiteMeta, records: seq<Record>, videoLink: Option<string>)
    ensures forall c :: c in CoverBody(meta, records, videoLink) ==> InContentBand(c)
  {
    var cards := CoverCards(meta, records);
    CardsInBand(cards, Min(|cards|, GridCells));
    BoxesInBand(videoLink);
  }

  // ---------------------------------------------------------------------------
  // The analytics and conclusion pages.

  /** The analytics page: the bar chart of the ranked counts and the summary
      table below it (report.py:210-250). */
  function AnalyticsPage(meta: SiteMeta, records: seq<Record>): seq<Command>
  {
    var counts := ValueCounts(Categories(records));
    HeaderCommands(meta, AnalyticsTitle)
    + [ Chart(50, PageHeight - 380, 500, 240, counts),
        TableAt(65, PageHeight - 650, SummaryTable(counts)) ]
    + FooterCommands(Number(2))
  }

  /** Remarks 3 to 5, a blank line and the disclaimer: the fixed part of the
      conclusion text (report.py:343-348). */
  const FixedRemarks: seq<string> := [EvidenceRemark, MarshalRemark, ShelterRemark, "", Disclaimer, VerificationNotice]

  /** The numbered remarks of the conclusion: the record count, then the most
      frequent category in upper case with spaces, then the fixed remarks
      (report.py:339-348). */
  function Remarks(records: seq<Record>): (lines: seq<string>)
    requires |records| > 0
    ensures |lines| == 8
  {
    [ CountRemark + NatToString(|records|) + CountRemarkEnd,
      PriorityRemark + Upper(ReplaceChar(Mode(Categories(records)), '_', ' ')) + PriorityRemarkEnd ]
    + FixedRemarks
  }

  /** The first remark cites the number of records, which reads back as that
      number; remarks 3 onwards are the fixed text. */
  lemma RemarksContent(records: seq<Record>)
    requires |records| > 0
    ensures Remarks(records)[0] == CountRemark + NatToString(|records|) + CountRemarkEnd
    ensures DecimalValue(NatToString(|records|)) == |records|
    ensures Remarks(records)[2..] == FixedRemarks
  {
    DecimalRoundTrip(|records|);
  }

  /** The conclusion page: the text block opens with its heading, then one line
      per remark (report.py:328-357). */
  function ConclusionPage(meta: SiteMeta, records: seq<Record>): seq<Command>
    requires |records| > 0
  {
    HeaderCommands(meta, ConclusionTitle)
    + [TextBlock(60, PageHeight - 180, [RemarksHeading] + Remarks(records))]
    + FooterCommands(End)
  }

  /** The priority line names a category of maximal count, in upper case. */
  lemma ConclusionPriority(records: seq<Record>)
    requires |records| > 0
    ensures var m := Mode(Categories(records));
      && m in Categories(records)
      && (forall c :: Occurrences(Categories(records), c) <= Occurrences(Categories(records), m))
      && Remarks(records)[1] == PriorityRemark + Upper(ReplaceChar(m, '_', ' ')) + PriorityRemarkEnd
      && forall i :: 0 <= i < |m| ==> !IsLower(Upper(ReplaceChar(m, '_', ' '))[i])
  {
    ModeIsMostFrequent(Categories(records));
  }

  // ---------------------------------------------------------------------------
  // The whole document.

  /** The pages of a build, in order: cover, analytics, the evidence plan, conclusion. */
  function DocumentPages(input: ReportInput, fetch: string -> Response): seq<seq<Command>>
    requires |input.violations| > 0
  {
    PagesOver(ViolationTypes, input, fetch)
  }

  /** The pages of a build whose evidence log runs over `types`. */
  function PagesOver(types: seq<string>, input: ReportInput, fetch: string -> Response): seq<seq<Command>>
    requires |input.violations| > 0
  {
    var meta := SiteMetaOf(input);
    var records := input.violations;
    [CoverPage(meta, records, input.videoLink), AnalyticsPage(meta, records)]
    + RenderPlan(meta, EvidencePlan(types, records, 3, map[], fetch).plan)
    + [ConclusionPage(meta, records)]
  }

  /** The document has 3 pages plus the evidence pages; page i (from 0)
      carries the footer "Page i+1", except the last, whose footer reads
      "Page End"; no page draws a page break of its own, so the output has one
      page break per page. */
  lemma DocumentNumbering(input: ReportInput, fetch: string -> Response)
    requires |input.violations| > 0
    ensures |DocumentPages(input, fetch)| == 3 + TotalPages(ViolationTypes, input.violations)
    ensures NumberedDocument(DocumentPages(input, fetch))
  {
    assert DocumentPages(input, fetch) == PagesOver(ViolationTypes, input, fetch);
    PagesNumbered(ViolationTypes, input, fetch);
  }

  /** The numbering facts for an evidence log over any category list. */
  lemma PagesNumbered(types: seq<string>, input: ReportInput, fetch: string -> Response)
    requires |input.violations| > 0
    ensures |PagesOver(types, input, fetch)| == 3 + TotalPages(types, input.violations)
    ensures NumberedDocument(PagesOver(types, input, fetch))
  {
    var meta := SiteMetaOf(input);
    var records := input.violations;
    var ev := RenderPlan(meta, EvidencePlan(types, records, 3, map[], fetch).plan);
    EvidencePageCount(types, records, 3, map[], fetch);
    EvidenceFramed(meta, types, records, 3, map[], fetch);
    FixedPagesFramed(meta, records, input.videoLink);
    NumberedPages(CoverPage(meta, records, input.videoLink), AnalyticsPage(meta, records), ev,
                  ConclusionPage(meta, records));
  }

  /** The cover, the analytics page and the conclusion are framed pages with
      the footers 1, 2 and End. */
  lemma FixedPagesFramed(meta: SiteMeta, records: seq<Record>, videoLink: Option<string>)
    requires |records| > 0
    ensures FramedAs(CoverPage(meta, records, videoLink), Number(1))
    ensures FramedAs(AnalyticsPage(meta, records), Number(2))
    ensures FramedAs(ConclusionPage(meta, records), End)
  {
    CoverNoBreak(meta, records, videoLink);
    FramedPage(meta, CoverTitle, CoverBody(meta, records, videoLink), Number(1));
    var counts := ValueCounts(Categories(records));
    FramedPage(meta, AnalyticsTitle, [ Chart(50, PageHeight - 380, 500, 240, counts),
                                       TableAt(65, PageHeight - 650, SummaryTable(counts)) ], Number(2));
    FramedPage(meta, ConclusionTitle, [TextBlock(60, PageHeight - 180, [RemarksHeading] + Remarks(records))], End);
  }

  /** The cover and the analytics page numbered 1 and 2, the evidence pages
      numbered on from 3, and the conclusion: every page is framed, page i
      (from 0) carries "Page i+1" except the last, which carries "Page End",
      and the output has one page break per page. */
  lemma NumberedPages(cover: seq<Command>, analytics: seq<Command>, ev: seq<seq<Command>>, conclusion: seq<Command>)
    requires FramedAs(cover, Number(1)) && FramedAs(analytics, Number(2)) && FramedAs(conclusion, End)
    requires FramedFrom(ev, 3)
    ensures NumberedDocument([cover, analytics] + ev + [conclusion])
  {
    var pages := [cover, analytics] + ev + [conclusion];
    var n := |pages|;
    forall i | 0 <= i < n
      ensures PageBreak !in pages[i] && |pages[i]| >= 6
      ensures i < n - 1 ==> EndsWithFooter(pages[i], Number(i + 1))
    {
      if 2 <= i < n - 1 {
        assert pages[i] == ev[i - 2];
      }
    }
    StreamBreaks(pages);
  }

  lemma CoverNoBreak(meta: SiteMeta, records: seq<Record>, videoLink: Option<string>)
    ensures PageBreak !in CoverBody(meta, records, videoLink)
  {
    CoverInBand(meta, records, videoLink);
    assert !InContentBand(PageBreak);
  }

  /** The evidence pages, appended to the build's output, are the plan's pages each followed by a break. */
  lemma StreamEvidence(log: seq<Command>, meta: SiteMeta, done: seq<PlannedPage>, section: seq<PlannedPage>)
    ensures log + Stream(RenderPlan(meta, done)) + Stream(RenderPlan(meta, section))
         == log + Stream(RenderPlan(meta, done + section))
  {
    var a, b := RenderPlan(meta, done), RenderPlan(meta, section);
    assert Stream(a) + Stream(b) == Stream(RenderPlan(meta, done + section)) by {
      RenderPlanAppend(meta, done, section);
      StreamAppend(a, b);
    }
    AppendAssoc(log, Stream(a), Stream(b));
  }

  // ---------------------------------------------------------------------------
  // The drawing loop of an evidence section.

  /** The cursor rule of the evidence loop: when records 4n..i-1 are on the
      open page n and record i > 0 comes next, record i is an even record (and
      so starts a new row) exactly when it is the third or the fifth of the
      page; the fifth is the one that overflows. */
  lemma CursorStep(i: nat, n: nat)
    requires 4 * n < i <= 4 * n + 4
    ensures i % 2 == 0 <==> (i - 4 * n == 2 || i - 4 * n == 4)
  {
    if i - 4 * n < 4 {
      QuotientRemainder(i, n, i - 4 * n);
    } else {
      QuotientRemainder(i, n + 1, 0);
    }
  }

  /** Record i, at position i - 4n of page n, is in the top row for the first
      two positions of the page and in the second row for the other two. */
  lemma SlotOnPage(i: nat, n: nat)
    requires 4 * n <= i < 4 * n + 4
    ensures SlotY(i) == if i - 4 * n < 2 then EvidenceStartY else EvidenceStartY - RowStep
  {
    QuotientRemainder(i, n, i - 4 * n);
  }

  /** Records lo..i+1 are records lo..i and then record i at its slot. */
  lemma PlacementsSnoc(rs: seq<Record>, images: seq<Option<Image>>, lo: nat, i: nat)
    requires lo <= i < |rs| == |images|
    ensures Placements(rs, images, lo, i + 1)
         == Placements(rs, images, lo, i) + [Placement(rs[i], SlotX(i), SlotY(i), images[i])]
  {
  }

  /** Closing page n of a section (footer, then the page break) completes the
      first n + 1 pages of its plan. */
  lemma ClosePage(meta: SiteMeta, cat: string, rs: seq<Record>, images: seq<Option<Image>>, first: nat, n: nat)
    requires |rs| == |images| && 4 * n < |rs|
    ensures n < PagesFor(|rs|)
    ensures Stream(RenderPlan(meta, SectionPages(cat, rs, images, first, n)))
            + HeaderCommands(meta, SectionTitle(cat, n > 0))
            + SlotsCommands(Placements(rs, images, 4 * n, Min(4 * n + 4, |rs|)))
            + FooterCommands(Number(first + n)) + [PageBreak]
         == Stream(RenderPlan(meta, SectionPages(cat, rs, images, first, n + 1)))
  {
    var done := SectionPages(cat, rs, images, first, n);
    var page := SectionPage(cat, rs, images, first, n);
    assert SectionPages(cat, rs, images, first, n + 1) == done + [page];
    var r := RenderPlan(meta, done + [page]);
    assert r[..|r| - 1] == RenderPlan(meta, done);
    assert r[|r| - 1] == RenderPage(meta, page);
    CommitPage(Stream(RenderPlan(meta, done)), HeaderCommands(meta, page.title),
               SlotsCommands(page.placements), FooterCommands(Number(page.number)));
  }

  /** Turning the page inside a section: the footer of the page numbered
      `number`, the page break, then the header of the next page. */
  function TurnCommands(meta: SiteMeta, number: nat, title: string): seq<Command>
  {
    FooterCommands(Number(number)) + [PageBreak] + HeaderCommands(meta, title)
  }

  /** What a section draws before record i: a page turn before every fourth
      record after the first, none otherwise. */
  function PageTurn(meta: SiteMeta, cat: string, first: nat, i: nat): seq<Command>
  {
    if i > 0 && i % 4 == 0 then TurnCommands(meta, first + i / 4 - 1, SectionTitle(cat, true)) else []
  }

  /** A section as its drawing loop produces it, after its first i records:
      the first page's header, then for each record the page turn due before
      it and its slot. */
  function SectionLog(meta: SiteMeta, cat: string, rs: seq<Record>, images: seq<Option<Image>>, first: nat, i: nat): seq<Command>
    requires i <= |rs| == |images|
  {
    if i == 0 then HeaderCommands(meta, SectionTitle(cat, false))
    else
      SectionLog(meta, cat, rs, images, first, i - 1) + PageTurn(meta, cat, first, i - 1)
      + SlotCommands(Placement(rs[i - 1], SlotX(i - 1), SlotY(i - 1), images[i - 1]))
  }

  /** With records 4n..i-1 on the open page n, the page turns before record i
      exactly when i is the fifth record of the page, closing page n. */
  lemma PageTurnRule(meta: SiteMeta, cat: string, first: nat, i: nat, n: nat)
    requires if i == 0 then n == 0 else 4 * n < i <= 4 * n + 4
    ensures PageTurn(meta, cat, first, i)
         == if i == 4 * n + 4 then TurnCommands(meta, first + n, SectionTitle(cat, true)) else []
  {
    if i == 4 * n + 4 {
      QuotientRemainder(i, n + 1, 0);
    } else if i > 0 {
      QuotientRemainder(i, n, i - 4 * n);
    }
  }

  /** The open page n of a section after its first i records, as the loop
      draws it: the first n planned pages, then page n's header and the slots
      of its records 4n..i. */
  ghost predicate OpenPage(meta: SiteMeta, cat: string, rs: seq<Record>, images: seq<Option<Image>>,
                           first: nat, i: nat, n: nat)
    requires |rs| == |images| && 4 * n <= i <= |rs| && 4 * n < |rs|
  {
    PageInRange(n, |rs|);
    SectionLog(meta, cat, rs, images, first, i)
      == Stream(RenderPlan(meta, SectionPages(cat, rs, images, first, n)))
         + HeaderCommands(meta, SectionTitle(cat, n > 0))
         + SlotsCommands(Placements(rs, images, 4 * n, i))
  }

  lemma PageInRange(n: nat, k: nat)
    requires 4 * n < k
    ensures n < PagesFor(k)
  {
  }

  /** Record j drawn on the page that already holds records 4n..j keeps that page open. */
  lemma SamePageStep(meta: SiteMeta, cat: string, rs: seq<Record>, images: seq<Option<Image>>, first: nat, j: nat, n: nat)
    requires |rs| == |images| && j < |rs| && 4 * n < j < 4 * n + 4
    requires OpenPage(meta, cat, rs, images, first, j, n)
    ensures OpenPage(meta, cat, rs, images, first, j + 1, n)
  {
    var slot := Placement(rs[j], SlotX(j), SlotY(j), images[j]);
    var done := Placements(rs, images, 4 * n, j);
    var top := Stream(RenderPlan(meta, SectionPages(cat, rs, images, first, n)))
               + HeaderCommands(meta, SectionTitle(cat, n > 0));
    assert SectionLog(meta, cat, rs, images, first, j + 1) == top + SlotsCommands(done) + SlotCommands(slot) by {
      var log := SectionLog(meta, cat, rs, images, first, j);
      PageTurnRule(meta, cat, first, j, n);
      assert log + PageTurn(meta, cat, first, j) == log;
    }
    assert SlotsCommands(Placements(rs, images, 4 * n, j + 1)) == SlotsCommands(done) + SlotCommands(slot) by {
      PlacementsSnoc(rs, images, 4 * n, j);
      SlotsCommandsSnoc(done, slot);
    }
    AppendAssoc(top, SlotsCommands(done), SlotCommands(slot));
  }

  /** Record j = 4n + 4 turns the page: page n is closed and page n + 1 opens with record j. */
  lemma NewPageStep(meta: SiteMeta, cat: string, rs: seq<Record>, images: seq<Option<Image>>, first: nat, j: nat, n: nat)
    requires |rs| == |images| && j < |rs| && j == 4 * n + 4
    requires OpenPage(meta, cat, rs, images, first, j, n)
    ensures OpenPage(meta, cat, rs, images, first, j + 1, n + 1)
  {
    var slot := SlotCommands(Placement(rs[j], SlotX(j), SlotY(j), images[j]));
    var closed := Stream(RenderPlan(meta, SectionPages(cat, rs, images, first, n)))
                  + HeaderCommands(meta, SectionTitle(cat, n > 0))
                  + SlotsCommands(Placements(rs, images, 4 * n, j));
    var footer := FooterCommands(Number(first + n));
    var header := HeaderCommands(meta, SectionTitle(cat, true));
    assert SectionLog(meta, cat, rs, images, first, j + 1) == closed + (footer + [PageBreak] + header) + slot by {
      PageTurnRule(meta, cat, first, j, n);
    }
    assert closed + footer + [PageBreak] == Stream(RenderPlan(meta, SectionPages(cat, rs, images, first, n + 1))) by {
      ClosePage(meta, cat, rs, images, first, n);
      assert Min(4 * n + 4, |rs|) == j;
    }
    assert SlotsCommands(Placements(rs, images, 4 * (n + 1), j + 1)) == slot by {
      PlacementsSnoc(rs, images, 4 * (n + 1), j);
      SlotsCommandsSnoc([], Placement(rs[j], SlotX(j), SlotY(j), images[j]));
    }
    TurnAssoc(closed, footer, header, slot);
  }

  /** The loop's output after i > 0 records, read as pages: record i - 1 is on
      the open page n exactly when 4n < i <= 4n + 4. */
  lemma {:induction false} SectionLogPages(meta: SiteMeta, cat: string, rs: seq<Record>, images: seq<Option<Image>>,
                                           first: nat, i: nat, n: nat)
    requires |rs| == |images| && i <= |rs| && 4 * n < i <= 4 * n + 4
    ensures OpenPage(meta, cat, rs, images, first, i, n)
    decreases i
  {
    var j := i - 1;
    if j == 0 {
      var slot := Placement(rs[0], SlotX(0), SlotY(0), images[0]);
      assert SectionPages(cat, rs, images, first, 0) == [];
      PlacementsSnoc(rs, images, 0, 0);
      SlotsCommandsSnoc([], slot);
    } else if j == 4 * n {
      SectionLogPages(meta, cat, rs, images, first, j, n - 1);
      NewPageStep(meta, cat, rs, images, first, j, n - 1);
    } else {
      SectionLogPages(meta, cat, rs, images, first, j, n);
      SamePageStep(meta, cat, rs, images, first, j, n);
    }
  }

  /** The loop's output over all the records, closed by the last footer and
      page break, is the section's plan rendered page by page. */
  lemma SectionLogComplete(meta: SiteMeta, cat: string, rs: seq<Record>, images: seq<Option<Image>>, first: nat, n: nat,
                            prefix: seq<Command>)
    requires |rs| == |images| && 4 * n < |rs| <= 4 * n + 4
    ensures n + 1 == PagesFor(|rs|)
    ensures prefix + SectionLog(meta, cat, rs, images, first, |rs|) + FooterCommands(Number(first + n)) + [PageBreak]
         == prefix + Stream(RenderPlan(meta, SectionPlan(cat, rs, images, first)))
  {
    var body := SectionLog(meta, cat, rs, images, first, |rs|);
    var footer := FooterCommands(Number(first + n));
    assert body + footer + [PageBreak] == Stream(RenderPlan(meta, SectionPlan(cat, rs, images, first))) by {
      SectionLogPages(meta, cat, rs, images, first, |rs|, n);
      ClosePage(meta, cat, rs, images, first, n);
    }
    AppendAssoc(prefix, body, footer);
    AppendAssoc(prefix, body + footer, [PageBreak]);
  }

  /** The report object (report.py:36-44): the canvas as the list of commands
      drawn so far, with `showPage` as a page break; the image cache of the
      build, keyed by record id; the site metadata; and the network, as the
      response each URL gets. `requests` records every fetch, for the proofs. */
  class RenderContext {
    const meta: SiteMeta
    const fetch: string -> Response
    var log: seq<Command>
    var cache: map<string, Image>
    ghost var requests: seq<Request>

    /** A fresh report: blank canvas, empty cache; the site name has its
        underscores replaced by spaces. */
    constructor (location: string, date: string, droneId: string, fetch: string -> Response)
      ensures meta == SiteMeta(ReplaceChar(location, '_', ' '), date, droneId)
      ensures this.fetch == fetch
      ensures log == [] && cache == map[] && requests == []
    {
      meta := SiteMeta(ReplaceChar(location, '_', ' '), date, droneId);
      this.fetch := fetch;
      log := [];
      cache := map[];
      requests := [];
    }

    /** A filled rounded box (report.py:46-48); the fill colour is not modelled. */
    method RoundBox(x: int, y: int, width: int, height: int, radius: int)
      modifies this
      ensures log == old(log) + [RoundRect(x, y, width, height, radius)]
      ensures cache == old(cache) && requests == old(requests)
    {
      log := log + [RoundRect(x, y, width, height, radius)];
    }

    /** The fixed header; returns its bottom edge, 135 points below the top of
        the page (report.py:49-76). */
    method DrawFixedHeader(title: string) returns (headerBottom: int)
      modifies this
      ensures headerBottom == HeaderBottom && headerBottom == PageHeight - 135
      ensures log == old(log) + HeaderCommands(meta, title)
      ensures cache == old(cache) && requests == old(requests)
    {
      var topMargin := 25;
      var headerHeight := 110;
      var headerY := PageHeight - headerHeight - topMargin;
      RoundBox(25, headerY, PageWidth - 50, headerHeight, 20);
      log := log + [ Str(50, headerY + 70, Organisation),
                     Str(50, headerY + 45, Upper(title)),
                     Str(50, headerY + 25, LocationLabel + meta.siteName + DroneLabel + meta.droneId + DateLabel + meta.date) ];
      headerBottom := headerY;
    }

    /** The footer rule and caption with the page label (report.py:78-83). */
    method Footer(pageLabel: PageLabel)
      modifies this
      ensures log == old(log) + FooterCommands(pageLabel)
      ensures cache == old(cache) && requests == old(requests)
    {
      log := log + [ Line(40, 40, PageWidth - 40, 40),
                     CentredStr(PageWidth / 2, 25, FooterText + LabelText(pageLabel)) ];
    }

    /** `showPage`: commits the current page. */
    method ShowPage()
      modifies this
      ensures log == old(log) + [PageBreak]
      ensures cache == old(cache) && requests == old(requests)
    {
      log := log + [PageBreak];
    }

    /** The output holds the first `index` cards after log0, and the cache
        and the requests are as they were. */
    ghost predicate CardsDrawn(cards: seq<Card>, gridTop: int, index: nat,
                               log0: seq<Command>, cache0: map<string, Image>, req0: seq<Request>)
      reads this
    {
      index <= |cards| && log == log0 + CardsUpTo(cards, gridTop, index) && cache == cache0 && requests == req0
    }

    /** The 2 x 3 card grid, filled row by row, stopping once every card is drawn
        (report.py:117-148). */
    method DrawCardGrid(cards: seq<Card>, gridTop: int)
      modifies this
      ensures log == old(log) + CardGrid(cards, gridTop)
      ensures cache == old(cache) && requests == old(requests)
    {
      ghost var log0, cache0, req0 := log, cache, requests;
      var boxWidth := 160;
      var boxHeight := 70;
      var gapX := 25;
      var gapY := 35;
      var startX := 50;
      var index := 0;
      for row := 0 to 2
        invariant index == Min(3 * row, |cards|)
        invariant CardsDrawn(cards, gridTop, index, log0, cache0, req0)
      {
        for col := 0 to 3
          invariant index == Min(3 * row + col, |cards|)
          invariant CardsDrawn(cards, gridTop, index, log0, cache0, req0)
        {
          if index >= |cards| {
            break;
          }
          var x := startX + col * (boxWidth + gapX);
          var y := gridTop - row * (boxHeight + gapY);
          assert x == CardX(index) && y == CardY(gridTop, index) by {
            CardPlacement(gridTop, row, col);
          }
          ghost var drawn := CardsUpTo(cards, gridTop, index);
          RoundBox(x, y, boxWidth, boxHeight, 14);
          var captions := [Str(x + 12, y + 48, cards[index].key), Str(x + 12, y + 25, cards[index].value)];
          log := log + captions;
          assert log == log0 + CardsUpTo(cards, gridTop, index + 1) by {
            var box := [RoundRect(x, y, boxWidth, boxHeight, 14)];
            assert box + captions == CardCommands(index, cards[index], gridTop);
            AppendAssoc(log0 + drawn, box, captions);
            AppendAssoc(log0, drawn, box + captions);
          }
          index := index + 1;
        }
      }
    }

    /** The cover page: header, card grid, submission box, video box, footer 1
        (report.py:92-189). */
    method BuildCoverPage(records: seq<Record>, videoLink: Option<string>)
      modifies this
      ensures log == old(log) + CoverPage(meta, records, videoLink) + [PageBreak]
      ensures cache == old(cache) && requests == old(requests)
    {
      ghost var log0 := log;
      var totalV := |records|;
      var topV := if records == [] then NoRisk else Humanize(Mode(Categories(records)));
      var headerBottom := DrawFixedHeader(CoverTitle);
      var currentY := headerBottom - 111;
      var cards := [ Card(SiteKey, meta.siteName),
                     Card(DateKey, meta.date),
                     Card(DroneKey, meta.droneId),
                     Card(TotalKey, NatToString(totalV)),
                     Card(RiskKey, topV),
                     Card(StatusKey, StatusValue) ];
      var gridTop := currentY;
      assert cards == CoverCards(meta, records) && gridTop == GridTop;
      DrawCardGrid(cards, gridTop);
      ghost var afterGrid := log;
      var gridBottom := gridTop - (2 * 70 + 35);
      currentY := gridBottom - 50;
      assert currentY == SubmissionTitleY;
      log := log + [Str(50, currentY, SubmissionHeading)];
      var submissionBoxY := currentY - 25 - 65;
      RoundBox(50, submissionBoxY, PageWidth - 100, 65, 16);
      log := log + [ Str(70, submissionBoxY + 40, SubmittedBy),
                     Str(70, submissionBoxY + 20, SubmittedTo) ];
      currentY := submissionBoxY - 60;
      log := log + [Str(50, currentY, VideoHeading)];
      var videoBoxY := currentY - 25 - 55;
      RoundBox(50, videoBoxY, PageWidth - 100, 55, 16);
      assert submissionBoxY == SubmissionBoxY && currentY == VideoTitleY && videoBoxY == VideoBoxY;
      AppendSix(afterGrid, SubmissionBlock);
      if videoLink.Some? && videoLink.value != "" {
        log := log + [ Str(70, videoBoxY + 22, videoLink.value),
                       LinkArea(videoLink.value, 70, videoBoxY + 10, PageWidth - 50, videoBoxY + 40) ];
      } else {
        log := log + [Str(70, videoBoxY + 22, NoVideo)];
      }
      Footer(Number(1));
      ShowPage();
      PageAssembly(log0, HeaderCommands(meta, CoverTitle), CardGrid(cards, gridTop), SubmissionBlock,
                   VideoCommands(videoLink), FooterCommands(Number(1)));
    }

    /** The analytics page: the chart of the ranked counts and the summary table
        filled row by row, footer 2 (report.py:194-250). */
    method BuildAnalyticsPage(records: seq<Record>)
      requires |records| > 0
      modifies this
      ensures log == old(log) + AnalyticsPage(meta, records) + [PageBreak]
      ensures cache == old(cache) && requests == old(requests)
    {
      ghost var log0 := log;
      var _ := DrawFixedHeader(AnalyticsTitle);
      var counts := ValueCounts(Categories(records));
      log := log + [Chart(50, PageHeight - 380, 500, 240, counts)];
      var tableData := BuildSummaryTable(counts);
      log := log + [TableAt(65, PageHeight - 650, tableData)];
      Footer(Number(2));
      ShowPage();
      CommitPair(log0, HeaderCommands(meta, AnalyticsTitle), Chart(50, PageHeight - 380, 500, 240, counts),
                 TableAt(65, PageHeight - 650, tableData), FooterCommands(Number(2)));
    }

    /** The image of one evidence slot (report.py:283-305): a cached id is used as
        it is; otherwise the rewritten link is fetched once and an accepted image
        is cached under the id. */
    method AcquireImage(id: string, url: string) returns (image: Option<Image>)
      modifies this
      ensures image == AcquireOne(old(cache), fetch, id, url).image
      ensures cache == AcquireOne(old(cache), fetch, id, url).cache
      ensures requests == old(requests) + AcquireOne(old(cache), fetch, id, url).requests
      ensures log == old(log)
    {
      if id !in cache {
        var target := url;
        if Contains(url, DriveHost) {
          match FileId(url)
          case Some(fid) =>
            target := DirectPrefix + fid;
          case None =>
        }
        var response := fetch(target);
        requests := requests + [Request(id, target)];
        if Accepted(response) {
          cache := cache[id := response.decoded.value];
        }
      }
      image := if id in cache then Some(cache[id]) else None;
    }

    /** One slot: the image or the placeholder, then the captions (report.py:304-319). */
    method DrawSlot(x: int, y: int, record: Record, image: Option<Image>)
      modifies this
      ensures log == old(log) + SlotCommands(Placement(record, x, y, image))
      ensures cache == old(cache) && requests == old(requests)
    {
      ghost var log0 := log;
      var picture: seq<Command>;
      match image {
        case Some(img) =>
          picture := [Picture(x, y, 230, 155, img)];
        case None =>
          picture := [Rect(x, y, 230, 155), CentredStr(x + 115, y + 75, BrokenLink)];
      }
      log := log + picture;
      var captions := [ Str(x, y - 15, AlertLabel + record.id),
                        Str(x, y - 28, GpsLabel + record.latitude + CoordinateSeparator + record.longitude),
                        Str(x, y - 38, TimeLabel + record.timestamp) ];
      log := log + captions;
      AppendAssoc(log0, picture, captions);
    }

    /** The overflow check inside a section (report.py:274-279): a cursor below
        the threshold closes the page (footer, page break), counts it, opens the
        continuation page with its header and resets the cursor. */
    method CheckOverflow(yCursor: int, pageCount: nat, title: string) returns (y: int, count: nat)
      modifies this
      ensures yCursor < OverflowY ==>
        && y == EvidenceStartY && count == pageCount + 1
        && log == old(log) + TurnCommands(meta, pageCount, title)
      ensures yCursor >= OverflowY ==> y == yCursor && count == pageCount && log == old(log)
      ensures cache == old(cache) && requests == old(requests)
    {
      y, count := yCursor, pageCount;
      if yCursor < 120 {
        Footer(Number(pageCount));
        ShowPage();
        count := pageCount + 1;
        var _ := DrawFixedHeader(title);
        y := PageHeight - 300;
      }
    }

    /** The cursor step before record i of a section (report.py:268-279): the
        second record of a row moves down a row, and a cursor below the
        threshold turns the page. With records 4n..i-1 on the open page n, the
        page turns exactly before the fifth record of the page, and the
        cursor then stands at record i's slot on the page it opens. */
    method AdvanceCursor(cat: string, first: nat, i: nat, yCursor: int, pageCount: nat, ghost n: nat)
      returns (y: int, count: nat, ghost n': nat)
      requires if i == 0 then n == 0 else 4 * n < i <= 4 * n + 4
      requires yCursor == if i - 4 * n <= 2 then EvidenceStartY else EvidenceStartY - RowStep
      requires pageCount == first + n
      modifies this
      ensures n' == (if i == 4 * n + 4 then n + 1 else n) && count == first + n'
      ensures y == SlotY(i) && y == if i - 4 * n' < 2 then EvidenceStartY else EvidenceStartY - RowStep
      ensures log == old(log) + PageTurn(meta, cat, first, i)
      ensures cache == old(cache) && requests == old(requests)
    {
      y := yCursor;
      if i > 0 {
        CursorStep(i, n);
      }
      if i > 0 && i % 2 == 0 {
        y := y - 240;
      }
      PageTurnRule(meta, cat, first, i, n);
      y, count := CheckOverflow(y, pageCount, SectionTitle(cat, true));
      n' := if i == 4 * n + 4 then n + 1 else n;
      SlotOnPage(i, n');
    }

    /** One record of a section at (x, y) (report.py:281-319): its image is looked
        up, then its slot is drawn. */
    method DrawRecord(record: Record, x: int, y: int)
      modifies this
      ensures log == old(log) + SlotCommands(Placement(record, x, y, AcquireOne(old(cache), fetch, record.id, record.imageUrl).image))
      ensures cache == AcquireOne(old(cache), fetch, record.id, record.imageUrl).cache
      ensures requests == old(requests) + AcquireOne(old(cache), fetch, record.id, record.imageUrl).requests
    {
      var image := AcquireImage(record.id, record.imageUrl);
      DrawSlot(x, y, record, image);
    }

    /** The state of a section's record loop once records 0..i-1 are drawn:
        `page` pages are closed, the cursor stands where the next record's row
        starts, the output holds the section so far, and the cache and the
        requests are those of looking up rs[..i] (`done`) after the state
        (log0, cache0, req0) the section started from. */
    ghost predicate SectionDrawn(cat: string, rs: seq<Record>, first: nat, i: nat, yCursor: int, pageCount: nat,
                                 page: nat, images: seq<Option<Image>>, done: Lookups,
                                 log0: seq<Command>, cache0: map<string, Image>, req0: seq<Request>)
      reads this
    {
      && i <= |rs|
      && (if i == 0 then page == 0 else 4 * page < i <= 4 * page + 4)
      && yCursor == (if i - 4 * page <= 2 then EvidenceStartY else EvidenceStartY - RowStep)
      && pageCount == first + page
      && images == AcquireAll(cache0, fetch, rs).images
      && done == AcquireAll(cache0, fetch, rs[..i])
      && log == log0 + SectionLog(meta, cat, rs, images, first, i)
      && cache == done.cache && requests == req0 + done.requests
    }

    /** One pass of a section's record loop (report.py:268-319): the cursor
        step, then record i drawn at its slot with its image looked up. */
    method DrawNext(cat: string, rs: seq<Record>, first: nat, i: nat, x: int, yCursor: int, pageCount: nat,
                    ghost page: nat, ghost images: seq<Option<Image>>, ghost done: Lookups,
                    ghost log0: seq<Command>, ghost cache0: map<string, Image>, ghost req0: seq<Request>)
      returns (y: int, count: nat, ghost page': nat, ghost done': Lookups)
      requires i < |rs| && x == SlotX(i)
      requires SectionDrawn(cat, rs, first, i, yCursor, pageCount, page, images, done, log0, cache0, req0)
      modifies this
      ensures SectionDrawn(cat, rs, first, i + 1, y, count, page', images, done', log0, cache0, req0)
    {
      ghost var logged := SectionLog(meta, cat, rs, images, first, i);
      ghost var turn := PageTurn(meta, cat, first, i);
      y, count, page' := AdvanceCursor(cat, first, i, yCursor, pageCount, page);
      ghost var lookup := AcquireOne(done.cache, fetch, rs[i].id, rs[i].imageUrl);
      ghost var slot := SlotCommands(Placement(rs[i], SlotX(i), SlotY(i), images[i]));
      AcquireStep(cache0, fetch, rs, i);
      done' := AcquireAll(cache0, fetch, rs[..i + 1]);
      DrawRecord(rs[i], x, y);
      assert log == log0 + SectionLog(meta, cat, rs, images, first, i + 1) by {
        AppendAssoc(log0, logged, turn);
        AppendAssoc(log0, logged + turn, slot);
      }
      assert requests == req0 + done'.requests by {
        AppendAssoc(req0, done.requests, lookup.requests);
      }
    }

    /** The first page of a section (report.py:262-266): its header, and the
        record loop's state before the first record, with the cursor at the
        top row. */
    method OpenSection(cat: string, rs: seq<Record>, first: nat)
      returns (yCursor: int, ghost images: seq<Option<Image>>, ghost done: Lookups)
      modifies this
      ensures SectionDrawn(cat, rs, first, 0, yCursor, first, 0, images, done, old(log), old(cache), old(requests))
    {
      images := AcquireAll(cache, fetch, rs).images;
      done := AcquireAll(cache, fetch, rs[..0]);
      var _ := DrawFixedHeader(SectionTitle(cat, false));
      yCursor := PageHeight - 300;
    }

    /** The opening of one category's section and its record loop
        (report.py:262-319): a header, then the records two per row, starting a
        continuation page whenever the cursor falls below the threshold. The
        last page stays open. */
    method DrawSectionRecords(cat: string, rs: seq<Record>, first: nat)
      returns (pageCount: nat, ghost yCursor: int, ghost page: nat, ghost images: seq<Option<Image>>, ghost done: Lookups)
      modifies this
      ensures SectionDrawn(cat, rs, first, |rs|, yCursor, pageCount, page, images, done, old(log), old(cache), old(requests))
    {
      ghost var log0, cache0, req0 := log, cache, requests;
      var y;
      y, images, done := OpenSection(cat, rs, first);
      var xPos := [50, 315];
      pageCount := first;
      page := 0;
      var i := 0;
      while i < |rs|
        invariant SectionDrawn(cat, rs, first, i, y, pageCount, page, images, done, log0, cache0, req0)
      {
        y, pageCount, page, done := DrawNext(cat, rs, first, i, xPos[i % 2], y, pageCount, page,
                                             images, done, log0, cache0, req0);
        i := i + 1;
      }
      yCursor := y;
    }

    /** With every record drawn, the output holds the whole section after
        log0, `page` pages are closed, and the cache and the requests are those
        of looking up all the records from cache0. */
    lemma SectionDrawnAll(cat: string, rs: seq<Record>, first: nat, yCursor: int, pageCount: nat,
                          page: nat, images: seq<Option<Image>>, done: Lookups,
                          log0: seq<Command>, cache0: map<string, Image>, req0: seq<Request>)
      requires |rs| > 0
      requires SectionDrawn(cat, rs, first, |rs|, yCursor, pageCount, page, images, done, log0, cache0, req0)
      ensures 4 * page < |rs| <= 4 * page + 4 && pageCount == first + page
      ensures images == AcquireAll(cache0, fetch, rs).images
      ensures log == log0 + SectionLog(meta, cat, rs, images, first, |rs|)
      ensures cache == AcquireAll(cache0, fetch, rs).cache
      ensures requests == req0 + AcquireAll(cache0, fetch, rs).requests
    {
      assert rs[..|rs|] == rs;
    }

    /** One category's section (report.py:262-323): its header and records,
        then the closing footer. Returns the next page number. */
    method DrawSection(cat: string, rs: seq<Record>, first: nat) returns (next: nat)
      requires |rs| > 0
      modifies this
      ensures log == old(log) + Stream(RenderPlan(meta, SectionPlan(cat, rs, AcquireAll(old(cache), fetch, rs).images, first)))
      ensures cache == AcquireAll(old(cache), fetch, rs).cache
      ensures requests == old(requests) + AcquireAll(old(cache), fetch, rs).requests
      ensures next == first + PagesFor(|rs|)
    {
      ghost var log0, cache0, req0 := log, cache, requests;
      var pageCount, y, page, images, done := DrawSectionRecords(cat, rs, first);
      SectionDrawnAll(cat, rs, first, y, pageCount, page, images, done, log0, cache0, req0);
      ghost var body := SectionLog(meta, cat, rs, images, first, |rs|);
      Footer(Number(pageCount));
      ShowPage();
      assert log == log0 + Stream(RenderPlan(meta, SectionPlan(cat, rs, images, first))) by {
        assert log == log0 + body + FooterCommands(Number(first + page)) + [PageBreak];
        SectionLogComplete(meta, cat, rs, images, first, page, log0);
      }
      next := pageCount + 1;
    }

    /** The evidence log (report.py:255-323): one section per category of the
        fixed list that has records, in list order, pages numbered from 3. */
    method BuildEvidenceLog(records: seq<Record>)
      requires |records| > 0
      modifies this
      ensures log == old(log) + Stream(RenderPlan(meta, EvidencePlan(ViolationTypes, records, 3, old(cache), fetch).plan))
      ensures cache == EvidencePlan(ViolationTypes, records, 3, old(cache), fetch).cache
      ensures requests == old(requests) + EvidencePlan(ViolationTypes, records, 3, old(cache), fetch).requests
    {
      var pageCount := 3;
      DrawSections(ViolationTypes, records, pageCount);
    }

    /** The loop of the evidence log over the categories: a category without
        records is skipped; the others get their section, numbered on from the
        previous one, with the cache carried over (report.py:259-323). */
    method DrawSections(types: seq<string>, records: seq<Record>, first: nat)
      modifies this
      ensures log == old(log) + Stream(RenderPlan(meta, EvidencePlan(types, records, first, old(cache), fetch).plan))
      ensures cache == EvidencePlan(types, records, first, old(cache), fetch).cache
      ensures requests == old(requests) + EvidencePlan(types, records, first, old(cache), fetch).requests
    {
      ghost var log0 := log;
      ghost var cache0 := cache;
      ghost var req0 := requests;
      var pageCount := first;
      for t := 0 to |types|
        invariant log == log0 + Stream(RenderPlan(meta, EvidencePlan(types[..t], records, first, cache0, fetch).plan))
        invariant cache == EvidencePlan(types[..t], records, first, cache0, fetch).cache
        invariant requests == req0 + EvidencePlan(types[..t], records, first, cache0, fetch).requests
        invariant pageCount == EvidencePlan(types[..t], records, first, cache0, fetch).nextPage
      {
        ghost var prev := EvidencePlan(types[..t], records, first, cache0, fetch);
        var category := types[t];
        assert types[..t + 1][..t] == types[..t];
        assert EvidencePlan(types[..t + 1], records, first, cache0, fetch) == AddSection(prev, category, records, fetch);
        var catRecords := CategoryRecords(records, category);
        if catRecords == [] {
          continue;
        }
        ghost var section := SectionPlan(category, catRecords, AcquireAll(cache, fetch, catRecords).images, pageCount);
        ghost var acquired := AcquireAll(cache, fetch, catRecords);
        StreamEvidence(log0, meta, prev.plan, section);
        pageCount := DrawSection(category, catRecords, pageCount);
        AppendAssoc(req0, prev.requests, acquired.requests);
      }
      assert types[..|types|] == types;
    }

    /** The conclusion page, footer "End" (report.py:328-357). */
    method BuildConclusion(records: seq<Record>)
      requires |records| > 0
      modifies this
      ensures log == old(log) + ConclusionPage(meta, records) + [PageBreak]
      ensures cache == old(cache) && requests == old(requests)
    {
      var _ := DrawFixedHeader(ConclusionTitle);
      var top := Mode(Categories(records));
      var lines := [ CountRemark + NatToString(|records|) + CountRemarkEnd,
                     PriorityRemark + Upper(ReplaceChar(top, '_', ' ')) + PriorityRemarkEnd ]
                   + FixedRemarks;
      var text := WriteLines(RemarksHeading, lines);
      assert lines == Remarks(records);
      log := log + [TextBlock(60, PageHeight - 180, text)];
      Footer(End);
      ShowPage();
    }

    /** The end-of-build cleanup: the image cache is discarded (report.py:381). */
    method DiscardCache()
      modifies this
      ensures cache == map[]
      ensures log == old(log) && requests == old(requests)
    {
      cache := map[];
    }
  }

  /** Drawing a page's header, three parts of its body and its footer, then
      committing it, appends the page followed by a page break. */
  lemma PageAssembly(log: seq<Command>, header: seq<Command>, a: seq<Command>, b: seq<Command>,
                     c: seq<Command>, footer: seq<Command>)
    ensures log + header + a + b + c + footer + [PageBreak]
         == log + (header + (a + b + c) + footer) + [PageBreak]
  {
  }

  /** Committing a page after earlier pages: the page's header, body and footer
      then its break extend the earlier output. */
  lemma CommitPage(earlier: seq<Command>, header: seq<Command>, body: seq<Command>, footer: seq<Command>)
    ensures earlier + header + body + footer + [PageBreak] == earlier + (header + body + footer) + [PageBreak]
  {
  }

  /** A page turn drawn after earlier output, then a body: the earlier output
      with its page closed, then the new header and the body. */
  lemma TurnAssoc(earlier: seq<Command>, footer: seq<Command>, header: seq<Command>, body: seq<Command>)
    ensures earlier + (footer + [PageBreak] + header) + body == earlier + footer + [PageBreak] + header + body
  {
  }

  /** A page whose body is two commands drawn one at a time. */
  lemma CommitPair(log: seq<Command>, header: seq<Command>, a: Command, b: Command, footer: seq<Command>)
    ensures log + header + [a] + [b] + footer + [PageBreak] == log + (header + [a, b] + footer) + [PageBreak]
  {
  }

  /** Six commands drawn one or two at a time make up the six-command block. */
  lemma AppendSix(log: seq<Command>, block: seq<Command>)
    requires |block| == 6
    ensures log + [block[0]] + [block[1]] + [block[2], block[3]] + [block[4]] + [block[5]] == log + block
  {
  }

  /** A text object: `textLine` of the heading, then of each line in turn
      (report.py:334, 350-351). */
  method WriteLines(heading: string, lines: seq<string>) returns (text: seq<string>)
    ensures text == [heading] + lines
  {
    text := [heading];
    for k := 0 to |lines|
      invariant text == [heading] + lines[..k]
    {
      assert lines[..k + 1] == lines[..k] + [lines[k]];
      text := text + [lines[k]];
    }
    assert lines[..|lines|] == lines;
  }

  /** Looking up record i after records 0..i-1 extends the lookups of rs[..i]
      to rs[..i+1] and yields the image the whole run assigns to record i. */
  lemma AcquireStep(cache: map<string, Image>, fetch: string -> Response, rs: seq<Record>, i: nat)
    requires i < |rs|
    ensures var before := AcquireAll(cache, fetch, rs[..i]);
      var l := AcquireOne(before.cache, fetch, rs[i].id, rs[i].imageUrl);
      && AcquireAll(cache, fetch, rs[..i + 1]).cache == l.cache
      && AcquireAll(cache, fetch, rs[..i + 1]).requests == before.requests + l.requests
      && AcquireAll(cache, fetch, rs).images[i] == l.image
  {
    assert rs[..i + 1][..i] == rs[..i];
    LastLookup(cache, fetch, rs, i);
  }

  /** A whole build (report.py:362-383): the metadata defaults, the four parts
      in order, and the cache discarded at the end; the output is the document's
      pages, each followed by a page break. */
  method GenerateReport(input: ReportInput, fetch: string -> Response) returns (document: seq<Command>)
    requires |input.violations| > 0
    ensures document == Stream(DocumentPages(input, fetch))
  {
    var records := input.violations;
    var report := new RenderContext(input.location.GetOr(DefaultSite), input.date.GetOr(DefaultDate),
                                    input.droneId.GetOr(DefaultDrone), fetch);
    ghost var meta := report.meta;
    assert meta == SiteMetaOf(input);
    report.BuildCoverPage(records, input.videoLink);
    report.BuildAnalyticsPage(records);
    report.BuildEvidenceLog(records);
    report.BuildConclusion(records);
    document := report.log;
    report.DiscardCache();
    DocumentStream(CoverPage(meta, records, input.videoLink), AnalyticsPage(meta, records),
                   RenderPlan(meta, EvidencePlan(ViolationTypes, records, 3, map[], fetch).plan),
                   ConclusionPage(meta, records));
  }

  /** The output of the four parts drawn one after another is the stream of
      the document's pages. */
  lemma DocumentStream(cover: seq<Command>, analytics: seq<Command>, ev: seq<seq<Command>>, conclusion: seq<Command>)
    ensures [] + cover + [PageBreak] + analytics + [PageBreak] + Stream(ev) + conclusion + [PageBreak]
         == Stream([cover, analytics] + ev + [conclusion])
  {
    assert Stream([cover, analytics]) == cover + [PageBreak] + analytics + [PageBreak] by {
      assert [cover, analytics][..1] == [cover];
      assert Stream([cover]) == cover + [PageBreak] by {
        assert [cover][..0] == [];
      }
    }
    StreamAppend([cover, analytics], ev);
    StreamAppend([cover, analytics] + ev, [conclusion]);
    assert Stream([conclusion]) == conclusion + [PageBreak] by {
      assert [conclusion][..0] == [];
    }
  }
}
