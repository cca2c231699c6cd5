/** The category-sectioned evidence log as a plan: which records each evidence
    page shows, where on the page each one goes, with which image, and which
    number the page carries. The drawing loop of the report object is proved to
    draw exactly the pages of this plan; the lemmas here state what the plan
    guarantees: fixed section order, four records per page, consecutive page
    numbers from 3, records in input order, nothing drawn over the header or
    the footer. */
module Evidence {
  import opened Common
  import opened Text
  import opened Geometry
  import opened Draw
  import opened Images
  import opened Analytics

  /** The fixed order in which categories get an evidence section (report.py:26-34). */
  const ViolationTypes: seq<string> := [
    "stagnant_water", "water_logging_at_toe_OB_dump", "vehicle_red_flag_absent",
    "vehicle_red_flag_present", "overhanging_loose_boulders", "cracks",
    "unsafe_movement_person_on_haul_road", "unsafe_movement_lmv_near_shovel_dumper_dozer_drill",
    "rest_shelter", "lighting_arrangement", "blocked_drain", "water_sprinkling_arrangement",
    "fire", "smoke", "person_near_edge_unsafe_area", "unsafe_movement_person_near_dumper_dozer_shovel_drill",
    "scrap_management_required", "exit_boom_barrier_open", "lmv_tipper_plying_on_same_road",
    "vehicle_crowding", "person_unsafe", "overcrowding_person", "illegal_mining_pit", "broken_fence"
  ]

  function Min(a: int, b: int): int
  {
    if a <= b then a else b
  }

  /** `df[df['type'] == category]`: the records of one category, in input order. */
  function CategoryRecords(records: seq<Record>, cat: string): (rs: seq<Record>)
    ensures |rs| <= |records|
    ensures forall r :: r in rs <==> r in records && r.category == cat
  {
    if records == [] then []
    else
      var p := records[..|records| - 1];
      var r := records[|records| - 1];
      CategoryRecords(p, cat) + (if r.category == cat then [r] else [])
  }

  /** A category has records exactly when it occurs in the `type` column, and it
      has as many records as occurrences. */
  lemma {:induction false} CategoryRecordsCount(records: seq<Record>, cat: string)
    ensures |CategoryRecords(records, cat)| == Occurrences(Categories(records), cat)
  {
    if records != [] {
      var p := records[..|records| - 1];
      CategoryRecordsCount(p, cat);
      var types := Categories(records);
      assert types[..|types| - 1] == Categories(p);
    }
  }

  // ---------------------------------------------------------------------------
  // The plan.

  /** One evidence slot: the record shown, where, and its image (None: placeholder). */
  datatype Placement = Placement(record: Record, x: int, y: int, image: Option<Image>)

  /** One evidence page: its heading, its slots in drawing order, its page number. */
  datatype PlannedPage = PlannedPage(title: string, placements: seq<Placement>, number: nat)

  // The fixed text of the evidence pages.
  const EvidenceHeading := "Evidence: "
  const ContinuedMark := " (Cont.)"
  const BrokenLink := "Image Link " + "Broken"
  const AlertLabel := "Alert ID: "
  const GpsLabel := "GPS: "
  const CoordinateSeparator := ", "
  const TimeLabel := "Timestamp: "

  /** The heading of a section page; continuation pages add " (Cont.)". */
  function SectionTitle(cat: string, continued: bool): string
  {
    EvidenceHeading + Humanize(cat) + (if continued then ContinuedMark else "")
  }

  /** Records lo..hi of a section, each at the slot of its index in the section. */
  function Placements(rs: seq<Record>, images: seq<Option<Image>>, lo: nat, hi: nat): (ps: seq<Placement>)
    requires lo <= hi <= |rs| == |images|
    ensures |ps| == hi - lo
  {
    seq(hi - lo, m requires 0 <= m < hi - lo => Placement(rs[lo + m], SlotX(lo + m), SlotY(lo + m), images[lo + m]))
  }

  /** Page j of a section: the records 4j up to 4j + 4 (or the end). */
  function SectionPage(cat: string, rs: seq<Record>, images: seq<Option<Image>>, first: nat, j: nat): PlannedPage
    requires |rs| == |images| && 4 * j < |rs|
  {
    PlannedPage(SectionTitle(cat, j > 0),
                Placements(rs, images, 4 * j, Min(4 * j + 4, |rs|)),
                first + j)
  }

  /** The first n pages of a section whose first page is numbered `first`. */
  function SectionPages(cat: string, rs: seq<Record>, images: seq<Option<Image>>, first: nat, n: nat): (pages: seq<PlannedPage>)
    requires |rs| == |images| && n <= PagesFor(|rs|)
    ensures |pages| == n
  {
    PageCapacity();
    seq(n, j requires 0 <= j < n => SectionPage(cat, rs, images, first, j))
  }

  /** All pages of a section. */
  function SectionPlan(cat: string, rs: seq<Record>, images: seq<Option<Image>>, first: nat): seq<PlannedPage>
    requires |rs| == |images|
  {
    SectionPages(cat, rs, images, first, PagesFor(|rs|))
  }

  /** What the evidence log does to the build: its pages, the cache and the
      requests after it, and the page number that comes next. */
  datatype EvidenceResult = EvidenceResult(
    plan: seq<PlannedPage>,
    cache: map<string, Image>,
    requests: seq<Request>,
    nextPage: nat)

  /** The evidence sections of `types`, in order, numbered from `first`
      (report.py:255-323). */
  function EvidencePlan(types: seq<string>, records: seq<Record>, first: nat,
                        cache: map<string, Image>, fetch: string -> Response): EvidenceResult
  {
    if types == [] then EvidenceResult([], cache, [], first)
    else AddSection(EvidencePlan(types[..|types| - 1], records, first, cache, fetch), types[|types| - 1], records, fetch)
  }

  /** One more category: without records it adds nothing; otherwise its section
      follows, with the images looked up through the cache in record order. */
  function AddSection(prev: EvidenceResult, cat: string, records: seq<Record>, fetch: string -> Response): EvidenceResult
  {
    var rs := CategoryRecords(records, cat);
    if rs == [] then prev
    else
      var a := AcquireAll(prev.cache, fetch, rs);
      EvidenceResult(prev.plan + SectionPlan(cat, rs, a.images, prev.nextPage),
                     a.cache, prev.requests + a.requests, prev.nextPage + PagesFor(|rs|))
  }

  // ---------------------------------------------------------------------------
  // Drawing a planned page.

  /** One slot: the image, or the outlined placeholder with "Image Link Broken",
      then the three caption lines below it (report.py:304-319). */
  function SlotCommands(p: Placement): (cmds: seq<Command>)
    ensures PageBreak !in cmds
  {
    (match p.image
     case Some(img) => [Picture(p.x, p.y, SlotWidth, SlotHeight, img)]
     case None => [Rect(p.x, p.y, SlotWidth, SlotHeight), CentredStr(p.x + 115, p.y + 75, BrokenLink)])
    + [ Str(p.x, p.y - 15, AlertLabel + p.record.id),
        Str(p.x, p.y - 28, GpsLabel + p.record.latitude + CoordinateSeparator + p.record.longitude),
        Str(p.x, p.y - 38, TimeLabel + p.record.timestamp) ]
  }

  function SlotsCommands(ps: seq<Placement>): (cmds: seq<Command>)
    ensures PageBreak !in cmds
  {
    if ps == [] then [] else SlotsCommands(ps[..|ps| - 1]) + SlotCommands(ps[|ps| - 1])
  }

  lemma SlotsCommandsSnoc(ps: seq<Placement>, p: Placement)
    ensures SlotsCommands(ps + [p]) == SlotsCommands(ps) + SlotCommands(p)
  {
    assert (ps + [p])[..|ps|] == ps;
  }

  /** A planned page as drawn: header, slots, footer with its number. */
  function RenderPage(meta: SiteMeta, page: PlannedPage): seq<Command>
  {
    HeaderCommands(meta, page.title) + SlotsCommands(page.placements) + FooterCommands(Number(page.number))
  }

  function RenderPlan(meta: SiteMeta, plan: seq<PlannedPage>): (pages: seq<seq<Command>>)
    ensures |pages| == |plan|
  {
    seq(|plan|, i requires 0 <= i < |plan| => RenderPage(meta, plan[i]))
  }

  lemma RenderPlanAppend(meta: SiteMeta, a: seq<PlannedPage>, b: seq<PlannedPage>)
    ensures RenderPlan(meta, a + b) == RenderPlan(meta, a) + RenderPlan(meta, b)
  {
  }

  /** A drawn page has no page break of its own, opens with its header and
      closes with the footer carrying its number. */
  lemma RenderPageShape(meta: SiteMeta, page: PlannedPage)
    ensures PageBreak !in RenderPage(meta, page)
    ensures RenderPage(meta, page)[..4] == HeaderCommands(meta, page.title)
    ensures EndsWithFooter(RenderPage(meta, page), Number(page.number))
  {
    FurnishingsHaveNoBreak(meta, page.title, Number(page.number));
    var r := RenderPage(meta, page);
    assert r[|r| - 2..] == FooterCommands(Number(page.number));
  }

  /** The drawn pages of a plan numbered on from `first` are framed pages
      with the footers first, first + 1, ... */
  lemma RenderedPagesShape(meta: SiteMeta, plan: seq<PlannedPage>, first: nat)
    requires forall i :: 0 <= i < |plan| ==> plan[i].number == first + i
    ensures FramedFrom(RenderPlan(meta, plan), first)
  {
    var pages := RenderPlan(meta, plan);
    forall i | 0 <= i < |pages|
      ensures FramedAs(pages[i], Number(first + i))
    {
      FramedPage(meta, plan[i].title, SlotsCommands(plan[i].placements), Number(plan[i].number));
    }
  }

  // ---------------------------------------------------------------------------
  // What the plan guarantees.

  /** The shape every evidence page has: one to four records, record m of the
      page in column m mod 2 and in row m div 2 (y 542 or 302). */
  predicate GridPage(page: PlannedPage)
  {
    && 1 <= |page.placements| <= 4
    && forall m :: 0 <= m < |page.placements| ==>
         page.placements[m].x == SlotX(m) && page.placements[m].y == SlotY(m)
  }

  /** Slot m of page j sits where slot m of the first page does. */
  lemma SlotOfPage(j: nat, m: nat)
    requires m < 4
    ensures SlotX(4 * j + m) == SlotX(m) && SlotY(4 * j + m) == SlotY(m)
  {
    QuotientRemainder(4 * j + m, j, m);
    QuotientRemainder(m, 0, m);
  }

  lemma SectionPageShape(cat: string, rs: seq<Record>, images: seq<Option<Image>>, first: nat, j: nat)
    requires |rs| == |images| && 4 * j < |rs|
    ensures GridPage(SectionPage(cat, rs, images, first, j))
  {
    PageCapacity();
    var page := SectionPage(cat, rs, images, first, j);
    var lo := 4 * j;
    assert page.placements == Placements(rs, images, lo, Min(lo + 4, |rs|));
    forall m | 0 <= m < |page.placements|
      ensures page.placements[m].x == SlotX(m) && page.placements[m].y == SlotY(m)
    {
      assert page.placements[m] == Placement(rs[lo + m], SlotX(lo + m), SlotY(lo + m), images[lo + m]);
      SlotOfPage(j, m);
    }
  }

  /** Every page of the evidence log has the grid shape, and the pages are
      numbered consecutively from `first`; the next page number follows the last. */
  lemma {:induction false} EvidenceLayout(types: seq<string>, records: seq<Record>, first: nat,
                                          cache: map<string, Image>, fetch: string -> Response)
    ensures var e := EvidencePlan(types, records, first, cache, fetch);
      && e.nextPage == first + |e.plan|
      && (forall i :: 0 <= i < |e.plan| ==> e.plan[i].number == first + i)
      && (forall i :: 0 <= i < |e.plan| ==> GridPage(e.plan[i]))
  {
    if types != [] {
      var p := types[..|types| - 1];
      var cat := types[|types| - 1];
      EvidenceLayout(p, records, first, cache, fetch);
      var prev := EvidencePlan(p, records, first, cache, fetch);
      var rs := CategoryRecords(records, cat);
      if rs != [] {
        var a := AcquireAll(prev.cache, fetch, rs);
        var section := SectionPlan(cat, rs, a.images, prev.nextPage);
        assert EvidencePlan(types, records, first, cache, fetch).plan == prev.plan + section;
        PageCapacity();
        forall j | 0 <= j < |section|
          ensures GridPage(section[j]) && section[j].number == prev.nextPage + j
        {
          SectionPageShape(cat, rs, a.images, prev.nextPage, j);
        }
      }
    }
  }

  /** The drawn evidence pages are framed and carry the footers first,
      first + 1, ... */
  lemma EvidenceFramed(meta: SiteMeta, types: seq<string>, records: seq<Record>, first: nat,
                       cache: map<string, Image>, fetch: string -> Response)
    ensures FramedFrom(RenderPlan(meta, EvidencePlan(types, records, first, cache, fetch).plan), first)
  {
    var plan := EvidencePlan(types, records, first, cache, fetch).plan;
    assert forall i :: 0 <= i < |plan| ==> plan[i].number == first + i by {
      EvidenceLayout(types, records, first, cache, fetch);
    }
    RenderedPagesShape(meta, plan, first);
  }

  /** Each slot's image or placeholder and its three caption lines stay strictly
      between the footer rule and the header band. */
  lemma SlotInBand(p: Placement, m: nat)
    requires p.x == SlotX(m) && p.y == SlotY(m)
    ensures forall c :: c in SlotCommands(p) ==> InContentBand(c)
  {
    SlotClear(m);
  }

  /** Nothing an evidence page draws between its header and footer reaches into
      either of them. */
  lemma GridPageInBand(page: PlannedPage)
    requires GridPage(page)
    ensures forall c :: c in SlotsCommands(page.placements) ==> InContentBand(c)
  {
    var ps := page.placements;
    PrefixInBand(ps, |ps|);
    assert ps[..|ps|] == ps;
  }

  lemma {:induction false} PrefixInBand(ps: seq<Placement>, n: nat)
    requires n <= |ps|
    requires forall m :: 0 <= m < |ps| ==> ps[m].x == SlotX(m) && ps[m].y == SlotY(m)
    ensures forall c :: c in SlotsCommands(ps[..n]) ==> InContentBand(c)
  {
    if n > 0 {
      PrefixInBand(ps, n - 1);
      assert ps[..n][..n - 1] == ps[..n - 1];
      SlotInBand(ps[n - 1], n - 1);
    }
  }

  /** Pages a run of categories takes: the sum of their sections' page counts. */
  function TotalPages(types: seq<string>, records: seq<Record>): nat
  {
    if types == [] then 0
    else TotalPages(types[..|types| - 1], records) + PagesFor(|CategoryRecords(records, types[|types| - 1])|)
  }

  /** The evidence log takes ceil(k/4) pages for each category with k records. */
  lemma {:induction false} EvidencePageCount(types: seq<string>, records: seq<Record>, first: nat,
                                             cache: map<string, Image>, fetch: string -> Response)
    ensures |EvidencePlan(types, records, first, cache, fetch).plan| == TotalPages(types, records)
  {
    if types != [] {
      var p := types[..|types| - 1];
      EvidencePageCount(p, records, first, cache, fetch);
      PagesForBounds(0);
    }
  }

  /** The categories of `types` that have records, in order. */
  function PresentTypes(types: seq<string>, records: seq<Record>): seq<string>
  {
    if types == [] then []
    else
      var cat := types[|types| - 1];
      PresentTypes(types[..|types| - 1], records) + (if CategoryRecords(records, cat) == [] then [] else [cat])
  }

  /** Categories with no records change nothing: neither the pages, the page
      numbers, the cache nor the requests. */
  lemma {:induction false} EmptyCategoriesIgnored(types: seq<string>, records: seq<Record>, first: nat,
                                                  cache: map<string, Image>, fetch: string -> Response)
    ensures EvidencePlan(types, records, first, cache, fetch)
         == EvidencePlan(PresentTypes(types, records), records, first, cache, fetch)
  {
    if types != [] {
      var p := types[..|types| - 1];
      var cat := types[|types| - 1];
      EmptyCategoriesIgnored(p, records, first, cache, fetch);
      var q := PresentTypes(p, records);
      var prev := EvidencePlan(p, records, first, cache, fetch);
      assert EvidencePlan(types, records, first, cache, fetch) == AddSection(prev, cat, records, fetch);
      if CategoryRecords(records, cat) == [] {
        assert PresentTypes(types, records) == q;
      } else {
        assert PresentTypes(types, records) == q + [cat];
        assert (q + [cat])[..|q + [cat]| - 1] == q;
      }
    }
  }

  // ---------------------------------------------------------------------------
  // Which records appear, and in which order.

  function RecordsOf(ps: seq<Placement>): (rs: seq<Record>)
    ensures |rs| == |ps|
    ensures forall m :: 0 <= m < |ps| ==> rs[m] == ps[m].record
  {
    seq(|ps|, m requires 0 <= m < |ps| => ps[m].record)
  }

  /** The records shown by a run of pages, page after page, slot after slot. */
  function PlacedRecords(plan: seq<PlannedPage>): seq<Record>
  {
    if plan == [] then []
    else PlacedRecords(plan[..|plan| - 1]) + RecordsOf(plan[|plan| - 1].placements)
  }

  lemma {:induction false} PlacedRecordsAppend(a: seq<PlannedPage>, b: seq<PlannedPage>)
    ensures PlacedRecords(a + b) == PlacedRecords(a) + PlacedRecords(b)
    decreases |b|
  {
    if b == [] {
      assert a + b == a;
    } else {
      var b' := b[..|b| - 1];
      assert (a + b)[..|a + b| - 1] == a + b';
      PlacedRecordsAppend(a, b');
    }
  }

  /** The first n pages of a section show its first 4n records, in order. */
  lemma {:induction false} SectionRecords(cat: string, rs: seq<Record>, images: seq<Option<Image>>, first: nat, n: nat)
    requires |rs| == |images| && n <= PagesFor(|rs|)
    ensures PlacedRecords(SectionPages(cat, rs, images, first, n)) == rs[..Min(4 * n, |rs|)]
  {
    PageCapacity();
    if n > 0 {
      SectionRecords(cat, rs, images, first, n - 1);
      var pages := SectionPages(cat, rs, images, first, n);
      assert pages[..n - 1] == SectionPages(cat, rs, images, first, n - 1);
      var lo := 4 * (n - 1);
      var hi := Min(4 * n, |rs|);
      assert RecordsOf(pages[n - 1].placements) == rs[lo..hi];
      assert rs[..hi] == rs[..lo] + rs[lo..hi];
    }
  }

  /** The records of the categories of `types`, category after category. */
  function Gathered(types: seq<string>, records: seq<Record>): seq<Record>
  {
    if types == [] then []
    else Gathered(types[..|types| - 1], records) + CategoryRecords(records, types[|types| - 1])
  }

  /** The evidence log shows the records section by section in category order
      and, within a section, in input order; each exactly once. */
  lemma {:induction false} EvidenceOrder(types: seq<string>, records: seq<Record>, first: nat,
                                         cache: map<string, Image>, fetch: string -> Response)
    ensures PlacedRecords(EvidencePlan(types, records, first, cache, fetch).plan) == Gathered(types, records)
  {
    if types != [] {
      var p := types[..|types| - 1];
      var cat := types[|types| - 1];
      EvidenceOrder(p, records, first, cache, fetch);
      var prev := EvidencePlan(p, records, first, cache, fetch);
      AddSectionRecords(prev, cat, records, fetch);
    }
  }

  /** A section shows its category's records, after those already shown. */
  lemma AddSectionRecords(prev: EvidenceResult, cat: string, records: seq<Record>, fetch: string -> Response)
    ensures PlacedRecords(AddSection(prev, cat, records, fetch).plan) == PlacedRecords(prev.plan) + CategoryRecords(records, cat)
  {
    var rs := CategoryRecords(records, cat);
    if rs == [] {
      assert PlacedRecords(prev.plan) + rs == PlacedRecords(prev.plan);
    } else {
      var a := AcquireAll(prev.cache, fetch, rs);
      PlacedRecordsAppend(prev.plan, SectionPlan(cat, rs, a.images, prev.nextPage));
      SectionRecords(cat, rs, a.images, prev.nextPage, PagesFor(|rs|));
      PageCapacity();
      assert rs[..Min(4 * PagesFor(|rs|), |rs|)] == rs;
    }
  }

  /** The records whose category is one of `types`, in input order. */
  function Known(records: seq<Record>, types: seq<string>): seq<Record>
  {
    if records == [] then []
    else
      var r := records[|records| - 1];
      Known(records[..|records| - 1], types) + (if r.category in types then [r] else [])
  }

  /** Adding a category not yet listed adds exactly its records. */
  lemma {:induction false} KnownSnoc(records: seq<Record>, types: seq<string>, cat: string)
    requires cat !in types
    ensures multiset(Known(records, types + [cat])) == multiset(Known(records, types)) + multiset(CategoryRecords(records, cat))
  {
    if records != [] {
      var p := records[..|records| - 1];
      var r := records[|records| - 1];
      KnownSnoc(p, types, cat);
      assert Known(records, types + [cat]) == Known(p, types + [cat]) + (if r.category in types + [cat] then [r] else []);
      assert Known(records, types) == Known(p, types) + (if r.category in types then [r] else []);
      assert CategoryRecords(records, cat) == CategoryRecords(p, cat) + (if r.category == cat then [r] else []);
      assert r.category in types + [cat] <==> r.category in types || r.category == cat;
    }
  }

  lemma {:induction false} KnownNone(records: seq<Record>)
    ensures Known(records, []) == []
  {
    if records != [] {
      KnownNone(records[..|records| - 1]);
    }
  }

  /** With no category listed twice, the evidence log shows every record whose
      category is listed, as often as it occurs, and no other record. */
  lemma {:induction false} GatheredIsKnown(types: seq<string>, records: seq<Record>)
    requires NoDuplicates(types)
    ensures multiset(Gathered(types, records)) == multiset(Known(records, types))
  {
    if types == [] {
      KnownNone(records);
    } else {
      var p := types[..|types| - 1];
      var cat := types[|types| - 1];
      assert types == p + [cat];
      assert NoDuplicates(p);
      GatheredIsKnown(p, records);
      KnownSnoc(records, p, cat);
    }
  }

  /** The lengths of the category names, in list order. */
  const NameLengths: seq<int> := [14, 28, 23, 24, 26, 6, 35, 50, 12, 20, 13, 28, 4, 5, 28, 53, 25, 22, 30, 16, 13, 19, 18, 12]

  lemma NameLengthsMatch()
    ensures |ViolationTypes| == |NameLengths| == 24
    ensures forall i :: 0 <= i < 24 ==> |ViolationTypes[i]| == NameLengths[i]
  {
  }

  /** The only names of equal length: three of 28 characters, two of 12, two of 13. */
  lemma NameLengthClashes(i: nat, j: nat)
    requires i < j < 24 && NameLengths[i] == NameLengths[j]
    ensures (i, j) in {(1, 11), (1, 14), (11, 14), (8, 23), (10, 20)}
  {
  }

  /** The category list names 24 categories, none twice. */
  lemma ViolationTypesDistinct()
    ensures |ViolationTypes| == 24
    ensures NoDuplicates(ViolationTypes)
  {
    NameLengthsMatch();
    forall i, j | 0 <= i < j < |ViolationTypes|
      ensures ViolationTypes[i] != ViolationTypes[j]
    {
      if NameLengths[i] == NameLengths[j] {
        NameLengthClashes(i, j);
        assert ViolationTypes[i][0] != ViolationTypes[j][0] || ViolationTypes[i][6] != ViolationTypes[j][6];
      }
    }
  }
}
