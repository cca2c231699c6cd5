/** Page geometry of the report: the fixed header band, the footer line, the
    cover page's card grid and the two-column evidence grid. Coordinates are
    PDF points with the origin at the bottom-left corner; a box is given by
    its bottom-left corner, width and height. */
module Geometry {

  // The page: A4 rounded to whole points (595.28 x 841.89).
  const PageWidth: int := 595
  const PageHeight: int := 842

  // Fixed header: a 110-point band 25 points below the top edge.
  const HeaderTopMargin: int := 25
  const HeaderHeight: int := 110
  /** The header's bottom edge, which `draw_fixed_header` returns. */
  const HeaderBottom: int := PageHeight - HeaderHeight - HeaderTopMargin

  // Footer: a rule at y = 40 from x = 40 to the right margin, a caption at y = 25.
  const FooterInset: int := 40
  const FooterLineY: int := 40
  const FooterCaptionY: int := 25

  // Cover page: 2 x 3 grid of 160 x 70 cards, 25 apart horizontally and 35 vertically.
  const CardWidth: int := 160
  const CardHeight: int := 70
  const CardGapX: int := 25
  const CardGapY: int := 35
  const CardStartX: int := 50
  /** The grid's cells: two rows of three columns. */
  const GridCells: nat := 6
  /** Space the cover page leaves between the header and the first card row. */
  const CoverGridDrop: int := 111

  // Evidence grid: 230 x 155 images in two columns, rows 240 apart, starting
  // 300 below the top edge; a row whose cursor falls below 120 overflows.
  const SlotWidth: int := 230
  const SlotHeight: int := 155
  const LeftColumnX: int := 50
  const RightColumnX: int := 315
  const EvidenceStartY: int := PageHeight - 300
  const RowStep: int := 240
  const OverflowY: int := 120
  /** The lowest caption line sits this far below a slot's y (report.py:319). */
  const CaptionDrop: int := 38

  /** The header band ends 135 points below the top of the page. */
  lemma HeaderBottomValue()
    ensures HeaderBottom == PageHeight - 135
    ensures HeaderBottom + HeaderHeight + HeaderTopMargin == PageHeight
  {
  }

  // ---------------------------------------------------------------------------
  // Cover-page card grid.

  /** Left edge of card k, filled row-major: column k % 3, columns one card
      width plus one gap apart (CardPitch). */
  function CardX(k: nat): int
  {
    CardStartX + 185 * (k % 3)
  }

  /** Bottom edge of card k, filled row-major: row k / 3 below the grid top,
      rows one card height plus one gap apart (CardPitch). */
  function CardY(gridTop: int, k: nat): int
  {
    gridTop - 105 * (k / 3)
  }

  /** Where the cover page continues below the grid. */
  function GridBottom(gridTop: int): int
  {
    gridTop - (2 * CardHeight + CardGapY)
  }

  /** The grid's pitch: the next card of a row starts one card width plus one
      gap to the right, the card below one card height plus one gap lower. */
  lemma CardPitch(gridTop: int, k: nat)
    ensures k % 3 < 2 ==> CardX(k + 1) == CardX(k) + CardWidth + CardGapX
    ensures CardY(gridTop, k + 3) == CardY(gridTop, k) - (CardHeight + CardGapY)
  {
  }

  /** Card `row * 3 + col` is the card of that row and column; the grid bottom
      is 175 below its top and clear of every card. */
  lemma CardPlacement(gridTop: int, row: nat, col: nat)
    requires row < 2 && col < 3
    ensures CardX(3 * row + col) == 50 + col * 185
    ensures CardY(gridTop, 3 * row + col) == gridTop - row * 105
    ensures GridBottom(gridTop) == gridTop - 175
    ensures GridBottom(gridTop) < CardY(gridTop, 3 * row + col)
  {
  }

  /** Two different cards of the grid never overlap, and every card lies within the page width. */
  lemma CardsDisjoint(gridTop: int, k1: nat, k2: nat)
    requires k1 < GridCells && k2 < GridCells && k1 != k2
    ensures CardX(k1) + CardWidth < CardX(k2) || CardX(k2) + CardWidth < CardX(k1)
         || CardY(gridTop, k1) + CardHeight < CardY(gridTop, k2)
         || CardY(gridTop, k2) + CardHeight < CardY(gridTop, k1)
    ensures 0 <= CardX(k1) && CardX(k1) + CardWidth <= PageWidth
  {
  }

  // ---------------------------------------------------------------------------
  // Evidence grid.

  /** Column of the i-th record of a section: even records left, odd records right. */
  function SlotX(i: nat): (x: int)
    ensures x == (if i % 2 == 0 then 50 else 315)
  {
    if i % 2 == 0 then LeftColumnX else RightColumnX
  }

  /** Row cursor of the i-th record of a section: a page holds four records
      (PageCapacity), the first two on the top row and the next two one row
      step lower. */
  function SlotY(i: nat): int
  {
    if i % 4 < 2 then EvidenceStartY else EvidenceStartY - RowStep
  }

  /** Pages a section of k records takes: k / 4 rounded up. */
  function PagesFor(k: nat): nat
  {
    (k + 3) / 4
  }

  /** The grid fits two rows of two records, four records, per page: the
      cursor of the second row passes the overflow check and that of a third
      row would not. */
  lemma PageCapacity()
    ensures EvidenceStartY - RowStep >= OverflowY
    ensures EvidenceStartY - 2 * RowStep < OverflowY
  {
  }

  /** Every slot sits at one of the two columns and one of the two rows (542 and 302),
      passes the overflow check, and its image and captions stay strictly between the
      footer line and the header band. */
  lemma SlotClear(i: nat)
    ensures SlotY(i) == 542 || SlotY(i) == 302
    ensures SlotY(i) >= OverflowY
    ensures SlotY(i) + SlotHeight < HeaderBottom
    ensures SlotY(i) - CaptionDrop > FooterLineY
    ensures 0 <= SlotX(i) && SlotX(i) + SlotWidth <= PageWidth
  {
  }

  /** n = 4q + r with r < 4 pins down n / 4 and n % 4. */
  lemma QuotientRemainder(n: nat, q: nat, r: nat)
    requires n == 4 * q + r && r < 4
    ensures n / 4 == q && n % 4 == r
    ensures n % 2 == r % 2
  {
    if r < 2 {
      Parity(n, 2 * q, r);
    } else {
      Parity(n, 2 * q + 1, r - 2);
    }
  }

  /** n = 2k + b with b < 2 pins down n % 2. */
  lemma Parity(n: nat, k: nat, b: nat)
    requires n == 2 * k + b && b < 2
    ensures n % 2 == b
  {
  }

  /** Two different slots of one page do not overlap, image and captions included. */
  lemma SlotsDisjoint(i: nat, j: nat)
    requires i != j && i / 4 == j / 4
    ensures SlotX(i) + SlotWidth < SlotX(j) || SlotX(j) + SlotWidth < SlotX(i)
         || SlotY(i) + SlotHeight < SlotY(j) - CaptionDrop
         || SlotY(j) + SlotHeight < SlotY(i) - CaptionDrop
  {
    var q := i / 4;
    QuotientRemainder(i, q, i % 4);
    QuotientRemainder(j, q, j % 4);
    QuotientRemainder(i % 4, 0, i % 4);
    QuotientRemainder(j % 4, 0, j % 4);
  }

  /** A section of k >= 1 records takes ceil(k / 4) pages: all of them full except the last. */
  lemma PagesForBounds(k: nat)
    ensures PagesFor(0) == 0
    ensures k >= 1 ==> PagesFor(k) >= 1 && 4 * (PagesFor(k) - 1) < k <= 4 * PagesFor(k)
  {
  }

  /** More records in a section never take fewer pages. */
  lemma PagesForMonotonic(k1: nat, k2: nat)
    requires k1 <= k2
    ensures PagesFor(k1) <= PagesFor(k2)
  {
  }
}
