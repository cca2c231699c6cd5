# Drone surveillance report: layout and pagination model

`report.py` turns a list of violation records into a PDF inspection report. A
drone run produces the records. Each record has an id, a category, an image link,
coordinates and a timestamp. The `FinalDroneReport` object draws four parts onto
one canvas, in this order:

- a cover page: a fixed header, a 2 x 3 grid of summary cards, a submission box
  and a video box;
- an analytics page: a bar chart and a table giving each category's count and
  risk level;
- the evidence log: one section per category of the fixed `VIOLATION_TYPES`
  list that has records, four images to a page, numbered on from page 3;
- a conclusion page with numbered remarks, footed "Page End".

This Dafny project models that engine.

- **Canvas.** The canvas is a log of abstract draw commands (`Draw.Command`).
  `showPage` is a `PageBreak` command.
- **Report object.** `Report.RenderContext` is a class holding the log, the
  per-build image cache and the site metadata. Its methods append exactly the
  commands of a page description given by pure functions.
- **Evidence log.** It is specified in closed form (`Evidence.EvidencePlan`):
  page j of a section holds records 4j..4j+3, at fixed slots. The record loop,
  with its y cursor, overflow check and page counter, is proved to draw exactly
  that plan.
- **Network.** It is an oracle `fetch` from URL to response. The image cache is
  a map keyed by record id.

Modules:

| module | file | holds |
|---|---|---|
| `Common` | common.dfy | records, site metadata, images, tallies, cards |
| `Text` | text.dfy | `upper`, `title`, `replace`, `in`, `split` and `str(n)` on ASCII text |
| `Geometry` | geometry.dfy | page, header, footer, card-grid and evidence-slot coordinates |
| `Draw` | draw.dfy | draw commands, header and footer contents, pages and page streams |
| `Analytics` | analytics.dfy | category counts, ranking, mode, risk label, summary table |
| `Images` | images.dfy | Drive link rewrite, response acceptance, the per-build image cache |
| `Evidence` | evidence.dfy | category order, evidence plan, placement, page counts, record order |
| `Report` | report.dfy | the page descriptions, the `RenderContext` class and the whole build |

## Model

| member | source | states |
|---|---|---|
| Report.RenderContext.constructor | report.py:37-44 | A new report has an empty canvas and an empty cache. Underscores in the site name become spaces. Date and drone id are kept as given. |
| Report.SiteMetaOf | report.py:363-368 | A supplied location, with its underscores turned into spaces, a supplied date and a supplied drone id reach the report as given. Missing ones take the defaults "Site", "2026-01-01" and "DRONE-X". The site name never holds an underscore. |
| Report.RenderContext.RoundBox | report.py:46-48 | Appends one rounded rectangle with the given geometry. Cache and requests are unchanged. |
| Report.RenderContext.DrawFixedHeader | report.py:49-76 | Returns the header's bottom edge, h - 110 - 25 = h - 135. Appends the header's four commands: box, organisation, upper-cased title and metadata line. |
| Geometry.HeaderBottomValue | report.py:50-53 | The header bottom plus header height plus top margin is the page height. The bottom is h - 135. |
| Draw.HeaderCommands | report.py:56-74 | The header is four commands. The first is the 20-radius box at the header bottom. Every command lies between the header bottom and h - 25. |
| Report.RenderContext.Footer | report.py:78-83 | Appends the rule at y = 40 and the caption ending in "Page <label>" centred at y = 25. |
| Draw.FooterCommands | report.py:79-83 | The footer is two commands. Neither reaches above the footer rule at y = 40. |
| Draw.FooterCaptionInjective | report.py:83 | Different page labels give different footer captions. Numbers never collide with each other or with "End". |
| Report.RenderContext.ShowPage | report.py:204 | `showPage` appends exactly one page break. |
| Report.PrimaryRisk | report.py:97 | The "Primary Risk Factor" card is "N/A" for no records. Otherwise it is the humanised category of some record. |
| Report.PrimaryRiskIsMode | report.py:97 | For a non-empty record set the card shows the humanised mode: a category that occurs and that no other category outnumbers. |
| Report.RenderContext.DrawCardGrid | report.py:119-148 | The two nested loops append, card after card, the box and two captions of each card that has a grid cell, and stop once every card is drawn. |
| Report.CardsUpTo | report.py:128-148 | After n cards the grid has drawn 3n commands. |
| Report.CardsUpToAt | report.py:133-146 | Commands 3k..3k+2 are card k's box, key and value. |
| Report.CardGridPlacement | report.py:128-136 | Card k is drawn at x = 50 + 185 (k mod 3), y = grid_top - 105 (k div 3). Its box is 160 x 70 with radius 14. |
| Geometry.CardPitch | report.py:133-134 | Cards in a row are 185 apart horizontally. Rows are 105 apart. |
| Geometry.CardPlacement | report.py:133-151 | Row r, column c is at (50 + 185c, grid_top - 105r). The grid bottom is grid_top - 175, below every card. |
| Geometry.CardsDisjoint | report.py:119-134 | Two different cards never overlap. Every card lies within the page width. |
| Report.CoverCardsFacts | report.py:110-117 | The cover has six cards. The "Total Violations" value reads back as the number of records. |
| Report.CoverPage | report.py:91-204 | The cover page as drawn: header, card grid, submission block, video box, footer 1. Its layout is proved in CoverInBand and CardGridPlacement, its frame in FixedPagesFramed. |
| Report.RenderContext.BuildCoverPage | report.py:91-204 | Appends the cover page: header, card grid, submission block, then the video link or the "No video link provided" notice, footer 1, then a page break. |
| Report.CoverInBand | report.py:151-200 | Nothing the cover draws between header and footer overlaps either one. |
| Report.CoverNoBreak | report.py:91-200 | The cover's body contains no page break. |
| Analytics.OccurrencesPositive | report.py:214 | A category has a positive count exactly when it occurs in the records. |
| Analytics.Distinct | report.py:214 | The distinct categories have no duplicates and are exactly the categories that occur. |
| Analytics.TallyRows | report.py:214 | One tally per distinct category, each counting that category's occurrences. |
| Analytics.TallySum | report.py:214 | The tallies of the distinct categories sum to the number of records. |
| Analytics.Insert | report.py:214 | Inserting into a ranked list keeps it ranked by count, non-increasing, and adds one row. |
| Analytics.InsertContents | report.py:214 | Insertion adds exactly the new tally, as a multiset, and its count to the sum. |
| Analytics.Rank | report.py:214 | The ranked counts are ordered by count, non-increasing. They are a permutation of the input with the same sum. |
| Analytics.ValueCounts | report.py:214 | `value_counts`: the tallies of the distinct categories, ranked by count. ValueCountsFacts and AnalyticsTable prove it ranked, complete, with true positive counts summing to the record count. |
| Analytics.ValueCountsFacts | report.py:214 | `value_counts` is ranked and has one row per distinct category. A tally is in it iff its category occurs with that count. Every count is positive and the counts sum to the number of records. |
| Analytics.Mode | report.py:343 | `mode()[0]` is a category that occurs in the records. |
| Analytics.ModeIsMostFrequent | report.py:343 | No category occurs more often than the mode. |
| Analytics.RiskLabel | report.py:233 | "CRITICAL" iff the count is above 3. "High" iff it is at most 3. |
| Analytics.RiskBoundary | report.py:233 | 4 is CRITICAL and 3 is High. A larger count never has a lower label. |
| Analytics.BuildSummaryTable | report.py:231-234 | The loop builds the header row followed by one row per count, in the counts' order. |
| Analytics.TableRowShows | report.py:234 | A row holds three cells: the humanised category, the count in decimal digits that read back as the count, and CRITICAL iff the count is above 3. |
| Analytics.AnalyticsTable | report.py:214-234 | The table has a header plus one row per distinct category. Every category present has a row. Each row's category occurs with the row's positive count. The counts sum to the number of records. |
| Report.RenderContext.BuildAnalyticsPage | report.py:210-250 | Appends the analytics page: header, chart of the ranked counts, the summary table at (65, h - 650), footer 2, then a page break. |
| Report.AnalyticsPage | report.py:210-250 | The analytics page as drawn: header, chart of value_counts, the summary table at (65, h - 650), footer 2. Its frame is proved in FixedPagesFramed. |
| Text.Upper | report.py:343 | `upper()` maps each character through the ASCII upper-case map and keeps the length. |
| Text.ReplaceChar | report.py:234 | `replace("_", " ")` changes exactly the matching characters. |
| Text.Title | report.py:234 | `title()`: a letter opening a word is upper case and every other letter lower case. |
| Text.TitleIdempotent | report.py:234 | Title-casing twice equals title-casing once. |
| Text.Humanize | report.py:234 | The category label has no underscores, the same length, and underscores turned into spaces. Other characters keep their letter, upper case exactly at word starts. |
| Text.NatToString | report.py:234 | `str(n)` is a non-empty string of decimal digits with no leading zero. |
| Text.DecimalRoundTrip | report.py:234 | Reading back the printed number gives the number. |
| Text.NatToStringInjective | report.py:234 | Different counts and page numbers print differently. |
| Text.IndexFrom | report.py:286-288 | `find`: the first occurrence at or after the start, or none when there is none. |
| Text.ContainsIff | report.py:286 | `pat in s` holds iff pat occurs at some index. |
| Text.FirstPiece | report.py:288 | `split(sep)[0]` is the prefix before the first occurrence of sep, or the whole text. |
| Text.FirstPieceAtChar | report.py:288 | Splitting at one character: the first piece holds no such character and ends at it or at the end. |
| Text.SecondPiece | report.py:288 | `split(sep)[1]` is None exactly when sep does not occur, which is where Python raises. Otherwise it is the text between the first and the next occurrence. |
| Images.FileId | report.py:288 | The Drive file id: the text after the first "/file/d/" up to the next '/', None where the split raises. FileIdShape proves its position and that it holds no '/'. |
| Images.DriveDirect | report.py:285-290 | The URL requested for an image link. DriveDirectRewrites, DriveDirectUnchanged, ShareLinkRoundTrip and DriveDirectIdempotent state the rewrite rule. |
| Images.FileIdShape | report.py:288 | The Drive file id is the text right after the first "/file/d/", up to the next '/' or the end. It holds no '/'. |
| Images.DriveDirectUnchanged | report.py:285-290 | A non-Drive link, or a Drive link without "/file/d/", is requested unchanged. |
| Images.DriveDirectRewrites | report.py:286-289 | A Drive link with "/file/d/" becomes "https://drive.google.com/uc?export=download&id=" plus the file id. |
| Images.ShareLinkRoundTrip | report.py:286-289 | A share link "https://drive.google.com/file/d/<fid>" followed by nothing or "/..." rewrites to the direct link of exactly fid. |
| Images.DriveDirectIdempotent | report.py:286-289 | A direct-download link is left as it is. |
| Images.Accepted | report.py:291-300 | The acceptance rule: a reply with no 4xx/5xx status, no "text/html" in its Content-Type and a decodable body. RejectionRules proves each failure class rejects on its own. |
| Images.RejectionRules | report.py:291-300 | A transport failure, a 4xx/5xx status, a Content-Type containing "text/html" or an undecodable body each rejects the response. A 2xx decodable reply without Content-Type is accepted. |
| Images.AcquireOne | report.py:283-305 | A cached id is used without a request. Otherwise the rewritten link is requested once. An accepted image is cached under the id and shown; a rejected one leaves the cache unchanged and shows the placeholder. |
| Report.RenderContext.AcquireImage | report.py:283-305 | The imperative lookup returns the image, cache and requests of the lookup function. The log is unchanged. |
| Images.AcquireAll | report.py:269-305 | Lookups over a run of records yield one image, or placeholder, per record. |
| Images.AcquireAllPrefix | report.py:269-305 | Looking up a prefix of the records gives the prefix of the images. |
| Images.CacheKeeps | report.py:284 | A cached entry survives any run of lookups unchanged. |
| Images.RequestCount | report.py:284-292 | A run sends at most one request per record. |
| Images.RequestsAreMisses | report.py:284 | No request is sent for an id that is cached when the run starts. |
| Images.AcceptedIsCached | report.py:291-300 | The id of every accepted request is cached at the end of the run. |
| Images.NoRepeatAfterSuccess | report.py:284-300 | After an accepted request for an id, no further request for that id is sent. |
| Images.EntriesFromRequests | report.py:298-300 | Every new cache entry is the decoded image of an accepted request for its id. |
| Images.ImageIsCached | report.py:305 | A record gets an image iff its id is cached right after its lookup. That image is the cached one. |
| Images.LastLookup | report.py:283-305 | Record j's image is what its own lookup yields against the cache left by records 0..j-1. |
| Images.SharedIdReusesImage | report.py:283-306 | A later record with the same id as one that got an image reuses that image, whatever its link, and sends no request. |
| Images.AcquireAllSnoc | report.py:269-305 | Looking up one more record extends the images, cache and requests by that record's lookup. |
| Images.AcquireAllAppend | report.py:258-305 | Looking up two runs in turn equals looking up their concatenation, the cache carried from one to the next. |
| Evidence.ViolationTypesDistinct | report.py:26-34 | The category list has 24 entries, no two equal (proved from the entries' lengths, NameLengthsMatch and NameLengthClashes). |
| Evidence.CategoryRecords | report.py:259 | A record is among a category's records iff it is an input record of that category, and there are no more of them than input records. CategoryRecordsCount gives their number, SectionRecords and EvidenceOrder their order. |
| Evidence.CategoryRecordsCount | report.py:259 | A category has as many records as its count in the records. |
| Evidence.Placements | report.py:269-272 | The placements of records lo..hi-1 are hi - lo slots. |
| Evidence.SectionPages | report.py:262-323 | The first n planned pages of a section. |
| Evidence.SectionPlan | report.py:262-323 | The closed-form plan of one section: page j holds records 4j..4j+3 at slots 0..3, numbered from the first page. SectionPageShape and SectionRecords state its layout and contents; DrawSection is proved to draw it. |
| Evidence.SlotCommands | report.py:304-319 | A slot draws no page break. |
| Evidence.SlotsCommands | report.py:304-319 | A run of slots draws no page break. |
| Evidence.RenderPlan | report.py:258-323 | One rendered page per planned page. |
| Evidence.RenderPlanAppend | report.py:258-323 | Rendering two plans one after the other renders their concatenation. |
| Evidence.EvidencePlan | report.py:255-323 | The evidence log of a category list: the sections in list order, numbered on, with the cache threaded. EvidenceLayout, EvidencePageCount, EvidenceOrder and EmptyCategoriesIgnored state its properties. |
| Evidence.AddSection | report.py:258-323 | One category of the loop: skipped without records, otherwise its section appended. AddSectionRecords states the records it places. |
| Evidence.RenderPageShape | report.py:262-323 | An evidence page starts with its header, ends with its numbered footer, and holds no page break. |
| Evidence.SlotOfPage | report.py:267-272 | Position m of every page has the same x and y as position m of the first page. |
| Evidence.SectionPageShape | report.py:266-280 | Each section page holds one to four records, at slots (50 or 315, 542 or 302). |
| Evidence.EvidenceLayout | report.py:256-323 | The evidence pages are numbered consecutively from 3. The next page number is 3 plus the page count. Every page is a grid page. |
| Evidence.EvidenceFramed | report.py:258-323 | Each evidence page is framed: header, body without page break, footer with its own number. |
| Evidence.SlotInBand | report.py:306-319 | A slot's image, placeholder and captions lie below the header and above the footer rule. |
| Evidence.GridPageInBand | report.py:266-319 | Everything on an evidence page's body stays clear of its header and footer. |
| Evidence.PrefixInBand | report.py:266-319 | Any prefix of a page's slots stays clear of header and footer. |
| Evidence.EvidencePageCount | report.py:256-323 | The evidence log has, per category with k records, ceil(k/4) pages in total. |
| Evidence.EmptyCategoriesIgnored | report.py:258-260 | Categories without records change neither the pages, the page numbers, the cache nor the requests. |
| Evidence.RecordsOf | report.py:269 | The records of a page's placements, in slot order. SectionRecords and EvidenceOrder prove which records these are and in what order. |
| Evidence.PlacedRecordsAppend | report.py:258-323 | The records placed by two plans in turn are those of each, concatenated. |
| Evidence.SectionRecords | report.py:269 | The first n pages of a section place exactly its first min(4n, k) records, in input order. |
| Evidence.AddSectionRecords | report.py:258-323 | Adding a section places exactly that category's records after the earlier ones. |
| Evidence.EvidenceOrder | report.py:258-269 | The evidence log places records grouped by category in list order, each group in input order. |
| Evidence.KnownSnoc | report.py:258-259 | Adding a new category adds exactly its records, as a multiset. |
| Evidence.GatheredIsKnown | report.py:258-259 | With distinct categories, the evidence log shows, as a multiset, exactly the records whose category is listed. |
| Geometry.SlotX | report.py:267-270 | Record i goes to the column `x_pos[i % 2]`: 50 or 315. What the columns promise is proved in SlotClear (within the page) and SlotsDisjoint (no overlap on a page). |
| Geometry.SlotY | report.py:266-280 | The y of record i: 542 for the first two positions of a page, 302 for the other two. SlotClear, SlotOnPage and AdvanceCursor tie it to the cursor of the loop. |
| Geometry.PageCapacity | report.py:266-275 | One row step from the start keeps the cursor at or above 120. Two steps fall below it, so a page holds two rows. |
| Geometry.SlotClear | report.py:266-319 | Every slot is at y 542 or 302, at or above 120. The image's top is below the header bottom, the lowest caption is above the footer rule at 40, and the slot lies within the page width. |
| Geometry.SlotsDisjoint | report.py:267-319 | Two slots of the same page never overlap, captions included. |
| Geometry.PagesForBounds | report.py:272-280 | k >= 1 records need ceil(k/4) >= 1 pages. 0 records need none. |
| Geometry.PagesForMonotonic | report.py:272-280 | More records never need fewer pages. |
| Report.SlotOnPage | report.py:266-272 | Positions 0 and 1 of a page are at the start row, positions 2 and 3 one row step lower. |
| Report.PageTurnRule | report.py:274-280 | The page turns before record i exactly when i is the fifth record of the open page. |
| Report.RenderContext.CheckOverflow | report.py:274-280 | A cursor below 120 draws footer n, a page break and the "(Cont.)" header, counts the page and resets the cursor to h - 300. Otherwise nothing changes. |
| Report.RenderContext.AdvanceCursor | report.py:268-280 | The cursor step and overflow check: a new row starts exactly at the page's third or fifth record (CursorStep), the page turns exactly before the fifth, the counter then rises by one, and the cursor ends at record i's slot. |
| Report.RenderContext.DrawSlot | report.py:304-319 | Appends the 230 x 155 image, or the outline with "Image Link Broken" at the same spot, then the three captions. |
| Report.RenderContext.DrawRecord | report.py:281-319 | Looks up the record's image, then draws its slot with that image. |
| Report.RenderContext.DrawNext | report.py:268-319 | One loop pass keeps the section-state invariant, from record i to record i + 1. |
| Report.RenderContext.OpenSection | report.py:262-267 | A section opens with its header and the cursor at h - 300, before any record. |
| Report.RenderContext.DrawSectionRecords | report.py:262-319 | The loop keeps its invariant over all the records: the output is the section so far, with the cache and requests of looking up all of them. |
| Report.RenderContext.SectionDrawnAll | report.py:269-280 | After the last record, the open page n satisfies 4n < k <= 4n + 4 and the counter is the first page plus n. |
| Report.SamePageStep | report.py:269-319 | A record that is not the page's fifth is drawn on the open page. |
| Report.NewPageStep | report.py:274-319 | The page's fifth record closes the page and opens the next with that record. |
| Report.SectionLogPages | report.py:269-319 | After i records the output is the closed planned pages, then the open page's header and slots. |
| Report.ClosePage | report.py:276-277 | Footer and page break after page n's slots complete the first n + 1 planned pages. |
| Report.SectionLogComplete | report.py:321-322 | The loop's output closed by the last footer is the section's plan, page by page. The section has ceil(k/4) pages. |
| Report.RenderContext.DrawSection | report.py:262-323 | A section draws exactly its planned pages. It returns the first page plus ceil(k/4) as the next page number. Cache and requests follow the lookups of its records. |
| Report.RenderContext.DrawSections | report.py:258-323 | The category loop skips empty categories, draws one section per other category in list order, and carries page numbers and the cache over. |
| Report.RenderContext.BuildEvidenceLog | report.py:255-323 | Draws the evidence plan of the fixed category list, numbered from 3, starting from the current cache. |
| Report.StreamEvidence | report.py:258-323 | Sections drawn one after another are the pages of the joined plan. |
| Report.Remarks | report.py:341-350 | The conclusion text has eight lines. |
| Report.RemarksContent | report.py:341-350 | The first remark cites the number of records, which reads back as that number. Remarks 3 to 5, the blank line and the disclaimer are the fixed text. |
| Report.ConclusionPriority | report.py:343 | The priority remark names a category of maximal count, in upper case with spaces, with no lower-case letter left. |
| Report.RenderContext.BuildConclusion | report.py:328-357 | Appends the conclusion page: header, the text block of heading and remarks, footer "End", then a page break. |
| Report.ConclusionPage | report.py:328-357 | The conclusion page as drawn: header, the text block of heading and remarks, footer "End". Its frame is proved in FixedPagesFramed. |
| Report.WriteLines | report.py:352-353 | The text object holds the heading followed by every line in order. |
| Report.RenderContext.DiscardCache | report.py:381 | The cache is emptied at the end of the build. The output is untouched. |
| Report.FixedPagesFramed | report.py:203-356 | The cover, analytics and conclusion pages are framed with footers 1, 2 and "End". |
| Report.NumberedPages | report.py:256-323 | Cover 1, analytics 2, evidence from 3 and conclusion "End": page i carries "Page i+1" except the last, which carries "Page End". There is one page break per page. |
| Report.PagesNumbered | report.py:256-323 | For any category list, the document has 3 + (evidence pages) pages and is numbered as above. |
| Report.DocumentNumbering | report.py:362-378 | A build's document has 3 plus the evidence page count pages, numbered 1, 2, 3, ... and "End". |
| Report.GenerateReport | report.py:362-383 | A whole build, with defaults filled in, outputs the cover, analytics, evidence and conclusion pages, each followed by a page break. |
| Report.DocumentStream | report.py:372-378 | The four parts drawn one after another are the stream of the document's pages. |
| Draw.StreamAppend | report.py:321-322 | The stream of two page lists is the two streams concatenated. |
| Draw.StreamBreaks | report.py:321-322 | Pages without page breaks of their own give one page break per page. |
| Draw.FramedPage | report.py:49-83 | Header, a body without page break and a footer make a page framed by that footer. |

## Left out

- The network: `requests.get`, its timeout and `Image.open`/`convert`/`save` are one oracle from URL to response. The response is a transport error or a reply with status, Content-Type and the decoded image, if any. The same URL gets the same answer throughout a build.
- The image cache: the `image_cache` directory, its `exists` check and its removal (report.py:43-44, 283-284, 300, 305, 381) are an in-memory map keyed by record id. Only accepted images are stored, as in the code; a failed id is fetched again by its next record. A directory left over from an earlier build is not modelled; every build starts from an empty cache. Concurrent builds share the relative `image_cache` directory (report.py:43), and the first to finish removes it (report.py:381); the model treats each build as alone.
- Report.RenderContext.AcquireImage: every record id is assumed to be a writable file name. In the code the image is saved as `<id>.jpg` (report.py:283, 300), so an id such as one holding '/' fails to save whatever the reply; the model does not capture that failure.
- The analytics chart: matplotlib rasterisation and the `analytics_chart.png` file (report.py:215-228) are one `Chart` command carrying the ranked counts.
- Fonts, colours, `setFont`/`setFillColor`/`setStrokeColor`, table styling and the link's `relative` flag are not modelled. The draw commands keep positions, sizes, texts and link targets only.
- The `print` of a failed download (report.py:302) is not modelled.
- Analytics.Rank: the order of categories with equal counts in `value_counts` is not claimed to match pandas. The model ranks by count, non-increasing, breaking ties by first appearance.
- Analytics.Mode: `mode()[0]` is modelled as a category of maximal count. Which of several tied categories pandas picks is not modelled.
- Text.Title: `upper`, `title` and `replace` are modelled on ASCII letters. Unicode case mappings are not.
- The page is 842 x 595 integer points; A4 is 841.89 x 595.28. Every row, threshold and overlap conclusion is the same: rows at 542, 302 and 62, with 62 below 120.
- Report.RenderContext.BuildConclusion: requires at least one record. `mode()[0]` raises on an empty record set (report.py:343).
- Report.GenerateReport: requires at least one record. An empty list builds a DataFrame without a `type` column, and the analytics and evidence pages raise on it (report.py:214, 259). Report.RenderContext.BuildAnalyticsPage and Report.RenderContext.BuildEvidenceLog carry the same requirement for the same reason. The cover page does handle the empty case ("N/A"), and BuildCoverPage has no such requirement.
- Report.SiteMetaOf: a key present with a JSON null value is not represented; `None` stands only for a missing key. In the code `data.get(key, default)` then returns None (report.py:365-367), and `str(None)` or the None itself prints "None" in the header and on the cover cards (report.py:40-42, 73, 111-113, 146), where the model prints the defaults.
- Report.RenderContext.constructor: takes the three metadata strings directly. The defaults of report.py:40-42 are never used through `generate_report_from_json`, which always passes all three keys (report.py:364-368); that function's defaults are modelled in Report.SiteMetaOf.
- Fields of a record are kept as the text the report prints; a missing latitude, longitude or timestamp is not modelled: when no record has that field, `row.get` gives None and the caption prints "None", and when only some records lack it, pandas fills the gap with NaN and the caption prints "nan" (report.py:318-319). A record without an image link (NaN) makes `"drive.google.com" in url` raise outside the `try` (report.py:286) and aborts the build; the model gives every record a link. Every record is likewise assumed to carry a `type`. In the code a record without one has NaN there: `value_counts` and `mode()` skip it (report.py:97, 214, 343) and `df['type'] == category` never matches it (report.py:259), so it gets no table row and no evidence slot, while `len(df)` still counts it in "Total Violations" and in remark 1 (report.py:96, 342); if no record has a `type`, report.py:97 raises. The model's promises that the table counts sum to the number of records (Analytics.TallySum, Analytics.AnalyticsTable) hold only under this assumption.
- `canvas.save()` and the returned output path (report.py:378, 383) are not modelled: the document is the command stream.
- app.py, the Flask front end, is not part of this model.
