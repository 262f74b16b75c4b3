# Uncut playing-card sheet: deck, layout and export logic

This project models the logic inside `script.js` of a browser page that lays
out an uncut sheet of 54 playing cards (4 suits x 13 ranks, then 2 jokers),
lets the user customise colours, sizes, suit icons and face artwork, and
exports the sheet as two PNG images (front and back) in a 6 x 9 grid.

The model covers:

- **Card identities** (`cards.dfy`, module `Cards`): the suit table, the rank
  list and the deck. `BuildDeck` pushes the cards in the same nested loops as
  the page does and is proved equal to `Deck`, a definition by index
  arithmetic. Both are kept as the strings the page stores in each slot's
  `data-suit`/`data-rank`.
- **Pip templates** (`pips.dfy`, module `Pips`): the constant table of pip
  positions for ranks 2 to 10.
- **Style projection** (`style.dfy`, module `StyleProjection`): card width in
  pixels (`mm / 25.4 * dpi`) and the typography scale relative to a 63 mm card
  at 300 dpi, clamped to [0.3, 4]. Arithmetic is exact (`real`).
- **String primitives** (`jstext.dfy`, module `JsText`): `String.prototype.trim`
  and `parseInt(s, 10)` as ECMA-262 defines them (`parseInt` in section
  19.2.5, `trim` through the standard's white-space set). This covers the white-space set,
  the optional sign, the longest digit prefix, and NaN as `None`; a
  negative zero is read as 0 (see below).
- **Settings and input handlers** (`settings.dfy`, module `Settings`): the
  page's `state` record as a value, and every handler as a function from the
  old record to the new one. Card width and resolution are accepted only
  when they are numbers greater than zero. Margin and radius fall back to 0.
  The view becomes `"back"` only for the back tab. A handler that writes to a
  suit the record lacks throws before changing anything.
- **Card renderer** (`render.dfy`, `render_properties.dfy`): the content of
  one slot as an abstract `Face`. This holds the two corners and a `Center`,
  which is a frame (art, caption or empty), the ace symbol, the pip layout or
  the single-symbol fallback. The back view shows a pattern-only back.
- **Sheet controller and export** (`sheet.dfy`, class `SheetController.Sheet`):
  the slots, their rebuild from the current settings (`UpdateCards`), the
  dispatch of one input event, and the export. The export forces the grid
  layout, runs the front pass and then the back pass, and restores the view
  and the grid's inline style in the `finally` block. The sheet's scroll
  offsets are reset to 0 for the export and, as in the source, not restored.

The font-size and inset sliders store `parseFloat` of their value without
any check, NaN included (script.js:632-660). They are left out (see below).

## Model

| member | source | states |
|---|---|---|
| `JsText.Trim` | script.js:507 | the result is the text with a white-space prefix and a white-space suffix removed, and it is empty or starts and ends with a character that is not JavaScript white space |
| `JsText.ParseInt` | script.js:619 | `parseInt(s, 10)` is NaN exactly when no digit follows the leading white space and the optional sign; a negative result needs a leading minus |
| `JsText.ParseIntDecimal` | script.js:362 | `parseInt` reads back the decimal text of any natural number and ignores any non-digit text after it |
| `JsText.ParseIntNegated` | script.js:591 | a minus sign before any run of digits makes `parseInt` return the negated value of the run, whatever non-digit text follows |
| `JsText.LetterReadsNoNumber` | script.js:362 | text starting with a capital letter makes `parseInt` return NaN |
| `JsText.ParseIntSkipsSpace` | script.js:619 | leading white space never changes what `parseInt` returns |
| `Cards.SuitIds` | script.js:2-7 | the suit ids are hearts, diamonds, clubs and spades, in table order |
| `Cards.DeckCardAt` | script.js:141-151 | positions below 52 hold a standard suit with a standard rank; the last two hold the joker suit with a joker tag |
| `Cards.Deck` | script.js:139-151 | the deck has exactly 54 entries, slot i being suit i / 13 with rank i % 13, then `JOKER-1` and `JOKER-2` |
| `Cards.BuildDeck` | script.js:139-151 | the nested push loops build exactly `Deck`: suit-major, ranks in order, then both jokers |
| `Cards.PositionOf` | script.js:141-145 | suit s with rank r is slot s * 13 + r |
| `Cards.SuitIdsDistinct` | script.js:2-7 | the four suit ids are pairwise distinct and none is `joker` |
| `Cards.RanksDistinct` | script.js:9 | the thirteen rank texts are pairwise distinct |
| `Cards.StandardDistinct` | script.js:141-146 | two different (suit, rank) positions of the tables give two different cards |
| `Cards.DeckDistinct` | script.js:141-151 | no two of the 54 slots carry the same (suit, rank) identity |
| `Cards.DeckMembership` | script.js:139-151 | an identity is in the deck iff it is a standard suit with a standard rank, or the joker suit with a joker tag |
| `Pips.PipTemplate` | script.js:52-125 | a template exists exactly for ranks 2 to 10; the template for n has exactly n positions, each with x and y in 0..100 |
| `Pips.TemplatesHaveDistinctPositions` | script.js:52-125 | no two pips of one template share a position |
| `StyleProjection.WidthPx` | script.js:185-186 | pixels times 25.4 equal millimetres times dpi; a positive size gives a positive width |
| `StyleProjection.BaseWidthPx` | script.js:190-192 | the reference width is that of 63 mm at 300 dpi |
| `StyleProjection.RawScale` | script.js:193 | the raw scale times 63 * 300 equals millimetres times dpi |
| `StyleProjection.ClampScale` | script.js:194 | the result lies in [0.3, 4]; it equals the input inside that range, and 0.3 or 4 below or above it |
| `StyleProjection.CardScale` | script.js:186-195 | the written scale always lies in [0.3, 4] |
| `StyleProjection.ReferenceCardScale` | script.js:189-194 | 63 mm at 300 dpi has raw and clamped scale exactly 1 |
| `StyleProjection.DefaultCardScale` | script.js:36-37 | the start-up size, 63 mm at 72 dpi, has raw scale 0.24, clamped to 0.3 |
| `StyleProjection.ScaleMonotonic` | script.js:186-194 | a wider card or a higher dpi never lowers the raw or the clamped scale |
| `Settings.InitialWf` | script.js:11-48 | the start-up record has a positive size, the front view, and a colour and a face table for every suit and the jokers |
| `Settings.SetFont` | script.js:506-514 | only the font family changes; it becomes the trimmed custom text when that is non-empty, else the selected preset |
| `Settings.SetSuitColor` | script.js:544-550 | only the named suit's colour changes and its icon is kept; a suit the record lacks leaves it unchanged |
| `Settings.SetSuitIcon` | script.js:552-566 | only the suits map may change and it keeps its keys; the named suit keeps its colour and its icon becomes the uploaded data (the icon in use when that data is non-empty); every other suit is unchanged; a suit the record lacks leaves the record unchanged |
| `Settings.SetFaceArt` | script.js:568-583 | the art found for (suit, rank) becomes the upload, with the suit's table created if missing; every other (suit, rank) finds the same art as before |
| `Settings.IntOrZero` | script.js:591 | the logical-or fallback to 0 after `parseInt(text, 10)` gives the parsed integer, or 0 for NaN |
| `Settings.SetMargin` | script.js:589-594 | only the frame margin changes, to the parsed integer or 0 |
| `Settings.SetRadius` | script.js:596-601 | only the frame radius changes, to the parsed integer or 0 |
| `Settings.SetCardWidth` | script.js:607-615 | only the width may change; it is set to the parsed value iff `AcceptedWidth` holds (script.js:610: not NaN and greater than 0); the record stays well formed |
| `Settings.SetCardDpi` | script.js:617-625 | only the dpi may change, and it changes iff `parseInt` gives a number greater than 0; the record stays well formed |
| `Settings.DpiAcceptance` | script.js:619-620 | the dpi handler accepts the decimal text of n iff n > 0, never accepts a minus sign before digits, and never accepts text with no digit after the leading space |
| `Settings.SetView` | script.js:662-667 | only the view changes; it is always front or back, and back iff the tab's `data-view` is `"back"` |
| `Settings.Handle` | script.js:506-667 | every handler keeps the record well formed; a handler that does not re-render leaves the record unchanged, where `Rerenders` says which handlers reach `updateCards`: all except the throws at script.js:547 and 561 and the rejections at 610 and 620 |
| `Render.FindSuit` | script.js:283 | a row is found iff the table has one with that id, and it has that id |
| `Render.TemplateFor` | script.js:362-363 | a template is found iff `parseInt` reads the rank as a number from 2 to 10, and it has that many positions |
| `Render.RenderFront` | script.js:222-405 | a front is always rendered, its two corners are identical, and the corner caption is `JOKER` for jokers and the rank otherwise |
| `Render.RenderCard` | script.js:424-437 | a slot shows the back exactly when the view is `"back"` |
| `RenderProperties.JokerFront` | script.js:227-281 | a joker has the JOKER and star corners and a frame holding its stored art, with the JOKER caption exactly when there is no art |
| `RenderProperties.FaceCardFrame` | script.js:333-345 | J, Q and K show a frame without caption that holds art iff art is stored for that suit and rank |
| `RenderProperties.SuitFound` | script.js:283 | every standard suit id finds its table row |
| `RenderProperties.SuitRow` | script.js:283 | the suit id at each position of the table finds that position's row |
| `RenderProperties.FaceRankNotNumber` | script.js:286 | J, Q and K are not the ace, do not read as a number and find no pip template |
| `RenderProperties.TemplateCenter` | script.js:360-388 | a rank that finds a non-empty template shows one pip per position, drawn with the corner symbol |
| `RenderProperties.NumberRankText` | script.js:361-362 | the decimal text of n is no letter rank and `parseInt` reads n back from it |
| `RenderProperties.NumberCardPips` | script.js:360-388 | a card whose rank reads as n (2 to 10) shows exactly n pips, at the template's positions, inside 0..100, with the suit's symbol |
| `RenderProperties.FallbackCenter` | script.js:388-403 | a standard card that is neither a face nor the ace and finds no non-empty template shows one centre symbol, the corner symbol |
| `RenderProperties.CenterUsesCornerSymbol` | script.js:318-403 | the ace, pip and fallback centres draw the same symbol as the corners |
| `RenderProperties.IconReplacesGlyph` | script.js:318-403 | an uploaded suit icon replaces the text glyph in the top and bottom corners and in the ace, pip and fallback centres |
| `RenderProperties.TextGlyphWithoutIcon` | script.js:318-403 | without an icon the top and bottom corners and the ace, pip and fallback centres show the table's text symbol of the suit |
| `RenderProperties.NumberRanksAreDecimal` | script.js:9 | the number ranks of the list are the decimal texts of 2 to 10 |
| `RenderProperties.TableNumberRank` | script.js:9 | the ranks at positions 1 to 9 of the list are no letter ranks and read as 2 to 10 |
| `RenderProperties.RankKinds` | script.js:9 | by position the rank list holds the ace, then nine number ranks, then J, Q and K, each position of exactly one kind |
| `RenderProperties.AceCenter` | script.js:346-359 | an ace's centre is the suit's symbol, as the corners show it |
| `RenderProperties.CenterByKind` | script.js:333-404 | by rank kind the centre is the joker frame, the ace symbol, a frame without caption, or as many pips as the rank reads; never the single-symbol fallback |
| `RenderProperties.DeckNeverFallsBack` | script.js:141-151 | every card of the deck is renderable and never shows the single-symbol fallback |
| `RenderProperties.KingOfHeartsUpload` | script.js:576-579 | after an upload to hearts K, that card's frame holds the image and every other king renders as before |
| `SheetController.RenderAll` | script.js:419-438 | one face per slot, each the render of that slot under the same settings |
| `SheetController.ViewDecidesSide` | script.js:424-437 | in back view every slot shows only the back; otherwise every slot shows its front |
| `SheetController.ExportResult` | script.js:466-488 | an export completes iff both rasterizer passes succeed; otherwise it fails |
| `SheetController.ExportDownloads` | script.js:466-485 | a completed export downloads the front image (all fronts), then the back image (all backs), both 54 slots in six columns without gap; a failed pass downloads only what came before it |
| `SheetController.Sheet.constructor` | script.js:139-160 | one slot per deck card, the start-up settings, no inline grid style, and every slot rendered |
| `SheetController.Sheet.UpdateCards` | script.js:416-439 | the width and scale style values and every slot are rebuilt from the current settings |
| `SheetController.Sheet.Dispatch` | script.js:506-675 | the settings become the handler's result and every slot reflects them; an input for which `Rerenders` fails (a throw at script.js:547 or 561, a rejection at 610 or 620) changes nothing |
| `SheetController.Sheet.RunPasses` | script.js:466-485 | the front pass then the back pass produce `ExportResult`; only the view of the settings changes |
| `SheetController.Sheet.Export6x9` | script.js:443-498 | with no rasterizer or no sheet, nothing changes; otherwise the downloads are `ExportResult` and the view, slots and grid style equal their values before the export on every path |

## Left out

- DOM construction, class names, `alt` texts and the CSS custom-property writes (script.js:164-207) are not modelled, except the card width and the scale. A slot's content is the abstract `Face`. The colours, font family, margin and radius live in the settings record only.
- Rasterization (`html2canvas`), `canvas.toDataURL` and the anchor-click download (script.js:211-218, 471-485) are external. Each pass is a boolean input that says whether it succeeds. A download records its file name and a snapshot of the slots and grid style the rasterizer sees.
- `FileReader` (script.js:553-583) is asynchronous I/O. Only the write it performs once the file has been read is modelled (`SuitIconLoaded`, `FaceArtLoaded`). The early return when no file is chosen changes nothing.
- `alert` and `console.error` output and event-listener registration are UI plumbing. The export's outcome value says which notice the page shows.
- The font-size sliders and the centre-inset slider (script.js:632-660) store `parseFloat` unvalidated, NaN included, and NaN has no `real` counterpart.
- `parseFloat` is not modelled: the width handler receives its result, with `None` for NaN. Floating-point rounding, `Infinity` (which the width handler would accept) and integers beyond 2^53 are not modelled either.
- JsText.ParseInt: returns 0 where `parseInt` returns -0 (for `"-0"`, `"-00"` and the like), because integers have no negative zero. Every caller treats the two alike: `|| 0` maps both to 0 and `> 0` rejects both.
- Concurrency: an export is modelled as one atomic step. Other events cannot interleave with its two awaits, and a second export click during an export is not modelled.
- The startup check for a missing `#sheet` element (script.js:127-131) is a fatal start-up path. The constructor models a page where the element exists.
- Render.RenderFront: requires a suit of the table or the joker suit. For any other suit the source throws a TypeError on `suitDef.symbol`; every slot is a deck card, so the renderer never meets one.
