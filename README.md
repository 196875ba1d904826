# Timber pallet quote — a Dafny model

This project models the logic of a timber-pallet quoting tool written in
React. A customer describes a pallet in a form:

- its width and length;
- a top deck and a bottom deck, each with a timber type and board size, a
  board count and optional "leader" (edge) boards of another size;
- a bearer type, size and count.

The tool limits the counts to what fits, spaces the boards evenly and flush
with both edges, prices every part from an editable price table, and draws
the pallet three ways: a live 3D preview, a 3D model of a submitted quote,
and a printable sheet with plan, front and side views.

The model is split into modules that follow the program's files:

| module (file) | models |
|---|---|
| `Calculations` (calculations.dfy), `Rounding` (rounding.dfy) | `src/utils/calculations.js`: the gap, the line price, the four-way validation |
| `Catalog`, `FormInputs`, `Checks`, `Text`, `Wrappers` | the price table and its lookups, form inputs (`parseX(s) \|\| d`), early-return validation chains, `trim`, Option/Result |
| `OverlayLimits`, `OverlayState`, `LivePreview`, `LiveQuote`, `PriceMerge`, `Locks`, `Presets`, `Overlay` | `src/components/PalletBuilderOverlay.jsx`: count limits and auto-adjust, `livePreviewData`, `liveQuote`, the saved-price merge, locks, presets, and the component itself as the class `Overlay.PalletBuilderOverlay` |
| `PalletBuilding`, `QuoteForms`, `SubmitQuote` | `src/components/PalletBuilder.jsx` and `src/components/QuoteForm.jsx`: the submit-time validation chains and the quote they emit |
| `PriceEditing` | `src/components/PriceEditor.jsx`: the in-place edit of one price |
| `Pallet3DLive`, `Pallet3DModel`, `PrintableQuotes` | `src/components/Pallet3DLive.jsx`, `src/components/Pallet3D.jsx`, `src/components/PrintableQuote.jsx`: board, bearer and nail placement and the "WxT" size parsing |

## How the model is built

- **Numbers.** Millimetres and prices are `real`, counts are `int`.
  - `Math.round(x * 100) / 100` and `parseFloat(x.toFixed(2))` are one
    function, `Rounding.Round2(x) = Floor(x * 100 + 1/2) / 100`.
  - Floating-point artefacts are not modelled.
- **Form inputs.** A text input is `Field<T> = Blank | Entered(parsed)`.
  - `parsed` is `None` for text that does not parse.
  - `FormInputs.IntOr(f, d)` is `parseInt(s) || d`, so a parsed 0 also
    falls back to `d`.
- **Components with state are classes.**
  - Their fields are the state hooks and their methods are the handlers.
  - Each method's `modifies` clause names only the hooks that handler sets
    (field by field, as in ``modifies this`form``), in every component class.
- **React effects are explicit transitions.** In the overlay, writing
  new inputs (`Overlay.PalletBuilderOverlay.Edit`) applies
  `Overlay.Commit`, in two renders:
  - the commit of the write runs all eight effects, and each reads the
    written values. The five type effects (`Overlay.Settle`) clear the
    size of a changed type and reload its size list. The three count
    auto-adjust effects (`Overlay.AutoAdjustForm`) cap each count by the
    limit of the size written with it, before the type effect clears
    that size;
  - the next render has new limits, so the count effects run once more.

  `Overlay.Quiescent` says no effect has anything left to do. It is the
  class invariant `Valid()`, and every handler keeps it.
- **Derived values are functions** of the current state:
  `LivePreview.LivePreviewOf` and `LiveQuote.QuoteOf`.
- **Step-by-step code is a method proved against such a function:**
  - `liveQuote`'s running total: `LiveQuote.ComputeLiveQuote`;
  - the price merge's `forEach` loops: `PriceMerge.MergeSavedPrices`;
  - the preview's board loop: `Pallet3DLive.PlaceBoards`;
  - the lock loops: `Overlay.CollectFieldIds` and
    `Overlay.PalletBuilderOverlay.ToggleCategoryLock`.
- **Parameters replace the environment.**
  - `localStorage` contents, imported files, `confirm` answers and clock
    ids are parameters.
  - `onQuoteCalculated` is a field `emitted` that records every value
    handed out.

## Model

| member | source | states |
|---|---|---|
| Calculations.GapSize | src/utils/calculations.js:9-22 | 0 for fewer than two boards; otherwise within half a hundredth of the exact gap (width − boards) / (n − 1) |
| Calculations.TotalPrice | src/utils/calculations.js:30-33 | 0 when the price or the quantity is 0; otherwise within half a cent of price × quantity |
| Calculations.ValidateInputs | src/utils/calculations.js:42-79 | accepts exactly when the width and count are positive, the boards' total width is strictly below the width, and the gap is at least 5 mm |
| Calculations.ValidateIsFirstFailure | src/utils/calculations.js:42-79 | the reported rejection is the first failing test of width, count, fit, gap, in that order |
| Calculations.GapZeroForFewBoards | src/utils/calculations.js:12-17 | zero or one board gives a gap of 0 |
| Calculations.GapIsRounded | src/utils/calculations.js:9-22 | with two or more boards the gap is (width − boards) / (n − 1) rounded to hundredths |
| Calculations.GapFlushEdges | src/utils/calculations.js:2-21 | n boards and n − 1 gaps span the width to within 0.005·(n − 1) mm, so the boards are flush with both edges |
| Calculations.GapNotClamped | src/utils/calculations.js:10-21 | the gap is not clamped: it is 0 when the boards exactly fill the width, at most 0 when they overfill it, and negative exactly when the exact gap is below −0.005 |
| Calculations.GapMonotone | src/utils/calculations.js:9-22 | adding a board never widens the gap while a board fits the width |
| Calculations.RawGapDecreasing | src/utils/calculations.js:10-19 | before rounding, an extra board shrinks the gap, strictly when a board is narrower than the width |
| Calculations.TotalPriceZero | src/utils/calculations.js:30-33 | a line price is 0 when the price or the quantity is 0, and within half a cent of price × quantity |
| Calculations.ValidImplies | src/utils/calculations.js:59-78 | a valid layout has a positive width, at least two boards that fit, and a gap of at least 5 mm |
| Calculations.SingleBoardNeverValid | src/utils/calculations.js:15-17 | one board never validates; if it fits, the rejection is the gap test |
| Calculations.ValidationExamples | src/utils/calculations.js:42-79 | worked accept/reject cases at the fit and 5 mm boundaries, with their gaps |
| Rounding.Round2 | src/utils/calculations.js:21 | `Math.round(x * 100) / 100` lies within half a hundredth of x, rounding halves up |
| Rounding.Round2Close | src/utils/calculations.js:21 | rounding moves a value by at most half a hundredth |
| Rounding.Round2Monotone | src/utils/calculations.js:21 | rounding keeps the order of two values |
| Rounding.Round2Sign | src/utils/calculations.js:21 | a rounded value is negative, zero or positive exactly on the matching ranges of the input |
| Rounding.Round2Cents | src/utils/calculations.js:32 | a whole number of hundredths is unchanged |
| Rounding.Round2Idempotent | src/utils/calculations.js:21 | rounding twice is rounding once |
| Checks.FirstFailure | src/components/PalletBuilder.jsx:82-149 | a chain of early returns reports nothing exactly when every test passes |
| Checks.FirstFailureAt | src/components/PalletBuilder.jsx:82-149 | when test k fails and all tests before it pass, test k's message is reported |
| Checks.FirstFailureWitness | src/components/PalletBuilder.jsx:82-149 | a reported message comes from a failing test all of whose predecessors pass |
| Checks.FirstFailureAppend | src/components/PalletBuilder.jsx:82-149 | two chains run back to back report the first chain's failure, else the second's |
| Catalog.IdIndex | src/components/PriceEditor.jsx:22-28 | `findIndex` by id, shared by the type list and the size lists: −1 exactly when no entry has the id, else the first index with it |
| Catalog.FindType | src/components/PalletBuilderOverlay.jsx:306 | `find` on the type list: a result exactly when some type has the id, and it is a listed type with that id |
| Catalog.FindSize | src/components/PalletBuilderOverlay.jsx:307 | `find` on a size list: a result exactly when some size has the id, and it is a listed size with that id |
| Catalog.ResolveSize | src/components/PalletBuilderOverlay.jsx:547-564 | a resolved size belongs to the named list of a found type and carries the requested id |
| Catalog.NailPrice | src/components/PalletBuilderOverlay.jsx:647 | the stored nail price unless it is missing or 0, then 0.02; never 0 |
| FormInputs.Parsed | src/components/PalletBuilderOverlay.jsx:539-544 | an empty input parses to nothing; otherwise to the parse of its text |
| FormInputs.IntOr | src/components/PalletBuilderOverlay.jsx:542-544 | `parseInt(s) \|\| d`: the parsed number when it is non-zero, else `d` |
| FormInputs.RealOr | src/components/PalletBuilderOverlay.jsx:539-540 | `parseFloat(s) \|\| d`: the parsed number when it is non-zero, else `d` |
| OverlayLimits.SelectedDimension | src/components/PalletBuilderOverlay.jsx:304-325 | a non-zero board or bearer dimension comes only from a chosen type and size that resolve |
| OverlayLimits.MaxItemsAllowed | src/components/PalletBuilderOverlay.jsx:329-376 | for a non-negative item size the limit is −1 or lies in [2, 15], and a positive item that many times fits the span |
| OverlayLimits.AutoAdjusted | src/components/PalletBuilderOverlay.jsx:382-410 | the count is kept or set to the limit; it ends within a positive limit; the displayed count does not change |
| OverlayLimits.LimitBounds | src/components/PalletBuilderOverlay.jsx:329-376 | for a chosen size the limit is −1 exactly for a zero width or one narrower than two items; otherwise it lies in [2, 15], that many items fit, and below 15 one more would not |
| OverlayLimits.LimitForUI | src/components/PalletBuilderOverlay.jsx:357-379 | the selects offer the limit, or 15 when there is none |
| OverlayLimits.DisplayedCapped | src/components/PalletBuilderOverlay.jsx:413-421 | the displayed count is 0 when empty, never above a positive limit, min(entry or 1, limit) under a positive limit, the entry itself otherwise; an entry within the limit is shown as is |
| OverlayLimits.AutoAdjustSound | src/components/PalletBuilderOverlay.jsx:382-410 | after the effect a stored count is within a positive limit, running it again changes nothing, and it does not change the displayed count |
| OverlayState.CountsCapped | src/components/PalletBuilderOverlay.jsx:413-421 | the top, bottom and bearer counts read by the preview and the quote each respect their positive limit |
| LivePreview.SelectedDims | src/components/PalletBuilderOverlay.jsx:431-489 | a selection's dimensions are those of its resolved size from the type's list, else the fallback |
| LivePreview.ClampGap | src/components/PalletBuilderOverlay.jsx:532-533 | `Math.max(0, gap)`: non-negative, unchanged when non-negative, 0 otherwise |
| LivePreview.SelectedDimsPositive | src/components/PalletBuilderOverlay.jsx:431-489 | with a catalog of positive sizes, every selected dimension is positive |
| LivePreview.DeckDimsPassThrough | src/components/Pallet3DLive.jsx:142-165 | with positive sizes the 3D preview draws exactly the overlay's dimensions, scaled, and its count and leader flag |
| LivePreview.LivePreviewOf | src/components/PalletBuilderOverlay.jsx:422-535 | the preview is handed the capped counts, the parsed width and length (0 when missing), and gaps never below 0 |
| LivePreview.SceneMatchesCounts | src/components/Pallet3DLive.jsx:168-290 | a preview handed a quote's counts draws that many boards and bearers, and as many nails as the quote prices |
| LivePreview.PreviewMatchesQuote | src/components/PalletBuilderOverlay.jsx:423-716 | for every form, the live 3D preview draws the boards, bearers and nails that `liveQuote` prices |
| LivePreview.DrawnNails | src/components/Pallet3DLive.jsx:259-290 | the nails drawn for the drawn boards and bearers are the quote's nail count |
| LivePreview.MixedRowFlush | src/components/PalletBuilderOverlay.jsx:494-501 | a leader row spaced by its own mixed-width gap ends exactly at the pallet's right edge |
| LivePreview.PlainRowFlush | src/components/PalletBuilderOverlay.jsx:503-512 | a row without leaders spaced by the rounded gap ends within the rounding of the right edge |
| LivePreview.PlainDeckFlush | src/components/PalletBuilderOverlay.jsx:491-512 | an overlay deck without leaders, with a non-negative gap, is drawn flush with both edges up to rounding |
| LivePreview.CorrectionOnlyForTwoLeaders | src/components/PalletBuilderOverlay.jsx:494-501 | the corrected preview differs from the written one only for exactly two boards with leaders |
| LivePreview.CorrectedLeadersFlush | src/components/PalletBuilderOverlay.jsx:494-501 | with the corrected gap a leader deck whose boards fit ends exactly at the right edge, for every count of two or more |
| LivePreview.TwoLeadersOverhang | src/components/PalletBuilderOverlay.jsx:494-501 | as written, two 150 mm leaders on a 1000 mm pallet are spaced by the 100 mm board's gap and end 100 mm past the right edge; corrected, they end on it |
| LiveQuote.PriceDeck | src/components/PalletBuilderOverlay.jsx:585-610 | one deck's block computes that deck's quote and adds its two subtotals to the running total |
| LiveQuote.PriceHardware | src/components/PalletBuilderOverlay.jsx:641-657 | bearers are priced only with a size and a positive count; the nail count is 2 per board per bearer; nails are priced only when there are some; both are added to the running total |
| LiveQuote.QuoteWith | src/components/PalletBuilderOverlay.jsx:547-715 | the quote computed step by step equals the quote specification for the given width, length and counts |
| LiveQuote.ComputeLiveQuote | src/components/PalletBuilderOverlay.jsx:538-716 | `liveQuote` equals its specification; the total is the sum of the six subtotals; `hasAnyPrice` holds exactly when the total is positive |
| LiveQuote.QuoteDeck | src/components/PalletBuilderOverlay.jsx:579-638 | leaders and inner boards add up to the count; exactly two leaders, priced at the leader price, when leaders are on with a leader size and at least two boards, else none and no leader total; the board total prices the inner boards when the board size resolves, else 0; the gap is the mixed-width gap with two leaders, the evenly spaced gap without, and 0 without a positive width, a board or a count |
| LiveQuote.QuoteGapUnclamped | src/components/PalletBuilderOverlay.jsx:599-607 | quote gaps can be negative (three 100 mm boards on 200 mm give −50) and are 0 without a width |
| LiveQuote.NailCountFormula | src/components/PalletBuilderOverlay.jsx:647-653 | no nails without bearers; otherwise 2 × bearers × (top + bottom); never negative; positive with top boards and bearers |
| LiveQuote.QuoteOf | src/components/PalletBuilderOverlay.jsx:537-716 | the quote carries the capped counts and the nail count of those counts, and its total is the sum of the six subtotals |
| LiveQuote.TotalPriceNonNegative | src/utils/calculations.js:30-33 | a line price of a non-negative price and count is non-negative |
| LiveQuote.AnyPriceIffSomeSubtotal | src/components/PalletBuilderOverlay.jsx:714 | with non-negative prices, `hasAnyPrice` holds exactly when some subtotal is positive |
| LiveQuote.CompleteQuotePricesAll | src/components/PalletBuilderOverlay.jsx:661-666 | a complete quote has positive dimensions and counts, resolved boards and bearer, resolved leaders where enabled, and prices bearers and nails in full |
| Pallet3DLive.OrElse | src/components/Pallet3DLive.jsx:142-165 | `x \|\| d`: a missing or zero value falls back to the default |
| Pallet3DLive.Row | src/components/Pallet3DLive.jsx:168-186 | one board per loop pass (none for a count of 0 or less); the first starts at the left end and each next one a gap after the previous one ends |
| Pallet3DLive.PlaceBoards | src/components/Pallet3DLive.jsx:168-186 | the `currentX` loop produces exactly the row specification: one entry per board, each starting after the previous board and a gap |
| Pallet3DLive.LeaderFlags | src/components/Pallet3DLive.jsx:176-181 | with leaders exactly the first and the last board are leaders and have the leader width; otherwise none is |
| Pallet3DLive.PlainStart | src/components/Pallet3DLive.jsx:173-183 | without leaders board i starts i pitches (board plus gap) from the left end |
| Pallet3DLive.LeaderStart | src/components/Pallet3DLive.jsx:173-183 | with leaders board i ≥ 1 starts after one leader, i − 1 boards and i gaps |
| Pallet3DLive.RightEdgeClosedForm | src/components/Pallet3DLive.jsx:173-184 | the last board ends after n boards (two of them leaders when enabled) and n − 1 gaps |
| Pallet3DLive.BearerPositions | src/components/Pallet3DLive.jsx:209-220 | one bearer centre per bearer, none for a count of 0 |
| Pallet3DLive.BearersFlush | src/components/Pallet3DLive.jsx:209-220 | with two or more bearers the last one's far face is at half the depth |
| Pallet3DLive.PairRow | src/components/Pallet3DLive.jsx:259-290 | a board has two nails over each bearer |
| Pallet3DLive.NailsFor | src/components/Pallet3DLive.jsx:259-290 | a deck has two nails per board per bearer |
| Pallet3DLive.SceneOf | src/components/Pallet3DLive.jsx:168-290 | the preview draws the given top, bottom and bearer counts, and two nails per board per bearer in each deck |
| Pallet3DLive.SceneCounts | src/components/Pallet3DLive.jsx:168-290 | the preview draws exactly the given counts (none for 0 or less) and 2 × bearers × (top + bottom) nails |
| Pallet3DLive.HasComponentsExact | src/components/Pallet3DLive.jsx:222-224 | nothing but the outline is drawn exactly when no count is positive; a gap label on either deck needs at least two drawn boards and a gap over 0.1 mm |
| Pallet3DModel.Centres | src/components/Pallet3D.jsx:136-139 | one board centre per board |
| Pallet3DModel.NailPairs | src/components/Pallet3D.jsx:196-221 | a board has two nails over each bearer |
| Pallet3DModel.DeckNails | src/components/Pallet3D.jsx:195-250 | a deck has two nails per board per bearer |
| Pallet3DModel.Model | src/components/Pallet3D.jsx:299-300 | nothing is drawn exactly when there is no quote |
| Pallet3DModel.CentresMatchLiveRow | src/components/Pallet3D.jsx:136-139 | the index formula puts every board where the live preview's cumulative loop does |
| Pallet3DModel.LastBoardFlush | src/components/Pallet3D.jsx:136-139 | spaced by the quote's gap, the last board ends at the right edge up to rounding |
| Pallet3DModel.ModelMatchesQuote | src/components/Pallet3D.jsx:107-296 | the model of an emitted quote draws its counts, its priced nails, a gap label exactly with two or more boards, and flush bearers |
| PalletBuilding.Calculate | src/components/PalletBuilder.jsx:78-192 | an emitted quote carries the parsed width, length and counts, has bearers, and both decks pass `validateInputs` |
| PalletBuilding.CalculateIsFirstFailure | src/components/PalletBuilder.jsx:78-192 | `handleCalculate` rejects exactly when one of its eleven tests fails, with the first failing test's message |
| PalletBuilding.SelectionOutcome | src/components/PalletBuilder.jsx:83-105 | the selection tests run in the order board type, bearer type, board size, bearer size |
| PalletBuilding.InputOutcome | src/components/PalletBuilder.jsx:107-136 | the number tests run in the order width, length, top, bottom, bearers |
| PalletBuilding.EmittedQuoteSound | src/components/PalletBuilder.jsx:139-189 | an emitted quote carries the entered positive inputs; both gaps are at least 5 mm; the nail count and the total are the sums the handler computes; the nail price is the table's |
| PalletBuilding.BuilderPreviewDefaults | src/components/PalletBuilder.jsx:47-64 | an empty form previews 1200 × 1000 with a 100 mm board and no boards; a gap appears only with two or more boards and is the evenly spaced gap |
| PalletBuilding.BuilderPreviewShortRow | src/components/PalletBuilder.jsx:47-76 | as written, five 150 mm boards on a 1000 mm pallet are drawn 100 mm wide and the row ends short of the right edge |
| PalletBuilding.CorrectedBuilderPreviewFlush | src/components/PalletBuilder.jsx:47-76 | handed the chosen board width, the top row is drawn flush up to rounding |
| PalletBuilding.PalletBuilder.constructor | src/components/PalletBuilder.jsx:9-22 | all inputs and the error start empty, with empty size lists |
| PalletBuilding.PalletBuilder.SelectBoardType | src/components/PalletBuilder.jsx:25-34 | a new non-empty type clears the board size and loads that type's board sizes; an empty type empties the list; nothing else changes |
| PalletBuilding.PalletBuilder.SelectBearerType | src/components/PalletBuilder.jsx:36-45 | the same rule for the bearer type and list |
| PalletBuilding.PalletBuilder.Input | src/components/PalletBuilder.jsx:220-340 | the inputs take the entered values; a changed non-empty board or bearer type clears its size and loads its list; the error and emitted quotes are unchanged |
| PalletBuilding.FillAndCalculate | src/components/PalletBuilder.jsx:78-340 | entering an accepted form into a new builder and pressing Calculate emits exactly that form's quote and no error |
| PalletBuilding.PalletBuilder.HandleCalculate | src/components/PalletBuilder.jsx:78-192 | a rejection sets its message and emits nothing; otherwise the error is cleared and the assembled quote is emitted; the inputs are kept |
| PalletBuilding.PalletBuilder.HandleClear | src/components/PalletBuilder.jsx:194-206 | all nine inputs and the error are emptied and `null` is emitted |
| QuoteForms.SameAcceptance | src/components/QuoteForm.jsx:33-140 | the form accepts exactly what the builder accepts with the same type for boards and bearers, and emits the same quote |
| QuoteForms.OrderDiffers | src/components/QuoteForm.jsx:38-85 | the form tests counts before dimensions, so with both bad it reports the top count where the builder reports the width |
| QuoteForms.CalculateForm | src/components/QuoteForm.jsx:33-140 | an emitted quote carries the parsed width, length and counts, has bearers, and both decks pass `validateInputs` |
| QuoteForms.CalculateFormIsFirstFailure | src/components/QuoteForm.jsx:33-140 | the form rejects exactly when one of its ten tests fails, with the first failing test's message |
| QuoteForms.FormSelectionOutcome | src/components/QuoteForm.jsx:37-54 | the selection tests run in the order timber type, board size, bearer size, each with its own message |
| QuoteForms.FormInputOutcome | src/components/QuoteForm.jsx:56-85 | the number tests run in the order top, bottom, bearers, width, length, each with its own message |
| QuoteForms.QuoteForm.constructor | src/components/QuoteForm.jsx:7-17 | all inputs and the error start empty, with empty size lists |
| QuoteForms.QuoteForm.SelectType | src/components/QuoteForm.jsx:20-31 | a new non-empty type clears both sizes and loads both lists; an empty type empties both lists |
| QuoteForms.QuoteForm.Input | src/components/QuoteForm.jsx:160-280 | the inputs take the entered values; a changed non-empty type clears both sizes and loads both lists; the error and emitted quotes are unchanged |
| QuoteForms.FillAndCalculate | src/components/QuoteForm.jsx:33-280 | entering an accepted form into a new form and pressing Calculate emits exactly that form's quote and no error |
| QuoteForms.QuoteForm.HandleCalculate | src/components/QuoteForm.jsx:33-140 | a rejection sets its message and emits nothing; otherwise the error is cleared and the quote is emitted |
| QuoteForms.QuoteForm.HandleReset | src/components/QuoteForm.jsx:142-153 | every input and the error are emptied and `null` is emitted |
| SubmitQuote.Assemble | src/components/PalletBuilder.jsx:152-189 | the quote carries the counts, its total is the sum of its four lines, and with non-negative deck counts it has 2 × bearers × (top + bottom) nails |
| SubmitQuote.AssembledQuote | src/components/PalletBuilder.jsx:152-189 | from two valid decks the emitted quote has gaps of at least 5 mm, 2 × bearers × (top + bottom) nails, each subtotal the line price of its part, and the total their sum |
| SubmitQuote.FitOutcome | src/components/PalletBuilder.jsx:139-149 | the fit tests report `validateInputs`' message behind "Top boards: ", then "Bottom boards: " |
| PriceMerge.FindSavedType | src/components/PalletBuilderOverlay.jsx:91 | the stored type found has the id; none is found only when no stored type has it |
| PriceMerge.SavedPrice | src/components/PalletBuilderOverlay.jsx:94-95 | a stored price comes from a stored size with the same id |
| PriceMerge.Merged | src/components/PalletBuilderOverlay.jsx:79-115 | nothing stored keeps the table; the merge keeps every type's place, id and name, and the nail price when none is stored |
| PriceMerge.MergeSizes | src/components/PalletBuilderOverlay.jsx:93-104 | the inner `forEach` produces exactly the merged size list |
| PriceMerge.MergeSavedPrices | src/components/PalletBuilderOverlay.jsx:79-115 | the whole merge loop produces exactly the merged table |
| PriceMerge.MergeKeepsStructure | src/components/PalletBuilderOverlay.jsx:89-106 | the merge keeps the types, their order, ids, names and every size except its price |
| PriceMerge.MergedPrice | src/components/PalletBuilderOverlay.jsx:90-104 | a size's merged price is the stored price for the same type and size id, else the bundled one |
| PriceMerge.MergeIdempotent | src/components/PalletBuilderOverlay.jsx:79-124 | merging the same stored table twice is merging it once |
| PriceEditing.KindOf | src/components/PriceEditor.jsx:24-29 | `'board'` selects the board list and any other value the bearer list |
| PriceEditing.Edited | src/components/PriceEditor.jsx:20-33 | the edit keeps every type id in its place and the nail price |
| PriceEditing.EditedLookup | src/components/PriceEditor.jsx:20-33 | after an edit, the size is found again with the new price and nothing else of it changed |
| PriceEditing.EditChangesOnlyTarget | src/components/PriceEditor.jsx:20-33 | every other size of every list, every type's id and name, and the nail price are unchanged |
| PriceEditing.PriceEditor.constructor | src/components/PriceEditor.jsx:2-6 | the table starts with no types and no nail price, the imported table is as shipped, and the two share nothing |
| PriceEditing.PriceEditor.Load | src/components/PriceEditor.jsx:10-18 | a stored table replaces the defaults wholesale and shares nothing; without one the imported table object itself is in state, sharing its list of types |
| PriceEditing.PriceEditor.HandlePriceChange | src/components/PriceEditor.jsx:20-33 | the table becomes the one-price edit, and the edited size reads back the parsed price, or 0; while the list of types is shared, the imported table receives the same edit |
| PriceEditing.PriceEditor.HandleNailChange | src/components/PriceEditor.jsx:102-106 | the nail price becomes the parsed value, or 0, nothing else changes, and the shallow copy keeps sharing the list of types |
| PriceEditing.PriceEditor.HandleReset | src/components/PriceEditor.jsx:49-56 | only when the user confirms, the imported table object, with every edit that reached it, is put back into state and shared again |
| PriceEditing.PriceEditor.HandlePriceChangeCopying | src/components/PriceEditor.jsx:20-33 | the intended edit: the same one-price edit written into a copy, so nothing is shared afterwards |
| PriceEditing.EditThenReset | src/components/PriceEditor.jsx:10-56 | load with nothing stored, edit one price, confirm the reset: the table in state still has the edited price |
| PriceEditing.ResetKeepsEdit | src/components/PriceEditor.jsx:10-56 | whenever the entered price differs from the shipped one, the table after that reset is not the shipped table |
| PriceEditing.EditThenResetCopying | src/components/PriceEditor.jsx:49-56 | with the edit written into a copy, the same sequence ends with exactly the shipped table |
| PriceEditing.ZeroNailShownAsDefault | src/components/PriceEditor.jsx:102-106 | an empty or zero nail entry stores 0 but the input then shows, and the quote uses, 0.02 |
| Locks.SizeFieldIds | src/components/PalletBuilderOverlay.jsx:119-120 | one field id per size, in list order, built from the type, the list and the size id |
| Locks.CategoryFieldIds | src/components/PalletBuilderOverlay.jsx:754-763 | the hardware category is the nail field; an unknown type has no ids; a type has one id per board and bearer size |
| Locks.Toggled | src/components/PalletBuilderOverlay.jsx:743-751 | exactly the toggled id changes state |
| Locks.ToggleTwice | src/components/PalletBuilderOverlay.jsx:743-751 | toggling an id twice restores the set |
| Locks.CategoryToggled | src/components/PalletBuilderOverlay.jsx:766-786 | a fully locked category loses all its ids, any other gains all of them, and no id outside the category changes |
| Locks.CategoryToggleFlips | src/components/PalletBuilderOverlay.jsx:766-786 | toggling a category with ids flips whether it is locked, leaves other ids alone, and a locked category toggled twice is restored |
| Locks.TypeIdsCollected | src/components/PalletBuilderOverlay.jsx:117-121 | every size id of every type is among the mount effect's ids |
| Locks.MountLocksEveryCategory | src/components/PalletBuilderOverlay.jsx:116-123 | after the mount effect every category with ids is locked |
| Presets.Or | src/components/PalletBuilderOverlay.jsx:172-193 | `a \|\| b` on strings: `a` unless it is empty |
| Presets.LoadedForm | src/components/PalletBuilderOverlay.jsx:172-193 | every input is the preset's except the decks' board types and sizes, which fall back to the older format's; without those, the preset's form exactly |
| Presets.SaveLoadRoundTrip | src/components/PalletBuilderOverlay.jsx:139-193 | the values `loadPreset` writes are exactly the form the preset was saved from |
| Presets.LegacyPresetFillsBothDecks | src/components/PalletBuilderOverlay.jsx:176-179 | an older preset's single board type and size go to both decks; the other inputs are the preset's |
| Presets.Without | src/components/PalletBuilderOverlay.jsx:196-200 | the presets kept are exactly those with another id |
| Presets.DeleteProperties | src/components/PalletBuilderOverlay.jsx:196-200 | deleting an absent id changes nothing, deleting twice is deleting once, and the kept presets keep their order |
| Presets.NotYetSaved | src/components/PalletBuilderOverlay.jsx:232-233 | the imported presets kept are exactly those whose name is not yet saved |
| Presets.Renamed | src/components/PalletBuilderOverlay.jsx:234 | each added preset keeps its contents under a fresh id |
| Presets.Imported | src/components/PalletBuilderOverlay.jsx:222-249 | the saved presets stay in front, and at most one preset is added per imported one |
| Presets.ImportProperties | src/components/PalletBuilderOverlay.jsx:222-249 | importing keeps the saved presets in front, adds only new names, adds every preset with a new name, and adds nothing when all names exist |
| Overlay.ListFor | src/components/PalletBuilderOverlay.jsx:251-300 | a type effect loads nothing for no type or an unknown type, else that type's list |
| Overlay.Settle | src/components/PalletBuilderOverlay.jsx:251-300 | the type effects change only sizes, and each size is kept or cleared |
| Overlay.AutoAdjustForm | src/components/PalletBuilderOverlay.jsx:382-410 | the count effects change only the three counts, and each ends within its positive limit |
| Overlay.Commit | src/components/PalletBuilderOverlay.jsx:251-410 | the effects of a write keep every input but the sizes and counts: dimensions, types and leader switches stay as written |
| Overlay.SettleEffect | src/components/PalletBuilderOverlay.jsx:251-300 | the type effects keep every type, clear a size exactly when its type changed to a non-empty one, reload the lists for the new types, and change nothing else |
| Overlay.SettleSlot | src/components/PalletBuilderOverlay.jsx:251-300 | per selection: the type is kept and the size follows the clear-on-change rule |
| Overlay.SettleLists | src/components/PalletBuilderOverlay.jsx:251-300 | the reloaded lists are those the new types call for |
| Overlay.SettledListFor | src/components/PalletBuilderOverlay.jsx:251-300 | one selection's list after its effect is the one its type calls for |
| Overlay.SettleUnchangedTypes | src/components/PalletBuilderOverlay.jsx:251-300 | with no type changed the type effects change nothing |
| Overlay.AutoAdjustKeepsQuote | src/components/PalletBuilderOverlay.jsx:382-421 | the auto-adjust effects change neither the displayed counts nor the quote |
| Overlay.QuoteIgnoresStoredCounts | src/components/PalletBuilderOverlay.jsx:538-716 | the quote reads the selections, never the stored counts |
| Overlay.CommitQuiescent | src/components/PalletBuilderOverlay.jsx:251-410 | after the effects run, none has anything left to do |
| Overlay.AutoAdjustIdempotent | src/components/PalletBuilderOverlay.jsx:382-410 | the auto-adjust effects are idempotent, keep the types and lists, and leave every count within its positive limit |
| Overlay.QuiescentIsFixpoint | src/components/PalletBuilderOverlay.jsx:251-410 | running the effects on a settled state changes nothing |
| Overlay.ClearCommit | src/components/PalletBuilderOverlay.jsx:718-741 | writing the empty form empties every selection and every list |
| Overlay.EmptyQuiescent | src/components/PalletBuilderOverlay.jsx:718-741 | the empty form with no lists leaves every effect nothing to do |
| Overlay.LoadCapsCountBeforeSizeClears | src/components/PalletBuilderOverlay.jsx:172-193 | loading a 1000 mm preset with 15 pine boards of 100 mm onto the empty form ends with 10 boards and no board size: the count effect caps by the written size before the type effect clears it |
| Overlay.ClearedQuiescent | src/components/PalletBuilderOverlay.jsx:718-741 | the cleared state has no effect pending |
| Overlay.CollectFieldIds | src/components/PalletBuilderOverlay.jsx:117-122 | the mount loop collects every type's board then bearer field ids, then the nail field |
| Overlay.FindPreset | src/components/PalletBuilderOverlay.jsx:879-882 | the preset found has the id; none only when no preset has it |
| Overlay.PalletBuilderOverlay.constructor | src/components/PalletBuilderOverlay.jsx:33-70 | the initial hook values: an empty form and lists, no prices, locks or presets, no error or quantity |
| Overlay.PalletBuilderOverlay.Mount | src/components/PalletBuilderOverlay.jsx:79-136 | the prices become the merge of the bundled table with the stored one, every field is locked, and stored presets are loaded |
| Overlay.PalletBuilderOverlay.Edit | src/components/PalletBuilderOverlay.jsx:251-410 | the form becomes the written values after the type and count effects of the write and the count effects of the next render, and the lists follow the types |
| Overlay.PalletBuilderOverlay.HandleClear | src/components/PalletBuilderOverlay.jsx:718-741 | the form, lists, error and quantity are emptied and `null` is emitted |
| Overlay.PalletBuilderOverlay.ToggleLock | src/components/PalletBuilderOverlay.jsx:743-751 | exactly the given id changes lock state |
| Overlay.PalletBuilderOverlay.ToggleCategoryLock | src/components/PalletBuilderOverlay.jsx:772-786 | the loop unlocks a fully locked category and otherwise locks all of its ids |
| Overlay.PalletBuilderOverlay.HandlePriceChange | src/components/PalletBuilderOverlay.jsx:798-811 | one price becomes the parsed input, or 0, and reads back so |
| Overlay.PalletBuilderOverlay.HandleNailChange | src/components/PalletBuilderOverlay.jsx:1437-1441 | the nail price becomes the parsed input, or 0, and the quote then uses it, or 0.02 for 0 |
| Overlay.PalletBuilderOverlay.SavePreset | src/components/PalletBuilderOverlay.jsx:139-169 | nothing for a blank name; otherwise the form is appended under the trimmed name and the name is emptied |
| Overlay.PalletBuilderOverlay.SetPresetName | src/components/PalletBuilderOverlay.jsx:1209-1210 | the preset-name input stores what is typed |
| Overlay.PalletBuilderOverlay.PalletCount | src/components/PalletBuilderOverlay.jsx:1316-1317 | `parseInt(palletQuantity) \|\| 1`: never 0, and a parsed non-zero quantity as entered |
| Overlay.PalletBuilderOverlay.SetQuantity | src/components/PalletBuilderOverlay.jsx:1304-1305 | the quote panel's quantity input stores what is entered |
| Overlay.PalletBuilderOverlay.QuantityBlur | src/components/PalletBuilderOverlay.jsx:1306-1309 | leaving the input, a quantity that does not parse to at least 1 becomes 1; the pallet count is then at least 1 |
| Overlay.PalletBuilderOverlay.HandleQuantityInput | src/components/PalletBuilderOverlay.jsx:1473-1478 | the header's quantity input accepts only an empty entry or digits, read as their value; other text leaves it unchanged |
| Overlay.PalletBuilderOverlay.LiveQuantityBlur | src/components/PalletBuilderOverlay.jsx:1479-1483 | leaving the header input, an empty entry or one below 1 becomes 1; unparsable text is kept; the pallet count is then at least 1 |
| Overlay.PalletBuilderOverlay.LoadPreset | src/components/PalletBuilderOverlay.jsx:172-193 | the preset's values are written and the effects then run on them, counts capped by the sizes written with them |
| Overlay.PalletBuilderOverlay.SelectSavedPreset | src/components/PalletBuilderOverlay.jsx:876-882 | an unknown id changes nothing; a known one loads the first preset with it |
| Overlay.PalletBuilderOverlay.DeletePreset | src/components/PalletBuilderOverlay.jsx:196-200 | the presets kept are exactly those with another id, in order |
| Overlay.PalletBuilderOverlay.ImportPresets | src/components/PalletBuilderOverlay.jsx:222-249 | an unreadable file changes nothing; presets with new names are appended under fresh ids; imported prices replace the table |
| Overlay.PalletBuilderOverlay.Quote | src/components/PalletBuilderOverlay.jsx:538-716 | the live quote's total is the sum of its six subtotals |
| Overlay.PresetLoadLosesSizes | src/components/PalletBuilderOverlay.jsx:172-193 | as written, loading a preset with a board type and size from the empty form ends with the size cleared |
| Overlay.CorrectedLoadRoundTrip | src/components/PalletBuilderOverlay.jsx:172-193 | loading, as intended, a preset saved from a settled form restores that form and its lists, with no effect pending |
| PrintableQuotes.Split | src/components/PrintableQuote.jsx:33-36 | `split` gives at least one piece and no piece contains the separator |
| PrintableQuotes.SplitJoin | src/components/PrintableQuote.jsx:33-36 | joining the pieces with the separator gives the string back |
| PrintableQuotes.SplitAtFirst | src/components/PrintableQuote.jsx:33-36 | the text before the first separator is the first piece |
| PrintableQuotes.DigitRun | src/components/PrintableQuote.jsx:33-36 | the leading run of digits is maximal |
| PrintableQuotes.ShowValue | src/components/PrintableQuote.jsx:33-36 | reading a numeral gives its number back |
| PrintableQuotes.ParseNumeral | src/components/PrintableQuote.jsx:33-36 | `parseInt` of a numeral followed by a non-digit is the number |
| PrintableQuotes.ParseUnsigned | src/components/PrintableQuote.jsx:33-36 | text starting with a digit parses to the value of its digit run |
| PrintableQuotes.OrDefault | src/components/PrintableQuote.jsx:33-36 | `n \|\| d`: the default exactly for NaN, 0 or `d` itself; otherwise the parsed number |
| PrintableQuotes.DimsOf | src/components/PrintableQuote.jsx:33-36 | an explicit board width wins; missing sizes give 100 × 19 boards and 100 × 38 bearers |
| PrintableQuotes.SizeStringPieces | src/components/PrintableQuote.jsx:33-36 | a size written "WxT" plus a unit reads back as W and T |
| PrintableQuotes.DimsFromSizeStrings | src/components/PrintableQuote.jsx:33-36 | with "WxT" sizes and no board width, the sheet uses W and T, each 0 replaced by its default |
| PrintableQuotes.NoSeparatorThickness | src/components/PrintableQuote.jsx:34 | a size string without 'x' gives the default thickness 19 |
| PrintableQuotes.PlanBoards | src/components/PrintableQuote.jsx:93-96 | one plan-view board per board |
| PrintableQuotes.PlanBearers | src/components/PrintableQuote.jsx:112-122 | one plan-view bearer per bearer |
| PrintableQuotes.FrontBearers | src/components/PrintableQuote.jsx:212-222 | one front-view bearer per bearer |
| PrintableQuotes.SideRow | src/components/PrintableQuote.jsx:272-279 | the side row is undefined exactly for a zero width (division by it), else one board end per board |
| PrintableQuotes.Print | src/components/PrintableQuote.jsx:4-45 | no sheet without a quote; the grand total is the total for quantity 1; plan and front views draw the given counts |
| PrintableQuotes.PrintedHeight | src/components/PrintableQuote.jsx:39 | the height is two board thicknesses and a bearer's standing width, read from the size strings |
| PrintableQuotes.PlanBearersMatchScene | src/components/PrintableQuote.jsx:112-122 | plan bearers are the 3D preview's bearers moved to the margin, and the last ends at the length |
| PrintableQuotes.FrontBearersSpread | src/components/PrintableQuote.jsx:212-222 | one bearer is centred; several start at the margin and end at the width |
| PrintableQuotes.SideRowCentred | src/components/PrintableQuote.jsx:272-279 | the side row has equal margins at both ends |
| PrintableQuotes.SideRowFills | src/components/PrintableQuote.jsx:272-279 | a deck that exactly fills the width is drawn from margin to margin |
| PrintableQuotes.FromQuoteData | src/components/PrintableQuote.jsx:7-28 | a submitted quote's board width is the one the sheet draws |
| PrintableQuotes.FromLiveQuote | src/components/PrintableQuote.jsx:7-36 | the live quote, which has no `boardWidth` or `boardSize`, is drawn with 100 × 19 boards |
| PrintableQuotes.FromLiveQuoteCorrected | src/components/PrintableQuote.jsx:33 | read with its top board width, the live quote's boards are drawn at that width |
| PrintableQuotes.LiveDeckGap | src/components/PalletBuilderOverlay.jsx:613-638 | a live deck without two priced leaders is spaced by `calculateGapSize` |
| PrintableQuotes.PlanRowFlush | src/components/PrintableQuote.jsx:93-96 | a plan row with its own width and gap ends at the width up to rounding |
| PrintableQuotes.SubmittedPlanFlush | src/components/PrintableQuote.jsx:93-96 | a submitted quote's top deck is drawn flush across the plan view |
| PrintableQuotes.LivePlanShortRow | src/components/PrintableQuote.jsx:33 | as written, five 150 mm live boards on 1000 mm are drawn ending at 790 instead of 1040 |
| PrintableQuotes.CorrectedLivePlanFlush | src/components/PrintableQuote.jsx:33 | read with its top board width, a plain live top deck is drawn flush |
| Text.TrimStart | src/components/PalletBuilderOverlay.jsx:140 | the suffix after the leading white space, starting with a non-space |
| Text.TrimEnd | src/components/PalletBuilderOverlay.jsx:140 | the prefix before the trailing white space, ending with a non-space |
| Text.TrimmedShape | src/components/PalletBuilderOverlay.jsx:140-144 | a trimmed name sits inside the original, has no space at either end, and is empty exactly for an all-space name |
| Text.TrimIdempotent | src/components/PalletBuilderOverlay.jsx:144 | trimming twice is trimming once |

## Left out

- `localStorage`, `FileReader`, `Blob` export, `alert`, `confirm` and `setTimeout` are I/O. Stored and imported JSON, a confirmation and a clock-based id are parameters. `exportPresets`, `handleSavePrices` and the editor's `handleSave` and `handleExport` only write out, so they are not modelled.
- `Date.now()` and `Math.random()` preset ids are nondeterministic. They are the `id` and `idFor` parameters.
- IEEE-754 arithmetic is replaced by reals with `Round2`.
- `toFixed` strings, `formatCurrency` and `formatDimension` (src/utils/calculations.js:86-97) are presentation.
- All rendering is presentation: JSX, SVG text, three.js meshes, `DimensionLine` geometry, the `useFrame` rotation, dark mode, tabs, panel collapse, modals, `toggleGroup`.
- A locked price field only disables its input. The handlers do not check locks, so neither do the modelled handlers.
- React scheduling: intermediate renders between a write and its effects are not modelled. A write and the effects it triggers are one transition, `Overlay.Commit`.
- `parseInt`/`parseFloat` in the forms are taken as already parsed (`Field<T>`). Only the sheet's "WxT" leading-digit parse is modelled. Hexadecimal prefixes and Unicode white space are not.
- src/data/timber-prices.json is not part of this model. The catalog is a parameter.
- The shallow copies in the overlay's `handlePriceChange` write into nested arrays that earlier React states share. The overlay's table starts as a deep copy and earlier states are never read again, so the model replaces it as a value. In the price editor the sharing with the imported table is modelled (`PriceEditing.PriceEditor.sharesBundled`).
- PriceEditing.PriceEditor.Load: the imported table is one object for the whole page. An edit that reaches it would also reach a later overlay mount, which copies it. The overlay takes its catalog as a constant, so this cross-component effect is not modelled.
- PriceMerge.Merged: a stored table that parses but has another shape is not modelled. For example, a type whose `boardSizes` is not an array makes the loop throw part-way. The catch then keeps whatever was merged before the throw.
- PriceEditing.PriceEditor.HandlePriceChange and Overlay.PalletBuilderOverlay.HandlePriceChange require the type and size to exist. `findIndex` returns −1 otherwise, and indexing with it throws.
- Overlay.PalletBuilderOverlay.Quote: its ensures states only the total. The quote's other properties are lemmas about `LiveQuote.QuoteOf`.
- `PalletBuilder` and `QuoteForm` are modelled although App.jsx mounts only the overlay.
- `Results.jsx`, `LockIcon.jsx`, `Header.jsx` and `App.jsx` contain no computation.

## Findings

| source | as written | input that shows it | evidently intended | confidence | as-written member | corrected member |
|---|---|---|---|---|---|---|
| src/components/PalletBuilderOverlay.jsx:494-501 | The preview uses the mixed-width gap only for `topBoards > 2`, yet the 3D preview draws the first and last boards at leader width whenever leaders are on. | 1000 mm pallet, 2 boards, 150 mm leaders, 100 mm board: gap 800 mm, far edge at 6.0 scene units instead of 5.0 | the mixed-width gap for two or more boards, as `liveQuote` uses at line 586 | high; not executed | LivePreview.TwoLeadersOverhang | LivePreview.CorrectedLeadersFlush |
| src/components/PalletBuilder.jsx:47-76 | The preview object has only `boardWidth`, but Pallet3DLive reads `topBoardWidth`/`bottomBoardWidth` and falls back to 100 mm. | five 150 mm boards on 1000 mm: 62.5 mm gaps, boards drawn 100 mm wide, row ends at 2.5 instead of 5.0 | the chosen board width under the keys the preview reads | medium (the builder is not mounted by App.jsx); not executed | PalletBuilding.BuilderPreviewShortRow | PalletBuilding.CorrectedBuilderPreviewFlush |
| src/components/PalletBuilderOverlay.jsx:172-193 | `loadPreset` writes each type with its size; the type effects (251-300) then see a changed type and clear the size. | from the empty form, load a preset saved with top board type "pine" and size "b100": the top size ends as "" | the preset's sizes survive the load | medium; not executed | Overlay.PresetLoadLosesSizes | Overlay.CorrectedLoadRoundTrip |
| src/components/PalletBuilderOverlay.jsx:1552 | The overlay passes `liveQuote` to PrintableQuote, which reads `boardWidth`/`boardSize` (PrintableQuote.jsx:33-34); `liveQuote` has neither, so boards are drawn 100 × 19. | five 150 mm boards on 1000 mm: gap 62.5, plan row ends at 790 instead of 1040 | the sheet reads the live quote's `topBoardWidth` | high; not executed | PrintableQuotes.LivePlanShortRow | PrintableQuotes.CorrectedLivePlanFlush |
| src/components/PriceEditor.jsx:14-17, 20-30, 49-52 | With nothing stored, the load puts the imported `timberData` object into state; `handlePriceChange` copies only the top level and writes the price into the type list that object shares; `handleReset` then puts that same, edited object back. | nothing stored, change any price from its shipped value, confirm "reset all prices to default": the changed price stays | the reset brings back the shipped prices, for example by editing a copy | high; not executed | PriceEditing.ResetKeepsEdit | PriceEditing.EditThenResetCopying |
