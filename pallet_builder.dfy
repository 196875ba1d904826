/** The two-type quote builder (src/components/PalletBuilder.jsx): one board
    size for both decks and a separately typed bearer, a live preview with
    fixed defaults, and a submit handler that runs eleven checks in order
    before it emits a quote. */
module PalletBuilding {
  import opened Wrappers
  import opened Rounding
  import opened Checks
  import opened Catalog
  import opened FormInputs
  import opened Calculations
  import opened SubmitQuote
  import opened Pallet3DLive
  import LivePreview

  /** The builder's nine inputs. */
  datatype BuilderForm = BuilderForm(
    palletWidth: Field<real>, palletLength: Field<real>,
    boardType: string, boardSize: string, top: Field<int>, bottom: Field<int>,
    bearerType: string, bearerSize: string, bearers: Field<int>)

  const EmptyBuilderForm: BuilderForm := BuilderForm(Blank, Blank, "", "", Blank, Blank, "", "", Blank)

  const NoBoardTypeMessage: string := "Please select a timber type for boards"
  const NoBearerTypeMessage: string := "Please select a timber type for bearers"
  const NoBoardSizeMessage: string := "Please select a board size"
  const NoBearerSizeMessage: string := "Please select a bearer size"
  const BadWidthMessage: string := "Please enter a valid pallet width"
  const BadLengthMessage: string := "Please enter a valid pallet length"
  const BadTopMessage: string := "Please enter a valid number of top boards"
  const BadBottomMessage: string := "Please enter a valid number of bottom boards"
  const BadBearersMessage: string := "Please enter a valid number of bearers"

  /** `handleCalculate` as a value: the first failing check's message, or
      the assembled quote. `catalog` is the static `timberData`. */
  function Calculate(catalog: PriceTable, f: BuilderForm): (r: Result<QuoteData>)
    ensures r.Success? ==>
              Parsed(f.palletWidth) == Some(r.value.palletWidth) && Parsed(f.palletLength) == Some(r.value.palletLength)
              && Parsed(f.top) == Some(r.value.numberOfTopBoards) && Parsed(f.bottom) == Some(r.value.numberOfBottomBoards)
              && Parsed(f.bearers) == Some(r.value.numberOfBearers) && r.value.numberOfBearers > 0
    ensures r.Success? ==>
              ValidateInputs(r.value.palletWidth, r.value.boardWidth, r.value.numberOfTopBoards).Valid?
              && ValidateInputs(r.value.palletWidth, r.value.boardWidth, r.value.numberOfBottomBoards).Valid?
  {
    var types := catalog.timberTypes;
    match FindType(types, f.boardType)
    case None => Failure(NoBoardTypeMessage)
    case Some(boardType) =>
      match FindType(types, f.bearerType)
      case None => Failure(NoBearerTypeMessage)
      case Some(bearerType) =>
        match FindSize(boardType.boardSizes, f.boardSize)
        case None => Failure(NoBoardSizeMessage)
        case Some(board) =>
          match FindSize(bearerType.bearerSizes, f.bearerSize)
          case None => Failure(NoBearerSizeMessage)
          case Some(bearer) =>
            if NotPositiveReal(f.palletWidth) then Failure(BadWidthMessage)
            else if NotPositiveReal(f.palletLength) then Failure(BadLengthMessage)
            else if NotPositiveInt(f.top) then Failure(BadTopMessage)
            else if NotPositiveInt(f.bottom) then Failure(BadBottomMessage)
            else if NotPositiveInt(f.bearers) then Failure(BadBearersMessage)
            else
              var width := Parsed(f.palletWidth).value;
              var top := Parsed(f.top).value;
              var bottom := Parsed(f.bottom).value;
              match ValidateInputs(width, board.width, top)
              case Invalid(e) => Failure(TopFitMessage(e))
              case Valid =>
                match ValidateInputs(width, board.width, bottom)
                case Invalid(e) => Failure(BottomFitMessage(e))
                case Valid =>
                  Success(Assemble(boardType.name, Some(bearerType.name), board, bearer,
                                   top, bottom, Parsed(f.bearers).value, width,
                                   Parsed(f.palletLength).value, NailPrice(catalog)))
  }

  /** The four selection tests, in the order the handler runs them. */
  function SelectionChecks(catalog: PriceTable, f: BuilderForm): seq<Check<string>> {
    var types := catalog.timberTypes;
    [ Check(FindType(types, f.boardType).Some?, NoBoardTypeMessage),
      Check(FindType(types, f.bearerType).Some?, NoBearerTypeMessage),
      Check(ResolveSize(types, f.boardType, f.boardSize, BoardKind).Some?, NoBoardSizeMessage),
      Check(ResolveSize(types, f.bearerType, f.bearerSize, BearerKind).Some?, NoBearerSizeMessage) ]
  }

  /** The five number tests. */
  function InputChecks(f: BuilderForm): seq<Check<string>> {
    [ Check(!NotPositiveReal(f.palletWidth), BadWidthMessage),
      Check(!NotPositiveReal(f.palletLength), BadLengthMessage),
      Check(!NotPositiveInt(f.top), BadTopMessage),
      Check(!NotPositiveInt(f.bottom), BadBottomMessage),
      Check(!NotPositiveInt(f.bearers), BadBearersMessage) ]
  }

  /** All eleven tests as one ordered list. */
  function BuilderChecks(catalog: PriceTable, f: BuilderForm): seq<Check<string>> {
    SelectionChecks(catalog, f) + InputChecks(f)
    + FitChecks(Parsed(f.palletWidth).GetOr(0.0),
                SizeWidth(ResolveSize(catalog.timberTypes, f.boardType, f.boardSize, BoardKind)),
                Parsed(f.top).GetOr(0), Parsed(f.bottom).GetOr(0))
  }

  /** The handler rejects with the first failing test of the ordered list,
      and emits a quote exactly when every test passes. */
  lemma CalculateIsFirstFailure(catalog: PriceTable, f: BuilderForm)
    ensures Calculate(catalog, f).Failure? <==> FirstFailure(BuilderChecks(catalog, f)).Some?
    ensures Calculate(catalog, f).Failure? ==>
              FirstFailure(BuilderChecks(catalog, f)) == Some(Calculate(catalog, f).message)
  {
    var sel := SelectionChecks(catalog, f);
    var inp := InputChecks(f);
    var types := catalog.timberTypes;
    var fit := FitChecks(Parsed(f.palletWidth).GetOr(0.0),
                         SizeWidth(ResolveSize(types, f.boardType, f.boardSize, BoardKind)),
                         Parsed(f.top).GetOr(0), Parsed(f.bottom).GetOr(0));
    FirstFailureAppend(sel + inp, fit);
    FirstFailureAppend(sel, inp);
    SelectionOutcome(catalog, f);
    if FirstFailure(sel).None? {
      InputOutcome(f);
      if FirstFailure(inp).None? {
        var board := ResolveSize(types, f.boardType, f.boardSize, BoardKind);
        assert board == FindSize(FindType(types, f.boardType).value.boardSizes, f.boardSize);
        FitOutcome(Parsed(f.palletWidth).value, board.value.width, Parsed(f.top).value, Parsed(f.bottom).value);
      }
    }
  }

  /** The selection tests fail exactly as the handler's first four returns. */
  lemma SelectionOutcome(catalog: PriceTable, f: BuilderForm)
    ensures var types := catalog.timberTypes;
            FirstFailure(SelectionChecks(catalog, f))
            == if FindType(types, f.boardType).None? then Some(NoBoardTypeMessage)
               else if FindType(types, f.bearerType).None? then Some(NoBearerTypeMessage)
               else if ResolveSize(types, f.boardType, f.boardSize, BoardKind).None? then Some(NoBoardSizeMessage)
               else if ResolveSize(types, f.bearerType, f.bearerSize, BearerKind).None? then Some(NoBearerSizeMessage)
               else None
  {
    var cs := SelectionChecks(catalog, f);
    assert cs[3..][1..] == [];
    assert FirstFailure(cs[3..]) == if cs[3].passed then None else Some(cs[3].error);
    assert cs[2..][1..] == cs[3..];
    assert FirstFailure(cs[2..]) == if cs[2].passed then FirstFailure(cs[3..]) else Some(cs[2].error);
    assert cs[1..][1..] == cs[2..];
    assert FirstFailure(cs[1..]) == if cs[1].passed then FirstFailure(cs[2..]) else Some(cs[1].error);
  }

  lemma InputOutcome(f: BuilderForm)
    ensures FirstFailure(InputChecks(f))
            == if NotPositiveReal(f.palletWidth) then Some(BadWidthMessage)
               else if NotPositiveReal(f.palletLength) then Some(BadLengthMessage)
               else if NotPositiveInt(f.top) then Some(BadTopMessage)
               else if NotPositiveInt(f.bottom) then Some(BadBottomMessage)
               else if NotPositiveInt(f.bearers) then Some(BadBearersMessage)
               else None
  {
    var cs := InputChecks(f);
    assert cs[4..][1..] == [];
    assert FirstFailure(cs[4..]) == if cs[4].passed then None else Some(cs[4].error);
    assert cs[3..][1..] == cs[4..];
    assert FirstFailure(cs[3..]) == if cs[3].passed then FirstFailure(cs[4..]) else Some(cs[3].error);
    assert cs[2..][1..] == cs[3..];
    assert FirstFailure(cs[2..]) == if cs[2].passed then FirstFailure(cs[3..]) else Some(cs[2].error);
    assert cs[1..][1..] == cs[2..];
    assert FirstFailure(cs[1..]) == if cs[1].passed then FirstFailure(cs[2..]) else Some(cs[1].error);
  }

  /** An emitted quote comes from positive inputs that fit: both gaps are
      at least 5 mm, the nails are two per board per bearer, and the total
      is the sum of the four rounded lines. */
  lemma EmittedQuoteSound(catalog: PriceTable, f: BuilderForm)
    requires Calculate(catalog, f).Success?
    ensures var q := Calculate(catalog, f).value;
            Parsed(f.palletWidth) == Some(q.palletWidth) && q.palletWidth > 0.0
            && Parsed(f.palletLength) == Some(q.palletLength) && q.palletLength > 0.0
            && Parsed(f.top) == Some(q.numberOfTopBoards) && Parsed(f.bottom) == Some(q.numberOfBottomBoards)
            && Parsed(f.bearers) == Some(q.numberOfBearers) && q.numberOfBearers > 0
            && q.topGapSize >= MinGap && q.bottomGapSize >= MinGap
            && q.totalNails == 2 * q.numberOfBearers * (q.numberOfTopBoards + q.numberOfBottomBoards)
            && q.totalPrice == q.topBoardsTotal + q.bottomBoardsTotal + q.bearersTotal + q.nailsTotal
            && q.pricePerNail == NailPrice(catalog)
  {
    var types := catalog.timberTypes;
    var boardType := FindType(types, f.boardType).value;
    var bearerType := FindType(types, f.bearerType).value;
    var board := FindSize(boardType.boardSizes, f.boardSize).value;
    var bearer := FindSize(bearerType.bearerSizes, f.bearerSize).value;
    AssembledQuote(boardType.name, Some(bearerType.name), board, bearer,
                   Parsed(f.top).value, Parsed(f.bottom).value, Parsed(f.bearers).value,
                   Parsed(f.palletWidth).value, Parsed(f.palletLength).value, NailPrice(catalog));
  }

  /** The builder's preview object: width, length and the one board width
      shared by both decks, with the evenly spaced gap for each deck. */
  datatype BuilderPreviewData = BuilderPreviewData(
    palletWidth: real, palletLength: real, boardWidth: real,
    numberOfTopBoards: int, numberOfBottomBoards: int, numberOfBearers: int,
    topGapSize: real, bottomGapSize: real)

  /** `livePreviewData` of the builder: a 1200 x 1000 pallet and a 100 mm
      board until chosen; a gap only for more than one board, unclamped. */
  function BuilderPreview(types: seq<TimberType>, f: BuilderForm): BuilderPreviewData {
    var width := RealOr(f.palletWidth, 1200.0);
    var top := IntOr(f.top, 0);
    var bottom := IntOr(f.bottom, 0);
    var boardWidth :=
      if f.boardType != "" && f.boardSize != "" && ResolveSize(types, f.boardType, f.boardSize, BoardKind).Some?
      then ResolveSize(types, f.boardType, f.boardSize, BoardKind).value.width
      else 100.0;
    BuilderPreviewData(width, RealOr(f.palletLength, 1000.0), boardWidth, top, bottom, IntOr(f.bearers, 0),
                       if top > 1 then GapSize(width, boardWidth, top) else 0.0,
                       if bottom > 1 then GapSize(width, boardWidth, bottom) else 0.0)
  }

  /** The defaults: an empty form previews a 1200 x 1000 pallet with no
      boards and no gaps; a gap appears only with two or more boards, and
      it is the evenly spaced gap, negative when the boards overlap. */
  lemma BuilderPreviewDefaults(types: seq<TimberType>, f: BuilderForm)
    ensures BuilderPreview(types, EmptyBuilderForm)
            == BuilderPreviewData(1200.0, 1000.0, 100.0, 0, 0, 0, 0.0, 0.0)
    ensures var d := BuilderPreview(types, f);
            (d.numberOfTopBoards <= 1 ==> d.topGapSize == 0.0)
            && (d.numberOfTopBoards >= 2 ==> d.topGapSize == GapSize(d.palletWidth, d.boardWidth, d.numberOfTopBoards))
            && (d.numberOfBottomBoards <= 1 ==> d.bottomGapSize == 0.0)
            && (d.numberOfBottomBoards >= 2 ==> d.bottomGapSize == GapSize(d.palletWidth, d.boardWidth, d.numberOfBottomBoards))
            && d.palletWidth != 0.0 && d.palletLength != 0.0
  {
  }

  /** What the 3D preview receives: the builder's object has no
      `topBoardWidth` or `bottomBoardWidth` key (only `boardWidth`), no leader
      and no bearer keys, so every dimension is left to the preview's
      fallbacks. */
  function AsLivePreview(d: BuilderPreviewData): PreviewData {
    PreviewData(d.palletWidth, d.palletLength,
                DeckPreview(None, None, None, None, None, d.numberOfTopBoards, d.topGapSize),
                DeckPreview(None, None, None, None, None, d.numberOfBottomBoards, d.bottomGapSize),
                None, None, d.numberOfBearers)
  }

  /** The evidently intended hand-over: the chosen board width under the
      keys the preview reads, for both decks. */
  function AsLivePreviewCorrected(d: BuilderPreviewData): PreviewData {
    PreviewData(d.palletWidth, d.palletLength,
                DeckPreview(Some(d.boardWidth), None, None, None, None, d.numberOfTopBoards, d.topGapSize),
                DeckPreview(Some(d.boardWidth), None, None, None, None, d.numberOfBottomBoards, d.bottomGapSize),
                None, None, d.numberOfBearers)
  }

  /** As written, the boards are drawn 100 mm wide whatever size is
      chosen, while the gap is computed for the chosen width: five 150 mm
      boards across 1000 mm get 62.5 mm gaps but are drawn as 100 mm boards,
      so the row stops 250 mm short of the far edge (2.5 units, not 5). */
  lemma BuilderPreviewShortRow()
    ensures var types := [TimberType("pine", "Pine", [SizeSpec("b150", "150x22", 150.0, 22.0, 3.5)], [])];
            var f := BuilderForm(Entered(Some(1000.0)), Entered(Some(1000.0)), "pine", "b150",
                                 Entered(Some(5)), Blank, "", "", Blank);
            var d := BuilderPreview(types, f);
            var r := RowOf(AsLivePreview(d).top, d.palletWidth);
            d.boardWidth == 150.0 && d.topGapSize == 62.5 && r.boardW == 1.0 && RightEdge(r) == 2.5
  {
    var types := [TimberType("pine", "Pine", [SizeSpec("b150", "150x22", 150.0, 22.0, 3.5)], [])];
    var f := BuilderForm(Entered(Some(1000.0)), Entered(Some(1000.0)), "pine", "b150",
                         Entered(Some(5)), Blank, "", "", Blank);
    var d := BuilderPreview(types, f);
    Round2Cents(6250);
    assert GapSize(1000.0, 150.0, 5) == 62.5;
    var r := RowOf(AsLivePreview(d).top, d.palletWidth);
    RightEdgeClosedForm(r);
  }

  /** With the corrected hand-over and a positive board width, a deck of
      two or more boards is drawn flush with both edges up to the rounding
      of the gap. */
  lemma CorrectedBuilderPreviewFlush(types: seq<TimberType>, f: BuilderForm)
    requires BuilderPreview(types, f).boardWidth > 0.0
    requires BuilderPreview(types, f).numberOfTopBoards >= 2
    ensures var d := BuilderPreview(types, f);
            var k := (d.numberOfTopBoards - 1) as real;
            var r := RowOf(AsLivePreviewCorrected(d).top, d.palletWidth);
            -(0.005 * k) * Scale < RightEdge(r) - d.palletWidth * Scale / 2.0 <= 0.005 * k * Scale
  {
    var d := BuilderPreview(types, f);
    var r := RowOf(AsLivePreviewCorrected(d).top, d.palletWidth);
    assert d.topGapSize == GapSize(d.palletWidth, d.boardWidth, d.numberOfTopBoards);
    assert !r.useLeaders && r.count == d.numberOfTopBoards;
    assert r.left == -(d.palletWidth * Scale) / 2.0 && r.boardW == d.boardWidth * Scale;
    assert r.gap == GapSize(d.palletWidth, d.boardWidth, r.count) * Scale;
    LivePreview.PlainRowFlush(r, d.palletWidth, d.boardWidth);
  }

  /** The builder component: its form, the size lists its selects offer,
      the error line, and the quotes handed to `onQuoteCalculated`. */
  class PalletBuilder {
    const catalog: PriceTable
    var form: BuilderForm
    var availableBoardSizes: seq<SizeSpec>
    var availableBearerSizes: seq<SizeSpec>
    var error: string
    var emitted: seq<Option<QuoteData>>

    /** An empty type offers no sizes: the effect empties the list whenever
        the type becomes empty, and it starts empty. */
    predicate Valid()
      reads this`form, this`availableBoardSizes, this`availableBearerSizes
    {
      (form.boardType == "" ==> availableBoardSizes == [])
      && (form.bearerType == "" ==> availableBearerSizes == [])
    }

    /** The initial state, after the mount-time run of both type effects. */
    constructor (catalog: PriceTable)
      ensures this.catalog == catalog && form == EmptyBuilderForm
      ensures availableBoardSizes == [] && availableBearerSizes == []
      ensures error == "" && emitted == []
      ensures Valid()
    {
      this.catalog := catalog;
      form := EmptyBuilderForm;
      availableBoardSizes := [];
      availableBearerSizes := [];
      error := "";
      emitted := [];
    }

    /** Choosing a board type, with the effect it triggers when the value
        changes: a non-empty type loads its board sizes (none when unknown)
        and clears the size; an empty type empties the list. */
    method SelectBoardType(typeId: string)
      requires Valid()
      modifies this`form, this`availableBoardSizes
      ensures Valid()
      ensures typeId == old(form.boardType) ==>
                form == old(form) && availableBoardSizes == old(availableBoardSizes)
      ensures typeId != old(form.boardType) && typeId != "" ==>
                form == old(form).(boardType := typeId, boardSize := "")
                && availableBoardSizes == (match FindType(catalog.timberTypes, typeId)
                                           case Some(t) => t.boardSizes case None => [])
      ensures typeId != old(form.boardType) && typeId == "" ==>
                form == old(form).(boardType := typeId) && availableBoardSizes == []
      ensures availableBearerSizes == old(availableBearerSizes)
      ensures error == old(error) && emitted == old(emitted)
    {
      if typeId != form.boardType {
        form := form.(boardType := typeId);
        if typeId != "" {
          var t := FindType(catalog.timberTypes, typeId);
          availableBoardSizes := if t.Some? then t.value.boardSizes else [];
          form := form.(boardSize := "");
        } else {
          availableBoardSizes := [];
        }
      }
    }

    /** The bearer-type effect, the same rule for the bearer list. */
    method SelectBearerType(typeId: string)
      requires Valid()
      modifies this`form, this`availableBearerSizes
      ensures Valid()
      ensures typeId == old(form.bearerType) ==>
                form == old(form) && availableBearerSizes == old(availableBearerSizes)
      ensures typeId != old(form.bearerType) && typeId != "" ==>
                form == old(form).(bearerType := typeId, bearerSize := "")
                && availableBearerSizes == (match FindType(catalog.timberTypes, typeId)
                                            case Some(t) => t.bearerSizes case None => [])
      ensures typeId != old(form.bearerType) && typeId == "" ==>
                form == old(form).(bearerType := typeId) && availableBearerSizes == []
      ensures availableBoardSizes == old(availableBoardSizes)
      ensures error == old(error) && emitted == old(emitted)
    {
      if typeId != form.bearerType {
        form := form.(bearerType := typeId);
        if typeId != "" {
          var t := FindType(catalog.timberTypes, typeId);
          availableBearerSizes := if t.Some? then t.value.bearerSizes else [];
          form := form.(bearerSize := "");
        } else {
          availableBearerSizes := [];
        }
      }
    }

    /** Any change to the inputs: the new values are written, then the type
        effects run for each type that changed. Typing a dimension or a
        count, or choosing a size, is such a change with the types kept. */
    method Input(f: BuilderForm)
      requires Valid()
      modifies this`form, this`availableBoardSizes, this`availableBearerSizes
      ensures Valid()
      ensures form == f.(boardSize := if f.boardType != old(form.boardType) && f.boardType != "" then "" else f.boardSize,
                         bearerSize := if f.bearerType != old(form.bearerType) && f.bearerType != "" then "" else f.bearerSize)
      ensures f.boardType == old(form.boardType) ==> availableBoardSizes == old(availableBoardSizes)
      ensures f.boardType != old(form.boardType) ==>
                availableBoardSizes == (match FindType(catalog.timberTypes, f.boardType)
                                        case Some(t) => if f.boardType == "" then [] else t.boardSizes
                                        case None => [])
      ensures f.bearerType == old(form.bearerType) ==> availableBearerSizes == old(availableBearerSizes)
      ensures f.bearerType != old(form.bearerType) ==>
                availableBearerSizes == (match FindType(catalog.timberTypes, f.bearerType)
                                         case Some(t) => if f.bearerType == "" then [] else t.bearerSizes
                                         case None => [])
      ensures error == old(error) && emitted == old(emitted)
    {
      form := f.(boardType := form.boardType, bearerType := form.bearerType);
      SelectBoardType(f.boardType);
      SelectBearerType(f.bearerType);
    }

    /** `handleCalculate`: clears the error, then stops at the first failed
        check with its message, or emits the assembled quote. */
    method HandleCalculate()
      requires Valid()
      modifies this`error, this`emitted
      ensures form == old(form) && availableBoardSizes == old(availableBoardSizes)
      ensures availableBearerSizes == old(availableBearerSizes)
      ensures Valid()
      ensures match Calculate(catalog, form)
              case Failure(m) => error == m && emitted == old(emitted)
              case Success(q) => error == "" && emitted == old(emitted) + [Some(q)]
    {
      error := "";
      var types := catalog.timberTypes;
      var boardType := FindType(types, form.boardType);
      if boardType.None? {
        error := NoBoardTypeMessage;
        return;
      }
      var bearerType := FindType(types, form.bearerType);
      if bearerType.None? {
        error := NoBearerTypeMessage;
        return;
      }
      var board := FindSize(boardType.value.boardSizes, form.boardSize);
      if board.None? {
        error := NoBoardSizeMessage;
        return;
      }
      var bearer := FindSize(bearerType.value.bearerSizes, form.bearerSize);
      if bearer.None? {
        error := NoBearerSizeMessage;
        return;
      }
      if NotPositiveReal(form.palletWidth) {
        error := BadWidthMessage;
        return;
      }
      if NotPositiveReal(form.palletLength) {
        error := BadLengthMessage;
        return;
      }
      if NotPositiveInt(form.top) {
        error := BadTopMessage;
        return;
      }
      if NotPositiveInt(form.bottom) {
        error := BadBottomMessage;
        return;
      }
      if NotPositiveInt(form.bearers) {
        error := BadBearersMessage;
        return;
      }
      var width := Parsed(form.palletWidth).value;
      var top := Parsed(form.top).value;
      var bottom := Parsed(form.bottom).value;
      var topValidation := ValidateInputs(width, board.value.width, top);
      if topValidation.Invalid? {
        error := TopFitMessage(topValidation.error);
        return;
      }
      var bottomValidation := ValidateInputs(width, board.value.width, bottom);
      if bottomValidation.Invalid? {
        error := BottomFitMessage(bottomValidation.error);
        return;
      }
      var q := Assemble(boardType.value.name, Some(bearerType.value.name), board.value, bearer.value,
                        top, bottom, Parsed(form.bearers).value, width,
                        Parsed(form.palletLength).value, NailPrice(catalog));
      emitted := emitted + [Some(q)];
    }

    /** `handleClear`: every input and the error are emptied and `null` is
        emitted; the type effects then empty both size lists. */
    method HandleClear()
      requires Valid()
      modifies this`form, this`availableBoardSizes, this`availableBearerSizes, this`error, this`emitted
      ensures Valid()
      ensures form == EmptyBuilderForm && error == ""
      ensures emitted == old(emitted) + [None]
      ensures availableBoardSizes == [] && availableBearerSizes == []
    {
      var boardTypeBefore, bearerTypeBefore := form.boardType, form.bearerType;
      form := EmptyBuilderForm;
      error := "";
      emitted := emitted + [None];
      if boardTypeBefore != "" {
        availableBoardSizes := [];
      }
      if bearerTypeBefore != "" {
        availableBearerSizes := [];
      }
    }
  }
  /** The selects clear a size whenever its type changes, so a form is
      filled in two steps: the types with the rest, then the rest again.
      Any form the builder accepts is reached this way, and calculating then
      emits its quote. */
  method FillAndCalculate(catalog: PriceTable, f: BuilderForm) returns (b: PalletBuilder)
    requires Calculate(catalog, f).Success?
    ensures b.form == f && b.error == ""
    ensures b.emitted == [Some(Calculate(catalog, f).value)]
  {
    b := new PalletBuilder(catalog);
    b.Input(f);
    b.Input(f);
    b.HandleCalculate();
  }
}
