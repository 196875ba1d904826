/** The single-type quote form (src/components/QuoteForm.jsx): one timber
    type for boards and bearers, a type effect that reloads both size lists,
    and a submit handler whose checks test the counts before the
    dimensions. */
module QuoteForms {
  import opened Wrappers
  import opened Checks
  import opened Catalog
  import opened FormInputs
  import opened Calculations
  import opened SubmitQuote
  import opened PalletBuilding

  /** The form's eight inputs. */
  datatype QuoteFormState = QuoteFormState(
    timberType: string, boardSize: string, bearerSize: string,
    top: Field<int>, bottom: Field<int>, bearers: Field<int>,
    palletWidth: Field<real>, palletLength: Field<real>)

  const EmptyQuoteForm: QuoteFormState := QuoteFormState("", "", "", Blank, Blank, Blank, Blank, Blank)

  const NoTypeMessage: string := "Please select a timber type"

  /** `handleCalculate` as a value. */
  function CalculateForm(catalog: PriceTable, f: QuoteFormState): (r: Result<QuoteData>)
    ensures r.Success? ==>
              Parsed(f.palletWidth) == Some(r.value.palletWidth) && Parsed(f.palletLength) == Some(r.value.palletLength)
              && Parsed(f.top) == Some(r.value.numberOfTopBoards) && Parsed(f.bottom) == Some(r.value.numberOfBottomBoards)
              && Parsed(f.bearers) == Some(r.value.numberOfBearers) && r.value.numberOfBearers > 0
    ensures r.Success? ==>
              ValidateInputs(r.value.palletWidth, r.value.boardWidth, r.value.numberOfTopBoards).Valid?
              && ValidateInputs(r.value.palletWidth, r.value.boardWidth, r.value.numberOfBottomBoards).Valid?
  {
    match FindType(catalog.timberTypes, f.timberType)
    case None => Failure(NoTypeMessage)
    case Some(t) =>
      match FindSize(t.boardSizes, f.boardSize)
      case None => Failure(NoBoardSizeMessage)
      case Some(board) =>
        match FindSize(t.bearerSizes, f.bearerSize)
        case None => Failure(NoBearerSizeMessage)
        case Some(bearer) =>
          if NotPositiveInt(f.top) then Failure(BadTopMessage)
          else if NotPositiveInt(f.bottom) then Failure(BadBottomMessage)
          else if NotPositiveInt(f.bearers) then Failure(BadBearersMessage)
          else if NotPositiveReal(f.palletWidth) then Failure(BadWidthMessage)
          else if NotPositiveReal(f.palletLength) then Failure(BadLengthMessage)
          else
            var width := Parsed(f.palletWidth).value;
            var top := Parsed(f.top).value;
            var bottom := Parsed(f.bottom).value;
            match ValidateInputs(width, board.width, top)
            case Invalid(e) => Failure(TopFitMessage(e))
            case Valid =>
              match ValidateInputs(width, board.width, bottom)
              case Invalid(e) => Failure(BottomFitMessage(e))
              case Valid =>
                Success(Assemble(t.name, None, board, bearer, top, bottom, Parsed(f.bearers).value,
                                 width, Parsed(f.palletLength).value, NailPrice(catalog)))
  }

  /** The same form filled into the builder, with its one type chosen for
      both boards and bearers. */
  function AsBuilderForm(f: QuoteFormState): BuilderForm {
    BuilderForm(f.palletWidth, f.palletLength, f.timberType, f.boardSize, f.top, f.bottom,
                f.timberType, f.bearerSize, f.bearers)
  }

  /** The form and the builder accept exactly the same inputs and then
      emit the same quote, but for the builder's bearer type name; where
      both reject, they may name different failures. */
  lemma SameAcceptance(catalog: PriceTable, f: QuoteFormState)
    ensures CalculateForm(catalog, f).Success? <==> Calculate(catalog, AsBuilderForm(f)).Success?
    ensures CalculateForm(catalog, f).Success? ==>
              Calculate(catalog, AsBuilderForm(f)).value
              == CalculateForm(catalog, f).value.(bearerTimberType := Some(CalculateForm(catalog, f).value.timberType))
  {
  }

  /** The check order differs: with the counts and the width both missing,
      the builder reports the width and the form the top boards. */
  lemma OrderDiffers(catalog: PriceTable, f: QuoteFormState)
    requires var t := FindType(catalog.timberTypes, f.timberType);
             t.Some? && FindSize(t.value.boardSizes, f.boardSize).Some?
             && FindSize(t.value.bearerSizes, f.bearerSize).Some?
    requires NotPositiveReal(f.palletWidth) && NotPositiveInt(f.top)
    ensures Calculate(catalog, AsBuilderForm(f)) == Failure(BadWidthMessage)
    ensures CalculateForm(catalog, f) == Failure(BadTopMessage)
  {
  }

  /** The form's three selection tests, in order. */
  function FormSelectionChecks(catalog: PriceTable, f: QuoteFormState): seq<Check<string>> {
    var types := catalog.timberTypes;
    [ Check(FindType(types, f.timberType).Some?, NoTypeMessage),
      Check(ResolveSize(types, f.timberType, f.boardSize, BoardKind).Some?, NoBoardSizeMessage),
      Check(ResolveSize(types, f.timberType, f.bearerSize, BearerKind).Some?, NoBearerSizeMessage) ]
  }

  /** The form's five number tests: counts first, then dimensions. */
  function FormInputChecks(f: QuoteFormState): seq<Check<string>> {
    [ Check(!NotPositiveInt(f.top), BadTopMessage),
      Check(!NotPositiveInt(f.bottom), BadBottomMessage),
      Check(!NotPositiveInt(f.bearers), BadBearersMessage),
      Check(!NotPositiveReal(f.palletWidth), BadWidthMessage),
      Check(!NotPositiveReal(f.palletLength), BadLengthMessage) ]
  }

  /** The form's ten tests as one ordered list: selections, counts,
      dimensions, fit. */
  function FormChecks(catalog: PriceTable, f: QuoteFormState): seq<Check<string>> {
    FormSelectionChecks(catalog, f) + FormInputChecks(f)
    + FitChecks(Parsed(f.palletWidth).GetOr(0.0),
                SizeWidth(ResolveSize(catalog.timberTypes, f.timberType, f.boardSize, BoardKind)),
                Parsed(f.top).GetOr(0), Parsed(f.bottom).GetOr(0))
  }

  /** The form rejects with the first failing test and emits exactly when
      all pass. */
  lemma CalculateFormIsFirstFailure(catalog: PriceTable, f: QuoteFormState)
    ensures CalculateForm(catalog, f).Failure? <==> FirstFailure(FormChecks(catalog, f)).Some?
    ensures CalculateForm(catalog, f).Failure? ==>
              FirstFailure(FormChecks(catalog, f)) == Some(CalculateForm(catalog, f).message)
  {
    var types := catalog.timberTypes;
    var sel := FormSelectionChecks(catalog, f);
    var inp := FormInputChecks(f);
    var board := ResolveSize(types, f.timberType, f.boardSize, BoardKind);
    var fit := FitChecks(Parsed(f.palletWidth).GetOr(0.0), SizeWidth(board),
                         Parsed(f.top).GetOr(0), Parsed(f.bottom).GetOr(0));
    FirstFailureAppend(sel + inp, fit);
    FirstFailureAppend(sel, inp);
    FormSelectionOutcome(catalog, f);
    if FirstFailure(sel).None? {
      FormInputOutcome(f);
      if FirstFailure(inp).None? {
        assert board == FindSize(FindType(types, f.timberType).value.boardSizes, f.boardSize);
        FitOutcome(Parsed(f.palletWidth).value, board.value.width, Parsed(f.top).value, Parsed(f.bottom).value);
      }
    }
  }

  /** The selection tests fail exactly as the handler's first three returns. */
  lemma FormSelectionOutcome(catalog: PriceTable, f: QuoteFormState)
    ensures var types := catalog.timberTypes;
            FirstFailure(FormSelectionChecks(catalog, f))
            == if FindType(types, f.timberType).None? then Some(NoTypeMessage)
               else if ResolveSize(types, f.timberType, f.boardSize, BoardKind).None? then Some(NoBoardSizeMessage)
               else if ResolveSize(types, f.timberType, f.bearerSize, BearerKind).None? then Some(NoBearerSizeMessage)
               else None
  {
    var cs := FormSelectionChecks(catalog, f);
    assert cs[2..][1..] == [];
    assert FirstFailure(cs[2..]) == if cs[2].passed then None else Some(cs[2].error);
    assert cs[1..][1..] == cs[2..];
    assert FirstFailure(cs[1..]) == if cs[1].passed then FirstFailure(cs[2..]) else Some(cs[1].error);
  }

  /** The number tests fail exactly as the handler's next five returns. */
  lemma FormInputOutcome(f: QuoteFormState)
    ensures FirstFailure(FormInputChecks(f))
            == if NotPositiveInt(f.top) then Some(BadTopMessage)
               else if NotPositiveInt(f.bottom) then Some(BadBottomMessage)
               else if NotPositiveInt(f.bearers) then Some(BadBearersMessage)
               else if NotPositiveReal(f.palletWidth) then Some(BadWidthMessage)
               else if NotPositiveReal(f.palletLength) then Some(BadLengthMessage)
               else None
  {
    var cs := FormInputChecks(f);
    assert cs[4..][1..] == [];
    assert FirstFailure(cs[4..]) == if cs[4].passed then None else Some(cs[4].error);
    assert cs[3..][1..] == cs[4..];
    assert FirstFailure(cs[3..]) == if cs[3].passed then FirstFailure(cs[4..]) else Some(cs[3].error);
    assert cs[2..][1..] == cs[3..];
    assert FirstFailure(cs[2..]) == if cs[2].passed then FirstFailure(cs[3..]) else Some(cs[2].error);
    assert cs[1..][1..] == cs[2..];
    assert FirstFailure(cs[1..]) == if cs[1].passed then FirstFailure(cs[2..]) else Some(cs[1].error);
  }

  /** The quote form component. */
  class QuoteForm {
    const catalog: PriceTable
    var form: QuoteFormState
    var availableBoardSizes: seq<SizeSpec>
    var availableBearerSizes: seq<SizeSpec>
    var error: string
    var emitted: seq<Option<QuoteData>>

    /** An empty type offers no sizes. */
    predicate Valid()
      reads this`form, this`availableBoardSizes, this`availableBearerSizes
    {
      form.timberType == "" ==> availableBoardSizes == [] && availableBearerSizes == []
    }

    constructor (catalog: PriceTable)
      ensures this.catalog == catalog && form == EmptyQuoteForm
      ensures availableBoardSizes == [] && availableBearerSizes == []
      ensures error == "" && emitted == []
      ensures Valid()
    {
      this.catalog := catalog;
      form := EmptyQuoteForm;
      availableBoardSizes := [];
      availableBearerSizes := [];
      error := "";
      emitted := [];
    }

    /** Choosing the type, with the effect a change triggers: a non-empty
        type loads both size lists (empty for an unknown type) and clears
        both size selections; an empty type empties both lists. */
    method SelectType(typeId: string)
      requires Valid()
      modifies this`form, this`availableBoardSizes, this`availableBearerSizes
      ensures Valid()
      ensures typeId == old(form.timberType) ==>
                form == old(form) && availableBoardSizes == old(availableBoardSizes)
                && availableBearerSizes == old(availableBearerSizes)
      ensures typeId != old(form.timberType) && typeId != "" ==>
                form == old(form).(timberType := typeId, boardSize := "", bearerSize := "")
                && availableBoardSizes == (match FindType(catalog.timberTypes, typeId)
                                           case Some(t) => t.boardSizes case None => [])
                && availableBearerSizes == (match FindType(catalog.timberTypes, typeId)
                                            case Some(t) => t.bearerSizes case None => [])
      ensures typeId != old(form.timberType) && typeId == "" ==>
                form == old(form).(timberType := typeId)
                && availableBoardSizes == [] && availableBearerSizes == []
      ensures error == old(error) && emitted == old(emitted)
    {
      if typeId != form.timberType {
        form := form.(timberType := typeId);
        if typeId != "" {
          var t := FindType(catalog.timberTypes, typeId);
          availableBoardSizes := if t.Some? then t.value.boardSizes else [];
          availableBearerSizes := if t.Some? then t.value.bearerSizes else [];
          form := form.(boardSize := "", bearerSize := "");
        } else {
          availableBoardSizes := [];
          availableBearerSizes := [];
        }
      }
    }

    /** Any change to the inputs: the new values are written, then the type
        effect runs when the type changed. */
    method Input(f: QuoteFormState)
      requires Valid()
      modifies this`form, this`availableBoardSizes, this`availableBearerSizes
      ensures Valid()
      ensures form == if f.timberType != old(form.timberType) && f.timberType != ""
                      then f.(boardSize := "", bearerSize := "") else f
      ensures f.timberType == old(form.timberType) ==>
                availableBoardSizes == old(availableBoardSizes) && availableBearerSizes == old(availableBearerSizes)
      ensures f.timberType != old(form.timberType) ==>
                availableBoardSizes == (match FindType(catalog.timberTypes, f.timberType)
                                        case Some(t) => if f.timberType == "" then [] else t.boardSizes
                                        case None => [])
                && availableBearerSizes == (match FindType(catalog.timberTypes, f.timberType)
                                            case Some(t) => if f.timberType == "" then [] else t.bearerSizes
                                            case None => [])
      ensures error == old(error) && emitted == old(emitted)
    {
      form := f.(timberType := form.timberType);
      SelectType(f.timberType);
    }

    /** `handleCalculate`: clears the error, then stops at the first failed
        check with its message, or emits the assembled quote. */
    method HandleCalculate()
      requires Valid()
      modifies this`error, this`emitted
      ensures Valid()
      ensures form == old(form) && availableBoardSizes == old(availableBoardSizes)
      ensures availableBearerSizes == old(availableBearerSizes)
      ensures match CalculateForm(catalog, form)
              case Failure(m) => error == m && emitted == old(emitted)
              case Success(q) => error == "" && emitted == old(emitted) + [Some(q)]
    {
      error := "";
      var timberType := FindType(catalog.timberTypes, form.timberType);
      if timberType.None? {
        error := NoTypeMessage;
        return;
      }
      var board := FindSize(timberType.value.boardSizes, form.boardSize);
      if board.None? {
        error := NoBoardSizeMessage;
        return;
      }
      var bearer := FindSize(timberType.value.bearerSizes, form.bearerSize);
      if bearer.None? {
        error := NoBearerSizeMessage;
        return;
      }
      if NotPositiveInt(form.top) {
        error := BadTopMessage;
        return;
      }
      if NotPositiveInt(form.bottom) {
        error := BadBottomMessage;
        return;
      }
      if NotPositiveInt(form.bearers) {
        error := BadBearersMessage;
        return;
      }
      if NotPositiveReal(form.palletWidth) {
        error := BadWidthMessage;
        return;
      }
      if NotPositiveReal(form.palletLength) {
        error := BadLengthMessage;
        return;
      }
      var width := Parsed(form.palletWidth).value;
      var top := Parsed(form.top).value;
      var bottom := Parsed(form.bottom).value;
      var topValidation := ValidateInputs(width, board.value.width, top);
      if topValidation.Invalid? {
        error := TopFitMessage(topValidation.error);
        return;
      }
      var bottomValidation := ValidateInputs(width, board.value.width, bottom);
      if bottomValidation.Invalid? {
        error := BottomFitMessage(bottomValidation.error);
        return;
      }
      var q := Assemble(timberType.value.name, None, board.value, bearer.value, top, bottom,
                        Parsed(form.bearers).value, width, Parsed(form.palletLength).value,
                        NailPrice(catalog));
      emitted := emitted + [Some(q)];
    }

    /** `handleReset`: every input and the error are emptied and `null` is
        emitted; the type effect then empties both size lists. */
    method HandleReset()
      requires Valid()
      modifies this`form, this`availableBoardSizes, this`availableBearerSizes, this`error, this`emitted
      ensures Valid()
      ensures form == EmptyQuoteForm && error == ""
      ensures availableBoardSizes == [] && availableBearerSizes == []
      ensures emitted == old(emitted) + [None]
    {
      var typeBefore := form.timberType;
      form := EmptyQuoteForm;
      error := "";
      emitted := emitted + [None];
      if typeBefore != "" {
        availableBoardSizes := [];
        availableBearerSizes := [];
      }
    }
  }
  /** A form is filled in two steps, since choosing the type clears both
      sizes: any form the component accepts is reached, and calculating
      then emits its quote. */
  method FillAndCalculate(catalog: PriceTable, f: QuoteFormState) returns (c: QuoteForm)
    requires CalculateForm(catalog, f).Success?
    ensures c.form == f && c.error == ""
    ensures c.emitted == [Some(CalculateForm(catalog, f).value)]
  {
    c := new QuoteForm(catalog);
    c.Input(f);
    c.Input(f);
    c.HandleCalculate();
  }
}
