/** What the two submit handlers (src/components/PalletBuilder.jsx:151-189 and
    src/components/QuoteForm.jsx:100-137) emit once every check has passed:
    both decks of one board size, the bearers, and two nails per board and
    bearer crossing, priced line by line and summed. */
module SubmitQuote {
  import opened Wrappers
  import opened Catalog
  import opened Checks
  import opened Calculations

  /** The emitted `quoteData`. `bearerTimberType` is present only in the
      builder's quote, which lets boards and bearers come from two types. */
  datatype QuoteData = QuoteData(
    timberType: string, bearerTimberType: Option<string>,
    boardSize: string, bearerSize: string,
    numberOfTopBoards: int, numberOfBearers: int, numberOfBottomBoards: int,
    pricePerBoard: real, pricePerBearer: real,
    topBoardsTotal: real, bearersTotal: real, bottomBoardsTotal: real,
    totalNails: int, pricePerNail: real, nailsTotal: real, totalPrice: real,
    palletWidth: real, palletLength: real, boardWidth: real,
    topGapSize: real, bottomGapSize: real)

  /** The fit failures are validateInputs' message behind a deck prefix. */
  function TopFitMessage(e: InputError): string {
    "Top boards: " + ErrorMessage(e)
  }

  function BottomFitMessage(e: InputError): string {
    "Bottom boards: " + ErrorMessage(e)
  }

  /** The quote both handlers assemble from the resolved sizes and the
      parsed numbers; `nailPrice` is the static table's `|| 0.02` price. */
  function Assemble(timberName: string, bearerTimberName: Option<string>,
                    board: SizeSpec, bearer: SizeSpec,
                    top: int, bottom: int, bearers: int, width: real, length: real,
                    nailPrice: real): (q: QuoteData)
    ensures q.numberOfTopBoards == top && q.numberOfBottomBoards == bottom && q.numberOfBearers == bearers
    ensures q.totalPrice == q.topBoardsTotal + q.bottomBoardsTotal + q.bearersTotal + q.nailsTotal
    ensures top >= 0 && bottom >= 0 ==> q.totalNails == 2 * bearers * (top + bottom)
  {
    assert top * bearers * 2 + bottom * bearers * 2 == 2 * bearers * (top + bottom);
    var topTotal := TotalPrice(board.price, top);
    var bearersTotal := TotalPrice(bearer.price, bearers);
    var bottomTotal := TotalPrice(board.price, bottom);
    var totalNails := top * bearers * 2 + bottom * bearers * 2;
    var nailsTotal := TotalPrice(nailPrice, totalNails);
    QuoteData(timberName, bearerTimberName, board.dimensions, bearer.dimensions,
              top, bearers, bottom, board.price, bearer.price,
              topTotal, bearersTotal, bottomTotal, totalNails, nailPrice, nailsTotal,
              topTotal + bearersTotal + bottomTotal + nailsTotal,
              width, length, board.width,
              GapSize(width, board.width, top), GapSize(width, board.width, bottom))
  }

  /** When both decks pass validateInputs the emitted quote is consistent:
      both gaps are at least 5 mm and each deck fits in the width, there are
      two nails per board per bearer, each line is its rounded price, and
      the total is the sum of the four lines. */
  lemma AssembledQuote(timberName: string, bearerTimberName: Option<string>,
                       board: SizeSpec, bearer: SizeSpec,
                       top: int, bottom: int, bearers: int, width: real, length: real, nailPrice: real)
    requires ValidateInputs(width, board.width, top).Valid?
    requires ValidateInputs(width, board.width, bottom).Valid?
    requires bearers > 0
    ensures var q := Assemble(timberName, bearerTimberName, board, bearer, top, bottom, bearers, width, length, nailPrice);
            q.topGapSize >= MinGap && q.bottomGapSize >= MinGap
            && board.width * top as real < width && board.width * bottom as real < width
            && q.totalNails == 2 * bearers * (top + bottom) && q.totalNails > 0
            && q.topBoardsTotal == TotalPrice(board.price, top)
            && q.bottomBoardsTotal == TotalPrice(board.price, bottom)
            && q.bearersTotal == TotalPrice(bearer.price, bearers)
            && q.nailsTotal == TotalPrice(nailPrice, 2 * bearers * (top + bottom))
            && q.totalPrice == q.topBoardsTotal + q.bottomBoardsTotal + q.bearersTotal + q.nailsTotal
  {
    ValidImplies(width, board.width, top);
    ValidImplies(width, board.width, bottom);
    assert top * bearers * 2 + bottom * bearers * 2 == 2 * bearers * (top + bottom);
    assert bearers * (top + bottom) > 0 by {
      assert top + bottom > 0;
    }
  }

  /** A fit test's message, for a result known to be invalid. */
  function FitMessage(v: Validation, prefix: string): string {
    match v
    case Invalid(e) => prefix + ErrorMessage(e)
    case Valid => ""
  }

  function SizeWidth(s: Option<SizeSpec>): real {
    if s.Some? then s.value.width else 0.0
  }

  /** The two fit tests, top deck first. */
  function FitChecks(width: real, boardWidth: real, top: int, bottom: int): seq<Check<string>> {
    var topFit := ValidateInputs(width, boardWidth, top);
    var bottomFit := ValidateInputs(width, boardWidth, bottom);
    [ Check(topFit.Valid?, FitMessage(topFit, "Top boards: ")),
      Check(bottomFit.Valid?, FitMessage(bottomFit, "Bottom boards: ")) ]
  }

  /** The fit tests fail as the handlers' last two returns. */
  lemma FitOutcome(width: real, boardWidth: real, top: int, bottom: int)
    ensures FirstFailure(FitChecks(width, boardWidth, top, bottom))
            == match ValidateInputs(width, boardWidth, top)
               case Invalid(e) => Some(TopFitMessage(e))
               case Valid =>
                 match ValidateInputs(width, boardWidth, bottom)
                 case Invalid(e) => Some(BottomFitMessage(e))
                 case Valid => None
  {
    var cs := FitChecks(width, boardWidth, top, bottom);
    assert cs[1..][1..] == [];
  }
}
