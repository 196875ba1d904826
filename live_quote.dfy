/** The overlay's progressive quote, `liveQuote`
    (src/components/PalletBuilderOverlay.jsx:537-715): each deck is priced
    as leaders plus inner boards or as plain boards, bearers and nails are
    added when known, and a running total accumulates the subtotals. */
module LiveQuote {
  import opened Wrappers
  import opened Rounding
  import opened Catalog
  import opened FormInputs
  import opened Calculations
  import opened OverlayState

  /** What the quote reports for one deck: the leader switch, the split
      into leaders and inner boards, the unit prices, the subtotals and the
      gap. */
  datatype DeckQuote = DeckQuote(useLeaders: bool, leaderCount: int, innerBoards: int,
                                 pricePerBoard: real, pricePerLeader: real,
                                 leadersTotal: real, boardsTotal: real, gapSize: real)

  /** The names a deck's selections show: timber type names and size
      dimensions, each '' when it does not resolve. */
  datatype DeckNames = DeckNames(boardTimberType: string, boardSize: string,
                                 leaderTimberType: string, leaderSize: string)

  /** Every field `liveQuote` returns. */
  datatype Quote = Quote(
    top: DeckQuote, bottom: DeckQuote, topNames: DeckNames, bottomNames: DeckNames,
    numberOfTopBoards: int, numberOfBottomBoards: int, numberOfBearers: int,
    bearerTimberType: string, bearerSize: string, pricePerBearer: real,
    bearersTotal: real, totalNails: int, pricePerNail: real, nailsTotal: real,
    totalPrice: real, palletWidth: real, palletLength: real,
    topBoardWidth: real, bottomBoardWidth: real,
    isComplete: bool, hasAnyPrice: bool)

  /** `size?.width || 0`. */
  function WidthOrZero(s: Option<SizeSpec>): real {
    if s.Some? then s.value.width else 0.0
  }

  /** `size?.pricePerBoard || 0`. */
  function PriceOrZero(s: Option<SizeSpec>): real {
    if s.Some? then s.value.price else 0.0
  }

  /** One deck of the quote: two leaders when leaders are on, the leader
      size resolves and there are at least two boards, the rest inner boards
      priced only when the board size resolves; otherwise every board at the
      board price when that resolves. The gap is computed only for a
      positive width. Leaders and inner boards always add up to the count. */
  function QuoteDeck(count: int, width: real, board: Option<SizeSpec>,
                     useLeaders: bool, leader: Option<SizeSpec>): (dq: DeckQuote)
    ensures dq.leaderCount + dq.innerBoards == count
    ensures dq.leaderCount == 2 <==> useLeaders && leader.Some? && count >= 2
    ensures dq.leaderCount == 0 <==> !(useLeaders && leader.Some? && count >= 2)
    ensures dq.leaderCount == 2 ==> dq.leadersTotal == TotalPrice(leader.value.price, 2)
    ensures dq.leaderCount == 0 ==> dq.leadersTotal == 0.0
    ensures dq.boardsTotal == if board.Some? && dq.innerBoards > 0 then TotalPrice(board.value.price, dq.innerBoards) else 0.0
    ensures width > 0.0 && dq.leaderCount == 2 ==> dq.gapSize == MixedGap(width, leader.value.width, WidthOrZero(board), count)
    ensures width > 0.0 && dq.leaderCount == 0 && board.Some? && count > 0 ==> dq.gapSize == GapSize(width, board.value.width, count)
    ensures width <= 0.0 || count <= 0 || (dq.leaderCount == 0 && board.None?) ==> dq.gapSize == 0.0
  {
    if count > 0 && useLeaders && leader.Some? && count >= 2 then
      var inner := count - 2;
      DeckQuote(useLeaders, 2, inner, PriceOrZero(board), PriceOrZero(leader), TotalPrice(leader.value.price, 2),
                if board.Some? && inner > 0 then TotalPrice(board.value.price, inner) else 0.0,
                if width > 0.0 && count > 1 then MixedGap(width, leader.value.width, WidthOrZero(board), count) else 0.0)
    else if count > 0 && board.Some? then
      DeckQuote(useLeaders, 0, count, PriceOrZero(board), PriceOrZero(leader), 0.0, TotalPrice(board.value.price, count),
                if width > 0.0 then GapSize(width, board.value.width, count) else 0.0)
    else
      DeckQuote(useLeaders, 0, count, PriceOrZero(board), PriceOrZero(leader), 0.0, 0.0, 0.0)
  }

  /** Two nails for each board over each bearer, per deck, counted only
      when both counts are positive. */
  function NailCount(top: int, bottom: int, bearers: int): int {
    (if top > 0 && bearers > 0 then top * bearers * 2 else 0)
    + (if bottom > 0 && bearers > 0 then bottom * bearers * 2 else 0)
  }

  /** The resolved selections the quote reads from `prices`. */
  function TopBoard(p: PriceTable, f: Form): Option<SizeSpec> {
    ResolveSize(p.timberTypes, f.top.boardType, f.top.boardSize, BoardKind)
  }
  function TopLeader(p: PriceTable, f: Form): Option<SizeSpec> {
    ResolveSize(p.timberTypes, f.top.leaderType, f.top.leaderSize, BoardKind)
  }
  function BottomBoard(p: PriceTable, f: Form): Option<SizeSpec> {
    ResolveSize(p.timberTypes, f.bottom.boardType, f.bottom.boardSize, BoardKind)
  }
  function BottomLeader(p: PriceTable, f: Form): Option<SizeSpec> {
    ResolveSize(p.timberTypes, f.bottom.leaderType, f.bottom.leaderSize, BoardKind)
  }
  function Bearer(p: PriceTable, f: Form): Option<SizeSpec> {
    ResolveSize(p.timberTypes, f.bearerType, f.bearerSize, BearerKind)
  }

  /** `type?.name || ''`. */
  function NameOrEmpty(t: Option<TimberType>): string {
    if t.Some? then t.value.name else ""
  }

  /** `size?.dimensions || ''`. */
  function DimensionsOrEmpty(s: Option<SizeSpec>): string {
    if s.Some? then s.value.dimensions else ""
  }

  /** The names shown for a deck's board and leader selections. */
  function NamesOf(p: PriceTable, d: Deck): DeckNames {
    DeckNames(NameOrEmpty(FindType(p.timberTypes, d.boardType)),
              DimensionsOrEmpty(ResolveSize(p.timberTypes, d.boardType, d.boardSize, BoardKind)),
              NameOrEmpty(FindType(p.timberTypes, d.leaderType)),
              DimensionsOrEmpty(ResolveSize(p.timberTypes, d.leaderType, d.leaderSize, BoardKind)))
  }

  /** A deck's leaders are acceptable: off, or their type and size resolve. */
  predicate LeadersValid(p: PriceTable, d: Deck) {
    !d.useLeaders
    || (FindType(p.timberTypes, d.leaderType).Some?
        && ResolveSize(p.timberTypes, d.leaderType, d.leaderSize, BoardKind).Some?)
  }

  /** `isComplete`. */
  predicate Complete(p: PriceTable, f: Form, width: real, length: real, top: int, bottom: int, bearers: int) {
    width > 0.0 && length > 0.0 && top > 0 && bottom > 0 && bearers > 0
    && FindType(p.timberTypes, f.top.boardType).Some?
    && FindType(p.timberTypes, f.bottom.boardType).Some?
    && FindType(p.timberTypes, f.bearerType).Some?
    && TopBoard(p, f).Some? && BottomBoard(p, f).Some? && Bearer(p, f).Some?
    && LeadersValid(p, f.top) && LeadersValid(p, f.bottom)
  }

  /** The quote as a value: every subtotal on its own, the total their sum.
      The counts are the capped counts read through the static catalog. */
  function QuoteOf(types: seq<TimberType>, p: PriceTable, f: Form): (q: Quote)
    ensures q.numberOfTopBoards == DeckCount(types, f, f.top)
    ensures q.numberOfBottomBoards == DeckCount(types, f, f.bottom)
    ensures q.numberOfBearers == BearerCount(types, f)
    ensures q.totalNails == NailCount(q.numberOfTopBoards, q.numberOfBottomBoards, q.numberOfBearers)
    ensures q.totalPrice == q.top.leadersTotal + q.top.boardsTotal + q.bottom.leadersTotal
                            + q.bottom.boardsTotal + q.bearersTotal + q.nailsTotal
  {
    QuoteFrom(p, f, RealOr(f.palletWidth, 0.0), RealOr(f.palletLength, 0.0),
              DeckCount(types, f, f.top), DeckCount(types, f, f.bottom), BearerCount(types, f))
  }

  /** The quote for the given width, length and counts. These come in as
      arguments, so the form's stored counts and dimensions are never read. */
  function QuoteFrom(p: PriceTable, f: Form, width: real, length: real, top: int, bottom: int, bearers: int): Quote {
    QuoteOfChoices(p, Choices(f), width, length, top, bottom, bearers)
  }

  /** The form's selections: the form with its stored counts and
      dimensions blank. */
  function Choices(f: Form): Form {
    f.(palletWidth := Blank, palletLength := Blank,
       top := f.top.(count := Blank), bottom := f.bottom.(count := Blank), bearers := Blank)
  }

  function QuoteOfChoices(p: PriceTable, f: Form, width: real, length: real, top: int, bottom: int, bearers: int): Quote {
    var tq := QuoteDeck(top, width, TopBoard(p, f), f.top.useLeaders, TopLeader(p, f));
    var bq := QuoteDeck(bottom, width, BottomBoard(p, f), f.bottom.useLeaders, BottomLeader(p, f));
    var bearer := Bearer(p, f);
    var bearersTotal := if bearer.Some? && bearers > 0 then TotalPrice(bearer.value.price, bearers) else 0.0;
    var nails := NailCount(top, bottom, bearers);
    var nailsTotal := if nails > 0 then TotalPrice(NailPrice(p), nails) else 0.0;
    var total := tq.leadersTotal + tq.boardsTotal + bq.leadersTotal + bq.boardsTotal + bearersTotal + nailsTotal;
    var bearerType := FindType(p.timberTypes, f.bearerType);
    Quote(tq, bq, NamesOf(p, f.top), NamesOf(p, f.bottom), top, bottom, bearers,
          NameOrEmpty(bearerType),
          DimensionsOrEmpty(bearer),
          PriceOrZero(bearer), bearersTotal, nails, NailPrice(p), nailsTotal, total,
          width, length, WidthOrZero(TopBoard(p, f)), WidthOrZero(BottomBoard(p, f)),
          Complete(p, f, width, length, top, bottom, bearers), total > 0.0)
  }

  /** One deck's block of the computation: prices the leaders and the
      boards in the source's order and adds each to the running total. */
  method PriceDeck(count: int, width: real, board: Option<SizeSpec>, useLeaders: bool,
                   leader: Option<SizeSpec>, runningIn: real)
    returns (dq: DeckQuote, runningTotal: real)
    ensures dq == QuoteDeck(count, width, board, useLeaders, leader)
    ensures runningTotal == runningIn + dq.leadersTotal + dq.boardsTotal
  {
    runningTotal := runningIn;
    var boardsTotal, leadersTotal, gapSize := 0.0, 0.0, 0.0;
    var innerBoards, leaderCount := count, 0;
    if count > 0 {
      if useLeaders && leader.Some? && count >= 2 {
        leaderCount := 2;
        innerBoards := count - 2;
        leadersTotal := TotalPrice(leader.value.price, 2);
        runningTotal := runningTotal + leadersTotal;
        if board.Some? && innerBoards > 0 {
          boardsTotal := TotalPrice(board.value.price, innerBoards);
          runningTotal := runningTotal + boardsTotal;
        }
        if width > 0.0 && count > 1 {
          var totalBoardsWidth := 2.0 * leader.value.width + innerBoards as real * WidthOrZero(board);
          gapSize := (width - totalBoardsWidth) / (count - 1) as real;
        }
      } else if board.Some? {
        boardsTotal := TotalPrice(board.value.price, count);
        runningTotal := runningTotal + boardsTotal;
        if width > 0.0 {
          gapSize := GapSize(width, board.value.width, count);
        }
      }
    }
    dq := DeckQuote(useLeaders, leaderCount, innerBoards, PriceOrZero(board), PriceOrZero(leader),
                    leadersTotal, boardsTotal, gapSize);
  }

  /** `liveQuote`: the running total accumulates the subtotals one block
      at a time and ends equal to their sum. */
  method ComputeLiveQuote(types: seq<TimberType>, p: PriceTable, f: Form) returns (q: Quote)
    ensures q == QuoteOf(types, p, f)
    ensures q.totalPrice == q.top.leadersTotal + q.top.boardsTotal + q.bottom.leadersTotal
                            + q.bottom.boardsTotal + q.bearersTotal + q.nailsTotal
    ensures q.hasAnyPrice <==> q.totalPrice > 0.0
  {
    var width := RealOr(f.palletWidth, 0.0);
    var length := RealOr(f.palletLength, 0.0);
    var top := DeckCount(types, f, f.top);
    var bottom := DeckCount(types, f, f.bottom);
    var bearers := BearerCount(types, f);
    q := QuoteWith(p, f, width, length, top, bottom, bearers);
  }

  /** The bearer and nail blocks of `liveQuote`: each subtotal is added to
      the running total when it is priced. */
  method PriceHardware(p: PriceTable, top: int, bottom: int, bearer: Option<SizeSpec>, bearers: int,
                       runningIn: real)
    returns (bearersTotal: real, totalNails: int, nailsTotal: real, runningTotal: real)
    ensures bearersTotal == if bearer.Some? && bearers > 0 then TotalPrice(bearer.value.price, bearers) else 0.0
    ensures totalNails == NailCount(top, bottom, bearers)
    ensures nailsTotal == if totalNails > 0 then TotalPrice(NailPrice(p), totalNails) else 0.0
    ensures runningTotal == runningIn + bearersTotal + nailsTotal
  {
    runningTotal := runningIn;
    bearersTotal := 0.0;
    if bearer.Some? && bearers > 0 {
      bearersTotal := TotalPrice(bearer.value.price, bearers);
      runningTotal := runningTotal + bearersTotal;
    }
    totalNails := 0;
    if top > 0 && bearers > 0 {
      totalNails := totalNails + top * bearers * 2;
    }
    if bottom > 0 && bearers > 0 {
      totalNails := totalNails + bottom * bearers * 2;
    }
    nailsTotal := 0.0;
    if totalNails > 0 {
      nailsTotal := TotalPrice(NailPrice(p), totalNails);
      runningTotal := runningTotal + nailsTotal;
    }
  }

  /** The body of `liveQuote` once the width, length and counts are read;
      only the form's selections are consulted. */
  method QuoteWith(p: PriceTable, f: Form, width: real, length: real, top: int, bottom: int, bearers: int)
    returns (q: Quote)
    ensures q == QuoteFrom(p, f, width, length, top, bottom, bearers)
  {
    var c := Choices(f);
    var runningTotal := 0.0;
    var tq, bq;
    tq, runningTotal := PriceDeck(top, width, TopBoard(p, c), c.top.useLeaders, TopLeader(p, c), runningTotal);
    bq, runningTotal := PriceDeck(bottom, width, BottomBoard(p, c), c.bottom.useLeaders, BottomLeader(p, c), runningTotal);
    var bearersTotal, totalNails, nailsTotal;
    bearersTotal, totalNails, nailsTotal, runningTotal := PriceHardware(p, top, bottom, Bearer(p, c), bearers, runningTotal);
    var bearer := Bearer(p, c);
    var nailPrice := NailPrice(p);
    var bearerType := FindType(p.timberTypes, c.bearerType);
    q := Quote(tq, bq, NamesOf(p, c.top), NamesOf(p, c.bottom), top, bottom, bearers,
               NameOrEmpty(bearerType),
               DimensionsOrEmpty(bearer),
               PriceOrZero(bearer), bearersTotal, totalNails, nailPrice, nailsTotal, runningTotal,
               width, length, WidthOrZero(TopBoard(p, c)), WidthOrZero(BottomBoard(p, c)),
               Complete(p, c, width, length, top, bottom, bearers), runningTotal > 0.0);
  }

  /** Quote gaps are computed only for a positive width and are not
      clamped: a crowded deck gets a negative gap. */
  lemma QuoteGapUnclamped()
    ensures QuoteDeck(3, 200.0, Some(SizeSpec("s", "100x22", 100.0, 22.0, 1.0)), false, None).gapSize == -50.0
    ensures forall count, board, useLeaders, leader ::
              QuoteDeck(count, 0.0, board, useLeaders, leader).gapSize == 0.0
  {
    Round2Cents(-5000);
  }

  /** The nail count: with a positive bearer count it is two per board per
      bearer over both decks (negative board counts add none), and 0
      without bearers. */
  lemma NailCountFormula(top: int, bottom: int, bearers: int)
    ensures bearers <= 0 ==> NailCount(top, bottom, bearers) == 0
    ensures bearers > 0 && top >= 0 && bottom >= 0 ==>
              NailCount(top, bottom, bearers) == 2 * bearers * (top + bottom)
    ensures NailCount(top, bottom, bearers) >= 0
    ensures top > 0 && bearers > 0 ==> NailCount(top, bottom, bearers) > 0
  {
    if bearers > 0 && top >= 0 && bottom >= 0 {
      assert top * bearers * 2 + bottom * bearers * 2 == 2 * bearers * (top + bottom);
    }
    if top > 0 && bearers > 0 {
      assert top * bearers > 0;
    }
    if bottom > 0 && bearers > 0 {
      assert bottom * bearers > 0;
    }
  }

  /** Every price in the table is non-negative. */
  predicate NonNegativePrices(p: PriceTable) {
    (forall t, s :: t in p.timberTypes && s in t.boardSizes ==> s.price >= 0.0)
    && (forall t, s :: t in p.timberTypes && s in t.bearerSizes ==> s.price >= 0.0)
    && (p.nailPricePerNail.Some? ==> p.nailPricePerNail.value >= 0.0)
  }

  /** A line price of a non-negative price and count is non-negative. */
  lemma TotalPriceNonNegative(price: real, quantity: int)
    requires price >= 0.0 && quantity >= 0
    ensures TotalPrice(price, quantity) >= 0.0
  {
    Round2Monotone(0.0, price * quantity as real);
    Round2Cents(0);
  }

  /** With non-negative prices every subtotal is non-negative, so the quote
      shows a price exactly when some subtotal is positive. */
  lemma AnyPriceIffSomeSubtotal(p: PriceTable, f: Form, width: real, length: real, top: int, bottom: int, bearers: int)
    requires NonNegativePrices(p)
    ensures var q := QuoteFrom(p, f, width, length, top, bottom, bearers);
            q.hasAnyPrice <==> (q.top.leadersTotal > 0.0 || q.top.boardsTotal > 0.0
                                || q.bottom.leadersTotal > 0.0 || q.bottom.boardsTotal > 0.0
                                || q.bearersTotal > 0.0 || q.nailsTotal > 0.0)
  {
    ResolvedDeckNonNegative(p, f.top, top, width);
    ResolvedDeckNonNegative(p, f.bottom, bottom, width);
    var bearer := Bearer(p, f);
    if bearer.Some? && bearers > 0 {
      ResolvedPriceNonNegative(p, f.bearerType, f.bearerSize, BearerKind);
      TotalPriceNonNegative(bearer.value.price, bearers);
    }
    NailCountFormula(top, bottom, bearers);
    if NailCount(top, bottom, bearers) > 0 {
      NailPriceNonNegative(p);
      TotalPriceNonNegative(NailPrice(p), NailCount(top, bottom, bearers));
    }
  }

  lemma NailPriceNonNegative(p: PriceTable)
    requires NonNegativePrices(p)
    ensures NailPrice(p) >= 0.0
  {
  }

  lemma ResolvedDeckNonNegative(p: PriceTable, d: Deck, count: int, width: real)
    requires NonNegativePrices(p)
    ensures var dq := QuoteDeck(count, width, ResolveSize(p.timberTypes, d.boardType, d.boardSize, BoardKind),
                                d.useLeaders, ResolveSize(p.timberTypes, d.leaderType, d.leaderSize, BoardKind));
            dq.leadersTotal >= 0.0 && dq.boardsTotal >= 0.0
  {
    var board := ResolveSize(p.timberTypes, d.boardType, d.boardSize, BoardKind);
    var leader := ResolveSize(p.timberTypes, d.leaderType, d.leaderSize, BoardKind);
    if board.Some? {
      ResolvedPriceNonNegative(p, d.boardType, d.boardSize, BoardKind);
    }
    if leader.Some? {
      ResolvedPriceNonNegative(p, d.leaderType, d.leaderSize, BoardKind);
    }
    DeckNonNegative(p, count, width, board, d.useLeaders, leader);
  }

  lemma ResolvedPriceNonNegative(p: PriceTable, typeId: string, sizeId: string, kind: SizeKind)
    requires NonNegativePrices(p)
    requires ResolveSize(p.timberTypes, typeId, sizeId, kind).Some?
    ensures ResolveSize(p.timberTypes, typeId, sizeId, kind).value.price >= 0.0
  {
    var t := FindType(p.timberTypes, typeId).value;
    var s := ResolveSize(p.timberTypes, typeId, sizeId, kind).value;
    assert t in p.timberTypes && s in Sizes(t, kind);
  }

  lemma DeckNonNegative(p: PriceTable, count: int, width: real, board: Option<SizeSpec>,
                        useLeaders: bool, leader: Option<SizeSpec>)
    requires board.Some? ==> board.value.price >= 0.0
    requires leader.Some? ==> leader.value.price >= 0.0
    ensures var dq := QuoteDeck(count, width, board, useLeaders, leader);
            dq.leadersTotal >= 0.0 && dq.boardsTotal >= 0.0
  {
    if count > 0 && useLeaders && leader.Some? && count >= 2 {
      TotalPriceNonNegative(leader.value.price, 2);
      if board.Some? && count - 2 > 0 {
        TotalPriceNonNegative(board.value.price, count - 2);
      }
    } else if count > 0 && board.Some? {
      TotalPriceNonNegative(board.value.price, count);
    }
  }

  /** A complete quote prices every part: both decks are priced from their
      resolved sizes, the bearers at the bearer price, and the nails for
      every crossing at the nail price. */
  lemma CompleteQuotePricesAll(p: PriceTable, f: Form, width: real, length: real, top: int, bottom: int, bearers: int)
    requires QuoteFrom(p, f, width, length, top, bottom, bearers).isComplete
    ensures width > 0.0 && length > 0.0 && top > 0 && bottom > 0 && bearers > 0
    ensures Bearer(p, f).Some? && TopBoard(p, f).Some? && BottomBoard(p, f).Some?
    ensures QuoteFrom(p, f, width, length, top, bottom, bearers).bearersTotal
            == TotalPrice(Bearer(p, f).value.price, bearers)
    ensures QuoteFrom(p, f, width, length, top, bottom, bearers).totalNails == 2 * bearers * (top + bottom) > 0
    ensures QuoteFrom(p, f, width, length, top, bottom, bearers).nailsTotal
            == TotalPrice(NailPrice(p), 2 * bearers * (top + bottom))
    ensures f.top.useLeaders ==> TopLeader(p, f).Some?
    ensures f.bottom.useLeaders ==> BottomLeader(p, f).Some?
  {
    assert Complete(p, f, width, length, top, bottom, bearers);
    NailCountFormula(top, bottom, bearers);
  }
}
