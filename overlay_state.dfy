/** The form of the builder overlay (src/components/PalletBuilderOverlay.jsx:32-51)
    and the counts its derived values read through the display caps. */
module OverlayState {
  import opened Wrappers
  import opened Catalog
  import opened FormInputs
  import opened OverlayLimits

  /** The selections of one deck (top or bottom): board type and size, the
      board count, and the optional edge ("leader") boards. */
  datatype Deck = Deck(boardType: string, boardSize: string, count: Field<int>,
                       useLeaders: bool, leaderType: string, leaderSize: string)

  /** The overlay's form state. */
  datatype Form = Form(palletWidth: Field<real>, palletLength: Field<real>,
                       top: Deck, bottom: Deck,
                       bearerType: string, bearerSize: string, bearers: Field<int>)

  /** The empty form of the initial state and of `handleClear`. */
  const EmptyDeck: Deck := Deck("", "", Blank, false, "", "")
  const EmptyForm: Form := Form(Blank, Blank, EmptyDeck, EmptyDeck, "", "", Blank)

  /** `parseInt(displayedTopBoards) || 0`: a deck's count as the preview
      and the quote read it, through the cap that `timberData` implies. */
  function DeckCount(types: seq<TimberType>, f: Form, d: Deck): int {
    IntOr(Displayed(d.count, DeckLimit(types, f.palletWidth, d.boardType, d.boardSize)), 0)
  }

  function BearerCount(types: seq<TimberType>, f: Form): int {
    IntOr(Displayed(f.bearers, BearerLimit(types, f.palletLength, f.bearerType, f.bearerSize)), 0)
  }

  /** The gap between n boards of which the two outer ones are leaders:
      the span left by 2 leaders and n - 2 inner boards, over n - 1 gaps,
      not rounded. */
  function MixedGap(width: real, leaderWidth: real, boardWidth: real, n: int): real
    requires n >= 2
  {
    (width - (2.0 * leaderWidth + (n - 2) as real * boardWidth)) / (n - 1) as real
  }

  /** The counts read downstream respect every positive limit. */
  lemma CountsCapped(types: seq<TimberType>, f: Form)
    ensures var limit := DeckLimit(types, f.palletWidth, f.top.boardType, f.top.boardSize);
            limit > 0 ==> DeckCount(types, f, f.top) <= limit
    ensures var limit := DeckLimit(types, f.palletWidth, f.bottom.boardType, f.bottom.boardSize);
            limit > 0 ==> DeckCount(types, f, f.bottom) <= limit
    ensures var limit := BearerLimit(types, f.palletLength, f.bearerType, f.bearerSize);
            limit > 0 ==> BearerCount(types, f) <= limit
  {
    DisplayedCapped(f.top.count, DeckLimit(types, f.palletWidth, f.top.boardType, f.top.boardSize));
    DisplayedCapped(f.bottom.count, DeckLimit(types, f.palletWidth, f.bottom.boardType, f.bottom.boardSize));
    DisplayedCapped(f.bearers, BearerLimit(types, f.palletLength, f.bearerType, f.bearerSize));
  }
}
