/** The overlay's `livePreviewData` (src/components/PalletBuilderOverlay.jsx:422-535):
    the dimensions and gaps handed to the live 3D preview, looked up in the
    static catalog with fixed fallbacks. */
module LivePreview {
  import opened Wrappers
  import opened Rounding
  import opened Catalog
  import opened FormInputs
  import opened Calculations
  import opened OverlayState
  import opened LiveQuote
  import opened Pallet3DLive

  /** A width and a thickness, in mm. */
  datatype Dims = Dims(width: real, thickness: real)

  /** The fallback sizes: a 100 x 22 board and a 75 x 38 bearer. */
  const DefaultBoard: Dims := Dims(100.0, 22.0)
  const DefaultBearer: Dims := Dims(75.0, 38.0)

  /** The dimensions of a selection: those of the chosen size when both
      selections are made and resolve, the given fallback otherwise. */
  function SelectedDims(types: seq<TimberType>, typeId: string, sizeId: string, kind: SizeKind,
                        fallback: Dims): (r: Dims)
    ensures typeId == "" || sizeId == "" || ResolveSize(types, typeId, sizeId, kind).None? ==> r == fallback
    ensures typeId != "" && sizeId != "" && ResolveSize(types, typeId, sizeId, kind).Some? ==>
              var s := ResolveSize(types, typeId, sizeId, kind).value;
              r == Dims(s.width, s.thickness) && s in Sizes(FindType(types, typeId).value, kind)
  {
    if typeId != "" && sizeId != "" then
      match ResolveSize(types, typeId, sizeId, kind)
      case Some(s) => Dims(s.width, s.thickness)
      case None => fallback
    else fallback
  }

  function BoardDims(types: seq<TimberType>, d: Deck): Dims {
    SelectedDims(types, d.boardType, d.boardSize, BoardKind, DefaultBoard)
  }

  /** The edge boards fall back to the deck's board; with leaders off they
      are the deck's board. */
  function LeaderDims(types: seq<TimberType>, d: Deck): Dims {
    if d.useLeaders then SelectedDims(types, d.leaderType, d.leaderSize, BoardKind, BoardDims(types, d))
    else BoardDims(types, d)
  }

  /** The bearer's width and height (its thickness). */
  function BearerDims(types: seq<TimberType>, f: Form): Dims {
    SelectedDims(types, f.bearerType, f.bearerSize, BearerKind, DefaultBearer)
  }

  /** The gap as written: the mixed-width formula only with leaders and
      more than two boards, the evenly spaced gap otherwise, 0 for fewer
      than two boards. */
  function PreviewGap(width: real, board: Dims, leader: Dims, useLeaders: bool, n: int): real {
    if n > 1 then
      if useLeaders && n > 2 then MixedGap(width, leader.width, board.width, n)
      else GapSize(width, board.width, n)
    else 0.0
  }

  /** `Math.max(0, gap)`. */
  function ClampGap(g: real): (r: real)
    ensures r >= 0.0 && r >= g
    ensures g >= 0.0 ==> r == g
    ensures g < 0.0 ==> r == 0.0
  {
    if g > 0.0 then g else 0.0
  }

  /** One deck of the preview data, every key present. */
  function DeckPreviewOf(types: seq<TimberType>, width: real, d: Deck, n: int): DeckPreview {
    var board := BoardDims(types, d);
    var leader := LeaderDims(types, d);
    DeckPreview(Some(board.width), Some(board.thickness), Some(leader.width), Some(leader.thickness),
                Some(d.useLeaders), n, ClampGap(PreviewGap(width, board, leader, d.useLeaders, n)))
  }

  /** `livePreviewData`, from the form and the static catalog: the capped
      counts, the parsed dimensions (0 when missing) and gaps never below 0. */
  function LivePreviewOf(types: seq<TimberType>, f: Form): (pd: PreviewData)
    ensures pd.top.count == DeckCount(types, f, f.top) && pd.bottom.count == DeckCount(types, f, f.bottom)
    ensures pd.numberOfBearers == BearerCount(types, f)
    ensures pd.palletWidth == RealOr(f.palletWidth, 0.0) && pd.palletLength == RealOr(f.palletLength, 0.0)
    ensures pd.top.gapSize >= 0.0 && pd.bottom.gapSize >= 0.0
  {
    var width := RealOr(f.palletWidth, 0.0);
    var bearer := BearerDims(types, f);
    PreviewData(width, RealOr(f.palletLength, 0.0),
                DeckPreviewOf(types, width, f.top, DeckCount(types, f, f.top)),
                DeckPreviewOf(types, width, f.bottom, DeckCount(types, f, f.bottom)),
                Some(bearer.width), Some(bearer.thickness), BearerCount(types, f))
  }

  /** Every catalog size has a positive width and thickness. */
  predicate PositiveDims(types: seq<TimberType>) {
    (forall t, s :: t in types && s in t.boardSizes ==> s.width > 0.0 && s.thickness > 0.0)
    && (forall t, s :: t in types && s in t.bearerSizes ==> s.width > 0.0 && s.thickness > 0.0)
  }

  lemma SelectedDimsPositive(types: seq<TimberType>, typeId: string, sizeId: string, kind: SizeKind, fallback: Dims)
    requires PositiveDims(types) && fallback.width > 0.0 && fallback.thickness > 0.0
    ensures var r := SelectedDims(types, typeId, sizeId, kind, fallback);
            r.width > 0.0 && r.thickness > 0.0
  {
    if typeId != "" && sizeId != "" && ResolveSize(types, typeId, sizeId, kind).Some? {
      var t := FindType(types, typeId).value;
      var s := ResolveSize(types, typeId, sizeId, kind).value;
      assert t in types && s in Sizes(t, kind);
    }
  }

  /** With a catalog of positive sizes the preview's own fallbacks never
      apply: every dimension it is handed is drawn as given. */
  lemma DeckDimsPassThrough(types: seq<TimberType>, width: real, d: Deck, n: int)
    requires PositiveDims(types)
    ensures var r := RowOf(DeckPreviewOf(types, width, d, n), width);
            r.boardW == BoardDims(types, d).width * Scale
            && r.boardT == BoardDims(types, d).thickness * Scale
            && r.leaderW == LeaderDims(types, d).width * Scale
            && r.leaderT == LeaderDims(types, d).thickness * Scale
            && r.useLeaders == d.useLeaders && r.count == n
  {
    SelectedDimsPositive(types, d.boardType, d.boardSize, BoardKind, DefaultBoard);
    SelectedDimsPositive(types, d.leaderType, d.leaderSize, BoardKind, BoardDims(types, d));
  }

  /** The preview draws the counts that the quote prices, and exactly as
      many nails as the quote prices: two per board per bearer. */
  lemma PreviewMatchesQuote(types: seq<TimberType>, p: PriceTable, f: Form)
    ensures var s := SceneOf(LivePreviewOf(types, f));
            var q := QuoteOf(types, p, f);
            |s.top| == Drawn(q.numberOfTopBoards) && |s.bottom| == Drawn(q.numberOfBottomBoards)
            && |s.bearers| == Drawn(q.numberOfBearers)
            && |s.topNails| + |s.bottomNails| == q.totalNails
  {
    SceneMatchesCounts(LivePreviewOf(types, f), QuoteOf(types, p, f));
  }

  /** A preview handed a quote's counts draws what that quote prices. */
  lemma SceneMatchesCounts(pd: PreviewData, q: Quote)
    requires pd.top.count == q.numberOfTopBoards && pd.bottom.count == q.numberOfBottomBoards
    requires pd.numberOfBearers == q.numberOfBearers
    requires q.totalNails == NailCount(q.numberOfTopBoards, q.numberOfBottomBoards, q.numberOfBearers)
    ensures var s := SceneOf(pd);
            |s.top| == Drawn(q.numberOfTopBoards) && |s.bottom| == Drawn(q.numberOfBottomBoards)
            && |s.bearers| == Drawn(q.numberOfBearers)
            && |s.topNails| + |s.bottomNails| == q.totalNails
  {
    SceneCounts(pd);
    DrawnNails(q.numberOfTopBoards, q.numberOfBottomBoards, q.numberOfBearers);
  }

  /** Drawing `Drawn` boards and bearers gives the quote's nail count. */
  lemma DrawnNails(top: int, bottom: int, bearers: int)
    ensures 2 * Drawn(bearers) * (Drawn(top) + Drawn(bottom)) == NailCount(top, bottom, bearers)
  {
    if bearers > 0 {
      var b := bearers;
      assert 2 * b * (Drawn(top) + Drawn(bottom)) == 2 * b * Drawn(top) + 2 * b * Drawn(bottom);
      assert top > 0 ==> 2 * b * Drawn(top) == top * b * 2;
      assert bottom > 0 ==> 2 * b * Drawn(bottom) == bottom * b * 2;
    }
  }

  /** A row whose gap is the mixed-width gap of its own leader and board
      widths ends exactly at the far edge of the pallet. */
  lemma MixedRowFlush(r: RowSpec, width: real, lw: real, bw: real)
    requires r.useLeaders && r.count >= 2
    requires r.left == -(width * Scale) / 2.0
    requires r.leaderW == lw * Scale && r.boardW == bw * Scale
    requires r.gap == MixedGap(width, lw, bw, r.count) * Scale
    ensures RightEdge(r) == width * Scale / 2.0
  {
    var n := r.count;
    var g := MixedGap(width, lw, bw, n);
    RightEdgeClosedForm(r);
    SpreadFills(g, (n - 1) as real, width, 2.0 * lw + (n - 2) as real * bw);
    assert (n - 1) as real * r.gap == ((n - 1) as real * g) * Scale;
    assert (n - 2) as real * r.boardW == ((n - 2) as real * bw) * Scale;
  }

  /** A row without leaders spaced by the rounded gap ends within half a
      hundredth of a millimetre per gap of the pallet's far edge. */
  lemma PlainRowFlush(r: RowSpec, width: real, bw: real)
    requires !r.useLeaders && r.count >= 2
    requires r.left == -(width * Scale) / 2.0
    requires r.boardW == bw * Scale
    requires r.gap == GapSize(width, bw, r.count) * Scale
    ensures var k := (r.count - 1) as real;
            -(0.005 * k) * Scale < RightEdge(r) - width * Scale / 2.0 <= 0.005 * k * Scale
  {
    var n := r.count;
    var k := (n - 1) as real;
    RightEdgeClosedForm(r);
    GapFlushEdges(width, bw, n);
    var excess := bw * n as real + GapSize(width, bw, n) * k - width;
    assert RightEdge(r) - width * Scale / 2.0 == excess * Scale;
  }

  /** The gap the overlay evidently intends: the mixed-width formula
      whenever leaders are on and there are two or more boards, since the
      preview draws both end boards as leaders from two boards on. */
  function PreviewGapCorrected(width: real, board: Dims, leader: Dims, useLeaders: bool, n: int): real {
    if n > 1 then
      if useLeaders then MixedGap(width, leader.width, board.width, n)
      else GapSize(width, board.width, n)
    else 0.0
  }

  function DeckPreviewCorrected(types: seq<TimberType>, width: real, d: Deck, n: int): DeckPreview {
    var board := BoardDims(types, d);
    var leader := LeaderDims(types, d);
    DeckPreview(Some(board.width), Some(board.thickness), Some(leader.width), Some(leader.thickness),
                Some(d.useLeaders), n, ClampGap(PreviewGapCorrected(width, board, leader, d.useLeaders, n)))
  }

  /** The corrected preview only differs from the written one for two
      boards with leaders. */
  lemma CorrectionOnlyForTwoLeaders(types: seq<TimberType>, width: real, d: Deck, n: int)
    requires !(d.useLeaders && n == 2)
    ensures DeckPreviewCorrected(types, width, d, n) == DeckPreviewOf(types, width, d, n)
  {
  }

  /** With the corrected gap, a deck with leaders whose boards fit in the
      width is drawn flush with both edges of the pallet, for every count
      of two or more. */
  lemma CorrectedLeadersFlush(types: seq<TimberType>, width: real, d: Deck, n: int)
    requires PositiveDims(types) && d.useLeaders && n >= 2
    requires MixedGap(width, LeaderDims(types, d).width, BoardDims(types, d).width, n) >= 0.0
    ensures RightEdge(RowOf(DeckPreviewCorrected(types, width, d, n), width)) == width * Scale / 2.0
  {
    var r := RowOf(DeckPreviewCorrected(types, width, d, n), width);
    SelectedDimsPositive(types, d.boardType, d.boardSize, BoardKind, DefaultBoard);
    SelectedDimsPositive(types, d.leaderType, d.leaderSize, BoardKind, BoardDims(types, d));
    MixedRowFlush(r, width, LeaderDims(types, d).width, BoardDims(types, d).width);
  }

  /** Likewise, without leaders the written gap draws the deck flush up to
      the rounding of the gap. */
  lemma PlainDeckFlush(types: seq<TimberType>, width: real, d: Deck, n: int)
    requires PositiveDims(types) && !d.useLeaders && n >= 2
    requires GapSize(width, BoardDims(types, d).width, n) >= 0.0
    ensures var k := (n - 1) as real;
            var edge := RightEdge(RowOf(DeckPreviewOf(types, width, d, n), width));
            -(0.005 * k) * Scale < edge - width * Scale / 2.0 <= 0.005 * k * Scale
  {
    DeckDimsPassThrough(types, width, d, n);
    PlainRowFlush(RowOf(DeckPreviewOf(types, width, d, n), width), width, BoardDims(types, d).width);
  }

  /** A one-type catalog with a 100 mm board and a 150 mm edge board. */
  const ExampleTypes: seq<TimberType> :=
    [TimberType("pine", "Pine", [SizeSpec("b100", "100x22", 100.0, 22.0, 2.5),
                                 SizeSpec("b150", "150x22", 150.0, 22.0, 3.5)], [])]

  const TwoLeaderDeck: Deck := Deck("pine", "b100", Entered(Some(2)), true, "pine", "b150")

  /** As written, two 150 mm leaders on a 1000 mm pallet are spaced by the
      800 mm gap of two 100 mm boards, so the row ends 100 mm past the
      pallet's edge (6 units against 5); the corrected gap of 700 mm ends
      it at the edge. */
  lemma TwoLeadersOverhang()
    ensures var r := RowOf(DeckPreviewOf(ExampleTypes, 1000.0, TwoLeaderDeck, 2), 1000.0);
            r.gap == 8.0 && RightEdge(r) == 6.0
    ensures RightEdge(RowOf(DeckPreviewCorrected(ExampleTypes, 1000.0, TwoLeaderDeck, 2), 1000.0)) == 5.0
  {
    var r := RowOf(DeckPreviewOf(ExampleTypes, 1000.0, TwoLeaderDeck, 2), 1000.0);
    assert BoardDims(ExampleTypes, TwoLeaderDeck) == Dims(100.0, 22.0);
    assert LeaderDims(ExampleTypes, TwoLeaderDeck) == Dims(150.0, 22.0);
    Round2Cents(80000);
    assert GapSize(1000.0, 100.0, 2) == 800.0;
    RightEdgeClosedForm(r);
    assert PositiveDims(ExampleTypes);
    CorrectedLeadersFlush(ExampleTypes, 1000.0, TwoLeaderDeck, 2);
  }
}
