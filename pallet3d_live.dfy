/** Placement arithmetic of the live 3D preview
    (src/components/Pallet3DLive.jsx:138-224): boards laid left to right by a
    running position, bearers spread flush along the depth, two nails per
    board and bearer crossing. Lengths are scaled by 0.01 (1 mm = 0.01
    units), as in the source. */
module Pallet3DLive {
  import opened Wrappers

  /** Millimetres to scene units. */
  const Scale: real := 0.01

  /** What the preview reads of one deck. Every key is optional: a producer
      that does not set it leaves the preview to its fallback. */
  datatype DeckPreview = DeckPreview(
    boardWidth: Option<real>, boardThickness: Option<real>,
    leaderWidth: Option<real>, leaderThickness: Option<real>,
    useCustomLeaders: Option<bool>, count: int, gapSize: real)

  /** The `previewData` object. */
  datatype PreviewData = PreviewData(
    palletWidth: real, palletLength: real,
    top: DeckPreview, bottom: DeckPreview,
    bearerWidth: Option<real>, bearerHeight: Option<real>,
    numberOfBearers: int)

  /** `x || d` on an optional number: a missing or zero value falls back. */
  function OrElse(x: Option<real>, d: real): (r: real)
    ensures x.Some? && x.value != 0.0 ==> r == x.value
    ensures x.None? || x.value == 0.0 ==> r == d
  {
    if x.Some? && x.value != 0.0 then x.value else d
  }

  /** One drawn board: the centre's x, its width and thickness, and whether
      it is an edge (leader) board. */
  datatype BoardDatum = BoardDatum(xPos: real, width: real, thickness: real, isLeader: bool)

  /** The inputs of one `topBoardData`/`bottomBoardData` loop, in scene units. */
  datatype RowSpec = RowSpec(count: int, left: real, boardW: real, boardT: real,
                             leaderW: real, leaderT: real, useLeaders: bool, gap: real)

  /** Board dimensions after the preview's fallbacks: 100 x 22 mm, and a
      leader that falls back to the board. */
  function RowOf(d: DeckPreview, palletWidth: real): RowSpec {
    RowSpec(d.count, -(palletWidth * Scale) / 2.0,
            OrElse(d.boardWidth, 100.0) * Scale,
            OrElse(d.boardThickness, 22.0) * Scale,
            OrElse(d.leaderWidth, OrElse(d.boardWidth, 100.0)) * Scale,
            OrElse(d.leaderThickness, OrElse(d.boardThickness, 22.0)) * Scale,
            d.useCustomLeaders.GetOr(false),
            d.gapSize * Scale)
  }

  /** The number of boards a loop `for (i = 0; i < n; i++)` draws. */
  function Drawn(n: int): nat {
    if n > 0 then n else 0
  }

  predicate IsLeaderAt(r: RowSpec, i: int) {
    r.useLeaders && (i == 0 || i == r.count - 1)
  }

  function WidthAt(r: RowSpec, i: int): real {
    if IsLeaderAt(r, i) then r.leaderW else r.boardW
  }

  function ThicknessAt(r: RowSpec, i: int): real {
    if IsLeaderAt(r, i) then r.leaderT else r.boardT
  }

  /** The left edge of board i: the first starts at the row's left end, and
      each next one a board width plus a gap further on. */
  function StartAt(r: RowSpec, i: nat): real {
    if i == 0 then r.left else StartAt(r, i - 1) + WidthAt(r, i - 1) + r.gap
  }

  function DatumAt(r: RowSpec, i: nat): BoardDatum {
    BoardDatum(StartAt(r, i) + WidthAt(r, i) / 2.0, WidthAt(r, i), ThicknessAt(r, i), IsLeaderAt(r, i))
  }

  /** The row the loop produces: as many boards as the loop runs, the first
      starting at the left end and each next one a gap after the one before
      it ends. */
  function Row(r: RowSpec): (b: seq<BoardDatum>)
    ensures |b| == Drawn(r.count)
    ensures |b| > 0 ==> b[0].xPos - b[0].width / 2.0 == r.left
    ensures forall i :: 1 <= i < |b| ==>
              b[i].xPos - b[i].width / 2.0 == b[i - 1].xPos + b[i - 1].width / 2.0 + r.gap
  {
    seq(Drawn(r.count), i requires 0 <= i < Drawn(r.count) => DatumAt(r, i))
  }

  /** The `topBoardData` loop: `currentX` starts at the left end and moves
      on by each board's width and the gap. */
  method PlaceBoards(r: RowSpec) returns (data: seq<BoardDatum>)
    ensures data == Row(r)
  {
    if r.count == 0 {
      return [];
    }
    data := [];
    var currentX := r.left;
    var i := 0;
    while i < r.count
      invariant 0 <= i <= Drawn(r.count)
      invariant |data| == i
      invariant currentX == StartAt(r, i)
      invariant forall j :: 0 <= j < i ==> data[j] == DatumAt(r, j)
    {
      var isEdge := i == 0 || i == r.count - 1;
      var boardW := if r.useLeaders && isEdge then r.leaderW else r.boardW;
      var boardT := if r.useLeaders && isEdge then r.leaderT else r.boardT;
      data := data + [BoardDatum(currentX + boardW / 2.0, boardW, boardT, r.useLeaders && isEdge)];
      currentX := currentX + boardW + r.gap;
      i := i + 1;
    }
  }

  /** With custom leaders exactly the first and the last board are leaders;
      without, none is. */
  lemma LeaderFlags(r: RowSpec, i: int)
    requires 0 <= i < Drawn(r.count)
    ensures Row(r)[i].isLeader <==> r.useLeaders && (i == 0 || i == r.count - 1)
    ensures Row(r)[i].width == (if Row(r)[i].isLeader then r.leaderW else r.boardW)
  {
  }

  /** Without leaders, board i starts i pitches (board plus gap) from the
      left end. */
  lemma {:induction false} PlainStart(r: RowSpec, i: nat)
    requires !r.useLeaders
    ensures StartAt(r, i) == r.left + i as real * (r.boardW + r.gap)
  {
    if i > 0 {
      PlainStart(r, i - 1);
      assert i as real * (r.boardW + r.gap) == (i - 1) as real * (r.boardW + r.gap) + (r.boardW + r.gap);
    }
  }

  /** With leaders, every board after the first starts behind one leader,
      i - 1 inner boards and i gaps. */
  lemma {:induction false} LeaderStart(r: RowSpec, i: nat)
    requires r.useLeaders && 1 <= i < r.count
    ensures StartAt(r, i) == r.left + r.leaderW + (i - 1) as real * r.boardW + i as real * r.gap
  {
    if i > 1 {
      LeaderStart(r, i - 1);
      assert WidthAt(r, i - 1) == r.boardW;
      assert (i - 1) as real * r.boardW == (i - 2) as real * r.boardW + r.boardW;
      assert i as real * r.gap == (i - 1) as real * r.gap + r.gap;
    }
  }

  /** The far edge of the last board of a row with at least one board. */
  function RightEdge(r: RowSpec): real
    requires r.count >= 1
  {
    StartAt(r, r.count - 1) + WidthAt(r, r.count - 1)
  }

  /** The last board ends after all boards and count - 1 gaps: n plain
      widths, or 2 leader widths and n - 2 inner widths. */
  lemma RightEdgeClosedForm(r: RowSpec)
    requires r.count >= 2
    ensures !r.useLeaders ==>
              RightEdge(r) == r.left + r.count as real * r.boardW + (r.count - 1) as real * r.gap
    ensures r.useLeaders ==>
              RightEdge(r) == r.left + 2.0 * r.leaderW + (r.count - 2) as real * r.boardW
                              + (r.count - 1) as real * r.gap
  {
    var n := r.count;
    if r.useLeaders {
      LeaderStart(r, n - 1);
    } else {
      PlainStart(r, n - 1);
      assert (n - 1) as real * (r.boardW + r.gap) + r.boardW
             == n as real * r.boardW + (n - 1) as real * r.gap;
    }
  }

  /** `bearerPositions`: bearer centres along the depth, the first flush
      with the front and each next one a bearer depth plus a gap further
      on; one bearer has no gap. */
  function BearerGap(depth: real, bearerDepth: real, n: int): real {
    var gapCount := n - 1;
    if gapCount > 0 then (depth - bearerDepth * n as real) / gapCount as real else 0.0
  }

  function BearerPositions(depth: real, bearerDepth: real, n: int): (zs: seq<real>)
    ensures |zs| == Drawn(n)
  {
    var g := BearerGap(depth, bearerDepth, n);
    seq(Drawn(n), i requires 0 <= i < Drawn(n) =>
      if i == 0 then -depth / 2.0 + bearerDepth / 2.0
      else -depth / 2.0 + bearerDepth / 2.0 + i as real * (bearerDepth + g))
  }

  /** With two or more bearers the last one's far face is flush with the
      back of the pallet. */
  lemma BearersFlush(depth: real, bearerDepth: real, n: int)
    requires n >= 2
    ensures BearerPositions(depth, bearerDepth, n)[n - 1] + bearerDepth / 2.0 == depth / 2.0
  {
    var g := BearerGap(depth, bearerDepth, n);
    SpreadFills(g, (n - 1) as real, depth, bearerDepth * n as real);
    assert (n - 1) as real * (bearerDepth + g) == (n - 1) as real * bearerDepth + (n - 1) as real * g;
    assert (n - 1) as real * bearerDepth + bearerDepth == bearerDepth * n as real;
  }

  /** k gaps of (span - used)/k fill the span exactly. */
  lemma SpreadFills(g: real, k: real, span: real, used: real)
    requires k > 0.0 && g == (span - used) / k
    ensures k * g == span - used
  {
  }

  /** One nail: its x and z position. */
  datatype Nail = Nail(x: real, z: real)

  /** The two nails of one board over each bearer, 0.2 board widths either
      side of the board's centre. */
  function PairRow(b: BoardDatum, zs: seq<real>): (nails: seq<Nail>)
    ensures |nails| == 2 * |zs|
  {
    if zs == [] then []
    else [Nail(b.xPos - b.width * 0.2, zs[0]), Nail(b.xPos + b.width * 0.2, zs[0])] + PairRow(b, zs[1..])
  }

  /** All nails of one deck, board by board. */
  function NailsFor(boards: seq<BoardDatum>, zs: seq<real>): (nails: seq<Nail>)
    ensures |nails| == 2 * |boards| * |zs|
  {
    if boards == [] then []
    else
      var rest := NailsFor(boards[1..], zs);
      assert |rest| == 2 * (|boards| - 1) * |zs|;
      assert 2 * |zs| + 2 * (|boards| - 1) * |zs| == 2 * |boards| * |zs|;
      PairRow(boards[0], zs) + rest
  }

  /** The whole preview: both rows, the bearers and the nails. */
  datatype Scene = Scene(top: seq<BoardDatum>, bottom: seq<BoardDatum>, bearers: seq<real>,
                         topNails: seq<Nail>, bottomNails: seq<Nail>)

  function SceneOf(p: PreviewData): (s: Scene)
    ensures |s.top| == Drawn(p.top.count) && |s.bottom| == Drawn(p.bottom.count)
    ensures |s.bearers| == Drawn(p.numberOfBearers)
    ensures |s.topNails| == 2 * |s.top| * |s.bearers| && |s.bottomNails| == 2 * |s.bottom| * |s.bearers|
  {
    var zs := BearerPositions(p.palletLength * Scale, OrElse(p.bearerHeight, 38.0) * Scale, p.numberOfBearers);
    var top := Row(RowOf(p.top, p.palletWidth));
    var bottom := Row(RowOf(p.bottom, p.palletWidth));
    Scene(top, bottom, zs, NailsFor(top, zs), NailsFor(bottom, zs))
  }

  /** The preview draws exactly the counts it is given (none for a count of
      0 or below) and two nails per board and bearer crossing. */
  lemma SceneCounts(p: PreviewData)
    ensures var s := SceneOf(p);
            |s.top| == Drawn(p.top.count) && |s.bottom| == Drawn(p.bottom.count)
            && |s.bearers| == Drawn(p.numberOfBearers)
            && |s.topNails| + |s.bottomNails|
               == 2 * Drawn(p.numberOfBearers) * (Drawn(p.top.count) + Drawn(p.bottom.count))
  {
    var s := SceneOf(p);
    var t, u, b := |s.top|, |s.bottom|, |s.bearers|;
    assert t == Drawn(p.top.count) && u == Drawn(p.bottom.count) && b == Drawn(p.numberOfBearers);
    assert |s.topNails| == 2 * t * b && |s.bottomNails| == 2 * u * b;
    NailSum(t, u, b);
  }

  lemma NailSum(t: int, u: int, b: int)
    ensures 2 * t * b + 2 * u * b == 2 * b * (t + u)
  {
  }

  /** `hasComponents`: some count is positive. */
  predicate HasComponents(p: PreviewData) {
    p.top.count > 0 || p.bottom.count > 0 || p.numberOfBearers > 0
  }

  /** A deck's gap dimension is drawn only with at least two boards and a
      scaled gap above 0.001 units. */
  predicate ShowsGapLabel(d: DeckPreview) {
    d.count >= 2 && d.gapSize * Scale > 0.001 && Drawn(d.count) >= 2
  }

  /** Without components the preview draws nothing but the ghost outline;
      a gap label needs at least two drawn boards, and a gap above 0.1 mm. */
  lemma HasComponentsExact(p: PreviewData)
    ensures !HasComponents(p) <==> SceneOf(p).top == [] && SceneOf(p).bottom == [] && SceneOf(p).bearers == []
    ensures ShowsGapLabel(p.top) ==> |SceneOf(p).top| >= 2 && p.top.gapSize > 0.1
    ensures ShowsGapLabel(p.bottom) ==> |SceneOf(p).bottom| >= 2 && p.bottom.gapSize > 0.1
  {
  }
}
