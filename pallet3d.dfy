/** The submitted-quote 3D model (src/components/Pallet3D.jsx:106-296): boards
    placed by an index formula, bearers of a fixed 75 mm depth spread flush
    along the length, and two nails per board and bearer crossing. */
module Pallet3DModel {
  import opened Wrappers
  import opened Calculations
  import opened SubmitQuote
  import opened Pallet3DLive

  /** The fixed board thickness and bearer depth, in scene units. */
  const BoardThickness: real := 0.22
  const BearerDepth: real := 0.75

  /** The centre of board i: the first half a board from the left end, each
      next one a board width plus a gap further on. */
  function BoardCentre(palletWidth: real, boardWidth: real, gap: real, i: int): real {
    if i == 0 then -palletWidth / 2.0 + boardWidth / 2.0
    else -palletWidth / 2.0 + boardWidth / 2.0 + i as real * (boardWidth + gap)
  }

  /** One deck's board centres. */
  function Centres(palletWidth: real, boardWidth: real, gap: real, n: int): (xs: seq<real>)
    ensures |xs| == Drawn(n)
  {
    seq(Drawn(n), i requires 0 <= i < Drawn(n) => BoardCentre(palletWidth, boardWidth, gap, i))
  }

  /** The two nails of a board over each bearer, 0.15 board widths either
      side of its centre. */
  function NailPairs(x: real, boardWidth: real, zs: seq<real>): (nails: seq<Nail>)
    ensures |nails| == 2 * |zs|
  {
    if zs == [] then []
    else [Nail(x - boardWidth * 0.15, zs[0]), Nail(x + boardWidth * 0.15, zs[0])]
         + NailPairs(x, boardWidth, zs[1..])
  }

  function DeckNails(xs: seq<real>, boardWidth: real, zs: seq<real>): (nails: seq<Nail>)
    ensures |nails| == 2 * |xs| * |zs|
  {
    if xs == [] then []
    else
      var rest := DeckNails(xs[1..], boardWidth, zs);
      assert 2 * |zs| + 2 * (|xs| - 1) * |zs| == 2 * |xs| * |zs|;
      NailPairs(xs[0], boardWidth, zs) + rest
  }

  /** The drawn model. */
  datatype Structure = Structure(top: seq<real>, bottom: seq<real>, bearers: seq<real>,
                                 topNails: seq<Nail>, bottomNails: seq<Nail>,
                                 topGapLabel: bool, bottomGapLabel: bool)

  /** `Pallet3D`: nothing without a quote; otherwise both decks, the
      bearers, the nails, and a gap label for a deck of more than one board. */
  function Model(quote: Option<QuoteData>): (r: Option<Structure>)
    ensures r.None? <==> quote.None?
  {
    match quote
    case None => None
    case Some(q) =>
      var w := q.palletWidth * Scale;
      var bw := q.boardWidth * Scale;
      var zs := BearerPositions(q.palletLength * Scale, BearerDepth, q.numberOfBearers);
      var top := Centres(w, bw, q.topGapSize * Scale, q.numberOfTopBoards);
      var bottom := Centres(w, bw, q.bottomGapSize * Scale, q.numberOfBottomBoards);
      Some(Structure(top, bottom, zs, DeckNails(top, bw, zs), DeckNails(bottom, bw, zs),
                     q.numberOfTopBoards > 1, q.numberOfBottomBoards > 1))
  }

  /** The index formula places every board where the live preview's
      running loop puts it for a row without leaders. */
  lemma CentresMatchLiveRow(palletWidth: real, boardWidth: real, gap: real, n: int, i: int)
    requires 0 <= i < Drawn(n)
    ensures var r := RowSpec(n, -palletWidth / 2.0, boardWidth, 0.0, boardWidth, 0.0, false, gap);
            Centres(palletWidth, boardWidth, gap, n)[i] == Row(r)[i].xPos
  {
    var r := RowSpec(n, -palletWidth / 2.0, boardWidth, 0.0, boardWidth, 0.0, false, gap);
    PlainStart(r, i);
  }

  /** For a valid deck the last board's far edge is within the gap's
      rounding of the pallet's far edge. */
  lemma LastBoardFlush(palletWidth: real, boardWidth: real, n: int)
    requires n >= 2
    ensures var w := palletWidth * Scale;
            var bw := boardWidth * Scale;
            var k := (n - 1) as real;
            var edge := Centres(w, bw, GapSize(palletWidth, boardWidth, n) * Scale, n)[n - 1] + bw / 2.0;
            -(0.005 * k) * Scale < edge - w / 2.0 <= 0.005 * k * Scale
  {
    var w := palletWidth * Scale;
    var bw := boardWidth * Scale;
    var k := (n - 1) as real;
    var gap := GapSize(palletWidth, boardWidth, n);
    GapFlushEdges(palletWidth, boardWidth, n);
    var excess := boardWidth * n as real + gap * k - palletWidth;
    var edge := Centres(w, bw, gap * Scale, n)[n - 1] + bw / 2.0;
    assert edge == -w / 2.0 + bw + k * (bw + gap * Scale);
    assert edge - w / 2.0 == excess * Scale;
  }

  /** The model of an emitted quote draws exactly its counts, its bearers
      flush with both ends, and as many nails as the quote prices. */
  lemma ModelMatchesQuote(q: QuoteData)
    requires q.numberOfTopBoards > 0 && q.numberOfBottomBoards > 0 && q.numberOfBearers > 0
    requires q.totalNails == 2 * q.numberOfBearers * (q.numberOfTopBoards + q.numberOfBottomBoards)
    ensures var s := Model(Some(q)).value;
            |s.top| == q.numberOfTopBoards && |s.bottom| == q.numberOfBottomBoards
            && |s.bearers| == q.numberOfBearers
            && |s.topNails| + |s.bottomNails| == q.totalNails
            && (s.topGapLabel <==> q.numberOfTopBoards >= 2)
            && (q.numberOfBearers >= 2 ==>
                  s.bearers[q.numberOfBearers - 1] + BearerDepth / 2.0 == q.palletLength * Scale / 2.0)
  {
    var s := Model(Some(q)).value;
    var b := q.numberOfBearers;
    assert 2 * q.numberOfTopBoards * b + 2 * q.numberOfBottomBoards * b
           == 2 * b * (q.numberOfTopBoards + q.numberOfBottomBoards);
    if b >= 2 {
      BearersFlush(q.palletLength * Scale, BearerDepth, b);
    }
  }
}
