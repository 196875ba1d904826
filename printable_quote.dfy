/** The printable quote sheet (src/components/PrintableQuote.jsx): the board
    and bearer dimensions read back from the "WxT" size strings, the pallet
    height and grand total, and the positions of the boards and bearers in
    the plan, front and side drawings. */
module PrintableQuotes {
  import opened Wrappers
  import opened Text
  import opened Rounding
  import opened Catalog
  import opened Calculations
  import opened Pallet3DLive
  import LiveQuote
  import SubmitQuote

  /** The keys the sheet reads from its `quoteData`; a key the quote does
      not carry is `None`. */
  datatype PrintInput = PrintInput(
    palletWidth: real, palletLength: real,
    boardSize: Option<string>, bearerSize: Option<string>, boardWidth: Option<real>,
    numberOfTopBoards: int, numberOfBottomBoards: int, numberOfBearers: int,
    totalPrice: real, topGapSize: Option<real>, bottomGapSize: Option<real>)

  // ---------------------------------------------------------------------
  // String splitting and `parseInt`

  /** `s.split(sep)`: the pieces between the separators, in order. */
  function Split(s: string, sep: char): (pieces: seq<string>)
    ensures |pieces| >= 1
    ensures forall i :: 0 <= i < |pieces| ==> sep !in pieces[i]
    decreases |s|
  {
    if s == [] then [[]]
    else
      var rest := Split(s[1..], sep);
      if s[0] == sep then [[]] + rest
      else [[s[0]] + rest[0]] + rest[1..]
  }

  /** The pieces put back together with the separator between them. */
  function Join(pieces: seq<string>, sep: char): string
    requires |pieces| >= 1
  {
    if |pieces| == 1 then pieces[0] else pieces[0] + [sep] + Join(pieces[1..], sep)
  }

  /** Splitting loses nothing: joining the pieces gives the string back. */
  lemma {:induction false} SplitJoin(s: string, sep: char)
    ensures Join(Split(s, sep), sep) == s
    decreases |s|
  {
    if s != [] {
      var rest := Split(s[1..], sep);
      SplitJoin(s[1..], sep);
      if s[0] == sep {
        assert ([[]] + rest)[1..] == rest;
      } else {
        var ps := [[s[0]] + rest[0]] + rest[1..];
        if |rest| == 1 {
          assert ps == [[s[0]] + rest[0]];
        } else {
          assert ps[1..] == rest[1..];
          assert Join(rest, sep) == rest[0] + [sep] + Join(rest[1..], sep);
        }
      }
    }
  }

  /** A string without the separator is one piece. */
  lemma {:induction false} SplitWithoutSep(s: string, sep: char)
    requires sep !in s
    ensures Split(s, sep) == [s]
    decreases |s|
  {
    if s != [] {
      assert s[0] != sep && sep !in s[1..];
      SplitWithoutSep(s[1..], sep);
      assert [s[0]] + s[1..] == s;
    }
  }

  /** Text before the first separator is the first piece; the rest splits
      on its own. */
  lemma {:induction false} SplitAtFirst(a: string, sep: char, b: string)
    requires sep !in a
    ensures Split(a + [sep] + b, sep) == [a] + Split(b, sep)
    decreases |a|
  {
    if a == [] {
      assert a + [sep] + b == [sep] + b;
      assert ([sep] + b)[1..] == b;
    } else {
      assert (a + [sep] + b)[1..] == a[1..] + [sep] + b;
      assert sep !in a[1..];
      SplitAtFirst(a[1..], sep, b);
      assert [a[0]] + a[1..] == a;
    }
  }

  predicate IsDigit(c: char) {
    '0' <= c <= '9'
  }

  /** The length of the leading run of digits. */
  function DigitRun(s: string): (k: nat)
    ensures k <= |s|
    ensures forall i :: 0 <= i < k ==> IsDigit(s[i])
    ensures k == |s| || !IsDigit(s[k])
  {
    if s == [] || !IsDigit(s[0]) then 0 else 1 + DigitRun(s[1..])
  }

  predicate AllDigits(s: string) {
    forall i :: 0 <= i < |s| ==> IsDigit(s[i])
  }

  /** The decimal value of a run of digits, most significant first. */
  function DigitsValue(ds: string): nat
    requires AllDigits(ds)
  {
    if ds == [] then 0
    else DigitsValue(ds[..|ds| - 1]) * 10 + ((ds[|ds| - 1] as int) - ('0' as int))
  }

  /** `parseInt(s)` in base 10: skip white space, take an optional sign and
      then the longest run of digits; no digit at all is NaN (`None`). */
  function ParseInt(s: string): (r: Option<int>)
    ensures s == [] ==> r.None?
    ensures s != [] && IsDigit(s[0]) ==> r == Some(DigitsValue(s[..DigitRun(s)]))
  {
    var t := TrimStart(s);
    assert s != [] && IsDigit(s[0]) ==> t == s by {
      if s != [] && IsDigit(s[0]) {
        NoLeadingSpace(s);
      }
    }
    var negative := t != [] && t[0] == '-';
    var u := if t != [] && (t[0] == '+' || t[0] == '-') then t[1..] else t;
    var k := DigitRun(u);
    var v: int := DigitsValue(u[..k]);
    if k == 0 then None else Some(if negative then -v else v)
  }

  /** A string that starts with a non-space has nothing to trim. */
  lemma NoLeadingSpace(s: string)
    requires s != [] && !IsSpace(s[0])
    ensures TrimStart(s) == s
  {
  }

  /** The decimal numeral of a natural number. */
  function Show(n: nat): (s: string)
    ensures |s| >= 1 && AllDigits(s)
  {
    if n < 10 then [(('0' as int) + n) as char]
    else Show(n / 10) + [(('0' as int) + n % 10) as char]
  }

  /** Reading a numeral gives its number back. */
  lemma {:induction false} ShowValue(n: nat)
    ensures DigitsValue(Show(n)) == n
  {
    if n >= 10 {
      var s := Show(n);
      assert s[..|s| - 1] == Show(n / 10);
      ShowValue(n / 10);
    }
  }

  /** The digit run of a numeral followed by a non-digit is the numeral. */
  lemma {:induction false} DigitRunOfNumeral(ds: string, rest: string)
    requires AllDigits(ds)
    requires rest == [] || !IsDigit(rest[0])
    ensures DigitRun(ds + rest) == |ds|
    decreases |ds|
  {
    if ds == [] {
      assert ds + rest == rest;
    } else {
      assert (ds + rest)[1..] == ds[1..] + rest;
      DigitRunOfNumeral(ds[1..], rest);
    }
  }

  /** `parseInt` of a numeral followed by anything that is not a digit
      (a unit such as "mm") is the numeral's number. */
  lemma ParseNumeral(n: nat, rest: string)
    requires rest == [] || !IsDigit(rest[0])
    ensures ParseInt(Show(n) + rest) == Some(n)
  {
    var ds := Show(n);
    var s := ds + rest;
    assert s[0] == ds[0];
    DigitRunOfNumeral(ds, rest);
    assert s[..|ds|] == ds;
    ParseUnsigned(s);
    ShowValue(n);
  }

  /** Text that starts with a digit parses to the value of its digit run. */
  lemma ParseUnsigned(s: string)
    requires s != [] && IsDigit(s[0])
    ensures ParseInt(s) == Some(DigitsValue(s[..DigitRun(s)]) as int)
  {
    assert !IsSpace(s[0]);
    assert TrimStart(s) == s;
  }

  // ---------------------------------------------------------------------
  // Dimensions read from the quote

  /** `parseInt(size?.split('x')[k])`: a missing size or a missing piece
      is `undefined`, which parses to NaN. */
  function ParsePiece(size: Option<string>, k: nat): Option<int> {
    if size.None? then None
    else
      var pieces := Split(size.value, 'x');
      if k < |pieces| then ParseInt(pieces[k]) else None
  }

  /** `n || d` for a parsed number: NaN and 0 fall back to the default. */
  function OrDefault(v: Option<int>, d: int): (r: int)
    ensures r == d <==> (v.None? || v.value == 0 || v.value == d)
    ensures r != d ==> v == Some(r)
  {
    if v.Some? && v.value != 0 then v.value else d
  }

  /** The dimensions the drawings use. */
  datatype PrintDims = PrintDims(boardWidth: real, boardThickness: int,
                                 bearerWidth: int, bearerThickness: int)

  /** The board width is the quote's own `boardWidth`, else the number
      before the first 'x' of the board size, else 100; the thickness the
      number after it, else 19; the bearer's two numbers default to 100 and
      38. */
  function DimsOf(q: PrintInput): (d: PrintDims)
    ensures q.boardWidth.Some? && q.boardWidth.value != 0.0 ==> d.boardWidth == q.boardWidth.value
    ensures q.boardSize.None? ==> d.boardThickness == 19
    ensures q.bearerSize.None? ==> d.bearerWidth == 100 && d.bearerThickness == 38
    ensures q.boardWidth.None? && q.boardSize.None? ==> d.boardWidth == 100.0
  {
    PrintDims(
      if q.boardWidth.Some? && q.boardWidth.value != 0.0 then q.boardWidth.value
      else OrDefault(ParsePiece(q.boardSize, 0), 100) as real,
      OrDefault(ParsePiece(q.boardSize, 1), 19),
      OrDefault(ParsePiece(q.bearerSize, 0), 100),
      OrDefault(ParsePiece(q.bearerSize, 1), 38))
  }

  lemma NumeralWithoutX(n: nat)
    ensures 'x' !in Show(n)
  {
  }

  /** A size written "WxT" followed by a unit reads back as W and T. */
  lemma SizeStringPieces(w: nat, t: nat, unit: string)
    requires 'x' !in unit && (unit == [] || !IsDigit(unit[0]))
    ensures ParsePiece(Some(Show(w) + "x" + Show(t) + unit), 0) == Some(w)
    ensures ParsePiece(Some(Show(w) + "x" + Show(t) + unit), 1) == Some(t)
  {
    var s := Show(w) + "x" + Show(t) + unit;
    SizeStringSplit(w, t, unit);
    PieceOfSplit(s, [Show(w), Show(t) + unit], 0);
    PieceOfSplit(s, [Show(w), Show(t) + unit], 1);
    ParseNumeral(w, []);
    assert Show(w) + [] == Show(w);
    ParseNumeral(t, unit);
  }

  /** The k-th piece of a size parses as the k-th piece of its split. */
  lemma PieceOfSplit(s: string, pieces: seq<string>, k: nat)
    requires Split(s, 'x') == pieces && k < |pieces|
    ensures ParsePiece(Some(s), k) == ParseInt(pieces[k])
  {
  }

  lemma SizeStringSplit(w: nat, t: nat, unit: string)
    requires 'x' !in unit
    ensures Split(Show(w) + "x" + Show(t) + unit, 'x') == [Show(w), Show(t) + unit]
  {
    var a := Show(w);
    var b := Show(t) + unit;
    assert Show(w) + "x" + Show(t) + unit == a + ['x'] + b;
    NumeralWithoutX(w);
    NumeralWithoutX(t);
    SplitAtFirst(a, 'x', b);
    SplitWithoutSep(b, 'x');
  }

  /** With sizes written "WxT" and no explicit board width, the sheet
      draws the sizes' own numbers (any zero falling back to its default). */
  lemma DimsFromSizeStrings(q: PrintInput, bw: nat, bt: nat, brw: nat, brt: nat, unit: string)
    requires 'x' !in unit && (unit == [] || !IsDigit(unit[0]))
    requires q.boardWidth.None?
    requires q.boardSize == Some(Show(bw) + "x" + Show(bt) + unit)
    requires q.bearerSize == Some(Show(brw) + "x" + Show(brt) + unit)
    ensures DimsOf(q) == PrintDims(if bw == 0 then 100.0 else bw as real, if bt == 0 then 19 else bt,
                                   if brw == 0 then 100 else brw, if brt == 0 then 38 else brt)
  {
    SizeStringPieces(bw, bt, unit);
    SizeStringPieces(brw, brt, unit);
  }

  /** A size string with no 'x' gives no thickness: the default is used. */
  lemma NoSeparatorThickness(q: PrintInput)
    requires q.boardSize.Some? && 'x' !in q.boardSize.value
    ensures DimsOf(q).boardThickness == 19
  {
    SplitWithoutSep(q.boardSize.value, 'x');
  }

  // ---------------------------------------------------------------------
  // The drawings

  /** The drawings' margin. */
  const Padding: real := 40.0
  /** The fixed width of a bearer in the front view. */
  const FrontBearerWidth: real := 30.0

  /** `palletHeight`: a board above and below a standing bearer. */
  function PalletHeight(d: PrintDims): int {
    d.boardThickness + d.bearerWidth + d.boardThickness
  }

  /** `topGapSize || 0`. */
  function GapOrZero(g: Option<real>): real {
    if g.Some? then g.value else 0.0
  }

  /** Plan view: board i starts i board-and-gap steps from the margin. */
  function PlanBoards(boardWidth: real, gap: real, n: int): (xs: seq<real>)
    ensures |xs| == Drawn(n)
  {
    seq(Drawn(n), i requires 0 <= i < Drawn(n) =>
      if i == 0 then Padding else Padding + i as real * (boardWidth + gap))
  }

  /** Plan view: the bearers spread along the length, the same spacing as
      the 3D scene's, one bearer at the margin. */
  function PlanBearers(length: real, thickness: real, n: int): (ys: seq<real>)
    ensures |ys| == Drawn(n)
  {
    var g := BearerGap(length, thickness, n);
    seq(Drawn(n), i requires 0 <= i < Drawn(n) =>
      if i == 0 then Padding else Padding + i as real * (thickness + g))
  }

  /** Front view: one bearer is centred; several are spread with the
      fixed 30-unit width. */
  function FrontBearers(width: real, n: int): (xs: seq<real>)
    ensures |xs| == Drawn(n)
  {
    var gapCount := n - 1;
    var gap := if gapCount > 0 then (width - FrontBearerWidth * n as real) / gapCount as real
               else (width - FrontBearerWidth) / 2.0;
    seq(Drawn(n), i requires 0 <= i < Drawn(n) =>
      if n == 1 then Padding + (width - FrontBearerWidth) / 2.0
      else Padding + i as real * (FrontBearerWidth + gap))
  }

  /** Side view: the row of board ends, scaled by length over width and
      centred along the length. A zero width gives no finite coordinates
      (`None`). */
  function SideRow(length: real, width: real, boardWidth: real, gap: real, n: int): (r: Option<seq<real>>)
    ensures r.None? <==> width == 0.0
    ensures r.Some? ==> |r.value| == Drawn(n)
  {
    if width == 0.0 then None
    else
      var sbw := boardWidth * (length / width);
      var sg := gap * (length / width);
      var total := n as real * sbw + (n - 1) as real * sg;
      var start := Padding + (length - total) / 2.0;
      Some(seq(Drawn(n), i requires 0 <= i < Drawn(n) => start + i as real * (sbw + sg)))
  }

  /** The sheet's computed values. */
  datatype Sheet = Sheet(grandTotal: real, dims: PrintDims, palletHeight: int,
                         planTop: seq<real>, planBearers: seq<real>, frontBearers: seq<real>,
                         sideTop: Option<seq<real>>, sideBottom: Option<seq<real>>)

  /** `totalPrice * quantity`. */
  function GrandTotal(totalPrice: real, quantity: int): real {
    totalPrice * quantity as real
  }

  /** `PrintableQuote`: nothing without a quote; the quantity defaults to 1. */
  function Print(quoteData: Option<PrintInput>, quantity: Option<int>): (r: Option<Sheet>)
    ensures r.None? <==> quoteData.None?
    ensures r.Some? && quantity.None? ==> r.value.grandTotal == quoteData.value.totalPrice
    ensures r.Some? ==>
              |r.value.planTop| == Drawn(quoteData.value.numberOfTopBoards)
              && |r.value.planBearers| == Drawn(quoteData.value.numberOfBearers)
              && |r.value.frontBearers| == Drawn(quoteData.value.numberOfBearers)
  {
    match quoteData
    case None => None
    case Some(q) =>
      var qty := if quantity.Some? then quantity.value else 1;
      var d := DimsOf(q);
      var topGap := GapOrZero(q.topGapSize);
      var bottomGap := GapOrZero(q.bottomGapSize);
      Some(Sheet(GrandTotal(q.totalPrice, qty), d, PalletHeight(d),
                 PlanBoards(d.boardWidth, topGap, q.numberOfTopBoards),
                 PlanBearers(q.palletLength, d.bearerThickness as real, q.numberOfBearers),
                 FrontBearers(q.palletWidth, q.numberOfBearers),
                 SideRow(q.palletLength, q.palletWidth, d.boardWidth, topGap, q.numberOfTopBoards),
                 SideRow(q.palletLength, q.palletWidth, d.boardWidth, bottomGap, q.numberOfBottomBoards)))
  }

  /** The printed height is two board thicknesses and a bearer's standing
      width, as the size strings give them. */
  lemma PrintedHeight(q: PrintInput, bw: nat, bt: nat, brw: nat, brt: nat, unit: string)
    requires 'x' !in unit && (unit == [] || !IsDigit(unit[0]))
    requires q.boardWidth.None?
    requires bt > 0 && brw > 0
    requires q.boardSize == Some(Show(bw) + "x" + Show(bt) + unit)
    requires q.bearerSize == Some(Show(brw) + "x" + Show(brt) + unit)
    ensures Print(Some(q), None).value.palletHeight == 2 * bt + brw
  {
    DimsFromSizeStrings(q, bw, bt, brw, brt, unit);
  }

  /** The plan view's bearers are the 3D scene's bearers moved to the
      margin: the same spacing, and for two or more the last ends at the
      far margin. */
  lemma PlanBearersMatchScene(length: real, thickness: real, n: int, i: int)
    requires 0 <= i < Drawn(n)
    ensures PlanBearers(length, thickness, n)[i]
            == Padding + length / 2.0 + BearerPositions(length, thickness, n)[i] - thickness / 2.0
    ensures n >= 2 ==> PlanBearers(length, thickness, n)[n - 1] + thickness == Padding + length
  {
    if n >= 2 {
      BearersFlush(length, thickness, n);
    }
  }

  /** Front view: a single bearer's centre is the pallet's centre; several
      start at the near margin and the last ends at the far margin. */
  lemma FrontBearersSpread(width: real, n: int)
    requires n >= 1
    ensures n == 1 ==> FrontBearers(width, n)[0] + FrontBearerWidth / 2.0 == Padding + width / 2.0
    ensures n >= 2 ==> FrontBearers(width, n)[0] == Padding
                       && FrontBearers(width, n)[n - 1] + FrontBearerWidth == Padding + width
  {
    if n >= 2 {
      var g := (width - FrontBearerWidth * n as real) / (n - 1) as real;
      SpreadFills(g, (n - 1) as real, width, FrontBearerWidth * n as real);
      assert (n - 1) as real * (FrontBearerWidth + g) == (n - 1) as real * FrontBearerWidth + (n - 1) as real * g;
    }
  }

  /** Side view: the row has equal margins at both ends of the length. */
  lemma SideRowCentred(length: real, width: real, boardWidth: real, gap: real, n: int)
    requires width != 0.0 && n >= 1
    ensures var xs := SideRow(length, width, boardWidth, gap, n).value;
            var sbw := boardWidth * (length / width);
            xs[0] - Padding == (Padding + length) - (xs[n - 1] + sbw)
  {
    var sbw := boardWidth * (length / width);
    var sg := gap * (length / width);
    var k := (n - 1) as real;
    assert n as real * sbw == k * sbw + sbw;
    assert k * (sbw + sg) == k * sbw + k * sg;
  }

  /** Side view: a deck that exactly fills the width is drawn exactly
      across the length. */
  lemma SideRowFills(length: real, width: real, boardWidth: real, gap: real, n: int)
    requires width != 0.0 && n >= 1
    requires boardWidth * n as real + gap * (n - 1) as real == width
    ensures SideRow(length, width, boardWidth, gap, n).value[0] == Padding
  {
    var s := length / width;
    var m := n as real;
    var k := (n - 1) as real;
    assert s * width == length;
    assert m * (boardWidth * s) == (boardWidth * m) * s;
    assert k * (gap * s) == (gap * k) * s;
    assert (boardWidth * m) * s + (gap * k) * s == (boardWidth * m + gap * k) * s;
    assert (boardWidth * m + gap * k) * s == length;
    var total := m * (boardWidth * s) + k * (gap * s);
    assert total == length;
    var xs := SideRow(length, width, boardWidth, gap, n).value;
    assert xs[0] == Padding + (length - (n as real * (boardWidth * (length / width)) + (n - 1) as real * (gap * (length / width)))) / 2.0;
    assert total == n as real * (boardWidth * (length / width)) + (n - 1) as real * (gap * (length / width));
  }

  // ---------------------------------------------------------------------
  // What the overlay passes

  /** The overlay's live quote read as the sheet's input, as written: it
      has no `boardSize` and no `boardWidth`, so the board falls back to
      100 by 19. */
  function FromLiveQuote(q: LiveQuote.Quote): (p: PrintInput)
    ensures DimsOf(p).boardWidth == 100.0 && DimsOf(p).boardThickness == 19
  {
    PrintInput(q.palletWidth, q.palletLength, None, Some(q.bearerSize), None,
               q.numberOfTopBoards, q.numberOfBottomBoards, q.numberOfBearers,
               q.totalPrice, Some(q.top.gapSize), Some(q.bottom.gapSize))
  }

  /** The live quote read with its top board width, which it does carry. */
  function FromLiveQuoteCorrected(q: LiveQuote.Quote): (p: PrintInput)
    ensures q.topBoardWidth != 0.0 ==> DimsOf(p).boardWidth == q.topBoardWidth
  {
    PrintInput(q.palletWidth, q.palletLength, None, Some(q.bearerSize), Some(q.topBoardWidth),
               q.numberOfTopBoards, q.numberOfBottomBoards, q.numberOfBearers,
               q.totalPrice, Some(q.top.gapSize), Some(q.bottom.gapSize))
  }

  /** A submitted quote carries every key the sheet reads. */
  function FromQuoteData(q: SubmitQuote.QuoteData): (p: PrintInput)
    ensures q.boardWidth != 0.0 ==> DimsOf(p).boardWidth == q.boardWidth
  {
    PrintInput(q.palletWidth, q.palletLength, Some(q.boardSize), Some(q.bearerSize), Some(q.boardWidth),
               q.numberOfTopBoards, q.numberOfBottomBoards, q.numberOfBearers,
               q.totalPrice, Some(q.topGapSize), Some(q.bottomGapSize))
  }

  /** A plain deck of the live quote is spaced by `calculateGapSize`. */
  lemma LiveDeckGap(count: int, width: real, board: SizeSpec, useLeaders: bool, leader: Option<SizeSpec>)
    requires count >= 1 && width > 0.0
    requires !(useLeaders && leader.Some? && count >= 2)
    ensures LiveQuote.QuoteDeck(count, width, Some(board), useLeaders, leader).gapSize
            == GapSize(width, board.width, count)
  {
  }

  /** A plan row laid out with the quote's own board width and gap ends
      within the gap's rounding of the far margin. */
  lemma PlanRowFlush(width: real, boardWidth: real, n: int)
    requires n >= 2
    ensures var xs := PlanBoards(boardWidth, GapSize(width, boardWidth, n), n);
            var k := (n - 1) as real;
            -(0.005 * k) < xs[n - 1] + boardWidth - (Padding + width) <= 0.005 * k
  {
    var g := GapSize(width, boardWidth, n);
    var k := (n - 1) as real;
    GapFlushEdges(width, boardWidth, n);
    assert k * (boardWidth + g) + boardWidth == boardWidth * n as real + g * k;
  }

  /** With the live quote as written, five 150 mm boards across 1000 mm
      (gap 62.5) are drawn as 100 mm boards 162.5 apart: the row ends at
      790, not at the far margin 1040. */
  lemma LivePlanShortRow(q: LiveQuote.Quote)
    requires q.palletWidth == 1000.0 && q.numberOfTopBoards == 5
    requires q.topBoardWidth == 150.0
    requires q.top.gapSize == GapSize(1000.0, 150.0, 5)
    ensures GapSize(1000.0, 150.0, 5) == 62.5
    ensures var s := Print(Some(FromLiveQuote(q)), None).value;
            s.planTop[4] + s.dims.boardWidth == 790.0
            && Padding + q.palletWidth == 1040.0
  {
    Round2Cents(6250);
    assert GapSize(1000.0, 150.0, 5) == 62.5;
  }

  /** Read with its top board width, a plain live top deck is drawn flush
      across the plan view. */
  lemma CorrectedLivePlanFlush(q: LiveQuote.Quote)
    requires q.numberOfTopBoards >= 2 && q.topBoardWidth != 0.0
    requires q.top.gapSize == GapSize(q.palletWidth, q.topBoardWidth, q.numberOfTopBoards)
    ensures var s := Print(Some(FromLiveQuoteCorrected(q)), None).value;
            var n := q.numberOfTopBoards;
            var k := (n - 1) as real;
            -(0.005 * k) < s.planTop[n - 1] + s.dims.boardWidth - (Padding + q.palletWidth) <= 0.005 * k
  {
    PlanRowFlush(q.palletWidth, q.topBoardWidth, q.numberOfTopBoards);
  }

  /** A submitted quote's top deck is drawn flush across the plan view. */
  lemma SubmittedPlanFlush(q: SubmitQuote.QuoteData)
    requires q.numberOfTopBoards >= 2 && q.boardWidth != 0.0
    requires q.topGapSize == GapSize(q.palletWidth, q.boardWidth, q.numberOfTopBoards)
    ensures var s := Print(Some(FromQuoteData(q)), None).value;
            var n := q.numberOfTopBoards;
            var k := (n - 1) as real;
            -(0.005 * k) < s.planTop[n - 1] + s.dims.boardWidth - (Padding + q.palletWidth) <= 0.005 * k
  {
    PlanRowFlush(q.palletWidth, q.boardWidth, q.numberOfTopBoards);
  }
}
