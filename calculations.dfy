/** The layout and validation engine of src/utils/calculations.js: the gap
    between evenly spaced boards, a rounded line price, and the ordered
    feasibility test used before a quote is emitted. */
module Calculations {
  import opened Wrappers
  import opened Rounding
  import opened Checks

  /** The smallest gap, in mm, that validateInputs accepts. */
  const MinGap: real := 5.0

  /** The exact gap that puts n boards of width bw flush with both edges of
      a span w (defined for two or more boards). */
  function RawGap(w: real, bw: real, n: int): real
    requires n >= 2
  {
    (w - bw * n as real) / (n - 1) as real
  }

  /** calculateGapSize: the gap between n boards of width bw spread across
      w, rounded to hundredths; 0 when there are fewer than two boards. The
      gap is not clamped: it is negative when the boards overlap. */
  function GapSize(palletWidth: real, boardWidth: real, numberOfBoards: int): (r: real)
    ensures numberOfBoards < 2 ==> r == 0.0
    ensures numberOfBoards >= 2 ==> -0.005 < r - RawGap(palletWidth, boardWidth, numberOfBoards) <= 0.005
  {
    var numberOfGaps := numberOfBoards - 1;
    if numberOfGaps <= 0 then 0.0
    else Round2((palletWidth - boardWidth * numberOfBoards as real) / numberOfGaps as real)
  }

  /** calculateTotalPrice read back through parseFloat: the line price
      rounded to cents. */
  function TotalPrice(price: real, quantity: int): (r: real)
    ensures price == 0.0 || quantity == 0 ==> r == 0.0
    ensures -0.005 < r - price * quantity as real <= 0.005
  {
    assert price == 0.0 || quantity == 0 ==> price * quantity as real == 0.0;
    Round2(price * quantity as real)
  }

  /** The four rejections of validateInputs, in the order they are tested. */
  datatype InputError = WidthNotPositive | CountNotPositive | TooWide | GapTooSmall

  datatype Validation = Valid | Invalid(error: InputError)

  /** The text validateInputs attaches to each rejection. */
  function ErrorMessage(e: InputError): string {
    match e
    case WidthNotPositive => "Pallet width must be greater than 0"
    case CountNotPositive => "Number of boards must be greater than 0"
    case TooWide => "Boards are too wide for the pallet. Reduce the number of boards or increase pallet width."
    case GapTooSmall => "Gap size is too small (minimum 5mm recommended). Reduce boards or increase pallet width."
  }

  /** validateInputs: width, then count, then fit (a zero gap is rejected
      too), then the 5 mm minimum gap. A valid result holds exactly when all
      four conditions do. */
  function ValidateInputs(palletWidth: real, boardWidth: real, numberOfBoards: int): (v: Validation)
    ensures v.Valid? <==> palletWidth > 0.0 && numberOfBoards > 0
                          && boardWidth * numberOfBoards as real < palletWidth
                          && GapSize(palletWidth, boardWidth, numberOfBoards) >= MinGap
  {
    if palletWidth <= 0.0 then Invalid(WidthNotPositive)
    else if numberOfBoards <= 0 then Invalid(CountNotPositive)
    else if boardWidth * numberOfBoards as real >= palletWidth then Invalid(TooWide)
    else if GapSize(palletWidth, boardWidth, numberOfBoards) < MinGap then Invalid(GapTooSmall)
    else Valid
  }

  /** The same four tests written as an ordered list. */
  function ValidationChecks(palletWidth: real, boardWidth: real, numberOfBoards: int): seq<Check<InputError>> {
    [ Check(palletWidth > 0.0, WidthNotPositive),
      Check(numberOfBoards > 0, CountNotPositive),
      Check(boardWidth * numberOfBoards as real < palletWidth, TooWide),
      Check(GapSize(palletWidth, boardWidth, numberOfBoards) >= MinGap, GapTooSmall) ]
  }

  /** validateInputs reports the first failing test of the ordered list,
      and is valid when none fails. */
  lemma ValidateIsFirstFailure(w: real, bw: real, n: int)
    ensures ValidateInputs(w, bw, n) ==
            match FirstFailure(ValidationChecks(w, bw, n))
            case None => Valid
            case Some(e) => Invalid(e)
  {
    var cs := ValidationChecks(w, bw, n);
    if w <= 0.0 { FirstFailureAt(cs, 0); }
    else if n <= 0 { FirstFailureAt(cs, 1); }
    else if bw * n as real >= w { FirstFailureAt(cs, 2); }
    else if GapSize(w, bw, n) < MinGap { FirstFailureAt(cs, 3); }
  }

  /** With zero or one board there is no gap. */
  lemma GapZeroForFewBoards(w: real, bw: real, n: int)
    requires n <= 1
    ensures GapSize(w, bw, n) == 0.0
  {
  }

  /** A value within half a hundredth of the exact gap leaves the k gaps
      within k half-hundredths of the space they must fill. */
  lemma ScaledRoundingError(gap: real, raw: real, k: real, w: real, occupied: real)
    requires k > 0.0
    requires raw * k == w - occupied
    requires -0.005 < gap - raw <= 0.005
    ensures -(0.005 * k) < occupied + gap * k - w <= 0.005 * k
  {
    var d := gap - raw;
    assert d * k > -0.005 * k;
    assert d * k <= 0.005 * k;
    assert occupied + gap * k - w == d * k;
  }

  /** Flush edges: with two or more boards, the boards plus the rounded
      gaps cover the span up to half a hundredth per gap. */
  lemma GapFlushEdges(w: real, bw: real, n: int)
    requires n >= 2
    ensures var k := (n - 1) as real;
            var excess := bw * n as real + GapSize(w, bw, n) * k - w;
            -(0.005 * k) < excess <= 0.005 * k
  {
    var raw := RawGap(w, bw, n);
    Round2Close(raw);
    ScaledRoundingError(GapSize(w, bw, n), raw, (n - 1) as real, w, bw * n as real);
  }

  /** The gap is never clamped. It is zero when the boards exactly fill
      the span, never positive when they meet or exceed it, and negative
      exactly when the exact gap is below -0.005 mm. */
  lemma GapNotClamped(w: real, bw: real, n: int)
    requires n >= 2
    ensures bw * n as real == w ==> GapSize(w, bw, n) == 0.0
    ensures bw * n as real >= w ==> GapSize(w, bw, n) <= 0.0
    ensures GapSize(w, bw, n) < 0.0 <==> RawGap(w, bw, n) < -0.005
  {
    var raw := RawGap(w, bw, n);
    Round2Sign(raw);
    if bw * n as real >= w {
      assert w - bw * n as real <= 0.0;
      assert raw <= 0.0;
    }
  }

  /** With two or more boards the gap is the exact gap rounded. */
  lemma GapIsRounded(w: real, bw: real, n: int)
    requires n >= 2
    ensures GapSize(w, bw, n) == Round2(RawGap(w, bw, n))
  {
  }

  /** Adding a board never widens the gap while a single board fits the
      span (for two or more boards; rounding allows equal gaps). */
  lemma GapMonotone(w: real, bw: real, n: int)
    requires n >= 2 && w >= bw
    ensures GapSize(w, bw, n + 1) <= GapSize(w, bw, n)
  {
    RawGapDecreasing(w, bw, n);
    GapIsRounded(w, bw, n + 1);
    GapIsRounded(w, bw, n);
    Round2Monotone(RawGap(w, bw, n + 1), RawGap(w, bw, n));
  }

  /** Before rounding, an extra board strictly shrinks the gap when a board
      is narrower than the span, and never widens it when it is as wide. */
  lemma RawGapDecreasing(w: real, bw: real, n: int)
    requires n >= 2 && w >= bw
    ensures RawGap(w, bw, n + 1) <= RawGap(w, bw, n)
    ensures w > bw ==> RawGap(w, bw, n + 1) < RawGap(w, bw, n)
  {
    var a := w - bw * n as real;
    var r0 := RawGap(w, bw, n);
    var r1 := RawGap(w, bw, n + 1);
    var k := (n - 1) as real;
    assert r0 * k == a;
    assert r1 * (k + 1.0) == a - bw;
    // r1 - r0 == (a - bw - (k + 1) r0) / (k + 1) == -(r0 + bw) / (k + 1)
    // and r0 + bw == (a + bw k) / k == (w - bw) / k
    assert (r0 + bw) * k == w - bw;
    assert (r1 - r0) * (k + 1.0) == -(r0 + bw);
    if w > bw {
      assert r0 + bw > 0.0;
    } else {
      assert r0 + bw == 0.0;
    }
  }

  /** A line price is 0 when either the unit price or the quantity is 0, and
      is within half a cent of the exact product. */
  lemma TotalPriceZero(price: real, quantity: int)
    ensures price == 0.0 || quantity == 0 ==> TotalPrice(price, quantity) == 0.0
    ensures -0.005 < TotalPrice(price, quantity) - price * quantity as real <= 0.005
  {
    Round2Close(price * quantity as real);
    if price == 0.0 || quantity == 0 {
      Round2Sign(price * quantity as real);
    }
  }

  /** A valid layout has a positive width and count, boards that fit with
      room to spare, a gap of at least 5 mm, and hence at least two boards. */
  lemma ValidImplies(w: real, bw: real, n: int)
    requires ValidateInputs(w, bw, n).Valid?
    ensures w > 0.0 && n >= 2 && bw * n as real < w && GapSize(w, bw, n) >= MinGap
  {
  }

  /** A single board never validates: it has no gap, so a board that fits
      is rejected for the 5 mm minimum. */
  lemma SingleBoardNeverValid(w: real, bw: real)
    ensures ValidateInputs(w, bw, 1).Invalid?
    ensures w > 0.0 && bw < w ==> ValidateInputs(w, bw, 1) == Invalid(GapTooSmall)
  {
  }

  /** Worked examples at the feasibility boundary. */
  lemma ValidationExamples()
    ensures ValidateInputs(1000.0, 100.0, 10) == Invalid(TooWide)
    ensures ValidateInputs(1000.0, 100.0, 9) == Valid && GapSize(1000.0, 100.0, 9) == 12.5
    ensures ValidateInputs(1000.0, 149.0, 6) == Valid && GapSize(1000.0, 149.0, 6) == 21.2
    ensures ValidateInputs(1000.0, 160.0, 6) == Valid && GapSize(1000.0, 160.0, 6) == 8.0
    ensures ValidateInputs(1000.0, 170.0, 6) == Invalid(TooWide)
    ensures ValidateInputs(1000.0, 95.0, 10) == Valid && GapSize(1000.0, 95.0, 10) == 5.56
    ensures ValidateInputs(1000.0, 96.0, 10) == Invalid(GapTooSmall) && GapSize(1000.0, 96.0, 10) == 4.44
  {
    Round2Cents(1250);
    Round2Cents(2120);
    Round2Cents(800);
    assert (50.0 / 9.0 * 100.0 + 0.5).Floor == 556;
    assert (40.0 / 9.0 * 100.0 + 0.5).Floor == 444;
  }
}
