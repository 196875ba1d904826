/** The builder overlay's per-deck count limits, the capped counts its
    selects display, and the effects that write a capped count back
    (src/components/PalletBuilderOverlay.jsx:303-420). */
module OverlayLimits {
  import opened Wrappers
  import opened Catalog
  import opened FormInputs

  /** The largest count any select offers. */
  const MaxItems: int := 15

  /** The "no limit" answer for a partial or unreasonably small span. */
  const NoLimit: int := -1

  /** `currentTopBoardWidth` (and the bottom and bearer analogues): the
      chosen size's width, or 0 while either selection is empty or does not
      resolve in the static table. The bearer rule reads `thickness`. */
  function SelectedDimension(types: seq<TimberType>, typeId: string, sizeId: string, kind: SizeKind): (r: real)
    ensures r != 0.0 ==> typeId != "" && sizeId != "" && ResolveSize(types, typeId, sizeId, kind).Some?
  {
    if typeId == "" || sizeId == "" then 0.0
    else match ResolveSize(types, typeId, sizeId, kind)
         case None => 0.0
         case Some(s) => if kind == BoardKind then s.width else s.thickness
  }

  /** `maxTopBoardsAllowed` and its two siblings: 15 with no size chosen;
      -1 while the span is 0 or below two items; otherwise the number of
      items that fit side by side, capped at 15. */
  function MaxItemsAllowed(span: real, item: real): (r: int)
    ensures item >= 0.0 ==> r == NoLimit || 2 <= r <= MaxItems
    ensures item > 0.0 && r != NoLimit ==> r as real * item <= span
  {
    if item == 0.0 then MaxItems
    else if span == 0.0 || span < item * 2.0 then NoLimit
    else
      var fit := (span / item).Floor;
      var r := if fit < MaxItems then fit else MaxItems;
      assert item > 0.0 ==> 2 <= r && r as real * item <= span by {
        if item > 0.0 {
          FitBounds(span, item);
        }
      }
      r
  }

  /** For a positive item size the limit is -1 or lies in [2, 15]; a
      positive limit never lets the items overflow the span, and it is the
      largest count that fits unless the cap of 15 applies. The -1 answer
      comes exactly from a zero or too short span. */
  lemma LimitBounds(span: real, item: real)
    requires item > 0.0
    ensures var m := MaxItemsAllowed(span, item);
            (m == NoLimit <==> span == 0.0 || span < item * 2.0)
            && (m != NoLimit ==> 2 <= m <= MaxItems
                                 && m as real * item <= span
                                 && (m < MaxItems ==> (m + 1) as real * item > span))
  {
    if span == 0.0 || span < item * 2.0 {
      ShortSpanLimit(span, item);
    } else {
      FitLimit(span, item);
      FitBounds(span, item);
    }
  }

  lemma ShortSpanLimit(span: real, item: real)
    requires item > 0.0 && (span == 0.0 || span < item * 2.0)
    ensures MaxItemsAllowed(span, item) == NoLimit
  {
  }

  lemma FitLimit(span: real, item: real)
    requires item > 0.0 && !(span == 0.0 || span < item * 2.0)
    ensures var f := (span / item).Floor;
            MaxItemsAllowed(span, item) == if f < MaxItems then f else MaxItems
  {
  }

  /** The whole number of items that fit in a span of at least two items:
      at least 2, within the span, and one more would not fit. */
  lemma FitBounds(span: real, item: real)
    requires item > 0.0 && span >= item * 2.0
    ensures var f := (span / item).Floor;
            2 <= f && f as real * item <= span && (f + 1) as real * item > span
            && (f >= MaxItems ==> MaxItems as real * item <= span)
  {
    var q := span / item;
    var f := q.Floor;
    ScaleLe(2.0, q, item, span);
    ScaleLe(f as real, q, item, span);
    ScaleGt(f as real + 1.0, q, item, span);
    if f >= MaxItems {
      ScaleLe(MaxItems as real, q, item, span);
    }
  }

  /** For a positive item, comparing counts is comparing the space they
      take: a ≤ q exactly when a·item ≤ q·item. */
  lemma ScaleLe(a: real, q: real, item: real, span: real)
    requires item > 0.0 && q * item == span
    ensures a <= q <==> a * item <= span
  {
    assert (q - a) * item == span - a * item;
  }

  lemma ScaleGt(a: real, q: real, item: real, span: real)
    requires item > 0.0 && q * item == span
    ensures a > q <==> a * item > span
  {
    assert (a - q) * item == a * item - span;
  }

  /** The size-based limit of the top or bottom deck, from the entered
      width and the chosen board. */
  function DeckLimit(types: seq<TimberType>, palletWidth: Field<real>, typeId: string, sizeId: string): int {
    MaxItemsAllowed(RealOr(palletWidth, 0.0), SelectedDimension(types, typeId, sizeId, BoardKind))
  }

  /** The bearer limit, from the entered length and the bearer thickness. */
  function BearerLimit(types: seq<TimberType>, palletLength: Field<real>, typeId: string, sizeId: string): int {
    MaxItemsAllowed(RealOr(palletLength, 0.0), SelectedDimension(types, typeId, sizeId, BearerKind))
  }

  /** `maxTopBoardsForUI`: the select offers 15 options when there is no limit. */
  function LimitForUI(limit: int): (r: int)
    ensures limit != NoLimit ==> r == limit
    ensures limit == NoLimit ==> r == MaxItems
  {
    if limit == NoLimit then MaxItems else limit
  }

  /** `displayedTopBoards`: while a positive limit applies and the input is
      not empty, the select shows the entered count (or 1 when it does not
      parse) capped at the limit; otherwise the raw input. */
  function Displayed(count: Field<int>, limit: int): Field<int> {
    if !count.Blank? && limit > 0 then Entered(Some(Min(IntOr(count, 1), limit)))
    else count
  }

  function Min(a: int, b: int): int {
    if a <= b then a else b
  }

  /** The count that the preview and the quote read from a displayed value,
      `parseInt(displayed) || 0`, never exceeds a positive limit, is the
      entered count whenever that fits, and is 0 for an empty input. */
  lemma DisplayedCapped(count: Field<int>, limit: int)
    ensures count.Blank? ==> IntOr(Displayed(count, limit), 0) == 0
    ensures limit > 0 ==> IntOr(Displayed(count, limit), 0) <= limit
    ensures limit > 0 && !count.Blank? ==> IntOr(Displayed(count, limit), 0) == Min(IntOr(count, 1), limit)
    ensures limit <= 0 ==> IntOr(Displayed(count, limit), 0) == IntOr(count, 0)
    ensures Parsed(count).Some? && 0 < Parsed(count).value <= limit
            ==> IntOr(Displayed(count, limit), 0) == Parsed(count).value
  {
  }

  /** The auto-adjust effect: with a positive limit and a non-empty input
      whose count (`parseInt || 0`) exceeds the limit, the input is set to
      the limit. */
  function AutoAdjusted(count: Field<int>, limit: int): (r: Field<int>)
    ensures r == count || r == Entered(Some(limit))
    ensures limit > 0 ==> IntOr(r, 0) <= limit
    ensures Displayed(r, limit) == Displayed(count, limit)
  {
    if limit > 0 && !count.Blank? && IntOr(count, 0) > limit then Entered(Some(limit))
    else count
  }

  /** After the effect, a stored count never exceeds a positive limit; the
      effect is idempotent, and it never changes what the select shows. */
  lemma AutoAdjustSound(count: Field<int>, limit: int)
    ensures limit > 0 ==> IntOr(AutoAdjusted(count, limit), 0) <= limit
    ensures AutoAdjusted(AutoAdjusted(count, limit), limit) == AutoAdjusted(count, limit)
    ensures Displayed(AutoAdjusted(count, limit), limit) == Displayed(count, limit)
  {
  }
}
