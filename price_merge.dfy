/** The start-up price load of the builder overlay
    (src/components/PalletBuilderOverlay.jsx:79-124): the current table
    keeps its structure, and every price that the stored table holds for the
    same type id and size id replaces the current one. */
module PriceMerge {
  import opened Wrappers
  import opened Catalog

  /** A stored size: its id and, when the key is present, its price. */
  datatype SavedSize = SavedSize(id: string, price: Option<real>)

  /** A stored type; either size list may be missing. */
  datatype SavedType = SavedType(id: string, boardSizes: Option<seq<SavedSize>>, bearerSizes: Option<seq<SavedSize>>)

  /** The stored table as parsed JSON; every key may be missing. */
  datatype SavedTable = SavedTable(timberTypes: Option<seq<SavedType>>, nailPricePerNail: Option<real>)

  function SavedSizes(t: SavedType, kind: SizeKind): Option<seq<SavedSize>> {
    match kind
    case BoardKind => t.boardSizes
    case BearerKind => t.bearerSizes
  }

  /** `saved.timberTypes?.find(t => t.id === id)`. */
  function FindSavedType(saved: Option<seq<SavedType>>, id: string): (r: Option<SavedType>)
    ensures r.Some? ==> saved.Some? && r.value in saved.value && r.value.id == id
    ensures r.None? && saved.Some? ==> forall i :: 0 <= i < |saved.value| ==> saved.value[i].id != id
    decreases if saved.Some? then |saved.value| else 0
  {
    match saved
    case None => None
    case Some(ts) =>
      if |ts| == 0 then None
      else if ts[0].id == id then Some(ts[0])
      else FindSavedType(Some(ts[1..]), id)
  }

  /** `savedType.boardSizes?.find(s => s.id === id)?.pricePerBoard`: the
      stored price of a size, None when the size or its price is missing. */
  function SavedPrice(saved: Option<seq<SavedSize>>, id: string): (r: Option<real>)
    ensures r.Some? ==> saved.Some? && exists i :: 0 <= i < |saved.value| && saved.value[i].id == id && saved.value[i].price == r
    decreases if saved.Some? then |saved.value| else 0
  {
    match saved
    case None => None
    case Some(ss) =>
      if |ss| == 0 then None
      else if ss[0].id == id then ss[0].price
      else
        var r := SavedPrice(Some(ss[1..]), id);
        assert r.Some? ==> exists i :: 0 <= i < |ss[1..]| && ss[1..][i].id == id && ss[1..][i].price == r;
        r
  }

  /** One size after the merge. */
  function MergedSize(s: SizeSpec, saved: Option<seq<SavedSize>>): SizeSpec {
    match SavedPrice(saved, s.id)
    case Some(p) => s.(price := p)
    case None => s
  }

  function MergedSizes(sizes: seq<SizeSpec>, saved: Option<seq<SavedSize>>): seq<SizeSpec> {
    seq(|sizes|, i requires 0 <= i < |sizes| => MergedSize(sizes[i], saved))
  }

  /** One type after the merge: untouched when the stored table has no type
      with its id. */
  function MergedType(t: TimberType, saved: Option<seq<SavedType>>): TimberType {
    match FindSavedType(saved, t.id)
    case None => t
    case Some(st) =>
      t.(boardSizes := MergedSizes(t.boardSizes, st.boardSizes),
         bearerSizes := MergedSizes(t.bearerSizes, st.bearerSizes))
  }

  /** The whole merge; `saved` is None when nothing is stored or the stored
      text does not parse. A stored table is taken to have the shape the
      merge reads. */
  function Merged(current: PriceTable, saved: Option<SavedTable>): (r: PriceTable)
    ensures saved.None? ==> r == current
    ensures |r.timberTypes| == |current.timberTypes|
    ensures forall i :: 0 <= i < |r.timberTypes| ==>
              r.timberTypes[i].id == current.timberTypes[i].id && r.timberTypes[i].name == current.timberTypes[i].name
    ensures saved.Some? && saved.value.nailPricePerNail.None? ==> r.nailPricePerNail == current.nailPricePerNail
  {
    match saved
    case None => current
    case Some(st) =>
      PriceTable(seq(|current.timberTypes|, i requires 0 <= i < |current.timberTypes| =>
                       MergedType(current.timberTypes[i], st.timberTypes)),
                 if st.nailPricePerNail.Some? then st.nailPricePerNail else current.nailPricePerNail)
  }

  /** The inner `forEach`: walks one size list and overwrites each price
      the stored list holds. */
  method MergeSizes(sizes: seq<SizeSpec>, saved: Option<seq<SavedSize>>) returns (merged: seq<SizeSpec>)
    ensures merged == MergedSizes(sizes, saved)
  {
    merged := sizes;
    var i := 0;
    while i < |sizes|
      invariant 0 <= i <= |sizes| && |merged| == |sizes|
      invariant forall j :: 0 <= j < i ==> merged[j] == MergedSize(sizes[j], saved)
      invariant forall j :: i <= j < |sizes| ==> merged[j] == sizes[j]
    {
      var price := SavedPrice(saved, sizes[i].id);
      if price.Some? {
        merged := merged[i := merged[i].(price := price.value)];
      }
      i := i + 1;
    }
  }

  /** The outer `forEach` over the current types, then the nail price. */
  method MergeSavedPrices(current: PriceTable, saved: Option<SavedTable>) returns (prices: PriceTable)
    ensures prices == Merged(current, saved)
  {
    prices := current;
    if saved.None? {
      return;
    }
    var st := saved.value;
    var types := current.timberTypes;
    var i := 0;
    while i < |types|
      invariant 0 <= i <= |types| && |types| == |current.timberTypes|
      invariant forall j :: 0 <= j < i ==> types[j] == MergedType(current.timberTypes[j], st.timberTypes)
      invariant forall j :: i <= j < |types| ==> types[j] == current.timberTypes[j]
    {
      var savedType := FindSavedType(st.timberTypes, types[i].id);
      if savedType.Some? {
        var boards := MergeSizes(types[i].boardSizes, savedType.value.boardSizes);
        var bearers := MergeSizes(types[i].bearerSizes, savedType.value.bearerSizes);
        types := types[i := types[i].(boardSizes := boards, bearerSizes := bearers)];
      }
      i := i + 1;
    }
    var nail := current.nailPricePerNail;
    if st.nailPricePerNail.Some? {
      nail := st.nailPricePerNail;
    }
    prices := PriceTable(types, nail);
  }

  /** The merge never changes the table's structure: the same types in the
      same order with the same ids and names, and the same sizes with the
      same ids, dimensions, widths and thicknesses. Only prices move. */
  lemma MergeKeepsStructure(current: PriceTable, saved: Option<SavedTable>, i: int, kind: SizeKind, j: int)
    requires 0 <= i < |current.timberTypes|
    requires 0 <= j < |Sizes(current.timberTypes[i], kind)|
    ensures var merged := Merged(current, saved);
            var t := merged.timberTypes[i];
            var s := Sizes(current.timberTypes[i], kind)[j];
            |merged.timberTypes| == |current.timberTypes|
            && t.id == current.timberTypes[i].id && t.name == current.timberTypes[i].name
            && |Sizes(t, kind)| == |Sizes(current.timberTypes[i], kind)|
            && Sizes(t, kind)[j] == s.(price := Sizes(t, kind)[j].price)
  {
  }

  /** A size's price after the merge is the stored price for the same type
      id and size id when there is one, and its current price otherwise. */
  lemma MergedPrice(current: PriceTable, st: SavedTable, i: int, kind: SizeKind, j: int)
    requires 0 <= i < |current.timberTypes|
    requires 0 <= j < |Sizes(current.timberTypes[i], kind)|
    ensures var t := current.timberTypes[i];
            var s := Sizes(t, kind)[j];
            var stored := match FindSavedType(st.timberTypes, t.id)
                          case None => None
                          case Some(stype) => SavedPrice(SavedSizes(stype, kind), s.id);
            Sizes(Merged(current, Some(st)).timberTypes[i], kind)[j].price
              == (if stored.Some? then stored.value else s.price)
  {
  }

  /** Once merged, merging the same stored table again changes nothing. */
  lemma MergeIdempotent(current: PriceTable, saved: Option<SavedTable>)
    ensures Merged(Merged(current, saved), saved) == Merged(current, saved)
  {
    if saved.Some? {
      var st := saved.value;
      var once := Merged(current, saved);
      var twice := Merged(once, saved);
      assert |twice.timberTypes| == |once.timberTypes|;
      forall i | 0 <= i < |once.timberTypes|
        ensures twice.timberTypes[i] == once.timberTypes[i]
      {
        var t := once.timberTypes[i];
        assert t.id == current.timberTypes[i].id;
        match FindSavedType(st.timberTypes, t.id)
        case None =>
        case Some(stype) =>
          assert MergedSizes(t.boardSizes, stype.boardSizes) == t.boardSizes;
          assert MergedSizes(t.bearerSizes, stype.bearerSizes) == t.bearerSizes;
      }
    }
  }
}
