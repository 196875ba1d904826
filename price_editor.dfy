/** Editing one price of the table (src/components/PriceEditor.jsx, and the
    same handler in src/components/PalletBuilderOverlay.jsx:797-811), the
    nail-price edit, and the editor's load and reset of the whole table. */
module PriceEditing {
  import opened Wrappers
  import opened Catalog

  /** `itemType === 'board'` selects the board list; any other value the
      bearer list. */
  function KindOf(itemType: string): (k: SizeKind)
    ensures k == BoardKind <==> itemType == "board"
  {
    if itemType == "board" then BoardKind else BearerKind
  }

  /** `parseFloat(newPrice) || 0`: the parsed price, 0 for empty or
      unparseable text. */
  function EnteredPrice(parsed: Option<real>): real {
    parsed.GetOr(0.0)
  }

  /** The edit can be applied: `findIndex` finds the type, and the size in
      the addressed list. Otherwise the handler indexes with -1 and faults. */
  predicate CanEdit(p: PriceTable, typeId: string, sizeId: string, kind: SizeKind) {
    var ti := TypeIndex(p.timberTypes, typeId);
    ti >= 0 && SizeIndex(Sizes(p.timberTypes[ti], kind), sizeId) >= 0
  }

  function WithSizes(t: TimberType, kind: SizeKind, sizes: seq<SizeSpec>): TimberType {
    match kind
    case BoardKind => t.(boardSizes := sizes)
    case BearerKind => t.(bearerSizes := sizes)
  }

  /** The table after `handlePriceChange`: the price of the first matching
      size of the first matching type is the new price. */
  function Edited(p: PriceTable, typeId: string, sizeId: string, price: real, kind: SizeKind): (r: PriceTable)
    requires CanEdit(p, typeId, sizeId, kind)
    ensures TypeIds(r.timberTypes) == TypeIds(p.timberTypes)
    ensures r.nailPricePerNail == p.nailPricePerNail
  {
    var ti := TypeIndex(p.timberTypes, typeId);
    var t := p.timberTypes[ti];
    var si := SizeIndex(Sizes(t, kind), sizeId);
    var sizes := Sizes(t, kind)[si := Sizes(t, kind)[si].(price := price)];
    p.(timberTypes := p.timberTypes[ti := WithSizes(t, kind, sizes)])
  }

  /** After the edit, looking the size up again finds the new price, with
      the size's id, dimensions, width and thickness unchanged. */
  lemma EditedLookup(p: PriceTable, typeId: string, sizeId: string, price: real, kind: SizeKind)
    requires CanEdit(p, typeId, sizeId, kind)
    ensures var before := ResolveSize(p.timberTypes, typeId, sizeId, kind);
            var after := ResolveSize(Edited(p, typeId, sizeId, price, kind).timberTypes, typeId, sizeId, kind);
            before.Some? && after == Some(before.value.(price := price))
  {
    var ti := TypeIndex(p.timberTypes, typeId);
    var q := Edited(p, typeId, sizeId, price, kind);
    var t := p.timberTypes[ti];
    var si := SizeIndex(Sizes(t, kind), sizeId);
    // The edit keeps every id, so `findIndex` answers the same afterwards.
    assert TypeIds(q.timberTypes) == TypeIds(p.timberTypes);
    assert SizeIds(Sizes(q.timberTypes[ti], kind)) == SizeIds(Sizes(t, kind));
  }

  /** Nothing else changes: every other size of every list keeps its entry,
      every type keeps its id and name, and the nail price is untouched. */
  lemma EditChangesOnlyTarget(p: PriceTable, typeId: string, sizeId: string, price: real, kind: SizeKind,
                              i: int, k: SizeKind, j: int)
    requires CanEdit(p, typeId, sizeId, kind)
    requires 0 <= i < |p.timberTypes| && 0 <= j < |Sizes(p.timberTypes[i], k)|
    requires i != TypeIndex(p.timberTypes, typeId) || k != kind
             || j != SizeIndex(Sizes(p.timberTypes[i], kind), sizeId)
    ensures var q := Edited(p, typeId, sizeId, price, kind);
            |q.timberTypes| == |p.timberTypes|
            && q.nailPricePerNail == p.nailPricePerNail
            && q.timberTypes[i].id == p.timberTypes[i].id
            && q.timberTypes[i].name == p.timberTypes[i].name
            && |Sizes(q.timberTypes[i], k)| == |Sizes(p.timberTypes[i], k)|
            && Sizes(q.timberTypes[i], k)[j] == Sizes(p.timberTypes[i], k)[j]
  {
  }

  /** The price-table editor. `bundled` is the imported default table, a
      module-level object, and `sharesBundled` says that the table in state
      holds that object's very list of types: the load effect and the reset
      put the imported object itself into state, and the shallow copies of
      the two change handlers keep that list. */
  class PriceEditor {
    var prices: PriceTable
    var bundled: PriceTable
    var sharesBundled: bool

    /** The types in state are the bundled object's types whenever they are
        shared. */
    predicate Valid()
      reads this`prices, this`bundled, this`sharesBundled
    {
      sharesBundled ==> prices.timberTypes == bundled.timberTypes
    }

    /** `useState({ timberTypes: [] })`, with the imported table as shipped. */
    constructor (catalog: PriceTable)
      ensures prices == PriceTable([], None) && bundled == catalog && !sharesBundled
      ensures Valid()
    {
      prices := PriceTable([], None);
      bundled := catalog;
      sharesBundled := false;
    }

    /** The load effect: a stored table, freshly parsed, replaces the
        defaults wholesale; without one, the imported object itself is put
        into state. */
    method Load(stored: Option<PriceTable>)
      modifies this`prices, this`sharesBundled
      ensures prices == (if stored.Some? then stored.value else bundled)
      ensures sharesBundled <==> stored.None?
      ensures Valid()
    {
      if stored.Some? {
        prices := stored.value;
        sharesBundled := false;
      } else {
        prices := bundled;
        sharesBundled := true;
      }
    }

    /** `handlePriceChange`: one price is replaced by the parsed input. The
        copy is shallow, so the write lands in the list of types that the
        bundled object shares while it does. */
    method HandlePriceChange(typeId: string, sizeId: string, newPrice: Option<real>, itemType: string)
      requires Valid()
      requires CanEdit(prices, typeId, sizeId, KindOf(itemType))
      modifies this`prices, this`bundled
      ensures prices == Edited(old(prices), typeId, sizeId, EnteredPrice(newPrice), KindOf(itemType))
      ensures ResolveSize(prices.timberTypes, typeId, sizeId, KindOf(itemType)).Some?
      ensures ResolveSize(prices.timberTypes, typeId, sizeId, KindOf(itemType)).value.price == EnteredPrice(newPrice)
      ensures bundled == if sharesBundled then old(bundled).(timberTypes := prices.timberTypes) else old(bundled)
      ensures Valid()
    {
      EditedLookup(prices, typeId, sizeId, EnteredPrice(newPrice), KindOf(itemType));
      prices := Edited(prices, typeId, sizeId, EnteredPrice(newPrice), KindOf(itemType));
      if sharesBundled {
        bundled := bundled.(timberTypes := prices.timberTypes);
      }
    }

    /** The nail input's change handler stores the parsed value or 0 in a
        shallow copy, which keeps the list of types. */
    method HandleNailChange(newPrice: Option<real>)
      requires Valid()
      modifies this`prices
      ensures prices == old(prices).(nailPricePerNail := Some(EnteredPrice(newPrice)))
      ensures Valid()
    {
      prices := prices.(nailPricePerNail := Some(EnteredPrice(newPrice)));
    }

    /** The nail input shows `nailPricePerNail || 0.02`. */
    function DisplayedNailPrice(): real
      reads this`prices
    {
      NailPrice(prices)
    }

    /** `handleReset`: when the user confirms, the imported object is put
        into state again, with whatever edits have reached it. */
    method HandleReset(confirmed: bool)
      modifies this`prices, this`sharesBundled
      ensures prices == (if confirmed then bundled else old(prices))
      ensures sharesBundled == (confirmed || old(sharesBundled))
      ensures old(Valid()) ==> Valid()
    {
      if confirmed {
        prices := bundled;
        sharesBundled := true;
      }
    }

    /** The intended `handlePriceChange`: the edit is written into a copy of
        the whole table, so the imported object is never touched. */
    method HandlePriceChangeCopying(typeId: string, sizeId: string, newPrice: Option<real>, itemType: string)
      requires CanEdit(prices, typeId, sizeId, KindOf(itemType))
      modifies this`prices, this`sharesBundled
      ensures prices == Edited(old(prices), typeId, sizeId, EnteredPrice(newPrice), KindOf(itemType))
      ensures !sharesBundled
      ensures Valid()
    {
      prices := Edited(prices, typeId, sizeId, EnteredPrice(newPrice), KindOf(itemType));
      sharesBundled := false;
    }
  }

  /** As written: in a session with nothing stored, a confirmed reset after
      an edit keeps the edit, because the edit reached the imported table. */
  method EditThenReset(catalog: PriceTable, typeId: string, sizeId: string, newPrice: Option<real>, itemType: string)
    returns (after: PriceTable)
    requires CanEdit(catalog, typeId, sizeId, KindOf(itemType))
    ensures ResolveSize(after.timberTypes, typeId, sizeId, KindOf(itemType)).Some?
    ensures ResolveSize(after.timberTypes, typeId, sizeId, KindOf(itemType)).value.price == EnteredPrice(newPrice)
    ensures after.timberTypes == Edited(catalog, typeId, sizeId, EnteredPrice(newPrice), KindOf(itemType)).timberTypes
  {
    var editor := new PriceEditor(catalog);
    editor.Load(None);
    editor.HandlePriceChange(typeId, sizeId, newPrice, itemType);
    editor.HandleReset(true);
    after := editor.prices;
  }

  /** So a reset does not bring the shipped price back: whenever the entered
      price differs from the shipped one, the table after the reset is not
      the shipped table. */
  method ResetKeepsEdit(catalog: PriceTable, typeId: string, sizeId: string, newPrice: Option<real>, itemType: string)
    returns (after: PriceTable)
    requires CanEdit(catalog, typeId, sizeId, KindOf(itemType))
    requires ResolveSize(catalog.timberTypes, typeId, sizeId, KindOf(itemType)).Some?
    requires ResolveSize(catalog.timberTypes, typeId, sizeId, KindOf(itemType)).value.price != EnteredPrice(newPrice)
    ensures after != catalog
  {
    after := EditThenReset(catalog, typeId, sizeId, newPrice, itemType);
  }

  /** Corrected: with the edit written into a copy, a confirmed reset after
      any edit brings back the shipped table exactly. */
  method EditThenResetCopying(catalog: PriceTable, typeId: string, sizeId: string, newPrice: Option<real>, itemType: string)
    returns (after: PriceTable)
    requires CanEdit(catalog, typeId, sizeId, KindOf(itemType))
    ensures after == catalog
  {
    var editor := new PriceEditor(catalog);
    editor.Load(None);
    editor.HandlePriceChangeCopying(typeId, sizeId, newPrice, itemType);
    editor.HandleReset(true);
    after := editor.prices;
  }

  /** An empty or zero nail input stores 0, yet the input then shows 0.02,
      and every reader that applies `|| 0.02` prices nails at 0.02. */
  lemma ZeroNailShownAsDefault(p: PriceTable)
    ensures NailPrice(p.(nailPricePerNail := Some(EnteredPrice(Some(0.0))))) == DefaultNailPrice
    ensures NailPrice(p.(nailPricePerNail := Some(EnteredPrice(None)))) == DefaultNailPrice
  {
  }
}
