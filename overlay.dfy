/** The builder overlay's state and its handlers
    (src/components/PalletBuilderOverlay.jsx): the form with its five size
    lists, the price table, the price locks, the saved presets, the error
    text and the pallet quantity. Each handler writes new values and then
    runs the effects those values trigger: the type effects (251-300),
    which reload a size list and clear the size, and the auto-adjust
    effects (382-410), which lower a count above its limit. */
module Overlay {
  import opened Wrappers
  import opened Text
  import opened Catalog
  import opened FormInputs
  import opened OverlayLimits
  import opened OverlayState
  import opened PriceMerge
  import opened PriceEditing
  import opened Locks
  import opened Presets
  import LiveQuote
  import PrintableQuotes

  /** The five type/size selections of the form. */
  datatype Slot = TopBoardSlot | BottomBoardSlot | TopLeaderSlot | BottomLeaderSlot | BearerSlot

  function TypeAt(f: Form, s: Slot): string {
    match s
    case TopBoardSlot => f.top.boardType
    case BottomBoardSlot => f.bottom.boardType
    case TopLeaderSlot => f.top.leaderType
    case BottomLeaderSlot => f.bottom.leaderType
    case BearerSlot => f.bearerType
  }

  function SizeAt(f: Form, s: Slot): string {
    match s
    case TopBoardSlot => f.top.boardSize
    case BottomBoardSlot => f.bottom.boardSize
    case TopLeaderSlot => f.top.leaderSize
    case BottomLeaderSlot => f.bottom.leaderSize
    case BearerSlot => f.bearerSize
  }

  /** Leaders are chosen from the board sizes; only bearers have their own list. */
  function KindAt(s: Slot): SizeKind {
    if s == BearerSlot then BearerKind else BoardKind
  }

  /** The `available...Sizes` states. */
  datatype SizeLists = SizeLists(topBoard: seq<SizeSpec>, bottomBoard: seq<SizeSpec>,
                                 topLeader: seq<SizeSpec>, bottomLeader: seq<SizeSpec>,
                                 bearer: seq<SizeSpec>)

  const NoLists: SizeLists := SizeLists([], [], [], [], [])

  function ListAt(l: SizeLists, s: Slot): seq<SizeSpec> {
    match s
    case TopBoardSlot => l.topBoard
    case BottomBoardSlot => l.bottomBoard
    case TopLeaderSlot => l.topLeader
    case BottomLeaderSlot => l.bottomLeader
    case BearerSlot => l.bearer
  }

  /** The list a type effect loads: nothing for no type, else the type's
      list from the static catalog, or nothing when the id is unknown. */
  function ListFor(types: seq<TimberType>, typeId: string, kind: SizeKind): (r: seq<SizeSpec>)
    ensures typeId == "" || FindType(types, typeId).None? ==> r == []
    ensures typeId != "" && FindType(types, typeId).Some? ==> r == Sizes(FindType(types, typeId).value, kind)
  {
    if typeId == "" then []
    else match FindType(types, typeId)
      case None => []
      case Some(t) => Sizes(t, kind)
  }

  /** The lists every selected type calls for. */
  function ListsFor(types: seq<TimberType>, f: Form): SizeLists {
    SizeLists(ListFor(types, f.top.boardType, BoardKind), ListFor(types, f.bottom.boardType, BoardKind),
              ListFor(types, f.top.leaderType, BoardKind), ListFor(types, f.bottom.leaderType, BoardKind),
              ListFor(types, f.bearerType, BearerKind))
  }

  /** The form and the lists after the effects. */
  datatype Settled = Settled(form: Form, lists: SizeLists)

  /** A type effect runs only when its type changed; it then clears the
      size when the new type is not empty. */
  function SettledSize(before: Form, f: Form, s: Slot): string {
    if TypeAt(f, s) != TypeAt(before, s) && TypeAt(f, s) != "" then "" else SizeAt(f, s)
  }

  /** ... and loads the new type's list, whether or not it is empty. */
  function SettledList(types: seq<TimberType>, before: Form, f: Form, lists: SizeLists, s: Slot): seq<SizeSpec> {
    if TypeAt(f, s) != TypeAt(before, s) then ListFor(types, TypeAt(f, s), KindAt(s)) else ListAt(lists, s)
  }

  /** The five type effects, going from `before` to the newly written `f`. */
  function Settle(types: seq<TimberType>, before: Form, f: Form, lists: SizeLists): (r: Settled)
    ensures r.form.(top := f.top, bottom := f.bottom, bearerSize := f.bearerSize) == f
    ensures r.form.top.(boardSize := f.top.boardSize, leaderSize := f.top.leaderSize) == f.top
    ensures r.form.bottom.(boardSize := f.bottom.boardSize, leaderSize := f.bottom.leaderSize) == f.bottom
    ensures r.form.top.boardSize in {f.top.boardSize, ""} && r.form.top.leaderSize in {f.top.leaderSize, ""}
    ensures r.form.bottom.boardSize in {f.bottom.boardSize, ""} && r.form.bottom.leaderSize in {f.bottom.leaderSize, ""}
    ensures r.form.bearerSize in {f.bearerSize, ""}
  {
    Settled(f.(top := f.top.(boardSize := SettledSize(before, f, TopBoardSlot),
                             leaderSize := SettledSize(before, f, TopLeaderSlot)),
               bottom := f.bottom.(boardSize := SettledSize(before, f, BottomBoardSlot),
                                   leaderSize := SettledSize(before, f, BottomLeaderSlot)),
               bearerSize := SettledSize(before, f, BearerSlot)),
            SizeLists(SettledList(types, before, f, lists, TopBoardSlot),
                      SettledList(types, before, f, lists, BottomBoardSlot),
                      SettledList(types, before, f, lists, TopLeaderSlot),
                      SettledList(types, before, f, lists, BottomLeaderSlot),
                      SettledList(types, before, f, lists, BearerSlot)))
  }

  /** The three auto-adjust effects, each against the limit of the form it runs on. */
  function AutoAdjustForm(types: seq<TimberType>, f: Form): (r: Form)
    ensures r.(top := f.top, bottom := f.bottom, bearers := f.bearers) == f
    ensures r.top.(count := f.top.count) == f.top && r.bottom.(count := f.bottom.count) == f.bottom
    ensures DeckLimit(types, f.palletWidth, f.top.boardType, f.top.boardSize) > 0 ==>
              IntOr(r.top.count, 0) <= DeckLimit(types, f.palletWidth, f.top.boardType, f.top.boardSize)
    ensures DeckLimit(types, f.palletWidth, f.bottom.boardType, f.bottom.boardSize) > 0 ==>
              IntOr(r.bottom.count, 0) <= DeckLimit(types, f.palletWidth, f.bottom.boardType, f.bottom.boardSize)
    ensures BearerLimit(types, f.palletLength, f.bearerType, f.bearerSize) > 0 ==>
              IntOr(r.bearers, 0) <= BearerLimit(types, f.palletLength, f.bearerType, f.bearerSize)
  {
    f.(top := f.top.(count := AutoAdjusted(f.top.count, DeckLimit(types, f.palletWidth, f.top.boardType, f.top.boardSize))),
       bottom := f.bottom.(count := AutoAdjusted(f.bottom.count, DeckLimit(types, f.palletWidth, f.bottom.boardType, f.bottom.boardSize))),
       bearers := AutoAdjusted(f.bearers, BearerLimit(types, f.palletLength, f.bearerType, f.bearerSize)))
  }

  /** Writing `f` over `before`. The first commit runs the type effects
      and the count effects together, and every one of them reads the
      written values: a count is capped by the limit of the size written
      with it, and a changed type clears its size. The render that follows
      has new limits, so the count effects run once more; after that nothing
      changes. */
  function Commit(types: seq<TimberType>, before: Form, f: Form, lists: SizeLists): (r: Settled)
    ensures r.form.(top := f.top, bottom := f.bottom, bearerSize := f.bearerSize, bearers := f.bearers) == f
    ensures r.form.top.(boardSize := f.top.boardSize, leaderSize := f.top.leaderSize, count := f.top.count) == f.top
    ensures r.form.bottom.(boardSize := f.bottom.boardSize, leaderSize := f.bottom.leaderSize, count := f.bottom.count) == f.bottom
  {
    var s := Settle(types, before, AutoAdjustForm(types, f), lists);
    Settled(AutoAdjustForm(types, s.form), s.lists)
  }

  /** A state no effect changes: every list is the one its type calls for,
      and no count exceeds a positive limit. */
  predicate Quiescent(types: seq<TimberType>, f: Form, lists: SizeLists) {
    lists == ListsFor(types, f) && AutoAdjustForm(types, f) == f
  }

  /** The type effects keep the types, clear exactly the sizes whose type
      changed to a non-empty one, leave every other field alone, and keep
      each list the one its type calls for. */
  lemma SettleEffect(types: seq<TimberType>, before: Form, f: Form, lists: SizeLists, s: Slot)
    requires lists == ListsFor(types, before)
    ensures var r := Settle(types, before, f, lists);
            TypeAt(r.form, s) == TypeAt(f, s)
            && (TypeAt(f, s) != TypeAt(before, s) && TypeAt(f, s) != "" ==> SizeAt(r.form, s) == "")
            && (TypeAt(f, s) == TypeAt(before, s) || TypeAt(f, s) == "" ==> SizeAt(r.form, s) == SizeAt(f, s))
            && r.lists == ListsFor(types, f)
            && r.form.palletWidth == f.palletWidth && r.form.palletLength == f.palletLength
            && r.form.top.count == f.top.count && r.form.bottom.count == f.bottom.count
            && r.form.bearers == f.bearers
            && r.form.top.useLeaders == f.top.useLeaders && r.form.bottom.useLeaders == f.bottom.useLeaders
  {
    SettleSlot(types, before, f, lists, s);
    SettleLists(types, before, f, lists);
  }

  /** One slot: its type is kept and its size cleared only on a change to
      a non-empty type. */
  lemma SettleSlot(types: seq<TimberType>, before: Form, f: Form, lists: SizeLists, s: Slot)
    ensures var r := Settle(types, before, f, lists);
            TypeAt(r.form, s) == TypeAt(f, s) && SizeAt(r.form, s) == SettledSize(before, f, s)
  {
    match s
    case TopBoardSlot =>
    case BottomBoardSlot =>
    case TopLeaderSlot =>
    case BottomLeaderSlot =>
    case BearerSlot =>
  }

  /** The reloaded lists are the ones the new types call for. */
  lemma SettleLists(types: seq<TimberType>, before: Form, f: Form, lists: SizeLists)
    requires lists == ListsFor(types, before)
    ensures Settle(types, before, f, lists).lists == ListsFor(types, f)
  {
    SettledListFor(types, before, f, lists, TopBoardSlot);
    SettledListFor(types, before, f, lists, BottomBoardSlot);
    SettledListFor(types, before, f, lists, TopLeaderSlot);
    SettledListFor(types, before, f, lists, BottomLeaderSlot);
    SettledListFor(types, before, f, lists, BearerSlot);
  }

  /** One slot's list after its effect is the one its type calls for. */
  lemma SettledListFor(types: seq<TimberType>, before: Form, f: Form, lists: SizeLists, s: Slot)
    requires ListAt(lists, s) == ListFor(types, TypeAt(before, s), KindAt(s))
    ensures SettledList(types, before, f, lists, s) == ListFor(types, TypeAt(f, s), KindAt(s))
  {
  }

  /** With no type changed, the type effects change nothing. */
  lemma SettleUnchangedTypes(types: seq<TimberType>, before: Form, f: Form, lists: SizeLists)
    requires forall s :: TypeAt(f, s) == TypeAt(before, s)
    ensures Settle(types, before, f, lists) == Settled(f, lists)
  {
    assert TypeAt(f, TopBoardSlot) == TypeAt(before, TopBoardSlot);
    assert TypeAt(f, BottomBoardSlot) == TypeAt(before, BottomBoardSlot);
    assert TypeAt(f, TopLeaderSlot) == TypeAt(before, TopLeaderSlot);
    assert TypeAt(f, BottomLeaderSlot) == TypeAt(before, BottomLeaderSlot);
    assert TypeAt(f, BearerSlot) == TypeAt(before, BearerSlot);
  }

  /** The count effects never change what the selects show, the preview
      draws or the quote prices: they only bring the stored counts in line. */
  lemma AutoAdjustKeepsQuote(types: seq<TimberType>, p: PriceTable, f: Form)
    ensures var g := AutoAdjustForm(types, f);
            DeckCount(types, g, g.top) == DeckCount(types, f, f.top)
            && DeckCount(types, g, g.bottom) == DeckCount(types, f, f.bottom)
            && BearerCount(types, g) == BearerCount(types, f)
            && LiveQuote.QuoteOf(types, p, g) == LiveQuote.QuoteOf(types, p, f)
  {
    var g := AutoAdjustForm(types, f);
    AutoAdjustSound(f.top.count, DeckLimit(types, f.palletWidth, f.top.boardType, f.top.boardSize));
    AutoAdjustSound(f.bottom.count, DeckLimit(types, f.palletWidth, f.bottom.boardType, f.bottom.boardSize));
    AutoAdjustSound(f.bearers, BearerLimit(types, f.palletLength, f.bearerType, f.bearerSize));
    QuoteIgnoresStoredCounts(p, f, g, RealOr(f.palletWidth, 0.0), RealOr(f.palletLength, 0.0),
                             DeckCount(types, f, f.top), DeckCount(types, f, f.bottom), BearerCount(types, f));
  }

  /** The quote reads the form's selections; the counts come in as arguments. */
  lemma QuoteIgnoresStoredCounts(p: PriceTable, f: Form, g: Form, width: real, length: real, top: int, bottom: int, bearers: int)
    requires g.top.(count := f.top.count) == f.top && g.bottom.(count := f.bottom.count) == f.bottom
    requires g.bearerType == f.bearerType && g.bearerSize == f.bearerSize
    ensures LiveQuote.QuoteFrom(p, g, width, length, top, bottom, bearers)
            == LiveQuote.QuoteFrom(p, f, width, length, top, bottom, bearers)
  {
    assert LiveQuote.Choices(g) == LiveQuote.Choices(f);
  }

  /** After a commit the effects have nothing left to do. */
  lemma CommitQuiescent(types: seq<TimberType>, before: Form, f: Form, lists: SizeLists)
    requires lists == ListsFor(types, before)
    ensures var r := Commit(types, before, f, lists);
            Quiescent(types, r.form, r.lists)
  {
    var g := AutoAdjustForm(types, f);
    var s := Settle(types, before, g, lists);
    SettleEffect(types, before, g, lists, TopBoardSlot);
    AutoAdjustIdempotent(types, s.form);
  }

  /** The count effects keep the types and sizes, are idempotent, and
      leave every stored count within its positive limit. */
  lemma AutoAdjustIdempotent(types: seq<TimberType>, f: Form)
    ensures var g := AutoAdjustForm(types, f);
            AutoAdjustForm(types, g) == g
            && ListsFor(types, g) == ListsFor(types, f)
            && (DeckLimit(types, g.palletWidth, g.top.boardType, g.top.boardSize) > 0 ==>
                  IntOr(g.top.count, 0) <= DeckLimit(types, g.palletWidth, g.top.boardType, g.top.boardSize))
            && (DeckLimit(types, g.palletWidth, g.bottom.boardType, g.bottom.boardSize) > 0 ==>
                  IntOr(g.bottom.count, 0) <= DeckLimit(types, g.palletWidth, g.bottom.boardType, g.bottom.boardSize))
            && (BearerLimit(types, g.palletLength, g.bearerType, g.bearerSize) > 0 ==>
                  IntOr(g.bearers, 0) <= BearerLimit(types, g.palletLength, g.bearerType, g.bearerSize))
  {
    AutoAdjustSound(f.top.count, DeckLimit(types, f.palletWidth, f.top.boardType, f.top.boardSize));
    AutoAdjustSound(f.bottom.count, DeckLimit(types, f.palletWidth, f.bottom.boardType, f.bottom.boardSize));
    AutoAdjustSound(f.bearers, BearerLimit(types, f.palletLength, f.bearerType, f.bearerSize));
  }

  /** A quiescent state stays as it is when the effects run again. */
  lemma QuiescentIsFixpoint(types: seq<TimberType>, f: Form, lists: SizeLists)
    requires Quiescent(types, f, lists)
    ensures Commit(types, f, f, lists) == Settled(f, lists)
  {
    SettleUnchangedTypes(types, f, f, lists);
  }

  /** Writing the empty form empties every selection and every list,
      whatever was selected before. */
  lemma ClearCommit(types: seq<TimberType>, before: Form, lists: SizeLists)
    requires lists == ListsFor(types, before)
    ensures Commit(types, before, EmptyForm, lists) == Settled(EmptyForm, NoLists)
  {
    var s := Settle(types, before, EmptyForm, lists);
    assert s.form == EmptyForm;
    assert s.lists == NoLists;
  }

  /** So the cleared state has no effect pending. */
  lemma ClearedQuiescent(types: seq<TimberType>, before: Form, lists: SizeLists)
    requires lists == ListsFor(types, before)
    ensures Quiescent(types, EmptyForm, NoLists)
  {
    ClearCommit(types, before, lists);
    CommitQuiescent(types, before, EmptyForm, lists);
  }

  /** The empty form with no lists leaves every effect nothing to do. */
  lemma EmptyQuiescent(types: seq<TimberType>)
    ensures Quiescent(types, EmptyForm, NoLists)
  {
    assert ListsFor(types, EmptyForm) == NoLists;
    assert AutoAdjustForm(types, EmptyForm) == EmptyForm;
  }

  /** Collecting one more id of a list adds that id. */
  lemma IdSetSnoc(ids: seq<string>, i: int)
    requires 0 <= i < |ids|
    ensures IdSet(ids[..i + 1]) == IdSet(ids[..i]) + {ids[i]}
  {
    assert ids[..i + 1] == ids[..i] + [ids[i]];
  }

  /** The mount effect's loop: the ids of every type's sizes in catalog
      order, then the nail id. */
  method CollectFieldIds(types: seq<TimberType>) returns (ids: seq<string>)
    ensures ids == AllFieldIds(types)
  {
    ids := [];
    var i := 0;
    while i < |types|
      invariant 0 <= i <= |types|
      invariant ids == TypesFieldIds(types[..i])
    {
      assert types[..i + 1][..i] == types[..i];
      ids := ids + TypeFieldIds(types[i]);
      i := i + 1;
    }
    assert types[..i] == types;
    ids := ids + [NailsField];
  }

  /** `savedPresets.find(p => p.id === presetId)`. */
  function FindPreset(presets: seq<Preset>, id: string): (r: Option<Preset>)
    ensures r.Some? ==> r.value in presets && r.value.id == id
    ensures r.None? ==> forall i :: 0 <= i < |presets| ==> presets[i].id != id
  {
    if presets == [] then None
    else if presets[0].id == id then Some(presets[0])
    else FindPreset(presets[1..], id)
  }

  /** The builder overlay. `timberData` is the bundled catalog: the size
      lists and the count limits read it, the quote reads `prices`. */
  class PalletBuilderOverlay {
    const timberData: PriceTable
    var form: Form
    var available: SizeLists
    var prices: PriceTable
    var locked: set<string>
    var presets: seq<Preset>
    var presetName: string
    var error: string
    var palletQuantity: Field<int>
    /** Every value passed to `onQuoteCalculated`, oldest first. */
    var emitted: seq<Option<LiveQuote.Quote>>

    /** No effect is pending. */
    predicate Valid()
      reads this`form, this`available
    {
      Quiescent(timberData.timberTypes, form, available)
    }

    /** The initial states of the hooks. */
    constructor (catalog: PriceTable)
      ensures timberData == catalog
      ensures form == EmptyForm && available == NoLists
      ensures prices == PriceTable([], None) && locked == {}
      ensures presets == [] && presetName == "" && error == ""
      ensures palletQuantity == Blank && emitted == []
      ensures Valid()
    {
      timberData := catalog;
      form := EmptyForm;
      available := NoLists;
      prices := PriceTable([], None);
      locked := {};
      presets := [];
      presetName := "";
      error := "";
      palletQuantity := Blank;
      emitted := [];
    }

    /** The mount effects: the bundled table with the saved prices merged
        in, every price field locked, and the stored presets, if they
        parsed. */
    method Mount(saved: Option<SavedTable>, storedPresets: Option<seq<Preset>>)
      requires Valid()
      modifies this`prices, this`locked, this`presets
      ensures Valid()
      ensures prices == Merged(timberData, saved)
      ensures locked == IdSet(AllFieldIds(timberData.timberTypes))
      ensures presets == (if storedPresets.Some? then storedPresets.value else old(presets))
    {
      prices := MergeSavedPrices(timberData, saved);
      var ids := CollectFieldIds(timberData.timberTypes);
      locked := IdSet(ids);
      if storedPresets.Some? {
        presets := storedPresets.value;
      }
    }

    /** Any change to the form's inputs: the new values are written, then
        the effects run. Choosing a type, a size, a count, a dimension, a
        leader switch or a standard pallet size is each such a change. */
    method Edit(f: Form)
      requires Valid()
      modifies this`form, this`available
      ensures form == Commit(timberData.timberTypes, old(form), f, old(available)).form
      ensures available == ListsFor(timberData.timberTypes, form)
      ensures Valid()
    {
      CommitQuiescent(timberData.timberTypes, form, f, available);
      var r := Commit(timberData.timberTypes, form, f, available);
      form := r.form;
      available := r.lists;
    }

    /** `handleClear`: an empty form, no error, no quantity, and `null`
        passed to `onQuoteCalculated`. The type effects then empty every
        list. */
    method HandleClear()
      requires Valid()
      modifies this`form, this`available, this`error, this`palletQuantity, this`emitted
      ensures form == EmptyForm && available == NoLists
      ensures error == "" && palletQuantity == Blank
      ensures emitted == old(emitted) + [None]
      ensures Valid()
    {
      form := EmptyForm;
      available := NoLists;
      error := "";
      palletQuantity := Blank;
      emitted := emitted + [None];
      // The effects of writing the empty form have nothing left to do.
      EmptyQuiescent(timberData.timberTypes);
      assert Quiescent(timberData.timberTypes, form, available);
    }

    /** `toggleLock`. */
    method ToggleLock(fieldId: string)
      modifies this`locked
      ensures locked == Toggled(old(locked), fieldId)
      ensures fieldId in locked <==> fieldId !in old(locked)
    {
      var newLocked := locked;
      if fieldId in newLocked {
        newLocked := newLocked - {fieldId};
      } else {
        newLocked := newLocked + {fieldId};
      }
      locked := newLocked;
    }

    /** `toggleCategoryLock`: one pass over the category's ids, deleting
        each when the whole category was locked and adding it otherwise. */
    method ToggleCategoryLock(categoryId: string)
      modifies this`locked
      ensures locked == CategoryToggled(old(locked), CategoryFieldIds(timberData.timberTypes, categoryId))
    {
      var ids := CategoryFieldIds(timberData.timberTypes, categoryId);
      var current := locked;
      var allLocked := CategoryLocked(current, ids);
      var newLocked := current;
      var i := 0;
      while i < |ids|
        invariant 0 <= i <= |ids|
        invariant newLocked == (if allLocked then current - IdSet(ids[..i]) else current + IdSet(ids[..i]))
      {
        IdSetSnoc(ids, i);
        if allLocked {
          newLocked := newLocked - {ids[i]};
        } else {
          newLocked := newLocked + {ids[i]};
        }
        i := i + 1;
      }
      assert ids[..i] == ids;
      assert IdSet(ids[..i]) == IdSet(ids);
      locked := newLocked;
    }

    /** The overlay's `handlePriceChange`: one price becomes the parsed
        input, or 0. The type and size must exist, as `findIndex` would
        give -1 otherwise. */
    method HandlePriceChange(typeId: string, sizeId: string, newPrice: Option<real>, itemType: string)
      requires Valid()
      requires CanEdit(prices, typeId, sizeId, KindOf(itemType))
      modifies this`prices
      ensures prices == Edited(old(prices), typeId, sizeId, EnteredPrice(newPrice), KindOf(itemType))
      ensures ResolveSize(prices.timberTypes, typeId, sizeId, KindOf(itemType))
              == Some(ResolveSize(old(prices).timberTypes, typeId, sizeId, KindOf(itemType)).value.(price := EnteredPrice(newPrice)))
      ensures Valid()
    {
      EditedLookup(prices, typeId, sizeId, EnteredPrice(newPrice), KindOf(itemType));
      prices := Edited(prices, typeId, sizeId, EnteredPrice(newPrice), KindOf(itemType));
    }

    /** The nail input's change handler: the parsed value or 0 is stored,
        every size price is kept. */
    method HandleNailChange(newPrice: Option<real>)
      requires Valid()
      modifies this`prices
      ensures prices == old(prices).(nailPricePerNail := Some(EnteredPrice(newPrice)))
      ensures NailPrice(prices) == (if EnteredPrice(newPrice) == 0.0 then DefaultNailPrice else EnteredPrice(newPrice))
      ensures Valid()
    {
      prices := prices.(nailPricePerNail := Some(EnteredPrice(newPrice)));
    }

    /** `savePreset`: nothing for a blank name; otherwise the form is
        appended under the trimmed name and the name input is emptied.
        `id` stands for the clock reading the source uses. */
    method SavePreset(id: string)
      modifies this`presets, this`presetName
      ensures Trim(old(presetName)) == "" ==> presets == old(presets) && presetName == old(presetName)
      ensures Trim(old(presetName)) != "" ==>
                presets == old(presets) + [NewPreset(id, Trim(old(presetName)), old(form))] && presetName == ""
    {
      var name := Trim(presetName);
      if name == "" {
        return;
      }
      presets := presets + [NewPreset(id, name, form)];
      presetName := "";
    }

    /** The preset-name input. */
    method SetPresetName(name: string)
      modifies this`presetName
      ensures presetName == name
    {
      presetName := name;
    }

    /** `parseInt(palletQuantity) || 1`: the number of pallets the totals
        and the printed sheet multiply by; never 0. */
    function PalletCount(): (n: int)
      reads this`palletQuantity
      ensures n != 0
      ensures Parsed(palletQuantity).Some? && Parsed(palletQuantity).value != 0 ==> n == Parsed(palletQuantity).value
    {
      IntOr(palletQuantity, 1)
    }

    /** The quantity input of the quote panel stores whatever is entered. */
    method SetQuantity(q: Field<int>)
      modifies this`palletQuantity
      ensures palletQuantity == q
    {
      palletQuantity := q;
    }

    /** Leaving the quote panel's quantity input: a value that does not
        parse to at least 1 (`!val || val < 1`) becomes "1". */
    method QuantityBlur()
      modifies this`palletQuantity
      ensures IntOr(old(palletQuantity), 0) < 1 ==> palletQuantity == Entered(Some(1))
      ensures IntOr(old(palletQuantity), 0) >= 1 ==> palletQuantity == old(palletQuantity)
      ensures PalletCount() >= 1
    {
      if IntOr(palletQuantity, 0) < 1 {
        palletQuantity := Entered(Some(1));
      }
    }

    /** The quantity input of the price header keeps only an empty entry or
        one made of digits, which `parseInt` reads whole. */
    method HandleQuantityInput(text: string)
      modifies this`palletQuantity
      ensures text == "" ==> palletQuantity == Blank
      ensures text != "" && PrintableQuotes.AllDigits(text) ==>
                palletQuantity == Entered(Some(PrintableQuotes.DigitsValue(text)))
      ensures text != "" && !PrintableQuotes.AllDigits(text) ==> palletQuantity == old(palletQuantity)
      ensures palletQuantity != old(palletQuantity) ==> Parsed(palletQuantity).None? || Parsed(palletQuantity).value >= 0
    {
      if text == "" {
        palletQuantity := Blank;
      } else if PrintableQuotes.AllDigits(text) {
        palletQuantity := Entered(Some(PrintableQuotes.DigitsValue(text)));
      }
    }

    /** Leaving the price header's quantity input: an empty entry or one
        below 1 becomes "1". Text that does not parse is kept, since
        `NaN < 1` is false. */
    method LiveQuantityBlur()
      modifies this`palletQuantity
      ensures old(palletQuantity).Blank? || (Parsed(old(palletQuantity)).Some? && Parsed(old(palletQuantity)).value < 1)
              ==> palletQuantity == Entered(Some(1))
      ensures old(palletQuantity) == Entered(None) || (Parsed(old(palletQuantity)).Some? && Parsed(old(palletQuantity)).value >= 1)
              ==> palletQuantity == old(palletQuantity)
      ensures PalletCount() >= 1
    {
      if palletQuantity.Blank? || (Parsed(palletQuantity).Some? && Parsed(palletQuantity).value < 1) {
        palletQuantity := Entered(Some(1));
      }
    }

    /** `loadPreset`: the preset's values are written, then the effects
        run. A size whose type differs from the current one is cleared by
        its type effect. */
    method LoadPreset(p: Preset)
      requires Valid()
      modifies this`form, this`available
      ensures form == Commit(timberData.timberTypes, old(form), LoadedForm(p), old(available)).form
      ensures Valid()
    {
      Edit(LoadedForm(p));
    }

    /** Choosing "saved:<id>" in the preset select loads the first preset
        with that id, if there is one. */
    method SelectSavedPreset(presetId: string)
      requires Valid()
      modifies this`form, this`available
      ensures FindPreset(old(presets), presetId).None? ==> form == old(form) && available == old(available)
      ensures FindPreset(old(presets), presetId).Some? ==>
                form == Commit(timberData.timberTypes, old(form), LoadedForm(FindPreset(old(presets), presetId).value), old(available)).form
      ensures Valid()
    {
      var found := FindPreset(presets, presetId);
      if found.Some? {
        LoadPreset(found.value);
      }
    }

    /** `deletePreset`. */
    method DeletePreset(presetId: string)
      modifies this`presets
      ensures presets == Without(old(presets), presetId)
      ensures forall p :: p in presets <==> p in old(presets) && p.id != presetId
    {
      presets := Without(presets, presetId);
    }

    /** `importPresets` once the file is read: `None` is a file that does
        not parse, which changes nothing. Presets are merged when the file
        has a list; its price table, when present, replaces the current
        one. `idFor(k)` stands for the k-th fresh id. */
    method ImportPresets(data: Option<ImportData>, idFor: nat -> string)
      requires Valid()
      modifies this`presets, this`prices
      ensures data.None? ==> presets == old(presets) && prices == old(prices)
      ensures data.Some? && data.value.presets.Some? ==>
                presets == Imported(old(presets), data.value.presets.value, idFor)
      ensures data.Some? && data.value.presets.None? ==> presets == old(presets)
      ensures data.Some? && data.value.prices.Some? ==> prices == data.value.prices.value
      ensures data.Some? && data.value.prices.None? ==> prices == old(prices)
      ensures Valid()
    {
      if data.None? {
        return;
      }
      if data.value.presets.Some? {
        presets := Imported(presets, data.value.presets.value, idFor);
      }
      if data.value.prices.Some? {
        prices := data.value.prices.value;
      }
    }

    /** `liveQuote` for the current state. */
    function Quote(): (q: LiveQuote.Quote)
      reads this
      ensures q.totalPrice == q.top.leadersTotal + q.top.boardsTotal + q.bottom.leadersTotal
                              + q.bottom.boardsTotal + q.bearersTotal + q.nailsTotal
    {
      LiveQuote.QuoteOf(timberData.timberTypes, prices, form)
    }
  }

  /** A sample catalog: one type with one board size. */
  const Pine: TimberType := TimberType("pine", "Pine", [SizeSpec("b100", "100x22", 100.0, 22.0, 2.5)], [])

  /** A form with only the top board chosen. */
  const PineTopForm: Form := EmptyForm.(top := EmptyDeck.(boardType := "pine", boardSize := "b100"))

  /** As written: from the empty form, loading a preset saved with pine
      100x22 top boards leaves the top board size empty, because the type
      effect of the newly loaded type clears the size loaded with it. */
  lemma PresetLoadLosesSizes()
    ensures AutoAdjustForm([Pine], PineTopForm) == PineTopForm
    ensures LoadedForm(NewPreset("1", "pine top", PineTopForm)) == PineTopForm
    ensures Commit([Pine], EmptyForm, LoadedForm(NewPreset("1", "pine top", PineTopForm)), NoLists).form.top.boardSize == ""
    ensures Commit([Pine], EmptyForm, LoadedForm(NewPreset("1", "pine top", PineTopForm)), NoLists).form != PineTopForm
  {
    SaveLoadRoundTrip("1", "pine top", PineTopForm);
  }

  /** A pallet 1000 mm wide with fifteen pine 100x22 top boards. */
  const WidePineForm: Form := EmptyForm.(palletWidth := Entered(Some(1000.0)),
                                         top := EmptyDeck.(boardType := "pine", boardSize := "b100", count := Entered(Some(15))))

  /** Every effect of one commit reads the values written in it: loading a
      preset with fifteen 100 mm top boards on a 1000 mm pallet caps the
      count at the ten boards that fit, although the same commit clears the
      top board size and so lifts the limit back to 15. */
  lemma LoadCapsCountBeforeSizeClears()
    ensures DeckLimit([Pine], WidePineForm.palletWidth, "pine", "b100") == 10
    ensures DeckLimit([Pine], WidePineForm.palletWidth, "pine", "") == MaxItems
    ensures var r := Commit([Pine], EmptyForm, LoadedForm(NewPreset("2", "wide pine", WidePineForm)), NoLists);
            r.form.top.count == Entered(Some(10)) && r.form.top.boardSize == ""
  {
    SaveLoadRoundTrip("2", "wide pine", WidePineForm);
    assert (1000.0 / 100.0).Floor == 10;
    assert DeckLimit([Pine], WidePineForm.palletWidth, "pine", "b100") == 10;
  }

  /** Loading as intended: the preset's values, the lists its types call
      for, and the count effects; the type effects do not clear the sizes
      that arrive together with their types. */
  function LoadedStateCorrected(types: seq<TimberType>, p: Preset): Settled {
    var f := AutoAdjustForm(types, LoadedForm(p));
    Settled(f, ListsFor(types, f))
  }

  /** Loading a preset saved from a settled form restores that form
      exactly, sizes included, and leaves nothing for the effects to do. */
  lemma CorrectedLoadRoundTrip(types: seq<TimberType>, id: string, name: string, f: Form, lists: SizeLists)
    requires Quiescent(types, f, lists)
    ensures LoadedStateCorrected(types, NewPreset(id, name, f)) == Settled(f, lists)
    ensures var r := LoadedStateCorrected(types, NewPreset(id, name, f));
            Quiescent(types, r.form, r.lists)
  {
    SaveLoadRoundTrip(id, name, f);
  }
}
