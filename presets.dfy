/** Saved presets of the builder overlay
    (src/components/PalletBuilderOverlay.jsx:139-200, 222-249): a preset is
    a named copy of the form; the list grows by saving and importing and
    shrinks by deleting, and loading copies a preset back into the form. */
module Presets {
  import opened Wrappers
  import opened Catalog
  import opened FormInputs
  import opened OverlayState

  /** A stored preset. A key missing from stored JSON reads as its empty
      value, which is what every `|| ''` and `|| false` on load sees, so the
      form holds both. Presets of the older format carry one board type and
      size for both decks (`selectedBoardType`, `selectedBoardSize`). */
  datatype Preset = Preset(id: string, name: string, form: Form,
                           legacyBoardType: string, legacyBoardSize: string)

  /** What an imported file offers: a `presets` array and a `prices`
      table, each possibly missing. */
  datatype ImportData = ImportData(presets: Option<seq<Preset>>, prices: Option<PriceTable>)

  /** `a || b` on strings: the first unless it is empty. */
  function Or(a: string, b: string): (r: string)
    ensures a != "" ==> r == a
    ensures a == "" ==> r == b
  {
    if a != "" then a else b
  }

  /** The preset `savePreset` builds from the current form. */
  function NewPreset(id: string, name: string, f: Form): Preset {
    Preset(id, name, f, "", "")
  }

  /** The form `loadPreset` writes: each key of the preset, a deck's board
      type and size falling back to the older format's shared keys. */
  function LoadedForm(p: Preset): (r: Form)
    ensures r.(top := p.form.top, bottom := p.form.bottom) == p.form
    ensures r.top.(boardType := p.form.top.boardType, boardSize := p.form.top.boardSize) == p.form.top
    ensures r.bottom.(boardType := p.form.bottom.boardType, boardSize := p.form.bottom.boardSize) == p.form.bottom
    ensures p.legacyBoardType == "" && p.legacyBoardSize == "" ==> r == p.form
  {
    var f := p.form;
    f.(top := f.top.(boardType := Or(f.top.boardType, p.legacyBoardType),
                     boardSize := Or(f.top.boardSize, p.legacyBoardSize)),
       bottom := f.bottom.(boardType := Or(f.bottom.boardType, p.legacyBoardType),
                           boardSize := Or(f.bottom.boardSize, p.legacyBoardSize)))
  }

  /** Loading a saved preset writes back exactly the form it was saved from. */
  lemma SaveLoadRoundTrip(id: string, name: string, f: Form)
    ensures LoadedForm(NewPreset(id, name, f)) == f
  {
  }

  /** A preset of the older format puts its one board type and size on
      both decks. */
  lemma LegacyPresetFillsBothDecks(p: Preset)
    requires p.form.top.boardType == "" && p.form.bottom.boardType == ""
    requires p.form.top.boardSize == "" && p.form.bottom.boardSize == ""
    ensures LoadedForm(p).top.boardType == p.legacyBoardType == LoadedForm(p).bottom.boardType
    ensures LoadedForm(p).top.boardSize == p.legacyBoardSize == LoadedForm(p).bottom.boardSize
    ensures LoadedForm(p).bearerType == p.form.bearerType && LoadedForm(p).palletWidth == p.form.palletWidth
  {
  }

  /** `savedPresets.filter(p => p.id !== presetId)`. */
  function Without(presets: seq<Preset>, id: string): (r: seq<Preset>)
    ensures |r| <= |presets|
    ensures forall p :: p in r <==> p in presets && p.id != id
  {
    if presets == [] then []
    else if presets[0].id == id then Without(presets[1..], id)
    else [presets[0]] + Without(presets[1..], id)
  }

  /** Deleting keeps the order of the presets it keeps: without the id,
      deleting changes nothing; deleting twice is deleting once. */
  lemma {:induction false} DeleteProperties(presets: seq<Preset>, id: string)
    ensures (forall i :: 0 <= i < |presets| ==> presets[i].id != id) ==> Without(presets, id) == presets
    ensures Without(Without(presets, id), id) == Without(presets, id)
    ensures Without(presets + presets, id) == Without(presets, id) + Without(presets, id)
  {
    if presets != [] {
      DeleteProperties(presets[1..], id);
      WithoutAppend(presets, presets, id);
    } else {
      assert presets + presets == [];
    }
  }

  lemma {:induction false} WithoutAppend(a: seq<Preset>, b: seq<Preset>, id: string)
    ensures Without(a + b, id) == Without(a, id) + Without(b, id)
  {
    if a == [] {
      assert a + b == b;
    } else {
      assert (a + b)[1..] == a[1..] + b;
      WithoutAppend(a[1..], b, id);
    }
  }

  /** The names already in the list. */
  function Names(presets: seq<Preset>): set<string> {
    set p | p in presets :: p.name
  }

  /** The imported presets whose name is not already saved, in file order. */
  function NotYetSaved(names: set<string>, incoming: seq<Preset>): (r: seq<Preset>)
    ensures |r| <= |incoming|
    ensures forall p :: p in r <==> p in incoming && p.name !in names
    ensures (forall i :: 0 <= i < |incoming| ==> incoming[i].name in names) ==> r == []
  {
    if incoming == [] then []
    else if incoming[0].name in names then NotYetSaved(names, incoming[1..])
    else [incoming[0]] + NotYetSaved(names, incoming[1..])
  }

  /** Each added preset gets a fresh id; `idFor(k)` stands for the id the
      clock and the random source give the k-th. */
  function Renamed(ps: seq<Preset>, idFor: nat -> string, from: nat): (r: seq<Preset>)
    ensures |r| == |ps|
    ensures forall i :: 0 <= i < |ps| ==> r[i] == ps[i].(id := idFor(from + i))
  {
    if ps == [] then [] else [ps[0].(id := idFor(from))] + Renamed(ps[1..], idFor, from + 1)
  }

  /** The list after importing `incoming`. */
  function Imported(presets: seq<Preset>, incoming: seq<Preset>, idFor: nat -> string): (r: seq<Preset>)
    ensures |presets| <= |r| <= |presets| + |incoming|
    ensures r[..|presets|] == presets
  {
    presets + Renamed(NotYetSaved(Names(presets), incoming), idFor, 0)
  }

  /** Importing keeps every saved preset in place and adds, after them, a
      re-identified copy of each imported preset whose name was not yet
      saved; a file whose names are all saved changes nothing. */
  lemma ImportProperties(presets: seq<Preset>, incoming: seq<Preset>, idFor: nat -> string)
    ensures var r := Imported(presets, incoming, idFor);
            r[..|presets|] == presets
            && (forall i :: |presets| <= i < |r| ==> r[i].name !in Names(presets))
            && (forall p :: p in incoming && p.name !in Names(presets) ==>
                  exists i :: |presets| <= i < |r| && r[i] == p.(id := r[i].id))
            && ((forall p :: p in incoming ==> p.name in Names(presets)) ==> r == presets)
  {
    var added := NotYetSaved(Names(presets), incoming);
    var r := Imported(presets, incoming, idFor);
    assert r[..|presets|] == presets;
    forall i | |presets| <= i < |r| ensures r[i].name !in Names(presets) {
      assert r[i] == added[i - |presets|].(id := idFor(i - |presets|));
      assert added[i - |presets|] in added;
    }
    forall p | p in incoming && p.name !in Names(presets)
      ensures exists i :: |presets| <= i < |r| && r[i] == p.(id := r[i].id)
    {
      var j :| 0 <= j < |added| && added[j] == p;
      assert r[|presets| + j] == p.(id := idFor(j));
    }
    if forall p :: p in incoming ==> p.name in Names(presets) {
      assert added == [];
      assert r == presets + [];
    }
  }
}
