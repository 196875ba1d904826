/** The price locks of the builder overlay
    (src/components/PalletBuilderOverlay.jsx:113-121, 743-786): a set of
    locked field ids, one id per priced size and one for the nail price,
    toggled one at a time or a whole category at once. */
module Locks {
  import opened Catalog

  /** The nail price's field id, and the category that holds it alone. */
  const NailsField: string := "nails"
  const HardwareCategory: string := "hardware"

  /** A size's field id: the type id, the list, and the size id. */
  function FieldId(typeId: string, kind: SizeKind, sizeId: string): string {
    typeId + (match kind case BoardKind => "-board-" case BearerKind => "-bearer-") + sizeId
  }

  /** The field ids of one list of a type, in list order. */
  function SizeFieldIds(typeId: string, kind: SizeKind, sizes: seq<SizeSpec>): (ids: seq<string>)
    ensures |ids| == |sizes|
    ensures forall i :: 0 <= i < |sizes| ==> ids[i] == FieldId(typeId, kind, sizes[i].id)
  {
    if sizes == [] then []
    else [FieldId(typeId, kind, sizes[0].id)] + SizeFieldIds(typeId, kind, sizes[1..])
  }

  /** A type's field ids: its board sizes, then its bearer sizes. */
  function TypeFieldIds(t: TimberType): seq<string> {
    SizeFieldIds(t.id, BoardKind, t.boardSizes) + SizeFieldIds(t.id, BearerKind, t.bearerSizes)
  }

  /** `getCategoryFieldIds`: the hardware category is the nail price; a
      timber type's category is its sizes; an unknown id has none. */
  function CategoryFieldIds(types: seq<TimberType>, categoryId: string): (ids: seq<string>)
    ensures categoryId == HardwareCategory ==> ids == [NailsField]
    ensures categoryId != HardwareCategory && FindType(types, categoryId).None? ==> ids == []
    ensures categoryId != HardwareCategory && FindType(types, categoryId).Some? ==>
              |ids| == |FindType(types, categoryId).value.boardSizes| + |FindType(types, categoryId).value.bearerSizes|
  {
    if categoryId == HardwareCategory then [NailsField]
    else
      match FindType(types, categoryId)
      case None => []
      case Some(t) => TypeFieldIds(t)
  }

  /** The ids of every type in order, as the mount effect collects them
      before adding the nail id. */
  function TypesFieldIds(types: seq<TimberType>): seq<string> {
    if types == [] then []
    else TypesFieldIds(types[..|types| - 1]) + TypeFieldIds(types[|types| - 1])
  }

  /** The mount effect's list: every size of every type, then the nails. */
  function AllFieldIds(types: seq<TimberType>): seq<string> {
    TypesFieldIds(types) + [NailsField]
  }

  function IdSet(ids: seq<string>): set<string> {
    set id | id in ids
  }

  /** `isCategoryLocked`: the category has ids and all are locked. */
  predicate CategoryLocked(locked: set<string>, ids: seq<string>) {
    |ids| > 0 && forall i :: 0 <= i < |ids| ==> ids[i] in locked
  }

  /** `toggleLock`: exactly that id changes state. */
  function Toggled(locked: set<string>, id: string): (r: set<string>)
    ensures id in r <==> id !in locked
    ensures forall other :: other != id ==> (other in r <==> other in locked)
  {
    if id in locked then locked - {id} else locked + {id}
  }

  /** `toggleCategoryLock`: a fully locked category is unlocked, any other
      category is locked. */
  function CategoryToggled(locked: set<string>, ids: seq<string>): (r: set<string>)
    ensures CategoryLocked(locked, ids) ==> r !! IdSet(ids)
    ensures !CategoryLocked(locked, ids) ==> IdSet(ids) <= r
    ensures locked - IdSet(ids) <= r <= locked + IdSet(ids)
  {
    if CategoryLocked(locked, ids) then locked - IdSet(ids) else locked + IdSet(ids)
  }

  /** Toggling one id twice restores the set. */
  lemma ToggleTwice(locked: set<string>, id: string)
    ensures Toggled(Toggled(locked, id), id) == locked
  {
  }

  /** Toggling a category with ids flips whether it is locked and leaves
      every id outside it as it was; toggling a fully locked category twice
      restores the set. */
  lemma CategoryToggleFlips(locked: set<string>, ids: seq<string>)
    requires |ids| > 0
    ensures CategoryLocked(CategoryToggled(locked, ids), ids) <==> !CategoryLocked(locked, ids)
    ensures forall other :: other !in ids ==> (other in CategoryToggled(locked, ids) <==> other in locked)
    ensures CategoryLocked(locked, ids) ==> CategoryToggled(CategoryToggled(locked, ids), ids) == locked
  {
    var r := CategoryToggled(locked, ids);
    if CategoryLocked(locked, ids) {
      assert ids[0] !in r;
      assert r + IdSet(ids) == locked;
    } else {
      assert forall i :: 0 <= i < |ids| ==> ids[i] in r;
    }
  }

  /** An id of a type's own list is among the mount effect's ids. */
  lemma {:induction false} TypeIdsCollected(types: seq<TimberType>, k: int, id: string)
    requires 0 <= k < |types| && id in TypeFieldIds(types[k])
    ensures id in TypesFieldIds(types)
  {
    var last := |types| - 1;
    if k < last {
      assert types[..last][k] == types[k];
      TypeIdsCollected(types[..last], k, id);
    }
  }

  /** After the mount effect every category with ids is locked. */
  lemma MountLocksEveryCategory(types: seq<TimberType>, categoryId: string)
    requires |CategoryFieldIds(types, categoryId)| > 0
    ensures CategoryLocked(IdSet(AllFieldIds(types)), CategoryFieldIds(types, categoryId))
  {
    var ids := CategoryFieldIds(types, categoryId);
    if categoryId != HardwareCategory {
      var k := TypeIndex(types, categoryId);
      forall i | 0 <= i < |ids| ensures ids[i] in IdSet(AllFieldIds(types)) {
        TypeIdsCollected(types, k, ids[i]);
      }
    }
  }
}
