/** The price table that every component reads (the shape of
    src/data/timber-prices.json): timber types, each with board and bearer
    sizes, and a price per nail. The table's contents are a parameter. */
module Catalog {
  import opened Wrappers

  /** One size of one timber type. A board size carries `pricePerBoard` and
      a bearer size `pricePerBearer`; `price` is whichever key its list uses. */
  datatype SizeSpec = SizeSpec(id: string, dimensions: string, width: real, thickness: real, price: real)

  datatype TimberType = TimberType(id: string, name: string, boardSizes: seq<SizeSpec>, bearerSizes: seq<SizeSpec>)

  /** `nailPricePerNail` is an optional key of the table. */
  datatype PriceTable = PriceTable(timberTypes: seq<TimberType>, nailPricePerNail: Option<real>)

  /** Which of a type's two size lists an operation addresses. */
  datatype SizeKind = BoardKind | BearerKind

  /** The price used when the table has no nail price, or a zero one. */
  const DefaultNailPrice: real := 0.02

  function Sizes(t: TimberType, kind: SizeKind): seq<SizeSpec> {
    match kind
    case BoardKind => t.boardSizes
    case BearerKind => t.bearerSizes
  }

  /** `findIndex` comparing ids: the first index holding `id`, or -1. */
  function IdIndex(ids: seq<string>, id: string): (k: int)
    ensures -1 <= k < |ids|
    ensures k == -1 <==> forall i :: 0 <= i < |ids| ==> ids[i] != id
    ensures k >= 0 ==> ids[k] == id && forall i :: 0 <= i < k ==> ids[i] != id
  {
    if |ids| == 0 then -1
    else if ids[0] == id then 0
    else
      var k := IdIndex(ids[1..], id);
      if k == -1 then -1 else k + 1
  }

  /** The ids of a type list and of a size list, in order. `IdIndex` works
      on these, so one `findIndex` serves both kinds of list; the two
      projections differ only in their element type. */
  function TypeIds(types: seq<TimberType>): (ids: seq<string>)
    ensures |ids| == |types| && forall i :: 0 <= i < |types| ==> ids[i] == types[i].id
  {
    seq(|types|, i requires 0 <= i < |types| => types[i].id)
  }

  function SizeIds(sizes: seq<SizeSpec>): (ids: seq<string>)
    ensures |ids| == |sizes| && forall i :: 0 <= i < |sizes| ==> ids[i] == sizes[i].id
  {
    seq(|sizes|, i requires 0 <= i < |sizes| => sizes[i].id)
  }

  /** `types.findIndex(t => t.id === id)`. */
  function TypeIndex(types: seq<TimberType>, id: string): int {
    IdIndex(TypeIds(types), id)
  }

  /** `sizes.findIndex(s => s.id === id)`. */
  function SizeIndex(sizes: seq<SizeSpec>, id: string): int {
    IdIndex(SizeIds(sizes), id)
  }

  /** `types.find(t => t.id === id)`. */
  function FindType(types: seq<TimberType>, id: string): (r: Option<TimberType>)
    ensures r.Some? <==> exists i :: 0 <= i < |types| && types[i].id == id
    ensures r.Some? ==> r.value.id == id && r.value in types
  {
    var k := TypeIndex(types, id);
    if k < 0 then None else Some(types[k])
  }

  /** `sizes.find(s => s.id === id)`. */
  function FindSize(sizes: seq<SizeSpec>, id: string): (r: Option<SizeSpec>)
    ensures r.Some? <==> exists i :: 0 <= i < |sizes| && sizes[i].id == id
    ensures r.Some? ==> r.value.id == id && r.value in sizes
  {
    var k := SizeIndex(sizes, id);
    if k < 0 then None else Some(sizes[k])
  }

  /** `types.find(t => t.id === typeId)?.boardSizes.find(s => s.id === sizeId)`
      (or `bearerSizes` for a bearer). */
  function ResolveSize(types: seq<TimberType>, typeId: string, sizeId: string, kind: SizeKind): (r: Option<SizeSpec>)
    ensures r.Some? ==> FindType(types, typeId).Some?
                        && r.value in Sizes(FindType(types, typeId).value, kind)
                        && r.value.id == sizeId
  {
    match FindType(types, typeId)
    case None => None
    case Some(t) => FindSize(Sizes(t, kind), sizeId)
  }

  /** `prices.nailPricePerNail || 0.02`: the stored price unless it is
      missing or zero. */
  function NailPrice(p: PriceTable): (r: real)
    ensures r != 0.0
    ensures p.nailPricePerNail.Some? && p.nailPricePerNail.value != 0.0 ==> r == p.nailPricePerNail.value
    ensures p.nailPricePerNail.None? || p.nailPricePerNail.value == 0.0 ==> r == DefaultNailPrice
  {
    match p.nailPricePerNail
    case Some(v) => if v != 0.0 then v else DefaultNailPrice
    case None => DefaultNailPrice
  }
}
