/** The fixed catalogue of colour filters offered to the user, in
    presentation order. */
module ColorFilterList {
  import opened FilterIds

  /** Preview images of the catalogue entries (Android drawable resources). */
  datatype Drawable = BillyBlue25 | BillyGreen15 | BillyRed2

  /** One catalogue entry: a preview image and the filter id it applies. */
  datatype ColorFilterItem = ColorFilterItem(image: Drawable, colorFilter: int)

  /** The default entries. The "no filter" entry is not among them. */
  function DefaultItems(): (items: seq<ColorFilterItem>)
    ensures |items| == 3
    ensures items[0].colorFilter == BLUE_FILTER
    ensures items[1].colorFilter == GREEN_FILTER
    ensures items[2].colorFilter == RED_FILTER
    ensures forall i :: 0 <= i < |items| ==> IsColorFilter(items[i].colorFilter)
    ensures forall i :: 0 <= i < |items| ==> items[i].colorFilter != NO_FILTER
    ensures forall i, j :: 0 <= i < j < |items| ==> items[i].colorFilter != items[j].colorFilter
  {
    [ ColorFilterItem(BillyBlue25, BLUE_FILTER),
      ColorFilterItem(BillyGreen15, GREEN_FILTER),
      ColorFilterItem(BillyRed2, RED_FILTER) ]
  }

  /** The catalogue value. It has no update operation: every value of it is
      immutable, and GetList is a function of the value alone. */
  datatype ColorFilterList = ColorFilterList(list: seq<ColorFilterItem> := DefaultItems())
  {
    function GetList(): seq<ColorFilterItem> { list }
  }

  /** The list every session reads: `ColorFilterList().getList()`. */
  function Catalogue(): (items: seq<ColorFilterItem>)
    ensures items == DefaultItems()
  {
    ColorFilterList().GetList()
  }

  /** The filter id behind a clicked catalogue position; any position outside
      the list has no entry. */
  function FilterAt(position: int): (id: int)
    requires 0 <= position < |Catalogue()|
    ensures IsColorFilter(id)
    ensures id == DefaultItems()[position].colorFilter
  {
    Catalogue()[position].colorFilter
  }

  /** Every selectable filter is at exactly one position of the catalogue. */
  lemma EachFilterAtOnePosition(id: int)
    requires IsColorFilter(id)
    ensures exists p :: 0 <= p < |Catalogue()| && FilterAt(p) == id
    ensures forall p, q :: 0 <= p < |Catalogue()| && 0 <= q < |Catalogue()| && FilterAt(p) == id && FilterAt(q) == id ==> p == q
  {
    if id == BLUE_FILTER { assert FilterAt(0) == id; }
    else if id == GREEN_FILTER { assert FilterAt(1) == id; }
    else { assert FilterAt(2) == id; }
  }
}
