/**
  Layer entries and the decision `addEntry` makes about them: which gump
  id an entry is drawn with, or that it is skipped.
*/
module Entries {
  import opened Wrappers

  /** One layer to draw: a gump id (`isGump`) or an item id, with a hue id (0 = none). */
  datatype Entry = Entry(index: int, isGump: bool, isFemale: bool, hue: int)

  /** What the tile data says about an item id. */
  datatype ItemData = ItemData(wearable: bool, value: nat)

  /** Largest entry index that is drawn. */
  const MaxIndex := 0xFFFF
  /** Item values below this are split into male and female gump sheets. */
  const SheetThreshold := 10000
  const FemaleSheetBase := 60000
  const MaleSheetBase := 50000

  /** The paperdoll background, drawn as a raw gump without hue. */
  const Background := Entry(0x7d1, true, false, 0)

  predicate InRange(index: int) {
    0 < index <= MaxIndex
  }

  /**
    The gump id of a wearable item's value: a value below the threshold is
    moved onto the sheet of the entry's gender, any other value is kept.
  */
  function SheetGump(value: nat, female: bool): nat {
    if value < SheetThreshold then
      value + (if female then FemaleSheetBase else MaleSheetBase)
    else
      value
  }

  /**
    The gump id an entry is drawn with, or None when the entry is skipped:
    out of range, or an item the tile data does not mark wearable.
  */
  function ResolveGump(e: Entry, tileData: int -> ItemData): (r: Option<int>)
    ensures r.Some? <==> InRange(e.index) && (e.isGump || tileData(e.index).wearable)
    ensures r.Some? && e.isGump ==> r.value == e.index
    ensures r.Some? && !e.isGump ==> r.value == SheetGump(tileData(e.index).value, e.isFemale)
    ensures r.Some? ==> r.value > 0
  {
    if e.index > MaxIndex || e.index <= 0 then None
    else if e.isGump then Some(e.index)
    else
      var item := tileData(e.index);
      if !item.wearable then None
      else Some(SheetGump(item.value, e.isFemale))
  }

  /**
    Inverse of SheetGump on the split range: the item value and the gender
    a gump id on the male or female sheet was made from.
  */
  function SplitSheet(gump: nat): (nat, bool)
  {
    if FemaleSheetBase <= gump < FemaleSheetBase + SheetThreshold then (gump - FemaleSheetBase, true)
    else if MaleSheetBase <= gump < MaleSheetBase + SheetThreshold then (gump - MaleSheetBase, false)
    else (gump, false)
  }

  /** For a value below 10000 the gender remap loses nothing: value and gender are recovered from the gump id. */
  lemma SheetRoundTrip(value: nat, female: bool)
    requires value < SheetThreshold
    ensures SplitSheet(SheetGump(value, female)) == (value, female)
  {
  }

  /**
    The remap is not injective: a value below 10000 on one sheet gives the
    same gump id as the value already on that sheet, read for the other
    gender, which is kept unchanged. So SplitSheet inverts only values
    below 10000.
  */
  lemma SheetCollision(value: nat)
    requires value < SheetThreshold
    ensures SheetGump(value, false) == SheetGump(value + MaleSheetBase, true)
    ensures SheetGump(value, true) == SheetGump(value + FemaleSheetBase, false)
  {
  }

  /** Female values land on [60000, 70000), male on [50000, 60000), others stay put. */
  lemma SheetRanges(value: nat, female: bool)
    ensures value < SheetThreshold && female ==>
      FemaleSheetBase <= SheetGump(value, female) < FemaleSheetBase + SheetThreshold
    ensures value < SheetThreshold && !female ==>
      MaleSheetBase <= SheetGump(value, female) < MaleSheetBase + SheetThreshold
    ensures value >= SheetThreshold ==> SheetGump(value, female) == value
  {
  }

  /** An entry outside (0, 0xFFFF] is skipped, whatever else it says. */
  lemma OutOfRangeSkipped(e: Entry, tileData: int -> ItemData)
    requires e.index > MaxIndex || e.index <= 0
    ensures ResolveGump(e, tileData) == None
  {
  }

  /** A non-wearable item is skipped for either gender and any hue. */
  lemma NotWearableSkipped(index: int, tileData: int -> ItemData)
    requires !tileData(index).wearable
    ensures forall female: bool, hue: int ::
      ResolveGump(Entry(index, false, female, hue), tileData) == None
  {
  }
}
