// The item-image list of the fitting and synthesis tools: a list of at most
// six slots, each holding a picked file or nothing, that is never empty.
module ItemSlots {
  import opened Types

  const MaxSlots: nat := 6

  /** The shape every reachable slot list has. */
  predicate SlotsValid(slots: seq<Slot>) {
    1 <= |slots| <= MaxSlots
  }

  /** The list a tool starts with and returns to on reset: one empty slot. */
  function InitialSlots(): (r: seq<Slot>)
    ensures SlotsValid(r) && |r| == 1 && r[0].None?
  {
    [None]
  }

  /** The "add" button: one more empty slot, unless six are already there. */
  function AddImageSlot(slots: seq<Slot>): (r: seq<Slot>)
    ensures |slots| < MaxSlots ==> |r| == |slots| + 1 && r[|slots|] == None
    ensures |slots| >= MaxSlots ==> r == slots
    ensures r[..|slots|] == slots
    ensures |slots| <= MaxSlots ==> |r| <= MaxSlots
  {
    if |slots| < MaxSlots then slots + [None] else slots
  }

  /**
   * `slots.filter((_, i) => i !== idx)`: keeps the slots whose position is
   * not `idx`, walking the positions from the last one down.
   */
  function DropIndex(slots: seq<Slot>, idx: int): (r: seq<Slot>)
    ensures 0 <= idx < |slots| ==> r == slots[..idx] + slots[idx + 1..]
    ensures !(0 <= idx < |slots|) ==> r == slots
    decreases |slots|
  {
    if slots == [] then []
    else
      var last := |slots| - 1;
      DropIndex(slots[..last], idx) + (if last != idx then [slots[last]] else [])
  }

  /**
   * The remove button: with more than one slot, position `idx` goes and the
   * others keep their order; the last remaining slot is cleared instead.
   */
  function RemoveImageSlot(slots: seq<Slot>, idx: int): (r: seq<Slot>)
    ensures |slots| > 1 && 0 <= idx < |slots| ==> r == slots[..idx] + slots[idx + 1..]
    ensures |slots| > 1 && !(0 <= idx < |slots|) ==> r == slots
    ensures |slots| <= 1 ==> r == [None]
    ensures |r| >= 1
  {
    if |slots| > 1 then DropIndex(slots, idx) else [None]
  }

  /** Copy the list and put `file` at `idx`; the length and every other slot stay. */
  function UpdateItemImage(slots: seq<Slot>, idx: int, file: Slot): (r: seq<Slot>)
    requires 0 <= idx < |slots|
    ensures |r| == |slots| && r[idx] == file
    ensures forall j :: 0 <= j < |slots| && j != idx ==> r[j] == slots[j]
  {
    slots[idx := file]
  }

  /** Every slot operation keeps the list between one and six slots long. */
  lemma SlotOpsKeepValid(slots: seq<Slot>, idx: int, file: Slot)
    requires SlotsValid(slots)
    ensures SlotsValid(AddImageSlot(slots))
    ensures SlotsValid(RemoveImageSlot(slots, idx))
    ensures 0 <= idx < |slots| ==> SlotsValid(UpdateItemImage(slots, idx, file))
  {
  }

  /** Adding then removing the new last slot gives the list back. */
  lemma AddThenRemoveLast(slots: seq<Slot>)
    requires SlotsValid(slots) && |slots| < MaxSlots
    ensures RemoveImageSlot(AddImageSlot(slots), |slots|) == slots
  {
  }
}
