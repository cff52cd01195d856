/**
 * The five star slots both cards render with `Array.from({ length: 5 }, (_, index) => ...)`:
 * slot `index` is filled when `index < count`, a comparison that is false when `count` is NaN.
 */
module Stars {
  import opened Js

  const SlotCount := 5

  /** The first `m` slots for `count`. */
  function Slots(m: nat, count: Number): (r: seq<bool>)
    ensures |r| == m
    ensures forall i :: 0 <= i < m ==> r[i] == Less(i, count)
  {
    if m == 0 then [] else Slots(m - 1, count) + [Less(m - 1, count)]
  }

  function StarSlots(count: Number): (r: seq<bool>)
    ensures |r| == SlotCount
  {
    Slots(SlotCount, count)
  }

  /** The number of filled slots. */
  function FilledCount(slots: seq<bool>): nat {
    if slots == [] then 0
    else FilledCount(slots[..|slots| - 1]) + (if slots[|slots| - 1] then 1 else 0)
  }

  /** The number of filled stars is the count clamped to `[0, m]`, and zero for NaN. */
  lemma {:induction false} FilledSlots(m: nat, count: Number)
    ensures FilledCount(Slots(m, count)) == if count.NaN? then 0 else Clamp(count.value, 0, m)
  {
    if m > 0 {
      FilledSlots(m - 1, count);
      assert Slots(m, count)[..m - 1] == Slots(m - 1, count);
    }
  }

  /** Five slots, of which `count` (clamped to `[0, 5]`) are filled, and none for NaN. */
  lemma StarsFilled(count: Number)
    ensures |StarSlots(count)| == 5
    ensures FilledCount(StarSlots(count)) == if count.NaN? then 0 else Clamp(count.value, 0, 5)
    ensures FilledCount(StarSlots(count)) <= 5
  {
    FilledSlots(SlotCount, count);
  }
}
