/** An expert's recurring weekly availability (`availability_json`): weekday 0-6 (Sunday = 0, as
    `Date.getDay()`) to a list of hour slots. */
module Availability {

  /** One slot `{start, end}` in whole hours of local time, read as half-open `[start, end)`. */
  datatype Slot = Slot(start: int, end: int)

  type Weekly = map<int, seq<Slot>>

  predicate InSlot(slot: Slot, hour: int) {
    hour >= slot.start && hour < slot.end
  }

  /** `slots.some(slot => hour >= slot.start && hour < slot.end)`. */
  function AnySlotHolds(slots: seq<Slot>, hour: int): (b: bool)
    ensures b <==> exists i :: 0 <= i < |slots| && InSlot(slots[i], hour)
  {
    if |slots| == 0 then false
    else if InSlot(slots[0], hour) then true
    else
      var b := AnySlotHolds(slots[1..], hour);
      assert forall i :: 1 <= i < |slots| ==> slots[i] == slots[1..][i - 1];
      b
  }

  /** `availability[day]?.some(...)`: false when the weekday has no entry. */
  function AvailableAt(availability: Weekly, day: int, hour: int): (b: bool)
    ensures b <==> day in availability &&
                   exists i :: 0 <= i < |availability[day]| && InSlot(availability[day][i], hour)
  {
    day in availability && AnySlotHolds(availability[day], hour)
  }

  /** The first slot in list order that starts strictly after `hour` (`slots.find(...)`). */
  function FirstSlotAfter(slots: seq<Slot>, hour: int): (r: int)
    ensures 0 <= r <= |slots|
    ensures r < |slots| ==> slots[r].start > hour
    ensures forall i :: 0 <= i < r ==> slots[i].start <= hour
  {
    if |slots| == 0 then 0
    else if slots[0].start > hour then 0
    else 1 + FirstSlotAfter(slots[1..], hour)
  }
}
