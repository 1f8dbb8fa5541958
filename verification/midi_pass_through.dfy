/** The sostenuto switch shared by the older handlers (MidiPassThrough.cpp):
    the middle pedal turns a handler into a pass-through while it is down. */
module MidiPassThrough {
  import opened Midi

  /** `filtered(event, active)`: whether the event is the sostenuto
      controller, and the active flag it leaves (pedal up = active). */
  function Filtered(e: RawEvent, active: bool): (r: (bool, bool))
    requires ValidEvent(e)
    ensures r.0 <==> Command(e) == CC && e.data[1] == CC_SOSTENUTO
    ensures r.0 ==> (r.1 <==> e.data[2] < 64)
    ensures !r.0 ==> r.1 == active
  {
    if Command(e) == CC then
      if e.data[1] == CC_SOSTENUTO then (true, e.data[2] < 64)
      else (false, active)
    else (false, active)
  }

  /** The flag after a pedal message does not depend on the flag before:
      repeating the message changes nothing. */
  lemma FilteredIsIdempotent(e: RawEvent, active: bool)
    requires ValidEvent(e)
    ensures Filtered(e, Filtered(e, active).1) == Filtered(e, active)
  {
  }
}
