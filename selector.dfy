/** The channel selector of update_pwm_channel. */
module Selector {
  import opened PwmTypes

  /** The pointer an update assigns from a slot: NULL stays NULL. */
  function FromSlot(i: nat, s: Slot): Handle
  {
    if s.Acquired? then Some(i) else None
  }

  /** update_pwm_channel's choice of the active handle: the requested
      channel's handle when it is not an error pointer, otherwise NULL.
      It never falls back to the other channel. */
  function Select(ch: int, pwm0: Slot, pwm1: Slot): (r: Handle)
    ensures r == Some(0) <==> ch == 0 && pwm0.Acquired?
    ensures r == Some(1) <==> ch == 1 && pwm1.Acquired?
    ensures r.Some? ==> r.value == ch
    ensures r.None? <==> !(ch == 0 && pwm0.Acquired?) && !(ch == 1 && pwm1.Acquired?)
  {
    if ch == 0 && !pwm0.Failed? then FromSlot(0, pwm0)
    else if ch == 1 && !pwm1.Failed? then FromSlot(1, pwm1)
    else None
  }
}
