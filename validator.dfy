/** The four validators: each clamps one configuration field into its
    legal range. */
module Validator {
  import opened PwmTypes

  predicate ChannelInRange(c: int) { 0 <= c <= 1 }
  predicate DutyInRange(d: int) { 1 <= d <= MAX_DUTY }
  /** The range validate_hz produces; note that it includes MAX_HZ itself. */
  predicate HzInRange(f: int) { 1 <= f <= MAX_HZ }
  predicate EnableInRange(e: int) { 0 <= e <= 1 }

  function Dist(a: int, b: int): nat { if a <= b then b - a else a - b }

  /** validate_pwm_channel: the legal channel nearest to `c`. */
  function ClampChannel(c: Int32): (r: Int32)
    ensures ChannelInRange(r)
    ensures ChannelInRange(c) ==> r == c
    ensures forall v :: ChannelInRange(v) ==> Dist(r, c) <= Dist(v, c)
  {
    if c < 0 then 0 else if c > 1 then 1 else c
  }

  /** validate_duty_cycle: the legal duty level nearest to `d`; 0 becomes 1. */
  function ClampDuty(d: Int32): (r: Int32)
    ensures DutyInRange(r)
    ensures DutyInRange(d) ==> r == d
    ensures forall v :: DutyInRange(v) ==> Dist(r, d) <= Dist(v, d)
  {
    if d <= 0 then 1 else if d > MAX_DUTY then MAX_DUTY else d
  }

  /** validate_hz: the frequency in [1, MAX_HZ] nearest to `f`. Every
      frequency of at least MAX_HZ, and only those, becomes exactly MAX_HZ. */
  function ClampHz(f: Int32): (r: Int32)
    ensures HzInRange(r)
    ensures HzInRange(f) ==> r == f
    ensures forall v :: HzInRange(v) ==> Dist(r, f) <= Dist(v, f)
    ensures r == MAX_HZ <==> f >= MAX_HZ
  {
    if f <= 0 then 1 else if f >= MAX_HZ then MAX_HZ else f
  }

  /** validate_enable: the legal enable flag nearest to `e`. */
  function ClampEnable(e: Int32): (r: Int32)
    ensures EnableInRange(r)
    ensures EnableInRange(e) ==> r == e
    ensures forall v :: EnableInRange(v) ==> Dist(r, e) <= Dist(v, e)
  {
    if e < 0 then 0 else if e > 1 then 1 else e
  }

  /** Validating twice is validating once. */
  lemma ValidatorsIdempotent(x: Int32)
    ensures ClampChannel(ClampChannel(x)) == ClampChannel(x)
    ensures ClampDuty(ClampDuty(x)) == ClampDuty(x)
    ensures ClampHz(ClampHz(x)) == ClampHz(x)
    ensures ClampEnable(ClampEnable(x)) == ClampEnable(x)
  {
  }
}
