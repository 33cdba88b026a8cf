/** The effect of set_pwm_params on the hardware, as a function of its
    arguments and of the provider's replies. */
module Apply {
  import opened PwmTypes
  import opened Validator
  import opened Units
  import opened Hardware

  /** The calls issued, and whether the call dereferenced a NULL handle. */
  datatype Effect = Effect(calls: seq<HwCall>, fault: bool)

  /** The duty guard as written: no unsigned value is both above MAX_DUTY
      and below zero, so it never rejects. */
  predicate DutyGuardRejects(duty: U32): (r: bool)
    ensures !r
  {
    duty > MAX_DUTY && duty < 0
  }

  /** The frequency guard. Among the frequencies validate_hz can produce it
      refuses exactly one, MAX_HZ itself. */
  predicate HzGuardRejects(hz: int): (r: bool)
    ensures r <==> !(0 < hz < MAX_HZ)
    ensures HzInRange(hz) ==> (r <==> hz == MAX_HZ)
  {
    hz <= 0 || hz >= MAX_HZ
  }

  /** set_pwm_params(h, duty, hz): the guards, then pwm_init_state (a NULL
      handle faults there), pwm_config, and pwm_apply_state only after
      pwm_config succeeded. */
  function Params(h: Handle, duty: Int32, hz: Int32, r: Replies): (e: Effect)
    requires hz != 0
    ensures e.fault <==> h.None? && 0 < hz < MAX_HZ
    ensures e.calls == [] <==> HzGuardRejects(hz) || h.None?
    ensures |e.calls| <= 2 && NoSwitch(e.calls)
    ensures |e.calls| == 2 <==> e.calls != [] && r.configRet >= 0
    ensures e.calls != [] ==>
              var c := e.calls[0];
              c.Config? && c.device == h.value && c.ret == r.configRet &&
              c.periodNs == NSEC_PER_SEC / hz &&
              c.dutyNs == c.periodNs * ToU32(duty) / (MAX_DUTY + 1) &&
              (0 <= duty <= MAX_DUTY ==> c.dutyNs <= c.periodNs)
    ensures |e.calls| == 2 ==>
              e.calls[1] == ApplyState(h.value, PwmState(e.calls[0].periodNs, e.calls[0].dutyNs, Normal), r.applyRet)
  {
    var periodNs := PeriodNs(hz);
    var dutyNs := DutyNs(periodNs, ToU32(duty));
    if DutyGuardRejects(ToU32(duty)) || HzGuardRejects(hz) then Effect([], false)
    else if h.None? then Effect([], true)
    else
      ConvertBounds(hz, ToU32(duty));
      var config := Config(h.value, dutyNs, periodNs, r.configRet);
      if r.configRet < 0 then Effect([config], false)
      else Effect([config, ApplyState(h.value, PwmState(periodNs, dutyNs, Normal), r.applyRet)], false)
  }

  /** A frequency the hz validator clamps to MAX_HZ is then refused by the
      apply guard: no hardware call, no fault. */
  lemma ClampedMaxHzIsRejected(h: Handle, duty: Int32, r: Replies)
    ensures Params(h, duty, MAX_HZ, r) == Effect([], false)
  {
  }
}
