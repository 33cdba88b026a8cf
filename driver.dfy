/** The driver's global state and its handlers: the validators, the channel
    update, set_pwm_params, the four attribute store handlers, the probe and
    the probe-mode initialisation. Each handler runs as one atomic step. */
module Driver {
  import opened PwmTypes
  import opened Validator
  import opened Selector
  import opened Units
  import opened Hardware
  import opened Apply

  /** The device-tree properties the probe reads; `None` is a failed read. */
  datatype DeviceTree = DeviceTree(
    pwmChannel: Option<U32>, hz: Option<U32>, dutyCycle: Option<U32>, enable: Option<U32>)

  /** A `u32` property stored into an `int` variable. */
  function AsInt32(u: U32): (x: Int32)
    ensures ToU32(x) == u
  {
    if u < 0x8000_0000 then u else u - 0x1_0000_0000
  }

  /** A property's value, or the default when it could not be read. */
  function DtValue(p: Option<U32>, default: Int32): (x: Int32)
    ensures p.None? ==> x == default
    ensures p.Some? ==> ToU32(x) == p.value
  {
    match p
    case Some(u) => AsInt32(u)
    case None => default
  }

  class PwmDriver {
    var pwmChannel: Int32
    var hz: Int32
    var dutyCycle: Int32
    var enable: Int32
    /** The active handle `pwm`. */
    var pwm: Handle
    var pwm0: Slot
    var pwm1: Slot
    /** Every call made into the PWM core, oldest first. */
    ghost var log: seq<HwCall>
    /** A handler dereferenced a NULL handle. The kernel then kills the
        writer while it holds the driver's mutex, so no later handler runs. */
    var oops: bool

    /** Every field is in range, the active handle is the one the channel
        selects, and an enable flag of 1 was confirmed by pwm_enable. */
    ghost predicate Valid()
      reads this
    {
      ChannelInRange(pwmChannel) && HzInRange(hz) && DutyInRange(dutyCycle) &&
      EnableInRange(enable) &&
      pwm == Select(pwmChannel, pwm0, pwm1) &&
      (!oops && enable == 1 ==> ConfirmedEnabled(log, pwm))
    }

    /** The statically initialised globals at module load. */
    constructor ()
      ensures pwmChannel == 0 && hz == 0 && dutyCycle == 0 && enable == 0
      ensures pwm == None && pwm0 == Unset && pwm1 == Unset
      ensures log == [] && !oops
    {
      pwmChannel, hz, dutyCycle, enable := 0, 0, 0, 0;
      pwm, pwm0, pwm1 := None, Unset, Unset;
      log := [];
      oops := false;
    }

    // ----- the hardware provider: each call is logged and returns its reply

    method PwmConfig(device: nat, dutyNs: nat, periodNs: nat, reply: int) returns (ret: int)
      modifies this`log
      ensures ret == reply
      ensures log == old(log) + [Config(device, dutyNs, periodNs, reply)]
    {
      log := log + [Config(device, dutyNs, periodNs, reply)];
      ret := reply;
    }

    method PwmApplyState(device: nat, state: PwmState, reply: int) returns (ret: int)
      modifies this`log
      ensures ret == reply
      ensures log == old(log) + [ApplyState(device, state, reply)]
    {
      log := log + [ApplyState(device, state, reply)];
      ret := reply;
    }

    method PwmEnable(target: Handle, reply: int) returns (ret: int)
      modifies this`log
      ensures ret == reply
      ensures log == old(log) + [Enable(target, reply)]
    {
      log := log + [Enable(target, reply)];
      ret := reply;
    }

    method PwmDisable(target: Handle)
      modifies this`log
      ensures log == old(log) + [Disable(target)]
    {
      log := log + [Disable(target)];
    }

    // ----- validators

    method ValidatePwmChannel()
      modifies this`pwmChannel
      ensures pwmChannel == ClampChannel(old(pwmChannel))
    {
      if pwmChannel < 0 {
        pwmChannel := 0;
      } else if pwmChannel > 1 {
        pwmChannel := 1;
      }
    }

    method ValidateDutyCycle()
      modifies this`dutyCycle
      ensures dutyCycle == ClampDuty(old(dutyCycle))
    {
      if dutyCycle <= 0 {
        dutyCycle := 1;
      } else if dutyCycle > MAX_DUTY {
        dutyCycle := MAX_DUTY;
      }
    }

    method ValidateHz()
      modifies this`hz
      ensures hz == ClampHz(old(hz))
    {
      if hz <= 0 {
        hz := 1;
      } else if hz >= MAX_HZ {
        hz := MAX_HZ;
      }
    }

    method ValidateEnable()
      modifies this`enable
      ensures enable == ClampEnable(old(enable))
    {
      if enable < 0 {
        enable := 0;
      } else if enable > 1 {
        enable := 1;
      }
    }

    // ----- channel selection and parameter application

    method UpdatePwmChannel(ch: Int32)
      modifies this`pwm
      ensures pwm == Select(ch, pwm0, pwm1)
    {
      if ch == 0 && !pwm0.Failed? {
        pwm := FromSlot(0, pwm0);
      } else if ch == 1 && !pwm1.Failed? {
        pwm := FromSlot(1, pwm1);
      } else {
        pwm := None;
      }
    }

    /** set_pwm_params; the division by `hz` comes before its guard. */
    method SetParams(h: Handle, duty: Int32, f: Int32, r: Replies)
      requires f != 0 && !oops
      modifies this`log, this`oops
      ensures log == old(log) + Params(h, duty, f, r).calls
      ensures oops == Params(h, duty, f, r).fault
    {
      var periodNs := PeriodNs(f);
      var dutyNs := DutyNs(periodNs, ToU32(duty));
      if DutyGuardRejects(ToU32(duty)) {
        return;
      }
      if f <= 0 || f >= MAX_HZ {
        return;
      }
      if h.None? {
        // pwm_init_state reads through the NULL handle
        oops := true;
        return;
      }
      var ret := PwmConfig(h.value, dutyNs, periodNs, r.configRet);
      if ret < 0 {
        return;
      }
      ret := PwmApplyState(h.value, PwmState(periodNs, dutyNs, Normal), r.applyRet);
    }

    // ----- attribute store handlers

    method PwmChannelStore(input: Int32, r: Replies)
      requires Valid() && !oops
      modifies this
      ensures Valid()
      ensures pwmChannel == ClampChannel(input) && enable == 0
      ensures dutyCycle == old(dutyCycle) && hz == old(hz)
      ensures pwm0 == old(pwm0) && pwm1 == old(pwm1)
      ensures pwm == Select(pwmChannel, pwm0, pwm1)
      ensures log == old(log) + [Disable(old(pwm))] + Params(pwm, dutyCycle, hz, r).calls
      ensures oops == Params(pwm, dutyCycle, hz, r).fault
    {
      pwmChannel := input;
      ValidatePwmChannel();
      PwmDisable(pwm);
      enable := 0;
      UpdatePwmChannel(pwmChannel);
      SetParams(pwm, dutyCycle, hz, r);
    }

    method DutyCycleStore(input: Int32, r: Replies)
      requires Valid() && !oops
      modifies this
      ensures Valid()
      ensures dutyCycle == ClampDuty(input)
      ensures pwmChannel == old(pwmChannel) && hz == old(hz) && enable == old(enable)
      ensures pwm == old(pwm) && pwm0 == old(pwm0) && pwm1 == old(pwm1)
      ensures log == old(log) + Params(pwm, dutyCycle, hz, r).calls
      ensures oops == Params(pwm, dutyCycle, hz, r).fault
    {
      dutyCycle := input;
      ValidateDutyCycle();
      SetParams(pwm, dutyCycle, hz, r);
      LastSwitchAppend(old(log), Params(pwm, dutyCycle, hz, r).calls);
    }

    method HzStore(input: Int32, r: Replies)
      requires Valid() && !oops
      modifies this
      ensures Valid()
      ensures hz == ClampHz(input)
      ensures pwmChannel == old(pwmChannel) && dutyCycle == old(dutyCycle) && enable == old(enable)
      ensures pwm == old(pwm) && pwm0 == old(pwm0) && pwm1 == old(pwm1)
      ensures log == old(log) + Params(pwm, dutyCycle, hz, r).calls
      ensures oops == Params(pwm, dutyCycle, hz, r).fault
    {
      hz := input;
      ValidateHz();
      SetParams(pwm, dutyCycle, hz, r);
      LastSwitchAppend(old(log), Params(pwm, dutyCycle, hz, r).calls);
    }

    /** enable_store. A failed pwm_config or pwm_apply_state does not stop
        pwm_enable; only pwm_enable's own failure clears the flag. */
    method EnableStore(input: Int32, r: Replies)
      requires Valid() && !oops
      modifies this
      ensures Valid()
      ensures pwmChannel == old(pwmChannel) && dutyCycle == old(dutyCycle) && hz == old(hz)
      ensures pwm == old(pwm) && pwm0 == old(pwm0) && pwm1 == old(pwm1)
      ensures ClampEnable(input) == 1 ==>
                oops == Params(pwm, dutyCycle, hz, r).fault &&
                log == old(log) + Params(pwm, dutyCycle, hz, r).calls +
                       (if oops then [] else [Enable(pwm, r.enableRet)]) &&
                enable == (if oops || r.enableRet >= 0 then 1 else 0)
      ensures ClampEnable(input) != 1 ==>
                !oops && log == old(log) + [Disable(pwm)] && enable == 0
    {
      enable := input;
      ValidateEnable();
      if enable == 1 {
        SetParams(pwm, dutyCycle, hz, r);
        if oops {
          return;
        }
        ghost var applied := log;
        var ret := PwmEnable(pwm, r.enableRet);
        LastSwitchAppend(applied, [Enable(pwm, r.enableRet)]);
        if ret < 0 {
          enable := 0;
        }
      } else {
        PwmDisable(pwm);
        enable := 0;
      }
    }

    // ----- probe and initialisation

    /** The probe-mode branch of my_test_init, after the probe validated the
        four fields. Its `hz > 0 && duty_cycle > 0` test always holds. */
    method TestInit(s0: Slot, s1: Slot, r: Replies)
      requires ChannelInRange(pwmChannel) && HzInRange(hz) && DutyInRange(dutyCycle)
      requires EnableInRange(enable) && !oops
      modifies this
      ensures Valid() && !oops
      ensures pwmChannel == old(pwmChannel) && hz == old(hz) && dutyCycle == old(dutyCycle)
      ensures pwm0 == s0 && pwm1 == s1 && pwm == Select(pwmChannel, s0, s1)
      ensures enable == (if pwm.Some? && old(enable) == 1 && r.enableRet >= 0 then 1 else 0)
      ensures pwm.None? ==> log == old(log)
      ensures pwm.Some? ==>
                log == old(log) + Params(pwm, dutyCycle, hz, r).calls +
                       (if old(enable) == 1 then [Enable(pwm, r.enableRet)] else [])
    {
      pwm0 := s0;
      pwm1 := s1;
      UpdatePwmChannel(pwmChannel);
      if pwm.Some? {
        if hz > 0 && dutyCycle > 0 {
          SetParams(pwm, dutyCycle, hz, r);
          if enable == 1 {
            ghost var applied := log;
            var ret := PwmEnable(pwm, r.enableRet);
            LastSwitchAppend(applied, [Enable(pwm, r.enableRet)]);
            if ret < 0 {
              enable := 0;
            }
          }
        }
      } else {
        enable := 0;
      }
    }

    /** test_probe: read each property (or its default), validate it, then
        acquire the handles and initialise. */
    method Probe(kobjCreated: bool, dt: DeviceTree, s0: Slot, s1: Slot, r: Replies)
      returns (ret: int)
      requires !oops
      modifies this
      ensures !kobjCreated ==> ret == -ENOMEM && unchanged(this)
      ensures kobjCreated ==> ret == 0 && Valid() && !oops
      ensures kobjCreated ==>
                pwmChannel == ClampChannel(DtValue(dt.pwmChannel, 0)) &&
                hz == ClampHz(DtValue(dt.hz, 2)) &&
                dutyCycle == ClampDuty(DtValue(dt.dutyCycle, 32)) &&
                pwm0 == s0 && pwm1 == s1 && pwm == Select(pwmChannel, s0, s1)
      ensures kobjCreated ==>
                enable == (if pwm.Some? && ClampEnable(DtValue(dt.enable, 1)) == 1 && r.enableRet >= 0
                           then 1 else 0)
      ensures kobjCreated && pwm.None? ==> log == old(log)
      ensures kobjCreated && pwm.Some? ==>
                log == old(log) + Params(pwm, dutyCycle, hz, r).calls +
                       (if ClampEnable(DtValue(dt.enable, 1)) == 1 then [Enable(pwm, r.enableRet)] else [])
    {
      if !kobjCreated {
        return -ENOMEM;
      }
      pwmChannel := DtValue(dt.pwmChannel, 0);
      ValidatePwmChannel();
      hz := DtValue(dt.hz, 2);
      ValidateHz();
      dutyCycle := DtValue(dt.dutyCycle, 32);
      ValidateDutyCycle();
      enable := DtValue(dt.enable, 1);
      ValidateEnable();
      TestInit(s0, s1, r);
      return 0;
    }
  }
}
