/** Clients of the driver that replay concrete situations; each result
    follows from the handlers' contracts alone. */
module Scenarios {
  import opened PwmTypes
  import opened Hardware
  import opened Driver

  const NoProperties := DeviceTree(None, None, None, None)
  const AllSucceed := Replies(0, 0, 0)

  /** A probe with no device-tree properties and both handles acquired:
      channel 0 at 2 Hz, duty level 32, enabled. */
  method DefaultProbe() returns (d: PwmDriver, ret: int, ghost calls: seq<HwCall>)
    ensures fresh(d) && ret == 0 && d.Valid() && !d.oops
    ensures d.pwm0 == Acquired && d.pwm1 == Acquired
    ensures d.pwmChannel == 0 && d.hz == 2 && d.dutyCycle == 32 && d.enable == 1
    ensures d.pwm == Some(0)
    ensures calls == d.log == [
              Config(0, 62_500_000, 500_000_000, 0),
              ApplyState(0, PwmState(500_000_000, 62_500_000, Normal), 0),
              Enable(Some(0), 0)]
  {
    d := new PwmDriver();
    ret := d.Probe(true, NoProperties, Acquired, Acquired, AllSucceed);
    calls := d.log;
  }

  /** Writing 0 to hz stores 1: it is clamped, not refused. */
  method HzZeroIsClamped() returns (f: Int32)
    ensures f == 1
  {
    var d, _, _ := DefaultProbe();
    d.HzStore(0, AllSucceed);
    f := d.hz;
  }

  /** Writing 5 to pwm_channel selects channel 1, with the output of
      channel 0 disabled first and the enable flag cleared. */
  method ChannelFiveSelectsOne() returns (ch: Int32, active: Handle, en: Int32, ghost calls: seq<HwCall>)
    ensures ch == 1 && active == Some(1) && en == 0
    ensures calls == [
              Disable(Some(0)),
              Config(1, 62_500_000, 500_000_000, 0),
              ApplyState(1, PwmState(500_000_000, 62_500_000, Normal), 0)]
  {
    var d, _, _ := DefaultProbe();
    ghost var before := d.log;
    d.PwmChannelStore(5, AllSucceed);
    ch, active, en := d.pwmChannel, d.pwm, d.enable;
    calls := d.log[|before|..];
  }

  /** Selecting a channel whose handle request failed leaves no active
      handle, and re-applying the stored 2 Hz through it faults. */
  method UnavailableChannelFaults() returns (active: Handle, crashed: bool)
    ensures active == None && crashed
  {
    var d := new PwmDriver();
    var _ := d.Probe(true, NoProperties, Acquired, Failed, AllSucceed);
    d.PwmChannelStore(1, AllSucceed);
    active, crashed := d.pwm, d.oops;
  }

  /** At MAX_HZ the apply guard refuses every re-apply, so an unavailable
      channel can be selected without a fault; enabling it then rests on
      pwm_enable's reply for a NULL handle. */
  method UnavailableChannelAtMaxHz(enableRet: int) returns (active: Handle, crashed: bool, en: Int32)
    ensures active == None && !crashed
    ensures en == (if enableRet >= 0 then 1 else 0)
  {
    var d := new PwmDriver();
    var _ := d.Probe(true, NoProperties, Acquired, Failed, AllSucceed);
    d.HzStore(MAX_HZ, AllSucceed);
    d.PwmChannelStore(1, AllSucceed);
    d.EnableStore(1, Replies(0, 0, enableRet));
    active, crashed, en := d.pwm, d.oops, d.enable;
  }

  /** A failed pwm_apply_state does not clear the enable flag: only
      pwm_enable's own failure does. */
  method ApplyFailureKeepsEnable() returns (en: Int32)
    ensures en == 1
  {
    var d, _, _ := DefaultProbe();
    d.EnableStore(1, Replies(0, -22, 0));
    en := d.enable;
  }

  /** Writing a frequency above MAX_HZ stores MAX_HZ, which set_pwm_params
      then refuses without calling the hardware. */
  method LargeHzIsRefused() returns (f: Int32, ghost calls: seq<HwCall>)
    ensures f == MAX_HZ && calls == []
  {
    var d, _, _ := DefaultProbe();
    ghost var before := d.log;
    d.HzStore(5_000_000, AllSucceed);
    f := d.hz;
    calls := d.log[|before|..];
  }
}
