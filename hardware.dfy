/** The kernel PWM calls the driver issues, as entries of a call log, and
    the replies the hardware provider gives them. */
module Hardware {
  import opened PwmTypes

  /** The polarity the driver requests; it never asks for another. */
  datatype Polarity = Normal

  /** The fields of `struct pwm_state` the driver sets before applying it. */
  datatype PwmState = PwmState(period: nat, dutyCycle: nat, polarity: Polarity)

  /** One call into the PWM core, with the value it returned. */
  datatype HwCall =
    | Config(device: nat, dutyNs: nat, periodNs: nat, ret: int)   // pwm_config
    | ApplyState(device: nat, state: PwmState, ret: int)          // pwm_apply_state
    | Enable(target: Handle, ret: int)                            // pwm_enable
    | Disable(target: Handle)                                     // pwm_disable

  /** The return codes the provider gives to the calls of one handler;
      a negative code is a failure. */
  datatype Replies = Replies(configRet: int, applyRet: int, enableRet: int)

  /** Calls that switch the output on or off. */
  predicate IsSwitch(c: HwCall) { c.Enable? || c.Disable? }

  predicate NoSwitch(calls: seq<HwCall>)
  {
    forall c :: c in calls ==> !IsSwitch(c)
  }

  /** The most recent enable or disable call in a log. */
  function LastSwitch(log: seq<HwCall>): (r: Option<HwCall>)
    ensures r.Some? ==> r.value in log && IsSwitch(r.value)
    ensures r.None? <==> NoSwitch(log)
  {
    if log == [] then None
    else if IsSwitch(log[|log| - 1]) then Some(log[|log| - 1])
    else LastSwitch(log[..|log| - 1])
  }

  /** The switch LastSwitch returns sits at a position after which the log
      holds no further switch: it is the most recent one. */
  lemma {:induction false} LastSwitchIsLast(log: seq<HwCall>)
    requires LastSwitch(log).Some?
    ensures exists i :: 0 <= i < |log| && log[i] == LastSwitch(log).value && NoSwitch(log[i + 1..])
  {
    var n := |log|;
    if IsSwitch(log[n - 1]) {
      assert log[n..] == [];
      assert log[n - 1] == LastSwitch(log).value;
    } else {
      var front := log[..n - 1];
      LastSwitchIsLast(front);
      var i :| 0 <= i < |front| && front[i] == LastSwitch(front).value && NoSwitch(front[i + 1..]);
      assert log == front + [log[n - 1]];
      assert log[i + 1..] == front[i + 1..] + [log[n - 1]];
      assert log[i] == front[i];
      assert NoSwitch(log[i + 1..]) by {
        forall c | c in log[i + 1..] ensures !IsSwitch(c) {
          assert c in front[i + 1..] || c == log[n - 1];
        }
      }
    }
  }

  /** Appending calls that do not switch leaves the most recent switch as it
      was; appending a switch makes it the most recent one. */
  lemma {:induction false} LastSwitchAppend(log: seq<HwCall>, more: seq<HwCall>)
    ensures NoSwitch(more) ==> LastSwitch(log + more) == LastSwitch(log)
    ensures more != [] && IsSwitch(more[|more| - 1]) ==>
              LastSwitch(log + more) == Some(more[|more| - 1])
  {
    if more != [] {
      var all := log + more;
      assert all[|all| - 1] == more[|more| - 1];
      if !IsSwitch(more[|more| - 1]) {
        assert all[..|all| - 1] == log + more[..|more| - 1];
        LastSwitchAppend(log, more[..|more| - 1]);
        if NoSwitch(more) {
          assert NoSwitch(more[..|more| - 1]) by {
            forall c | c in more[..|more| - 1] ensures !IsSwitch(c) {
              assert c in more;
            }
          }
        }
      }
    } else {
      assert log + more == log;
    }
  }

  /** The output counts as confirmed on for `h` when the most recent switch
      in the log is a successful pwm_enable of `h`. */
  predicate ConfirmedEnabled(log: seq<HwCall>, h: Handle)
  {
    var last := LastSwitch(log);
    last.Some? && last.value.Enable? && last.value.target == h && last.value.ret >= 0
  }
}
