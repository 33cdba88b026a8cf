# A verified model of the `my_driver` PWM controller

`drivers/leds/test/my-driver.c` is a small Linux platform driver. It drives one of two PWM
channels. It holds four configuration globals (`pwm_channel`, `hz`, `duty_cycle`, `enable`),
two handles (`pwm0` and `pwm1`) and the active handle `pwm`. Each write to one of its four
sysfs attributes parses an integer and clamps it into range. Writes to the channel, the duty
level and the frequency, and a write of 1 to `enable`, then re-apply the configuration: the
driver converts Hz and a 0–255 duty level into a period and a high time in nanoseconds, and
calls `pwm_config`, followed by `pwm_apply_state` if that succeeds. The frequency guard can
refuse this re-apply, and then no call is made. A NULL active handle that passes the guard
faults before either call. A write of 0 to `enable` only calls `pwm_disable`. The probe reads
initial values from the device tree and falls back to defaults. It then acquires both handles
and initialises the active channel.

This project models that control core in Dafny and proves the following about it:

- the fields stay in range;
- the channel selector never substitutes the other channel;
- the high time never exceeds the period;
- the hardware calls happen in the order the handlers issue them.

## Structure

- `types.dfy` (`PwmTypes`): the constants `NSEC_PER_SEC`, `MAX_HZ` and `MAX_DUTY`.
  - C's `int` and `u32` are subset types.
  - A handle slot is NULL (`Unset`), an error pointer (`Failed`) or an acquired device.
  - The active handle is `None` (NULL) or `Some(i)`, the device acquired for pwm-*i*.
- `validator.dfy` (`Validator`): the four clamps as functions.
- `selector.dfy` (`Selector`): the case analysis of `update_pwm_channel`.
- `units.dfy` (`Units`): the period and duty arithmetic, with C semantics written out.
  - `/` truncates toward zero.
  - Results wrap to `uint64_t`.
  - The duty argument is converted to `unsigned int`.
- `hardware.dfy` (`Hardware`): the entries of the hardware call log and the replies.
  - The logged calls are `pwm_config`, `pwm_apply_state`, `pwm_enable` and `pwm_disable`.
  - `LastSwitch` gives the most recent enable or disable in a log; `LastSwitchIsLast` proves
    that no switch follows it.
- `apply.dfy` (`Apply`): `Params` says which calls one `set_pwm_params` issues, and whether
  it faults. It covers every duty, every handle, every reply and every hz except 0, where the
  C division at line 57 is undefined.
- `driver.dfy` (`Driver`): class `PwmDriver`.
  - The globals are fields.
  - Each C function is a method in imperative form.
  - The hardware calls are methods that append to a ghost `log`.
  - `Valid()` is the invariant every store handler keeps: fields in range, and `pwm` equal to
    what the channel selects. Unless a handler faulted, it also says that `enable == 1` only
    after a successful `pwm_enable` of `pwm`.
- `scenarios.dfy` (`Scenarios`): client methods that replay concrete write sequences using
  the handlers' contracts alone.

Modelling choices:

- **Hardware replies.** Each handler takes a `Replies` value holding the return codes the
  provider gives to `pwm_config`, `pwm_apply_state` and `pwm_enable`. A negative code is a
  failure. The handle requests are likewise parameters of `TestInit`.
- **NULL handle.** `set_pwm_params` reads through its handle in `pwm_init_state`
  (line 70). When the handle is NULL and the guards pass, the handler cannot go on:
  - This path is modelled as an explicit fault: the field `oops` becomes true and the
    handler stops at once.
  - The killed writer still holds `my_mutex`, so no later store handler can run. The store
    handlers therefore require `!oops`.
  - `Params` reports this fault exactly when the handle is NULL and `0 < hz < MAX_HZ`.
- **Behaviours worth noting; the model follows the code in each:**
  - `validate_hz` clamps into `[1, MAX_HZ]`, including `MAX_HZ`. `set_pwm_params` refuses
    `MAX_HZ` (`ClampHz`, `ClampedMaxHzIsRejected`, `LargeHzIsRefused`). The guard's message
    at line 66 asks only for a positive frequency.
  - The duty guard `duty_cycle > MAX_DUTY && duty_cycle < 0` never rejects
    (`DutyGuardRejects`). Its message at line 61 asks for a level from 0 to 255 inclusive,
    a test that would need `||`.
  - A failed `pwm_config` or `pwm_apply_state` does not clear `enable`. `enable_store` calls
    `pwm_enable` anyway (`EnableStore`, `ApplyFailureKeepsEnable`).
  - With no active handle, a re-apply that passes the frequency guard faults. Selecting an
    unavailable channel at the default 2 Hz faults (`UnavailableChannelFaults`). After such a
    fault in `enable_store`, `enable` is left at 1.

## Model

| member | source | states |
|---|---|---|
| `Validator.ClampChannel` | drivers/leds/test/my-driver.c:102-108 | the result is 0 or 1, is the legal channel nearest the input, and is the input itself when that is legal |
| `Validator.ClampDuty` | drivers/leds/test/my-driver.c:110-116 | the result is in [1, 255], is the legal level nearest the input, and is the input itself when that is legal |
| `Validator.ClampHz` | drivers/leds/test/my-driver.c:118-124 | the result is in [1, MAX_HZ] and is the nearest such value, fixing legal inputs; the result is MAX_HZ exactly when the input is at least MAX_HZ |
| `Validator.ClampEnable` | drivers/leds/test/my-driver.c:126-132 | the result is 0 or 1, is the nearest such value, and is the input itself when that is legal |
| `Validator.ValidatorsIdempotent` | drivers/leds/test/my-driver.c:102-132 | clamping a clamped value changes nothing, for all four validators |
| `Selector.Select` | drivers/leds/test/my-driver.c:91-99 | the result is pwm0 iff the channel is 0 and pwm0 is acquired, pwm1 iff the channel is 1 and pwm1 is acquired, and NULL otherwise; it is never the other channel's handle |
| `Units.Wrap64` | drivers/leds/test/my-driver.c:57-58 | a `uint64_t` store gives a value below 2^64 that is congruent to its input modulo 2^64, and changes no value already in range |
| `Units.ToU32` | drivers/leds/test/my-driver.c:54 | passing an `int` as the `unsigned int` duty gives a value congruent to it modulo 2^32, and keeps every non-negative `int` |
| `Units.TruncDiv` | drivers/leds/test/my-driver.c:57 | C's division law: the remainder `a - q * b` is smaller than the divisor in size and never has the sign opposite to the dividend, which fixes the quotient rounded toward zero; agrees with Euclidean division for a >= 0, b > 0 |
| `Units.PeriodNs` | drivers/leds/test/my-driver.c:57 | `period_ns` is below 2^64 and, for hz > 0, is exactly 1e9 / hz |
| `Units.DutyNs` | drivers/leds/test/my-driver.c:58 | `duty_cycle_ns` is below 2^64 and, when the product does not wrap, is period * duty / 256; `ConvertBounds` shows it never wraps for hz > 0 |
| `Units.ConvertBounds` | drivers/leds/test/my-driver.c:57-58 | for hz > 0: period_ns = 1e9 / hz with no wrap-around; duty_ns = period_ns * duty / 256 with no wrap-around; duty <= 255 implies duty_ns <= period_ns |
| `Units.ConvertExample` | drivers/leds/test/my-driver.c:57-58 | 2 Hz at level 32 gives period 500000000 ns and high time 62500000 ns |
| `Apply.Params` | drivers/leds/test/my-driver.c:54-89 | for every hz except 0: no call is made iff hz <= 0, hz >= MAX_HZ or the handle is NULL, and the NULL case faults; otherwise it calls pwm_config on that handle with period 1e9/hz and the scaled duty (within the period for a level of at most 255); pwm_apply_state with the same values and normal polarity follows iff pwm_config succeeded; it never enables or disables |
| `Apply.DutyGuardRejects` | drivers/leds/test/my-driver.c:60-63 | no unsigned duty value is both above 255 and below 0, so the duty guard never rejects |
| `Apply.HzGuardRejects` | drivers/leds/test/my-driver.c:65-68 | the guard refuses exactly the frequencies outside (0, MAX_HZ); among the values validate_hz produces it refuses only MAX_HZ |
| `Apply.ClampedMaxHzIsRejected` | drivers/leds/test/my-driver.c:65-68 | at hz = MAX_HZ set_pwm_params makes no hardware call and does not fault, for every handle, duty and reply |
| `Driver.AsInt32` | drivers/leds/test/my-driver.c:337-349 | a `u32` property stored in an `int` keeps its bits: converting back gives the property |
| `Driver.DtValue` | drivers/leds/test/my-driver.c:349-355 | a property that could not be read gives the default; a read one gives the `int` whose bits are the property's `u32`; the same read-or-default is used at 365-371, 382-388 and 398-404 |
| `Driver.PwmDriver.constructor` | drivers/leds/test/my-driver.c:21-25 | at module load every global is 0 and every handle is NULL |
| `Driver.PwmDriver.PwmConfig` | drivers/leds/test/my-driver.c:74 | pwm_config is logged with its device, duty and period and returns the provider's reply |
| `Driver.PwmDriver.PwmApplyState` | drivers/leds/test/my-driver.c:79 | pwm_apply_state is logged with its device and state and returns the provider's reply |
| `Driver.PwmDriver.PwmEnable` | drivers/leds/test/my-driver.c:232 | pwm_enable is logged with its target and returns the provider's reply |
| `Driver.PwmDriver.PwmDisable` | drivers/leds/test/my-driver.c:163 | pwm_disable is logged with its target |
| `Driver.PwmDriver.ValidatePwmChannel` | drivers/leds/test/my-driver.c:102-108 | pwm_channel becomes ClampChannel of its old value; nothing else changes |
| `Driver.PwmDriver.ValidateDutyCycle` | drivers/leds/test/my-driver.c:110-116 | duty_cycle becomes ClampDuty of its old value; nothing else changes |
| `Driver.PwmDriver.ValidateHz` | drivers/leds/test/my-driver.c:118-124 | hz becomes ClampHz of its old value; nothing else changes |
| `Driver.PwmDriver.ValidateEnable` | drivers/leds/test/my-driver.c:126-132 | enable becomes ClampEnable of its old value; nothing else changes |
| `Driver.PwmDriver.UpdatePwmChannel` | drivers/leds/test/my-driver.c:91-99 | pwm becomes Select of the channel and the two slots; nothing else changes |
| `Driver.PwmDriver.SetParams` | drivers/leds/test/my-driver.c:54-89 | requires hz != 0 because the division comes before the guard; the log grows by exactly the calls of Params, the fault flag is set as Params says, and no configuration field changes |
| `Driver.PwmDriver.PwmChannelStore` | drivers/leds/test/my-driver.c:157-169 | keeps Valid; the log grows by a disable of the old handle, then the calls of re-applying the stored duty and hz to the newly selected handle; the channel is the clamped input; enable is 0; duty, hz and the slots are unchanged |
| `Driver.PwmDriver.DutyCycleStore` | drivers/leds/test/my-driver.c:181-190 | keeps Valid; duty is the clamped input, re-applied with the stored hz; channel, hz, enable and the handles are unchanged |
| `Driver.PwmDriver.HzStore` | drivers/leds/test/my-driver.c:202-211 | keeps Valid; hz is the clamped input, re-applied with the stored duty; channel, duty, enable and the handles are unchanged |
| `Driver.PwmDriver.EnableStore` | drivers/leds/test/my-driver.c:223-243 | keeps Valid. For a clamped input of 1: re-apply, then pwm_enable unless that faulted; enable ends at 1 iff it faulted or pwm_enable succeeded. For 0: pwm_disable and enable = 0. Channel, duty, hz and the handles are unchanged |
| `Driver.PwmDriver.TestInit` | drivers/leds/test/my-driver.c:290-308 | establishes Valid; stores the two handles and selects the active one. With a handle: applies the stored parameters and, if enable was 1, calls pwm_enable, keeping enable 1 only on success. Without one: no call and enable = 0 |
| `Driver.PwmDriver.Probe` | drivers/leds/test/my-driver.c:335-418 | without the kobject: returns -ENOMEM and changes nothing. Otherwise: returns 0 and each field is the clamped device-tree value or its default (0, 2, 32, 1), followed by the effect of TestInit |
| `Scenarios.DefaultProbe` | drivers/leds/test/my-driver.c:349-410 | with no properties and both handles: channel 0, 2 Hz, level 32, enabled; the log is pwm_config(62500000, 500000000), pwm_apply_state, pwm_enable |
| `Scenarios.HzZeroIsClamped` | drivers/leds/test/my-driver.c:202-211 | writing 0 to hz stores 1 |
| `Scenarios.ChannelFiveSelectsOne` | drivers/leds/test/my-driver.c:157-169 | writing 5 to pwm_channel gives channel 1, handle pwm1 and enable 0; the calls are: disable pwm0, then configure and apply pwm1 |
| `Scenarios.UnavailableChannelFaults` | drivers/leds/test/my-driver.c:157-169 | selecting a channel whose request failed leaves pwm NULL, and the re-apply at 2 Hz faults |
| `Scenarios.UnavailableChannelAtMaxHz` | drivers/leds/test/my-driver.c:223-243 | at MAX_HZ an unavailable channel is selected without a fault; enable then ends at 1 iff pwm_enable(NULL) reports success |
| `Scenarios.ApplyFailureKeepsEnable` | drivers/leds/test/my-driver.c:223-243 | a failed pwm_apply_state followed by a successful pwm_enable leaves enable at 1 |
| `Scenarios.LargeHzIsRefused` | drivers/leds/test/my-driver.c:202-211 | writing 5000000 to hz stores MAX_HZ, and no hardware call follows |

## Left out

- The mutex `my_mutex` and concurrent writers: each store handler is one atomic method. Writes
  that could race with the probe, before `my_test_init` runs, are not modelled. So the store
  handlers start from a probed state (`Valid()`).
- The sysfs layer is not modelled:
  - kobject and attribute registration (apart from a failed `kobject_create_and_add`, which
    ends the probe);
  - the failures of `sysfs_create_file`;
  - the four `*_show` renderers;
  - the `sscanf` parsing, since handler inputs arrive as parsed `int` values.
- Logging and `print_pwm_device_info` / `print_pwm_state_info`: output only.
- `of_property_read_u32`: each property is an optional `u32` input, and `None` selects the
  default.
- `get_pwm_device`, `pwm_request` and `pwm_free`: the outcome of each request is a `Slot`
  parameter of `TestInit`.
- The behaviour inside `pwm_config`, `pwm_apply_state`, `pwm_enable` and `pwm_disable`,
  including what they do with a NULL handle: these are foreign kernel calls, logged with the
  reply the caller supplies.
- `pwm_init_state`'s copying of the device's current state and arguments into the applied
  state: the model keeps only period, duty and polarity.
- The `MY_DEBUG` branch of `my_test_init`: dead code, because `MY_DEBUG` is 0.
- `my_test_exit`, `test_remove` and the platform-driver table: teardown and registration.
  `my_test_exit` also tests error pointers as if they were valid handles.
- The uninitialised `ret` that `my_test_init` returns: undefined behaviour with no value
  to model.
