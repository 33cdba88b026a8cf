/** Constants and basic types shared by the model of the PWM driver
    (drivers/leds/test/my-driver.c). */
module PwmTypes {

  /** Nanoseconds per second, the kernel's NSEC_PER_SEC. */
  const NSEC_PER_SEC: int := 1_000_000_000
  /** MAX_HZ: the frequency bound used by the clamp and by the apply guard. */
  const MAX_HZ: int := 2_000_000
  /** MAX_DUTY: the largest duty level; the level is a fraction of MAX_DUTY + 1. */
  const MAX_DUTY: int := 255
  /** The errno value returned by the probe when the kobject cannot be created. */
  const ENOMEM: int := 12

  /** The C `int` of the driver's globals and of the parsed store inputs. */
  type Int32 = x: int | -0x8000_0000 <= x < 0x8000_0000
  /** The C `unsigned int` / `u32`. */
  type U32 = x: int | 0 <= x < 0x1_0000_0000

  datatype Option<T> = None | Some(value: T)

  /** What a handle pointer `pwm0` or `pwm1` holds: NULL (nothing requested
      yet), an error pointer (the request failed), or an acquired device. */
  datatype Slot = Unset | Failed | Acquired

  /** A handle, as the active pointer `pwm` holds it: `None` is NULL and
      `Some(i)` is the device acquired for pwm-i. */
  type Handle = Option<nat>
}
