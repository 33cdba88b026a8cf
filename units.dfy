/** The unit conversion at the top of set_pwm_params, with C's integer
    semantics written out: `NSEC_PER_SEC / hz` divides toward zero, the
    results are stored in `uint64_t`, and the duty level is an
    `unsigned int`. */
module Units {
  import opened PwmTypes

  const U64: int := 0x1_0000_0000_0000_0000

  /** Conversion of an integer to `uint64_t`. */
  function Wrap64(x: int): (r: nat)
    ensures r < U64
    ensures 0 <= x < U64 ==> r == x
    ensures (r - x) % U64 == 0
  {
    x % U64
  }

  /** Conversion of an `int` argument to the `unsigned int` parameter. Its
      callers pass duty levels already validated into [1, 255]; the wrap is
      stated for completeness. */
  function ToU32(x: int): (r: U32)
    ensures 0 <= x ==> x < 0x1_0000_0000 ==> r == x
    ensures (r - x) % 0x1_0000_0000 == 0
  {
    x % 0x1_0000_0000
  }

  /** C division, which rounds toward zero (Dafny's `/` is Euclidean).
      Only a positive divisor reaches the hardware: the cases with a
      negative operand are computed and then refused by the apply guard. */
  function TruncDiv(a: int, b: int): (q: int)
    requires b != 0
    ensures a >= 0 && b > 0 ==> q == a / b
    ensures var m := a - q * b;
              (b > 0 ==> -b < m < b) && (b < 0 ==> b < m < -b) &&
              (a >= 0 ==> m >= 0) && (a <= 0 ==> m <= 0)
  {
    if a >= 0 && b > 0 then a / b
    else if a < 0 && b < 0 then (-a) / (-b)
    else if a < 0 then -((-a) / b)
    else -(a / (-b))
  }

  /** `period_ns = NSEC_PER_SEC / hz`. The division happens before any
      guard, so the source needs `hz != 0` here. */
  function PeriodNs(hz: int): (r: nat)
    requires hz != 0
    ensures r < U64
    ensures hz > 0 ==> r == NSEC_PER_SEC / hz
  {
    Wrap64(TruncDiv(NSEC_PER_SEC, hz))
  }

  /** `duty_cycle_ns = period_ns * duty_cycle / (MAX_DUTY + 1)` in `uint64_t`. */
  function DutyNs(periodNs: nat, duty: U32): (r: nat)
    ensures r < U64
    ensures periodNs * duty < U64 ==> r == periodNs * duty / (MAX_DUTY + 1)
  {
    Wrap64(periodNs * duty) / (MAX_DUTY + 1)
  }

  lemma MulMono(a: nat, b: nat, c: nat)
    requires b <= c
    ensures a * b <= a * c
  {
  }

  /** For a positive frequency the conversion never wraps: the period is the
      plain quotient, the high time is that fraction of it, and a duty level
      of at most MAX_DUTY keeps the high time within the period. */
  lemma ConvertBounds(hz: int, duty: U32)
    requires hz > 0
    ensures PeriodNs(hz) == NSEC_PER_SEC / hz <= NSEC_PER_SEC
    ensures DutyNs(PeriodNs(hz), duty) == PeriodNs(hz) * duty / (MAX_DUTY + 1)
    ensures duty <= MAX_DUTY ==> DutyNs(PeriodNs(hz), duty) <= PeriodNs(hz)
  {
    var p := NSEC_PER_SEC / hz;
    assert p <= NSEC_PER_SEC by {
      MulMono(p, 1, hz);
    }
    MulMono(p, duty, 0x1_0000_0000);
    MulMono(0x1_0000_0000, p, NSEC_PER_SEC);
    assert p * duty < U64;
    if duty <= MAX_DUTY {
      MulMono(p, duty, MAX_DUTY + 1);
    }
  }

  /** The example of a 2 Hz signal at duty level 32. */
  lemma ConvertExample()
    ensures PeriodNs(2) == 500_000_000
    ensures DutyNs(PeriodNs(2), 32) == 62_500_000
  {
  }
}
