/** The POSIX `usleep`/`sleep` shims and the deadline sleep on the system tick
    counter. The kernel configuration is fixed at a 10 kHz system tick
    (`CH_CFG_ST_FREQUENCY`) and a 32-bit `systime_t` (`CH_CFG_ST_RESOLUTION`). */
module Sleep {
  import opened Outcomes
  import opened Format

  const StFrequency: nat := 10000
  const StResolution: nat := 32
  /** 2^`StResolution`: the number of distinct `systime_t` values. */
  const SystimeModulus: nat := 0x1_0000_0000
  /** The largest `sleep` argument whose tick count still fits in `systime_t`. */
  const MaxSleepSeconds: nat := 429496

  /** A value of the system tick counter. */
  type Systime = x: nat | x < 0x1_0000_0000

  /** What the call asks the kernel to do. */
  datatype Action = NoSleep | SleepMicroseconds(us: nat) | SleepSeconds(s: nat) | SleepTicks(ticks: nat)

  /** The return value of the call and the sleep it requested. */
  datatype Sleeping = Sleeping(action: Action, ret: int)

  /** The `usleep` guard's tick count, `(us * FREQ + 999999) / 1000000` in
      64-bit arithmetic: the microseconds rounded up to whole ticks. */
  function UsTicksCeil(us: U32): (t: nat)
    ensures us * StFrequency + 999_999 < 0x1_0000_0000_0000_0000
    ensures t * 1_000_000 >= us * StFrequency
    ensures t == 0 || (t - 1) * 1_000_000 < us * StFrequency
  {
    (us * StFrequency + 999_999) / 1_000_000
  }

  /** `usleep(us)`: asserts that the tick count fits, sleeps only for a
      positive argument, returns 0. */
  function USleep(assertsEnabled: bool, us: U32): (o: Outcome<Sleeping>)
    ensures !o.AssertFailed? && !o.Halted?
    ensures o.value.ret == 0
    ensures o.value.action.SleepMicroseconds? <==> us > 0
    ensures o.value.action.SleepMicroseconds? ==> o.value.action.us == us
    ensures o.value.action == NoSleep || o.value.action.SleepMicroseconds?
  {
    USleepGuardIsTickRange(us);
    if assertsEnabled && !(UsTicksCeil(us) < SystimeModulus) then
      AssertFailed("(((uint64_t)useconds * (uint64_t)CH_CFG_ST_FREQUENCY + 999999ULL) / 1000000ULL) < (1ULL << CH_CFG_ST_RESOLUTION)")
    else
      Return(Sleeping(if us > 0 then SleepMicroseconds(us) else NoSleep, 0))
  }

  /** `sleep(s)`: asserts that `s * FREQ` fits, sleeps only for a positive
      argument, returns 0. */
  function SleepSecs(assertsEnabled: bool, s: U32): (o: Outcome<Sleeping>)
    ensures !o.Halted?
    ensures o.AssertFailed? <==> assertsEnabled && s > MaxSleepSeconds
    ensures o.Return? ==> o.value.ret == 0
    ensures o.Return? ==> (o.value.action.SleepSeconds? <==> s > 0)
    ensures o.Return? && o.value.action.SleepSeconds? ==> o.value.action.s == s
    ensures o.Return? ==> o.value.action == NoSleep || o.value.action.SleepSeconds?
  {
    if assertsEnabled && !(s * StFrequency < SystimeModulus) then
      AssertFailed("((uint64_t)seconds * (uint64_t)CH_CFG_ST_FREQUENCY) < (1ULL << CH_CFG_ST_RESOLUTION)")
    else
      Return(Sleeping(if s > 0 then SleepSeconds(s) else NoSleep, 0))
  }

  /** The `sleep` guard admits exactly the durations whose tick count is a
      `systime_t` value. */
  lemma SleepGuardIsTickRange(s: U32)
    ensures !SleepSecs(true, s).AssertFailed? <==> s * StFrequency < SystimeModulus
  {
  }

  /** The `usleep` guard admits exactly the durations whose rounded-up tick
      count is a `systime_t` value; with 32-bit `useconds_t` that is all of them. */
  lemma USleepGuardIsTickRange(us: U32)
    ensures UsTicksCeil(us) < SystimeModulus
  {
    var x := us * StFrequency + 999_999;
    assert x < 1_000_000 * SystimeModulus;
    assert x / 1_000_000 < SystimeModulus;
  }

  /** `sleepUntilChTime(t)` at system time `now`: the distance to the deadline
      is taken modulo 2^32 and read as a signed value; the thread sleeps for
      it only when it is positive. A deadline less than 2^31 ticks ahead is
      slept to exactly; one that is now or up to 2^31 ticks behind is not. */
  method SleepUntilChTime(sleepUntil: Systime, now: Systime) returns (action: Action)
    ensures action == NoSleep || action.SleepTicks?
    ensures action.SleepTicks? ==> 0 < action.ticks < 0x8000_0000
    ensures action.SleepTicks? ==> (now + action.ticks) % SystimeModulus == sleepUntil
    ensures action == NoSleep <==> (now - sleepUntil) % SystimeModulus <= 0x8000_0000
  {
    var delta := (sleepUntil - now) % SystimeModulus;
    var signedDelta := if delta < 0x8000_0000 then delta else delta - SystimeModulus;
    if signedDelta > 0 {
      action := SleepTicks(delta);
    } else {
      action := NoSleep;
    }
  }
}
