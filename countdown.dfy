/** The `useCountDown` hook: a seconds counter that a one-second timer
    decrements until it reaches 0, and that `startCountdown` puts back to
    its starting value. The wall clock is modelled as explicit `Tick` events. */
module Countdown {

  /** The ceiling both OTP screens start their resend countdown at: two minutes. */
  const Ceiling: int := 120

  /** The counter after `k` timer callbacks from `c`: each one takes 1 off
      while the counter is above 0; at 0 or below no timer is scheduled. */
  function AfterTicks(c: int, k: nat): (r: int)
    ensures r <= c
    ensures c >= 0 ==> r >= 0
    ensures k > 0 && c > 0 ==> r < c
  {
    if k == 0 || c <= 0 then c else AfterTicks(c - 1, k - 1)
  }

  /** One more tick from any point: exactly 1 less while above 0, else unchanged. */
  lemma {:induction false} AfterTicksStep(c: int, k: nat)
    ensures AfterTicks(c, k + 1) == if AfterTicks(c, k) > 0 then AfterTicks(c, k) - 1 else AfterTicks(c, k)
  {
    if k > 0 && c > 0 {
      AfterTicksStep(c - 1, k - 1);
    }
  }

  /** From `c >= 0` the counter after `k` ticks is `c - k` until it reaches 0,
      and 0 from then on: it never goes negative. */
  lemma {:induction false} AfterTicksValue(c: int, k: nat)
    requires c >= 0
    ensures AfterTicks(c, k) == if k <= c then c - k else 0
  {
    if k > 0 && c > 0 {
      AfterTicksValue(c - 1, k - 1);
    }
  }

  /** Between two resets the counter never goes up, and never below
      `min(c, 0)`. */
  lemma {:induction false} AfterTicksMonotone(c: int, j: nat, k: nat)
    requires j <= k
    ensures AfterTicks(c, k) <= AfterTicks(c, j)
    ensures AfterTicks(c, k) >= if c < 0 then c else 0
  {
    if c >= 0 {
      AfterTicksValue(c, j);
      AfterTicksValue(c, k);
    }
  }

  /** Ticking `j` times and then `k` times is ticking `j + k` times. */
  lemma {:induction false} AfterTicksAdd(c: int, j: nat, k: nat)
    ensures AfterTicks(AfterTicks(c, j), k) == AfterTicks(c, j + k)
  {
    if j > 0 && c > 0 {
      AfterTicksAdd(c - 1, j - 1, k);
    }
  }

  /** A counter started at `n >= 0` reads 0 after `n` ticks, and any further
      ticks leave it at 0; the OTP screens' two minutes run out after 120 ticks. */
  lemma Expires(n: int, extra: nat)
    requires n >= 0
    ensures AfterTicks(n, n) == 0 && AfterTicks(n, n + extra) == 0
    ensures n == Ceiling ==> AfterTicks(n, 119) == 1 && AfterTicks(n, 120) == 0
  {
    AfterTicksValue(n, n);
    AfterTicksValue(n, n + extra);
    AfterTicksValue(n, 119);
  }

  /** A mounted `useCountDown(initialSeconds)`. `elapsed` counts the ticks
      since the last (re)start; the invariant ties the counter to it. A pending
      timer exists exactly while the hook is mounted and the counter is above
      0, so there is never more than one. */
  class CountDown {
    const initialSeconds: int
    var secondsLeft: int
    var mounted: bool
    ghost var elapsed: nat

    ghost predicate Valid()
      reads this
    {
      secondsLeft == AfterTicks(initialSeconds, elapsed)
    }

    /** Whether the effect has a `setTimeout` pending. */
    predicate TimerPending()
      reads this
    {
      mounted && secondsLeft > 0
    }

    /** `useState(initialSeconds)` and the first run of the effect. */
    constructor (initialSeconds: int)
      ensures Valid() && this.initialSeconds == initialSeconds
      ensures secondsLeft == initialSeconds && mounted && elapsed == 0
    {
      this.initialSeconds := initialSeconds;
      secondsLeft := initialSeconds;
      mounted := true;
      elapsed := 0;
    }

    /** One second passes: the pending timer, if any, fires and sets the
        counter to one less; the effect then schedules the next one. */
    method Tick()
      requires Valid()
      modifies this
      ensures Valid() && mounted == old(mounted)
      ensures old(TimerPending()) ==> secondsLeft == old(secondsLeft) - 1 && elapsed == old(elapsed) + 1
      ensures !old(TimerPending()) ==> secondsLeft == old(secondsLeft) && elapsed == old(elapsed)
    {
      if mounted && secondsLeft > 0 {
        AfterTicksStep(initialSeconds, elapsed);
        secondsLeft := secondsLeft - 1;
        elapsed := elapsed + 1;
      }
    }

    /** `startCountdown`: back to `initialSeconds` from any value. Changing
        the counter cancels the pending timer and schedules a fresh one. */
    method StartCountdown()
      requires Valid()
      modifies this
      ensures Valid() && mounted == old(mounted)
      ensures secondsLeft == initialSeconds && elapsed == 0
    {
      secondsLeft := initialSeconds;
      elapsed := 0;
    }

    /** The component unmounts: the effect's cleanup clears the pending timer,
        so no later tick changes the counter. */
    method Unmount()
      requires Valid()
      modifies this
      ensures Valid() && !mounted && !TimerPending()
      ensures secondsLeft == old(secondsLeft) && elapsed == old(elapsed)
    {
      mounted := false;
    }
  }
}
