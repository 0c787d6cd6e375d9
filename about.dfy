/**
 * The animated statistic counter of the About section (`ProfessionalCounter`).
 *
 * Once the counter scrolls into view it starts an interval; every tick runs a
 * state updater on the previous count: when the count has reached (or passed)
 * the target it is clamped to the target and the interval is cleared,
 * otherwise it grows by ceil(value / 40). Wall-clock timing (the start delay
 * and the 60 ms period) is abstracted to discrete ticks.
 */
module About {

  /** The target is covered in this many equal steps. */
  const Divisions := 40

  /** `Math.ceil(value / 40)` for an integer target: the least s with 40 * s >= value. */
  function Step(value: int): (s: int)
    ensures Divisions * (s - 1) < value <= Divisions * s
  {
    // Dafny's division by a positive divisor rounds down, so this negates a floor.
    -((-value) / Divisions)
  }

  /** What the counter shows and whether its interval is still running. */
  datatype Display = Display(count: int, running: bool)

  /**
   * One call of the state updater the interval hands to `setCount`: a count
   * that has reached the target is clamped to it and the interval stops,
   * otherwise the count grows by ceil(value / 40) and the interval goes on.
   */
  function TickRule(value: int, prev: int): (r: Display)
    ensures r.running <==> prev < value
    ensures !r.running ==> r.count == value
    ensures r.running ==> Divisions * (r.count - prev - 1) < value <= Divisions * (r.count - prev)
  {
    if prev >= value then Display(value, false)
    else Display(prev + Step(value), true)
  }

  /**
   * The counter after its interval has fired n times, starting from 0; once
   * the updater has cleared the interval, further periods change nothing.
   */
  function AfterTicks(value: int, n: nat): (r: Display)
    ensures n == 0 ==> r == Display(0, true)
    ensures value <= 0 && n > 0 ==> r == Display(value, false)
  {
    if n == 0 then Display(0, true)
    else
      var d := AfterTicks(value, n - 1);
      if d.running then TickRule(value, d.count) else d
  }

  /** The only way the interval stops is the clamp, so a stopped counter shows exactly its target. */
  lemma {:induction false} StoppedShowsValue(value: int, n: nat)
    requires !AfterTicks(value, n).running
    ensures AfterTicks(value, n).count == value
  {
    if n > 0 && !AfterTicks(value, n - 1).running {
      StoppedShowsValue(value, n - 1);
    }
  }

  /** Once stopped, the counter never changes again. */
  lemma {:induction false} StoppedIsFinal(value: int, n: nat, m: nat)
    requires n <= m
    requires !AfterTicks(value, n).running
    ensures AfterTicks(value, m) == AfterTicks(value, n)
  {
    if n < m {
      StoppedIsFinal(value, n, m - 1);
    }
  }

  /**
   * For a positive target the interval is still running after n ticks exactly
   * when the count before the last tick was below the target; while running,
   * the count is n whole steps.
   */
  lemma {:induction false} RunningExactly(value: int, n: nat)
    requires value > 0
    ensures AfterTicks(value, n).running <==> n == 0 || (n - 1) * Step(value) < value
    ensures AfterTicks(value, n).running ==> AfterTicks(value, n).count == n * Step(value)
  {
    if n > 0 {
      var s := Step(value);
      RunningExactly(value, n - 1);
      assert n * s == (n - 1) * s + s;
      if n > 1 {
        assert (n - 1) * s == (n - 2) * s + s;
      }
    }
  }

  /**
   * Every counter has stopped, showing its target, after at most 41 ticks;
   * a target of 0 or less is shown on the very first tick.
   */
  lemma StopsWithin41(value: int)
    ensures AfterTicks(value, 41) == Display(value, false)
    ensures value <= 0 ==> AfterTicks(value, 1) == Display(value, false)
  {
    if value > 0 {
      RunningExactly(value, 41);
      StoppedShowsValue(value, 41);
    }
  }

  /**
   * For a positive target the count never drops below 0 and stays below
   * value + ceil(value / 40): it can overshoot the target by less than one
   * step, and only while the interval is still running.
   */
  lemma CountBounds(value: int, n: nat)
    requires value > 0
    ensures 0 <= AfterTicks(value, n).count < value + Step(value)
    ensures AfterTicks(value, n).count > value ==> AfterTicks(value, n).running
  {
    RunningExactly(value, n);
    if !AfterTicks(value, n).running {
      StoppedShowsValue(value, n);
    } else if n > 0 {
      assert n * Step(value) == (n - 1) * Step(value) + Step(value);
    }
  }

  /** When 40 divides the target, every step lands on a multiple of it and the count never passes the target. */
  lemma NoOvershootWhenDivisible(value: int, n: nat)
    requires value > 0 && value % Divisions == 0
    ensures AfterTicks(value, n).count <= value
  {
    var s := Step(value);
    assert Divisions * s == value;
    RunningExactly(value, n);
    if !AfterTicks(value, n).running {
      StoppedShowsValue(value, n);
    } else if n > 0 {
      assert (n - 1) * s < Divisions * s;
      assert n <= Divisions;
      assert n * s <= Divisions * s;
    }
  }

  /** A target of 45 (step 2) shows 44, then 46, then settles on 45. */
  lemma Overshoot45()
    ensures AfterTicks(45, 22) == Display(44, true)
    ensures AfterTicks(45, 23) == Display(46, true)
    ensures AfterTicks(45, 24) == Display(45, false)
  {
    assert Step(45) == 2;
    RunningExactly(45, 22);
    RunningExactly(45, 23);
    RunningExactly(45, 24);
    StoppedShowsValue(45, 24);
  }

  /** A target of 2000 (step 50) reaches 2000 on the 40th tick and stops on the 41st. */
  lemma Lands2000()
    ensures AfterTicks(2000, 40) == Display(2000, true)
    ensures AfterTicks(2000, 41) == Display(2000, false)
  {
    assert Step(2000) == 50;
    RunningExactly(2000, 40);
    StopsWithin41(2000);
  }

  /** The state of one mounted `ProfessionalCounter`. */
  class ProfessionalCounter {
    const value: int
    var count: int
    var isVisible: bool
    /** Whether the interval set up by the effect is running. */
    var intervalActive: bool
    /** How many times the interval has fired. */
    ghost var ticks: nat

    ghost predicate Valid()
      reads this
    {
      && ticks <= 41
      && (!isVisible ==> ticks == 0 && count == 0 && !intervalActive)
      && (isVisible ==> Display(count, intervalActive) == AfterTicks(value, ticks))
    }

    /** Mounting: the count starts at 0 and nothing runs until the counter is in view. */
    constructor (value: int)
      ensures Valid()
      ensures this.value == value && count == 0 && !isVisible && !intervalActive
    {
      this.value := value;
      count := 0;
      isVisible := false;
      intervalActive := false;
      ticks := 0;
    }

    /**
     * The viewport trigger. Visibility is set once and never reset; the
     * effect then starts the interval (the start delay is not modelled).
     */
    method EnterViewport()
      requires Valid()
      modifies this
      ensures Valid() && isVisible
      ensures old(isVisible) ==> unchanged(this)
      ensures !old(isVisible) ==> count == 0 && intervalActive && ticks == 0
    {
      if !isVisible {
        isVisible := true;
        intervalActive := true;
      }
    }

    /** One period of the interval; nothing happens when no interval is running. */
    method Tick()
      requires Valid()
      modifies this
      ensures Valid() && isVisible == old(isVisible)
      ensures !old(intervalActive) ==> unchanged(this)
      ensures old(intervalActive) ==> ticks == old(ticks) + 1
      ensures old(intervalActive) && old(count) >= value ==> count == value && !intervalActive
      ensures old(intervalActive) && old(count) < value ==>
                count == old(count) + Step(value) && intervalActive
    {
      if intervalActive {
        if ticks == 41 {
          StopsWithin41(value);
          assert false;
        }
        if count >= value {
          count := value;
          intervalActive := false;
        } else {
          count := count + Step(value);
        }
        ticks := ticks + 1;
      }
    }

    /** Runs the interval until the updater clears it. */
    method Animate()
      requires Valid() && isVisible
      modifies this
      ensures Valid() && isVisible
      ensures count == value && !intervalActive && ticks <= 41
    {
      while intervalActive
        invariant Valid() && isVisible
        decreases 41 - ticks
      {
        Tick();
      }
      StoppedShowsValue(value, ticks);
    }
  }

  /** A counter that comes into view and animates ends on its target and stays there. */
  method CounterScenario(value: int)
  {
    var c := new ProfessionalCounter(value);
    c.Tick();
    assert c.count == 0;
    c.EnterViewport();
    c.Animate();
    assert c.count == value;
    c.Tick();
    c.EnterViewport();
    assert c.count == value && !c.intervalActive;
  }
}
