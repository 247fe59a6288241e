/**
 * The box-breathing exercise of the self-care screen: a counter of elapsed
 * seconds drives a cycle of three four-second phases (inhale, hold,
 * exhale). The one-second interval is an explicit `Tick`; the effect that
 * re-derives the phase from the counter is `SyncPhase`.
 */
module MomCare {

  datatype BreathState = Idle | Inhale | Hold | Exhale

  /** The phase a running exercise is in after `t` seconds; never `Idle`. */
  function Phase(t: nat): (s: BreathState)
    ensures s != Idle
  {
    var c := t % 12;
    if c < 4 then Inhale else if c < 8 then Hold else Exhale
  }

  /** The number shown inside the circle while the exercise runs. */
  function Countdown(t: nat): (n: int)
    ensures 1 <= n <= 4
  {
    4 - t % 4
  }

  /** The phase that follows `s` in the cycle. */
  function NextPhase(s: BreathState): BreathState
  {
    match s
    case Idle => Idle
    case Inhale => Hold
    case Hold => Exhale
    case Exhale => Inhale
  }

  /** The cycle repeats every twelve seconds. */
  lemma {:induction false} PhasePeriodic(t: nat, k: nat)
    ensures Phase(t + 12 * k) == Phase(t)
    ensures Countdown(t + 12 * k) == Countdown(t)
    decreases k
  {
    if k > 0 {
      var u := t + 12 * (k - 1);
      PhasePeriodic(t, k - 1);
      assert t + 12 * k == u + 12;
      ShiftByTwelve(u);
    }
  }

  lemma ShiftByTwelve(u: nat)
    ensures (u + 12) % 12 == u % 12 && (u + 12) % 4 == u % 4
  {
  }

  /** One more second keeps the phase, except at a multiple of four, where it moves on. */
  lemma PhaseAdvance(t: nat)
    ensures Phase(t + 1) == if (t + 1) % 4 == 0 then NextPhase(Phase(t)) else Phase(t)
  {
  }

  /** The countdown shows 4 exactly when a phase begins, and drops by one each second within it. */
  lemma CountdownAdvance(t: nat)
    ensures Countdown(t) == 4 <==> t % 4 == 0
    ensures Countdown(t + 1) == if (t + 1) % 4 == 0 then 4 else Countdown(t) - 1
  {
  }

  class BoxBreathing {
    var breathingState: BreathState
    var breatheTimer: nat

    /** An idle exercise always shows a zero counter. */
    ghost predicate Valid()
      reads this
    {
      breathingState == Idle ==> breatheTimer == 0
    }

    /** The state the phase-sync effect leaves behind. */
    ghost predicate Synced()
      reads this
    {
      breathingState == Idle || breathingState == Phase(breatheTimer)
    }

    constructor ()
      ensures Valid() && Synced()
      ensures breathingState == Idle && breatheTimer == 0
    {
      breathingState := Idle;
      breatheTimer := 0;
    }

    /** The start/stop button: idle starts at inhale, anything else stops; both reset the counter. */
    method ToggleBreathing()
      modifies this
      ensures breathingState == (if old(breathingState) == Idle then Inhale else Idle)
      ensures breatheTimer == 0
      ensures Valid() && Synced()
    {
      if breathingState == Idle {
        breathingState := Inhale;
        breatheTimer := 0;
      } else {
        breathingState := Idle;
        breatheTimer := 0;
      }
    }

    /** One second of the interval, which exists only while the exercise runs. */
    method Tick()
      requires Valid()
      modifies this`breatheTimer
      ensures Valid()
      ensures breatheTimer == if breathingState != Idle then old(breatheTimer) + 1 else old(breatheTimer)
    {
      if breathingState != Idle {
        breatheTimer := breatheTimer + 1;
      }
    }

    /** The effect that runs after each change: zero the idle counter, or follow the phase. */
    method SyncPhase()
      modifies this
      ensures old(breathingState) == Idle ==> breathingState == Idle && breatheTimer == 0
      ensures old(breathingState) != Idle ==>
        breathingState == Phase(old(breatheTimer)) && breatheTimer == old(breatheTimer)
      ensures Valid() && Synced()
    {
      if breathingState == Idle {
        breatheTimer := 0;
        return;
      }
      var cycleTime := breatheTimer % 12;
      if cycleTime < 4 {
        breathingState := Inhale;
      } else if cycleTime < 8 {
        breathingState := Hold;
      } else {
        breathingState := Exhale;
      }
    }
  }
}
