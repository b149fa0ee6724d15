/** The formation controller's clock: an integer timer advanced by 16 each tick
    (a nominal 60 frames per second), which disperses the current formation once
    6000 has passed and moves on to the next formation at 8000. */
module Controller {
  import opened Catalog

  const TimerStep: int := 16
  const FormationDuration: int := 6000
  const TransitionDuration: int := 2000
  /** The only timer value in the transition window at which the formation disperses. */
  const DisperseAt: int := FormationDuration + TimerStep
  /** Ticks from one rebuild to the next. */
  const CycleTicks: nat := 500

  /** What the tick that starts with the timer at `timer` does besides counting. */
  datatype Event = Hold | Disperse | Advance

  function EventAt(timer: int): (e: Event)
    ensures e == Advance <==> timer + TimerStep >= FormationDuration + TransitionDuration
    ensures e == Disperse <==> timer + TimerStep == DisperseAt
  {
    var t := timer + TimerStep;
    if t >= FormationDuration + TransitionDuration then Advance
    else if t >= FormationDuration then (if t == DisperseAt then Disperse else Hold)
    else Hold
  }

  /** The timer stays a multiple of 16 in [0, 8000) between ticks. */
  predicate TimerInRange(timer: int)
  {
    0 <= timer < FormationDuration + TransitionDuration && timer % TimerStep == 0
  }

  function NextTimer(timer: int): (t: int)
    ensures TimerInRange(timer) ==> TimerInRange(t)
    ensures TimerInRange(timer) ==> (t == 0 <==> EventAt(timer) == Advance)
  {
    var t := timer + TimerStep;
    if t >= FormationDuration + TransitionDuration then 0 else t
  }

  /** The controller's state: the (never wrapped) formation counter and the timer. */
  datatype Clock = Clock(formation: nat, timer: int)

  function TickClock(c: Clock): (d: Clock)
    ensures TimerInRange(c.timer) ==> TimerInRange(d.timer)
    ensures TimerInRange(c.timer) ==> (d.formation == c.formation + 1 <==> d.timer == 0)
    ensures d.formation == c.formation || d.formation == c.formation + 1
  {
    Clock(if EventAt(c.timer) == Advance then c.formation + 1 else c.formation, NextTimer(c.timer))
  }

  /** The clock after `k` ticks from the start, where the first formation has just been built. */
  function Run(k: nat): (c: Clock)
    ensures TimerInRange(c.timer)
    ensures c.formation <= k
  {
    if k == 0 then Clock(0, 0) else TickClock(Run(k - 1))
  }

  /** After `k` ticks the timer is 16 times the ticks into the current cycle and the
      counter is the number of completed 500-tick cycles. */
  lemma {:induction false} RunClosedForm(k: nat)
    ensures Run(k) == Clock(k / CycleTicks, TimerStep * (k % CycleTicks))
  {
    if k > 0 {
      RunClosedForm(k - 1);
      var q, r := (k - 1) / CycleTicks, (k - 1) % CycleTicks;
      assert k - 1 == CycleTicks * q + r && 0 <= r < CycleTicks;
      if r == CycleTicks - 1 {
        assert k == CycleTicks * (q + 1);
      } else {
        assert k == CycleTicks * q + (r + 1) && r + 1 < CycleTicks;
      }
    }
  }

  /** Tick `k + 1` disperses exactly when `k` is 375 ticks into its cycle, and advances
      to the next formation exactly when `k` is the last tick of its cycle. */
  lemma TickEvents(k: nat)
    ensures EventAt(Run(k).timer) == Disperse <==> k % CycleTicks == 375
    ensures EventAt(Run(k).timer) == Advance <==> k % CycleTicks == CycleTicks - 1
  {
    RunClosedForm(k);
  }

  /** The event of tick `j + 1` of cycle `cycle`. */
  function CycleEvent(cycle: nat, j: nat): Event
  {
    EventAt(Run(CycleTicks * cycle + j).timer)
  }

  /** Each cycle holds exactly one dispersal, 375 ticks in, and ends with its only advance. */
  lemma OneDispersalPerCycle(cycle: nat)
    ensures forall j :: 0 <= j < CycleTicks ==> (CycleEvent(cycle, j) == Disperse <==> j == 375)
    ensures forall j :: 0 <= j < CycleTicks ==> (CycleEvent(cycle, j) == Advance <==> j == CycleTicks - 1)
  {
    forall j | 0 <= j < CycleTicks
      ensures CycleEvent(cycle, j) == Disperse <==> j == 375
      ensures CycleEvent(cycle, j) == Advance <==> j == CycleTicks - 1
    {
      TickEvents(CycleTicks * cycle + j);
      assert (CycleTicks * cycle + j) % CycleTicks == j;
    }
  }

  /** The formation shown repeats every four cycles (2000 ticks). */
  lemma FormationRepeats(k: nat)
    ensures Selected(Run(k + 4 * CycleTicks).formation) == Selected(Run(k).formation)
  {
    RunClosedForm(k);
    RunClosedForm(k + 4 * CycleTicks);
    assert (k + 4 * CycleTicks) / CycleTicks == k / CycleTicks + 4;
    SelectionPeriodic(k / CycleTicks, 1);
  }

  /** Cycle `cycle` shows the catalog entry at position `cycle mod 4`. */
  lemma FormationOrder(cycle: nat)
    ensures Selected(Run(CycleTicks * cycle).formation) == FormationNames[cycle % 4]
  {
    var k := CycleTicks * cycle;
    RunClosedForm(k);
    assert k / CycleTicks == cycle;
    assert Run(k).formation == cycle;
  }
}
