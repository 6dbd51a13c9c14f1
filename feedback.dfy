/** Dynamic-priority aging of the multi-level feedback scheduler: a quantum
    expiry (`preempt`) lowers `temp_priority` by one down to 0, an I/O
    request (`yield`) raises it by one up to 3, and the first wake-up of a
    NEW process sets it to 3. */
module Feedback {

  const FLOOR: int := 0
  const CEILING: int := 3

  function AgeOnPreempt(t: int): int
  {
    if t > FLOOR then t - 1 else t
  }

  function AgeOnYield(t: int): int
  {
    if t < CEILING then t + 1 else t
  }

  /** The events that move the dynamic priority of one process. */
  datatype Event = Admitted | Preempted | Yielded

  function Step(t: int, e: Event): int
  {
    match e
    case Admitted => CEILING
    case Preempted => AgeOnPreempt(t)
    case Yielded => AgeOnYield(t)
  }

  /** The dynamic priority after a history of events. */
  function Age(t: int, evs: seq<Event>): int
    decreases |evs|
  {
    if evs == [] then t else Age(Step(t, evs[0]), evs[1..])
  }

  /** One step keeps an in-range priority in range, moves it by at most one,
      and moves it in the direction of the event. */
  lemma StepInRange(t: int, e: Event)
    requires FLOOR <= t <= CEILING
    ensures FLOOR <= Step(t, e) <= CEILING
    ensures e == Preempted ==> Step(t, e) == (if t == FLOOR then FLOOR else t - 1)
    ensures e == Yielded ==> Step(t, e) == (if t == CEILING then CEILING else t + 1)
  {
  }

  /** A priority in 0..3 stays in 0..3 whatever happens to the process. */
  lemma {:induction false} AgeStaysInRange(t: int, evs: seq<Event>)
    requires FLOOR <= t <= CEILING
    ensures FLOOR <= Age(t, evs) <= CEILING
    decreases |evs|
  {
    if evs != [] {
      StepInRange(t, evs[0]);
      AgeStaysInRange(Step(t, evs[0]), evs[1..]);
    }
  }

  /** Whatever the initial `temp_priority` in the process table, once the
      process has been admitted it always lies in 0..3. */
  lemma AdmittedStaysInRange(t: int, evs: seq<Event>)
    ensures FLOOR <= Age(t, [Admitted] + evs) <= CEILING
  {
    assert ([Admitted] + evs)[1..] == evs;
    AgeStaysInRange(CEILING, evs);
  }

  /** A history of n preemptions lowers the priority by n, down to 0. */
  lemma {:induction false} PreemptionsLower(t: int, evs: seq<Event>)
    requires FLOOR <= t <= CEILING
    requires forall i :: 0 <= i < |evs| ==> evs[i] == Preempted
    ensures Age(t, evs) == if t - |evs| < FLOOR then FLOOR else t - |evs|
    decreases |evs|
  {
    if evs != [] {
      assert evs[0] == Preempted;
      PreemptionsLower(Step(t, evs[0]), evs[1..]);
    }
  }

  /** A history of n I/O requests raises the priority by n, up to 3. */
  lemma {:induction false} YieldsRaise(t: int, evs: seq<Event>)
    requires FLOOR <= t <= CEILING
    requires forall i :: 0 <= i < |evs| ==> evs[i] == Yielded
    ensures Age(t, evs) == if t + |evs| > CEILING then CEILING else t + |evs|
    decreases |evs|
  {
    if evs != [] {
      assert evs[0] == Yielded;
      YieldsRaise(Step(t, evs[0]), evs[1..]);
    }
  }
}
