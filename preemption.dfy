/** The static-priority preemption decision of `wake_up`: given the CPU
    table `slots` (a pid or NIL per CPU), the static priorities `prio` and
    the static priority `w` of the process just woken, which CPU (if any)
    the simulator is asked to preempt through `force_preempt`. */
module Preemption {
  import opened Common

  /** Every slot is idle or holds a pid of the table. */
  predicate SlotsInTable(slots: seq<int>, n: int)
  {
    forall c :: 0 <= c < |slots| ==> slots[c] == NIL || 0 <= slots[c] < n
  }

  /** Scanning CPUs 0..k-1 (none idle), keeping the first CPU whose process
      has strictly lower static priority than every one seen before it:
      the lowest-indexed CPU running a process of minimal static priority. */
  function LowestScan(slots: seq<int>, prio: seq<nat>, k: nat): (r: nat)
    requires 1 <= k <= |slots|
    requires forall c :: 0 <= c < k ==> 0 <= slots[c] < |prio|
    ensures r < k
    ensures forall c :: 0 <= c < k ==> prio[slots[r]] <= prio[slots[c]]
    ensures forall c :: 0 <= c < r ==> prio[slots[c]] > prio[slots[r]]
    decreases k
  {
    if k == 1 then 0
    else
      var m := LowestScan(slots, prio, k - 1);
      if prio[slots[k - 1]] < prio[slots[m]] then k - 1 else m
  }

  /** The intended decision: never preempt while a CPU is idle; otherwise
      preempt the first CPU holding the minimal static priority, and only if
      that priority is strictly lower than the waking process's. */
  function Victim(slots: seq<int>, prio: seq<nat>, w: nat): (v: Option<nat>)
    requires SlotsInTable(slots, |prio|)
    ensures v.Some? <==>
      NIL !in slots && exists c :: 0 <= c < |slots| && prio[slots[c]] < w
    ensures v.Some? ==>
      && v.value < |slots|
      && prio[slots[v.value]] < w
      && (forall c :: 0 <= c < |slots| ==> prio[slots[v.value]] <= prio[slots[c]])
      && (forall c :: 0 <= c < v.value ==> prio[slots[c]] > prio[slots[v.value]])
  {
    if NIL in slots || slots == [] then None
    else
      var m := LowestScan(slots, prio, |slots|);
      if prio[slots[m]] < w then Some(m) else None
  }

  // ---------------------------------------------------------------------
  // The loop as written, with its sentinel `lowest_priority = 11`

  /** Lines 264-289 of the completed scheduler: start from the sentinel
      priority 11 and index -1, stop without a request at the first idle CPU,
      keep the first strictly lower priority, then request preemption of
      the recorded index when its priority is below `w`. The result is the
      argument passed to `force_preempt`, or None when it is not called. */
  function WrittenLoop(slots: seq<int>, prio: seq<nat>, w: nat, i: nat, lowest: nat, index: int): Option<int>
    requires SlotsInTable(slots, |prio|) && i <= |slots|
    decreases |slots| - i
  {
    if i == |slots| then (if lowest < w then Some(index) else None)
    else if slots[i] == NIL then None
    else if prio[slots[i]] < lowest then WrittenLoop(slots, prio, w, i + 1, prio[slots[i]], i)
    else WrittenLoop(slots, prio, w, i + 1, lowest, index)
  }

  const SENTINEL: nat := 11

  function VictimAsWritten(slots: seq<int>, prio: seq<nat>, w: nat): Option<int>
    requires SlotsInTable(slots, |prio|)
  {
    WrittenLoop(slots, prio, w, 0, SENTINEL, NIL)
  }

  function ToInt(v: Option<nat>): Option<int>
  {
    if v.Some? then Some(v.value as int) else None
  }

  /** One CPU running a process of static priority 12 while a process of
      priority 13 wakes up: the code as written calls `force_preempt(-1)`,
      an index that names no CPU; the intended decision preempts CPU 0. */
  lemma SentinelCounterexample()
    ensures VictimAsWritten([0], [12, 13], 13) == Some(-1)
    ensures Victim([0], [12, 13], 13) == Some(0)
  {
    assert LowestScan([0], [12, 13], 1) == 0;
  }

  /** From position `i` on, the loop as written computes the intended
      decision once it holds the scan's minimum of the first `i` CPUs. */
  lemma {:induction false} WrittenLoopAgrees(slots: seq<int>, prio: seq<nat>, w: nat, i: nat)
    requires SlotsInTable(slots, |prio|) && 1 <= i <= |slots|
    requires forall c :: 0 <= c < i ==> slots[c] != NIL
    ensures var m := LowestScan(slots, prio, i);
      WrittenLoop(slots, prio, w, i, prio[slots[m]], m) == ToInt(Victim(slots, prio, w))
    decreases |slots| - i
  {
    var m := LowestScan(slots, prio, i);
    if i == |slots| {
      assert NIL !in slots;
    } else if slots[i] == NIL {
      assert NIL in slots;
    } else {
      var m' := LowestScan(slots, prio, i + 1);
      assert m' == if prio[slots[i]] < prio[slots[m]] then i else m;
      WrittenLoopAgrees(slots, prio, w, i + 1);
    }
  }

  /** The sentinel is harmless while every running process has static
      priority at most 10 (the process tables use 1..8): then the code as
      written makes exactly the intended decision. */
  lemma AsWrittenAgreesBelowSentinel(slots: seq<int>, prio: seq<nat>, w: nat)
    requires SlotsInTable(slots, |prio|) && |slots| >= 1
    requires forall c :: 0 <= c < |slots| && slots[c] != NIL ==> prio[slots[c]] < SENTINEL
    ensures VictimAsWritten(slots, prio, w) == ToInt(Victim(slots, prio, w))
  {
    if slots[0] == NIL {
      assert NIL in slots;
    } else {
      assert LowestScan(slots, prio, 1) == 0;
      WrittenLoopAgrees(slots, prio, w, 1);
    }
  }

  /** CPUs running priorities [7, 9] and no idle CPU: waking a priority-10
      process preempts the CPU running priority 7, and only it. */
  lemma Example7And9()
    ensures Victim([0, 1], [7, 9, 10], 10) == Some(0)
  {
    assert LowestScan([0, 1], [7, 9, 10], 2) == 0;
  }
}
