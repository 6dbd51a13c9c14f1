/** The starter scheduler: one FIFO ready list threaded through the `next`
    fields, the per-CPU table `current`, no clock interrupt and an empty
    `preempt`. */
module StarterSched {
  import opened Common
  import opened Links
  import opened ReadyQueue
  import opened Placement

  /** The single ready list seen as a ready structure whose four feedback
      levels are empty, so that the placement invariant applies. */
  function Line(q: seq<int>): (r: Queues)
    ensures r.single == q && forall k :: 0 <= k < LEVELS ==> r.levels[k] == []
    ensures forall x :: Queued(r, x) <==> x in q
  {
    Queues(q, EMPTY.levels)
  }

  /** Taking the head of a list without duplicates removes exactly the head. */
  lemma HeadRemoved(q: seq<int>, n: int)
    requires Pids(q, n) && q != []
    ensures q[0] !in q[1..]
    ensures forall x :: x != q[0] ==> (x in q[1..] <==> x in q)
  {
    assert q == [q[0]] + q[1..];
  }

  class StarterScheduler {
    /** `state` and `next` of each process control block, indexed by pid. */
    const state: array<ProcState>
    const next: array<int>
    /** `current[cpu]`: the process running on each CPU, NIL when idle. */
    const current: array<int>
    var head: int
    var tail: int

    /** The list the links spell out, and the CPU of each running process. */
    ghost var ready: seq<int>
    ghost var cpuOf: seq<int>

    ghost predicate Shape()
      reads this, next
    {
      && next.Length == state.Length && next != current
      && Linked(next[..], head, tail, ready)
    }

    ghost predicate Placed(skip: int)
      reads this, state, current
    {
      PlacedV(state[..], current[..], cpuOf, Line(ready), skip)
    }

    ghost predicate Valid()
      reads this, state, next, current
    {
      Shape() && Placed(NIL)
    }

    lemma ShapeFacts()
      requires Shape()
      ensures Pids(ready, state.Length)
      ensures head == NIL <==> ready == []
    {
    }

    /** The results of `main`: `cpu_count` idle CPUs and `n` process control
        blocks, all NEW, with an empty ready list. */
    constructor (cpuCount: nat, n: nat)
      ensures Valid()
      ensures state[..] == seq(n, _ => New) && current[..] == seq(cpuCount, _ => NIL)
      ensures ready == []
    {
      state := new ProcState[n](_ => New);
      next := new int[n](_ => NIL);
      current := new int[cpuCount](_ => NIL);
      head, tail := NIL, NIL;
      ready := [];
      cpuOf := seq(n, _ => NIL);
      new;
      assert state[..] == seq(n, _ => New) && current[..] == seq(cpuCount, _ => NIL);
      InitiallyPlaced(n, cpuCount);
      assert Line([]) == EMPTY;
    }

    /** `addReadyProcess`: append `p` at the tail (as head and tail of an
        empty list) and clear `p.next`. */
    method AddReadyProcess(p: int)
      requires Shape() && 0 <= p < state.Length && p !in ready
      modifies this`head, this`tail, this`ready, next
      ensures Shape() && ready == old(ready) + [p]
      ensures tail == p && next[p] == NIL
      ensures head == if old(head) == NIL then p else old(head)
    {
      ShapeFacts();
      ghost var nx := next[..];
      LinkedAppend(nx, head, tail, ready, p);
      if head == NIL {
        head := p;
        tail := p;
      } else {
        next[tail] := p;
        tail := p;
      }
      next[p] := NIL;
      ready := ready + [p];
      assert next[..] == (if old(ready) == [] then nx else nx[old(tail) := p])[p := NIL];
    }

    /** `getReadyProcess`: remove and return the head, NIL when the list is
        empty; `tail` is cleared when the list becomes empty. */
    method GetReadyProcess() returns (p: int)
      requires Shape()
      modifies this`head, this`tail, this`ready
      ensures Shape() && (p, ready) == Pop(old(ready))
      ensures head == NIL ==> tail == NIL
    {
      ShapeFacts();
      if head == NIL {
        return NIL;
      }
      LinkedPop(next[..], head, tail, ready);
      var first := head;
      head := next[first];
      if head == NIL {
        tail := NIL;
      }
      ready := ready[1..];
      return first;
    }

    /** What `schedule` leaves if it dispatches the head of the list: every
        process is again in exactly one place. */
    lemma DispatchEffect(cpu: nat)
      requires Shape() && Placed(cpu) && cpu < current.Length
      ensures var (proc, rest) := Pop(ready);
        && (proc == NIL || 0 <= proc < state.Length)
        && PlacedV(Dispatched(state[..], proc), current[..][cpu := proc],
                   if proc == NIL then cpuOf else cpuOf[proc := cpu], Line(rest), NIL)
    {
      ShapeFacts();
      var (proc, rest) := Pop(ready);
      if ready != [] {
        HeadRemoved(ready, state.Length);
      }
      DispatchPlaced(state[..], current[..], cpuOf, Line(ready), cpu, proc, Line(rest));
    }

    /** `schedule`: dequeue the head (possibly none), record it in
        `current[cpu]`, mark it RUNNING and dispatch it with quantum -1 (no
        clock interrupt). */
    method Schedule(cpu: nat) returns (d: Dispatch)
      requires Shape() && Placed(cpu) && cpu < current.Length
      modifies this`head, this`tail, this`ready, this`cpuOf, current, state
      ensures Valid()
      ensures (d.proc, ready) == Pop(old(ready))
      ensures d == Dispatch(cpu, d.proc, -1)
      ensures d.proc == NIL || 0 <= d.proc < state.Length
      ensures current[..] == old(current[..])[cpu := d.proc]
      ensures state[..] == Dispatched(old(state[..]), d.proc)
    {
      DispatchEffect(cpu);
      ghost var st, cur := state[..], current[..];
      var proc := GetReadyProcess();
      current[cpu] := proc;
      if proc != NIL {
        state[proc] := Running;
        cpuOf := cpuOf[proc := cpu];
      }
      assert state[..] == Dispatched(st, proc);
      assert current[..] == cur[cpu := proc];
      d := Dispatch(cpu, proc, -1);
    }

    /** An idle CPU may be treated as the slot `schedule` overwrites. */
    lemma SlotExempt(cpu: nat)
      requires Placed(NIL) && cpu < current.Length && current[cpu] == NIL
      ensures Placed(cpu)
    {
      forall p | 0 <= p < state.Length && cpuOf[p] != NIL ensures cpuOf[p] != cpu {
        assert cpuOf[p] == cpu <==> current[..][cpu] == p;
      }
    }

    /** `idle`: one pass of the wait loop, which tests `head` directly. With
        an empty list the CPU keeps waiting (None, nothing changes);
        otherwise the head is scheduled on it. */
    method Idle(cpu: nat) returns (d: Option<Dispatch>)
      requires Valid() && cpu < current.Length && current[cpu] == NIL
      modifies this`head, this`tail, this`ready, this`cpuOf, current, state
      ensures Valid()
      ensures old(ready) == [] ==> d == None && ready == []
      ensures old(ready) == [] ==> current[..] == old(current[..]) && state[..] == old(state[..])
      ensures old(ready) != [] ==>
        && d == Some(Dispatch(cpu, old(ready)[0], -1))
        && 0 <= old(ready)[0] < state.Length
        && ready == old(ready)[1..]
        && current[..] == old(current[..])[cpu := old(ready)[0]]
        && state[..] == old(state[..])[old(ready)[0] := Running]
    {
      ShapeFacts();
      if head == NIL {
        return None;
      }
      SlotExempt(cpu);
      var dispatch := Schedule(cpu);
      d := Some(dispatch);
    }

    /** `preempt` is empty in this version; no quantum is ever set, since
        `schedule` passes -1. */
    method Preempt(cpu: nat)
      requires Valid()
      ensures Valid() && unchanged(this, state, next, current)
    {
    }

    /** The process on `cpu`, which is RUNNING, leaves it with state `s`
        (WAITING or TERMINATED) and is not queued; slot `cpu` is exempt
        until `schedule` overwrites it. */
    lemma ReleaseEffect(cpu: nat, s: ProcState)
      requires Valid() && cpu < current.Length && current[cpu] != NIL
      requires s == Waiting || s == Terminated
      ensures 0 <= current[cpu] < state.Length && state[current[cpu]] == Running
      ensures PlacedV(state[..][current[cpu] := s], current[..], cpuOf[current[cpu] := NIL], Line(ready), cpu)
    {
      assert current[..][cpu] == current[cpu];
      ReleasePlaced(state[..], current[..], cpuOf, Line(ready), cpu, s, Line(ready));
    }

    /** `yield`: the running process starts an I/O request. It becomes
        WAITING, is not queued, and the CPU is rescheduled. */
    method Yield(cpu: nat) returns (d: Dispatch)
      requires Valid() && cpu < current.Length && current[cpu] != NIL
      modifies this`head, this`tail, this`ready, this`cpuOf, current, state
      ensures Valid()
      ensures var p := old(current[cpu]);
        && 0 <= p < state.Length
        && (d.proc, ready) == Pop(old(ready))
        && state[..] == Dispatched(old(state[..])[p := Waiting], d.proc)
        && current[..] == old(current[..])[cpu := d.proc]
        && d == Dispatch(cpu, d.proc, -1)
    {
      ReleaseEffect(cpu, Waiting);
      var p := current[cpu];
      ghost var st := state[..];
      state[p] := Waiting;
      cpuOf := cpuOf[p := NIL];
      assert state[..] == st[p := Waiting];
      d := Schedule(cpu);
    }

    /** `terminate`: the running process finished. It becomes TERMINATED,
        is not queued, and the CPU is rescheduled. */
    method Terminate(cpu: nat) returns (d: Dispatch)
      requires Valid() && cpu < current.Length && current[cpu] != NIL
      modifies this`head, this`tail, this`ready, this`cpuOf, current, state
      ensures Valid()
      ensures var p := old(current[cpu]);
        && 0 <= p < state.Length
        && (d.proc, ready) == Pop(old(ready))
        && state[..] == Dispatched(old(state[..])[p := Terminated], d.proc)
        && current[..] == old(current[..])[cpu := d.proc]
        && d == Dispatch(cpu, d.proc, -1)
    {
      ReleaseEffect(cpu, Terminated);
      var p := current[cpu];
      ghost var st := state[..];
      state[p] := Terminated;
      cpuOf := cpuOf[p := NIL];
      assert state[..] == st[p := Terminated];
      d := Schedule(cpu);
    }

    /** A NEW or WAITING process becomes READY and is appended: every
        process is again in exactly one place. */
    lemma WakeEffect(p: int)
      requires Valid() && 0 <= p < state.Length
      requires state[p] == New || state[p] == Waiting
      ensures p !in ready
      ensures PlacedV(state[..][p := Ready], current[..], cpuOf, Line(ready + [p]), NIL)
    {
      assert state[..][p] == state[p];
      WakePlaced(state[..], current[..], cpuOf, Line(ready), p, Line(ready + [p]));
    }

    /** `wake_up`: a NEW process is admitted or a WAITING one finished its
        I/O; it becomes READY and is appended to the ready list. */
    method WakeUp(p: int)
      requires Valid() && 0 <= p < state.Length
      requires state[p] == New || state[p] == Waiting
      modifies this`head, this`tail, this`ready, next, state
      ensures Valid()
      ensures state[..] == old(state[..])[p := Ready]
      ensures ready == old(ready) + [p]
    {
      WakeEffect(p);
      ghost var st := state[..];
      state[p] := Ready;
      assert state[..] == st[p := Ready];
      AddReadyProcess(p);
    }
  }
}
