/** Where each process is, as seen by the scheduler: in a ready list, on a
    CPU, or in neither. `st` holds the `state` field of every process
    control block, `cur` the table `current` (a pid or NIL per CPU), and
    `cpuOf` the inverse of `cur`: the CPU a process runs on, or NIL. */
module Placement {
  import opened Common
  import opened ReadyQueue

  /** READY processes are exactly the queued ones, RUNNING processes are
      exactly those on a CPU, and `cur`/`cpuOf` are inverse. The slot `skip`
      is about to be overwritten by `schedule` and is exempt; NIL exempts
      nothing. */
  ghost predicate PlacedV(st: seq<ProcState>, cur: seq<int>, cpuOf: seq<int>, qs: Queues, skip: int)
  {
    && |cpuOf| == |st|
    && (forall p :: 0 <= p < |st| ==> (st[p] == Ready <==> Queued(qs, p)))
    && (forall p :: 0 <= p < |st| ==> (st[p] == Running <==> cpuOf[p] != NIL))
    && (forall p :: 0 <= p < |st| && cpuOf[p] != NIL ==> 0 <= cpuOf[p] < |cur| && cpuOf[p] != skip)
    && (forall c :: 0 <= c < |cur| && c != skip && cur[c] != NIL ==> 0 <= cur[c] < |st|)
    && (forall p, c :: 0 <= p < |st| && 0 <= c < |cur| && c != skip ==> (cpuOf[p] == c <==> cur[c] == p))
  }

  /** All processes NEW, every CPU idle, nothing queued. */
  lemma InitiallyPlaced(n: nat, cpus: nat)
    ensures PlacedV(seq(n, _ => New), seq(cpus, _ => NIL), seq(n, _ => NIL), EMPTY, NIL)
  {
  }

  /** `schedule` on CPU `c`: the process taken from the ready lists (or NIL)
      goes on `c` and becomes RUNNING; afterwards no slot is exempt. */
  lemma DispatchPlaced(st: seq<ProcState>, cur: seq<int>, cpuOf: seq<int>, qs: Queues, c: int, proc: int, rest: Queues)
    requires PlacedV(st, cur, cpuOf, qs, c) && 0 <= c < |cur|
    requires proc == NIL ==> rest == qs
    requires proc != NIL ==> 0 <= proc < |st| && Queued(qs, proc) && !Queued(rest, proc)
    requires forall x :: x != proc ==> (Queued(rest, x) <==> Queued(qs, x))
    ensures PlacedV(Dispatched(st, proc), cur[c := proc], if proc == NIL then cpuOf else cpuOf[proc := c], rest, NIL)
  {
    var st' := Dispatched(st, proc);
    var cur' := cur[c := proc];
    var cpu' := if proc == NIL then cpuOf else cpuOf[proc := c];
    if proc != NIL {
      assert st[proc] == Ready && cpuOf[proc] == NIL;
    }
    forall p, c' | 0 <= p < |st| && 0 <= c' < |cur|
      ensures cpu'[p] == c' <==> cur'[c'] == p
    {
      if c' == c {
        if p != proc {
          assert cpu'[p] == cpuOf[p] && cpuOf[p] != c;
        }
      } else if p == proc {
        assert cpuOf[p] == c' <==> cur[c'] == p;
      } else {
        assert cpu'[p] == cpuOf[p] && cur'[c'] == cur[c'];
      }
    }
    forall p | 0 <= p < |st| ensures st'[p] == Ready <==> Queued(rest, p) {
      if p != proc {
        assert st'[p] == st[p];
      }
    }
  }

  /** `preempt`, `yield` and `terminate` on CPU `c`: the process `cur[c]`
      leaves the CPU with state `s`, and is queued exactly when `s` is READY;
      slot `c` stays exempt until `schedule` overwrites it. */
  lemma ReleasePlaced(st: seq<ProcState>, cur: seq<int>, cpuOf: seq<int>, qs: Queues, c: int, s: ProcState, qs': Queues)
    requires PlacedV(st, cur, cpuOf, qs, NIL) && 0 <= c < |cur| && cur[c] != NIL
    requires s != Running
    requires Queued(qs', cur[c]) <==> s == Ready
    requires forall x :: x != cur[c] ==> (Queued(qs', x) <==> Queued(qs, x))
    ensures 0 <= cur[c] < |st| && st[cur[c]] == Running
    ensures PlacedV(st[cur[c] := s], cur, cpuOf[cur[c] := NIL], qs', c)
  {
    var p := cur[c];
    assert cpuOf[p] == c;
    var st' := st[p := s];
    var cpu' := cpuOf[p := NIL];
    forall x | 0 <= x < |st| && cpu'[x] != NIL ensures cpu'[x] != c {
      assert cpuOf[x] == c <==> cur[c] == x;
    }
    forall x, c' | 0 <= x < |st| && 0 <= c' < |cur| && c' != c
      ensures cpu'[x] == c' <==> cur[c'] == x
    {
      assert cpuOf[x] == c' <==> cur[c'] == x;
    }
    forall x | 0 <= x < |st| ensures st'[x] == Ready <==> Queued(qs', x) {
      if x != p {
        assert st'[x] == st[x];
      }
    }
  }

  /** `wake_up` of a NEW or WAITING process `p`: it becomes READY and is
      queued; nothing moves on the CPUs. */
  lemma WakePlaced(st: seq<ProcState>, cur: seq<int>, cpuOf: seq<int>, qs: Queues, p: int, qs': Queues)
    requires PlacedV(st, cur, cpuOf, qs, NIL) && 0 <= p < |st|
    requires st[p] == New || st[p] == Waiting
    requires forall x :: Queued(qs', x) <==> Queued(qs, x) || x == p
    ensures PlacedV(st[p := Ready], cur, cpuOf, qs', NIL)
  {
    forall x | 0 <= x < |st| ensures st[p := Ready][x] == Ready <==> Queued(qs', x) {
      if x != p {
        assert st[p := Ready][x] == st[x];
      }
    }
  }

  /** No list holds a process exactly when no process is READY. */
  lemma NothingQueuedIffNoneReady(st: seq<ProcState>, cur: seq<int>, cpuOf: seq<int>, qs: Queues, skip: int)
    requires PlacedV(st, cur, cpuOf, qs, skip) && InTable(qs, |st|)
    ensures (forall x :: !Queued(qs, x)) <==> forall p :: 0 <= p < |st| ==> st[p] != Ready
  {
    if exists x :: Queued(qs, x) {
      var x :| Queued(qs, x);
      if x in qs.single {
        var i :| 0 <= i < |qs.single| && qs.single[i] == x;
      } else {
        var k :| 0 <= k < LEVELS && x in qs.levels[k];
        var i :| 0 <= i < |qs.levels[k]| && qs.levels[k][i] == x;
      }
      assert st[x] == Ready;
    }
  }

  /** What the placement invariant promises: a process is on at most one
      CPU, and a TERMINATED process is neither queued nor on any CPU. */
  lemma PlacementConsequences(st: seq<ProcState>, cur: seq<int>, cpuOf: seq<int>, qs: Queues)
    requires PlacedV(st, cur, cpuOf, qs, NIL)
    ensures forall c1, c2 :: 0 <= c1 < c2 < |cur| && cur[c1] != NIL ==> cur[c1] != cur[c2]
    ensures forall p :: 0 <= p < |st| && st[p] == Terminated ==>
      !Queued(qs, p) && forall c :: 0 <= c < |cur| ==> cur[c] != p
  {
    forall c1, c2 | 0 <= c1 < c2 < |cur| && cur[c1] != NIL ensures cur[c1] != cur[c2] {
      var p := cur[c1];
      assert cpuOf[p] == c1 <==> cur[c1] == p;
      assert cpuOf[p] == c2 <==> cur[c2] == p;
    }
    forall p, c | 0 <= p < |st| && st[p] == Terminated && 0 <= c < |cur| ensures cur[c] != p {
      assert cpuOf[p] == c <==> cur[c] == p;
    }
  }
}
