/** The completed scheduler: FIFO, round-robin, static priority and
    multi-level feedback over intrusive linked ready lists, the per-CPU
    table `current`, and the five event handlers the simulator calls. */
module SolutionSched {
  import opened Common
  import opened Links
  import opened ReadyQueue
  import opened Feedback
  import opened Preemption
  import opened Placement

  /** All five ready lists are spelled out by the shared `next` fields. */
  ghost predicate AllLinked(nx: seq<int>, h: int, t: int, heads: seq<int>, tails: seq<int>, qs: Queues)
  {
    && |heads| == LEVELS && |tails| == LEVELS
    && Linked(nx, h, t, qs.single)
    && forall k :: 0 <= k < LEVELS ==> Linked(nx, heads[k], tails[k], qs.levels[k])
  }

  /** The ready structure: the lists are well linked and laid out as the
      algorithm uses them; `tp` holds the `temp_priority` fields. */
  ghost predicate Lists(alg: Alg, nx: seq<int>, h: int, t: int, heads: seq<int>, tails: seq<int>, tp: seq<int>, qs: Queues)
  {
    && |tp| == |nx|
    && AllLinked(nx, h, t, heads, tails, qs)
    && Layout(alg, qs, tp)
  }

  lemma ListsFacts(alg: Alg, nx: seq<int>, h: int, t: int, heads: seq<int>, tails: seq<int>, tp: seq<int>, qs: Queues)
    requires Lists(alg, nx, h, t, heads, tails, tp, qs)
    ensures InTable(qs, |nx|) && Unique(qs)
    ensures h == NIL <==> qs.single == []
    ensures forall k :: 0 <= k < LEVELS ==> (heads[k] == NIL <==> qs.levels[k] == [])
  {
    assert Linked(nx, h, t, qs.single);
    forall k | 0 <= k < LEVELS ensures Linked(nx, heads[k], tails[k], qs.levels[k]) { }
  }

  /** With every link NULL, all five lists are empty. */
  lemma EmptyLists(alg: Alg, n: nat, tp: seq<int>)
    requires |tp| == n
    ensures Lists(alg, seq(n, _ => NIL), NIL, NIL, seq(LEVELS, _ => NIL), seq(LEVELS, _ => NIL), tp, EMPTY)
  {
    forall k | 0 <= k < LEVELS
      ensures Linked(seq(n, _ => NIL), seq(LEVELS, _ => NIL)[k], seq(LEVELS, _ => NIL)[k], EMPTY.levels[k])
    {
      assert EMPTY.levels[k] == [];
    }
  }

  /** Writing the `next` field of `x` keeps every feedback level except `k`
      intact when `x` is in none of them. */
  lemma LevelsFrame(nx: seq<int>, heads: seq<int>, tails: seq<int>, qs: Queues, k: int, x: int, v: int)
    requires |heads| == LEVELS && |tails| == LEVELS && 0 <= x < |nx|
    requires forall j :: 0 <= j < LEVELS && j != k ==> Linked(nx, heads[j], tails[j], qs.levels[j])
    requires forall j :: 0 <= j < LEVELS && j != k ==> x !in qs.levels[j]
    ensures forall j :: 0 <= j < LEVELS && j != k ==> Linked(nx[x := v], heads[j], tails[j], qs.levels[j])
  {
    forall j | 0 <= j < LEVELS && j != k ensures Linked(nx[x := v], heads[j], tails[j], qs.levels[j]) {
      LinkedFrame(nx, heads[j], tails[j], qs.levels[j], x, v);
    }
  }

  /** One feedback level `j` after `p` is appended to level `k`: level `k`
      gains `p` at its tail, any other level is untouched by the two writes. */
  lemma AppendLevel(nx: seq<int>, heads: seq<int>, tails: seq<int>, levels: Levels, k: int, p: int, j: int)
    requires |heads| == LEVELS && |tails| == LEVELS && 0 <= k < LEVELS && 0 <= j < LEVELS
    requires Linked(nx, heads[k], tails[k], levels[k]) && Linked(nx, heads[j], tails[j], levels[j])
    requires 0 <= p < |nx| && p !in levels[k] && p !in levels[j]
    requires j != k && heads[k] != NIL ==> tails[k] !in levels[j]
    ensures Linked((if heads[k] == NIL then nx else nx[tails[k] := p])[p := NIL],
                   heads[k := if heads[k] == NIL then p else heads[k]][j], tails[k := p][j],
                   levels[k := levels[k] + [p]][j])
  {
    if j == k {
      LinkedAppend(nx, heads[k], tails[k], levels[k], p);
    } else {
      var nx1 := if heads[k] == NIL then nx else nx[tails[k] := p];
      if heads[k] != NIL {
        LinkedFrame(nx, heads[j], tails[j], levels[j], tails[k], p);
      }
      LinkedFrame(nx1, heads[j], tails[j], levels[j], p, NIL);
    }
  }

  /** `addReadyProcess` under multi-level feedback: `p` is appended to the
      list of its dynamic priority `k`. */
  lemma AppendFeedback(nx: seq<int>, h: int, t: int, heads: seq<int>, tails: seq<int>, tp: seq<int>, qs: Queues, p: int)
    requires Lists(MultiLevelFeedback, nx, h, t, heads, tails, tp, qs)
    requires 0 <= p < |nx| && !Queued(qs, p) && 0 <= tp[p] < LEVELS
    ensures var k := tp[p];
      Lists(MultiLevelFeedback, (if heads[k] == NIL then nx else nx[tails[k] := p])[p := NIL], h, t,
            heads[k := if heads[k] == NIL then p else heads[k]], tails[k := p], tp,
            Enqueue(MultiLevelFeedback, qs, p, k))
  {
    ListsFacts(MultiLevelFeedback, nx, h, t, heads, tails, tp, qs);
    EnqueueKeepsLayout(MultiLevelFeedback, qs, tp, p);
    var k := tp[p];
    if heads[k] != NIL {
      assert Linked(nx, heads[k], tails[k], qs.levels[k]);
      LevelOfQueued(qs, tp, k, tails[k]);
    }
    var nx2 := (if heads[k] == NIL then nx else nx[tails[k] := p])[p := NIL];
    var heads' := heads[k := if heads[k] == NIL then p else heads[k]];
    var tails' := tails[k := p];
    var levels' := qs.levels[k := qs.levels[k] + [p]];
    forall j | 0 <= j < LEVELS ensures Linked(nx2, heads'[j], tails'[j], levels'[j]) {
      AppendLevel(nx, heads, tails, qs.levels, k, p, j);
    }
    assert Enqueue(MultiLevelFeedback, qs, p, k).levels == levels';
  }

  /** `addReadyProcess` for the other algorithms: `p` is appended to the
      single list. */
  lemma AppendSingle(alg: Alg, nx: seq<int>, h: int, t: int, heads: seq<int>, tails: seq<int>, tp: seq<int>, qs: Queues, p: int)
    requires alg != MultiLevelFeedback
    requires Lists(alg, nx, h, t, heads, tails, tp, qs)
    requires 0 <= p < |nx| && !Queued(qs, p)
    ensures Lists(alg, (if h == NIL then nx else nx[t := p])[p := NIL], if h == NIL then p else h, p,
                  heads, tails, tp, Enqueue(alg, qs, p, 0))
  {
    ListsFacts(alg, nx, h, t, heads, tails, tp, qs);
    EnqueueKeepsLayout(alg, qs, tp, p);
    LinkedAppend(nx, h, t, qs.single, p);
    var nx2 := (if h == NIL then nx else nx[t := p])[p := NIL];
    forall j | 0 <= j < LEVELS ensures Linked(nx2, heads[j], tails[j], qs.levels[j]) {
      assert Linked(nx, heads[j], tails[j], qs.levels[j]);
    }
  }

  /** Taking the head of the single list. */
  lemma PopSingle(alg: Alg, nx: seq<int>, h: int, t: int, heads: seq<int>, tails: seq<int>, tp: seq<int>, qs: Queues)
    requires alg != MultiLevelFeedback
    requires Lists(alg, nx, h, t, heads, tails, tp, qs) && h != NIL
    ensures 0 <= h < |nx| && PopLevel(qs, MAIN).proc == h
    ensures Lists(alg, nx, nx[h], if nx[h] == NIL then NIL else t, heads, tails, tp, PopLevel(qs, MAIN).rest)
  {
    ListsFacts(alg, nx, h, t, heads, tails, tp, qs);
    LinkedPop(nx, h, t, qs.single);
  }

  /** Taking the head of feedback level `k`. */
  lemma PopFeedback(nx: seq<int>, h: int, t: int, heads: seq<int>, tails: seq<int>, tp: seq<int>, qs: Queues, k: int)
    requires Lists(MultiLevelFeedback, nx, h, t, heads, tails, tp, qs)
    requires 0 <= k < LEVELS && heads[k] != NIL
    ensures 0 <= heads[k] < |nx| && PopLevel(qs, k).proc == heads[k]
    ensures Lists(MultiLevelFeedback, nx, h, t, heads[k := nx[heads[k]]],
                  tails[k := if nx[heads[k]] == NIL then NIL else tails[k]], tp, PopLevel(qs, k).rest)
  {
    ListsFacts(MultiLevelFeedback, nx, h, t, heads, tails, tp, qs);
    var q := qs.levels[k];
    assert Linked(nx, heads[k], tails[k], q);
    LinkedPop(nx, heads[k], tails[k], q);
    var qs' := PopLevel(qs, k).rest;
    assert qs'.levels[k] == q[1..];
    forall j | 0 <= j < LEVELS
      ensures Linked(nx, heads[k := nx[heads[k]]][j], tails[k := if nx[heads[k]] == NIL then NIL else tails[k]][j], qs'.levels[j])
    {
      if j != k {
        assert qs'.levels[j] == qs.levels[j];
      }
    }
    forall j, i | 0 <= j < LEVELS && 0 <= i < |qs'.levels[j]|
      ensures 0 <= qs'.levels[j][i] < |tp| && tp[qs'.levels[j][i]] == j
    {
      if j == k {
        assert qs'.levels[j][i] == q[i + 1];
      } else {
        assert qs'.levels[j] == qs.levels[j];
      }
    }
  }

  /** Static priority: unlinking the element at position `i > 0` of the
      single list by pointing its predecessor past it. */
  lemma UnlinkSingle(alg: Alg, nx: seq<int>, h: int, t: int, heads: seq<int>, tails: seq<int>, tp: seq<int>, qs: Queues, i: nat)
    requires alg != MultiLevelFeedback
    requires Lists(alg, nx, h, t, heads, tails, tp, qs) && 0 < i < |qs.single|
    ensures var q := qs.single;
      Lists(alg, nx[q[i - 1] := nx[q[i]]], h, if q[i] == t then q[i - 1] else t, heads, tails, tp,
            qs.(single := RemoveAt(q, i)))
  {
    var q := qs.single;
    LinkedUnlink(nx, h, t, q, i);
    assert RemoveAt(q, i) == q[..i] + q[i + 1..];
    forall j | 0 <= j < LEVELS ensures Linked(nx[q[i - 1] := nx[q[i]]], heads[j], tails[j], qs.levels[j]) {
      assert Linked(nx, heads[j], tails[j], qs.levels[j]);
    }
  }

  /** Changing the dynamic priority of a process that is not queued keeps
      the ready structure. */
  lemma RetagLists(alg: Alg, nx: seq<int>, h: int, t: int, heads: seq<int>, tails: seq<int>, tp: seq<int>, qs: Queues, p: int, v: int)
    requires Lists(alg, nx, h, t, heads, tails, tp, qs) && 0 <= p < |tp| && !Queued(qs, p)
    ensures Lists(alg, nx, h, t, heads, tails, tp[p := v], qs)
  {
    LayoutRetag(alg, qs, tp, p, v);
  }

  /** Under multi-level feedback every admitted process has a dynamic
      priority in 0..3. */
  ghost predicate Aged(alg: Alg, st: seq<ProcState>, tp: seq<int>)
  {
    && |tp| == |st|
    && (alg == MultiLevelFeedback ==> forall p :: 0 <= p < |st| && st[p] != New ==> FLOOR <= tp[p] <= CEILING)
  }

  lemma AgedUpdate(alg: Alg, st: seq<ProcState>, tp: seq<int>, p: int, s: ProcState, t: int)
    requires Aged(alg, st, tp) && 0 <= p < |st|
    requires alg == MultiLevelFeedback && s != New ==> FLOOR <= t <= CEILING
    ensures Aged(alg, st[p := s], tp[p := t])
  {
  }

  class Scheduler {
    const alg: Alg
    /** The quantum passed to `context_switch`: the time slice under
        round-robin and multi-level feedback, -1 (no clock interrupt) otherwise. */
    const timeSlice: int
    /** `static_priority` of each process control block, indexed by pid. */
    const staticPriority: seq<nat>
    /** `state`, `temp_priority` and `next` of each process control block. */
    const state: array<ProcState>
    const tempPriority: array<int>
    const next: array<int>
    /** `current[cpu]`: the process running on each CPU, NIL when idle. */
    const current: array<int>
    /** `multi_level_heads` and `multi_level_tails`. */
    const mlHeads: array<int>
    const mlTails: array<int>
    var head: int
    var tail: int

    /** The lists the links spell out, and the CPU of each running process. */
    ghost var queues: Queues
    ghost var cpuOf: seq<int>

    /** The ready lists are well formed and laid out as the algorithm uses them. */
    ghost predicate Shape()
      reads this, next, mlHeads, mlTails, tempPriority
    {
      && next.Length == |staticPriority|
      && Distinct()
      && Lists(alg, next[..], head, tail, mlHeads[..], mlTails[..], tempPriority[..], queues)
    }

    /** The integer arrays are separate objects. */
    predicate Distinct()
    {
      && next != mlHeads && next != mlTails && mlHeads != mlTails
      && next != current && mlHeads != current && mlTails != current
      && tempPriority != next && tempPriority != mlHeads && tempPriority != mlTails && tempPriority != current
    }

    /** `Valid` from snapshots of the arrays it reads. */
    lemma ValidFrom(nx: seq<int>, heads: seq<int>, tails: seq<int>, tp: seq<int>, st: seq<ProcState>, cur: seq<int>)
      requires next[..] == nx && mlHeads[..] == heads && mlTails[..] == tails && tempPriority[..] == tp
      requires state[..] == st && current[..] == cur
      requires next.Length == |staticPriority| && state.Length == |staticPriority| && Distinct()
      requires Lists(alg, nx, head, tail, heads, tails, tp, queues)
      requires PlacedV(st, cur, cpuOf, queues, NIL) && Aged(alg, st, tp)
      ensures Valid()
    {
    }

    /** Each process is in exactly one place (see `PlacedV`), and admitted
        processes have a dynamic priority in range. */
    ghost predicate Placed(skip: int)
      reads this, state, tempPriority, current
    {
      && state.Length == |staticPriority|
      && PlacedV(state[..], current[..], cpuOf, queues, skip)
      && Aged(alg, state[..], tempPriority[..])
    }

    ghost predicate Valid()
      reads this, state, tempPriority, next, current, mlHeads, mlTails
    {
      Shape() && Placed(NIL)
    }

    lemma ShapeFacts()
      requires Shape()
      ensures InTable(queues, |staticPriority|) && Unique(queues)
      ensures tempPriority.Length == |staticPriority| && mlHeads.Length == LEVELS && mlTails.Length == LEVELS
      ensures head == NIL <==> queues.single == []
      ensures forall k :: 0 <= k < LEVELS ==> (mlHeads[k] == NIL <==> queues.levels[k] == [])
    {
      ListsFacts(alg, next[..], head, tail, mlHeads[..], mlTails[..], tempPriority[..], queues);
      forall k | 0 <= k < LEVELS ensures mlHeads[k] == NIL <==> queues.levels[k] == [] {
        assert mlHeads[..][k] == mlHeads[k];
      }
    }

    /** The results of `main`: the algorithm, the quantum, `cpu_count` idle
        CPUs, and the process table with every process NEW. */
    constructor (alg: Alg, slice: int, cpuCount: nat, prio: seq<nat>, temp: seq<int>)
      requires |temp| == |prio|
      ensures Valid()
      ensures this.alg == alg && staticPriority == prio
      ensures timeSlice == (if alg == RoundRobin || alg == MultiLevelFeedback then slice else -1)
      ensures current[..] == seq(cpuCount, _ => NIL)
      ensures state[..] == seq(|prio|, _ => New)
      ensures tempPriority[..] == temp
      ensures queues == EMPTY
    {
      this.alg := alg;
      timeSlice := if alg == RoundRobin || alg == MultiLevelFeedback then slice else -1;
      staticPriority := prio;
      state := new ProcState[|prio|](_ => New);
      tempPriority := new int[|temp|](i requires 0 <= i < |temp| => temp[i]);
      next := new int[|prio|](_ => NIL);
      current := new int[cpuCount](_ => NIL);
      mlHeads := new int[LEVELS](_ => NIL);
      mlTails := new int[LEVELS](_ => NIL);
      head, tail := NIL, NIL;
      queues := EMPTY;
      cpuOf := seq(|prio|, _ => NIL);
      new;
      assert tempPriority[..] == temp;
      assert next[..] == seq(|prio|, _ => NIL);
      assert mlHeads[..] == seq(LEVELS, _ => NIL) && mlTails[..] == seq(LEVELS, _ => NIL);
      assert state[..] == seq(|prio|, _ => New) && current[..] == seq(cpuCount, _ => NIL);
      EmptyLists(alg, |prio|, temp);
      InitiallyPlaced(|prio|, cpuCount);
    }

    // -------------------------------------------------------------------
    // The ready structure

    /** `addReadyProcess`: append `p` at the tail of the single list, or
        under multi-level feedback of the list of its `temp_priority`, and
        clear `p.next`. */
    method AddReadyProcess(p: int)
      requires Shape() && 0 <= p < |staticPriority| && !Queued(queues, p)
      requires alg == MultiLevelFeedback ==> 0 <= tempPriority[p] < LEVELS
      modifies this`head, this`tail, this`queues, next, mlHeads, mlTails
      ensures Shape()
      ensures queues == Enqueue(alg, old(queues), p, if alg == MultiLevelFeedback then tempPriority[p] else 0)
    {
      ShapeFacts();
      ghost var nx, heads, tails := next[..], mlHeads[..], mlTails[..];
      if alg == MultiLevelFeedback {
        var level := tempPriority[p];
        AppendFeedback(nx, head, tail, heads, tails, tempPriority[..], queues, p);
        if mlHeads[level] == NIL {
          mlHeads[level] := p;
          mlTails[level] := p;
        } else {
          next[mlTails[level]] := p;
          mlTails[level] := p;
        }
        next[p] := NIL;
        queues := Enqueue(alg, queues, p, level);
        assert next[..] == (if heads[level] == NIL then nx else nx[tails[level] := p])[p := NIL];
        assert mlHeads[..] == heads[level := if heads[level] == NIL then p else heads[level]];
        assert mlTails[..] == tails[level := p];
      } else {
        AppendSingle(alg, nx, head, tail, heads, tails, tempPriority[..], queues, p);
        if head == NIL {
          head := p;
          tail := p;
        } else {
          next[tail] := p;
          tail := p;
        }
        next[p] := NIL;
        queues := Enqueue(alg, queues, p, 0);
        assert next[..] == (if old(head) == NIL then nx else nx[old(tail) := p])[p := NIL];
      }
    }

    /** The head removal shared by FIFO, round-robin and multi-level
        feedback; `level` is MAIN for `head`/`tail`. */
    method PopFront(level: int) returns (p: int)
      requires Shape()
      requires if alg == MultiLevelFeedback then 0 <= level < LEVELS else level == MAIN
      modifies this`head, this`tail, this`queues, mlHeads, mlTails
      ensures Shape()
      ensures Taken(p, queues) == PopLevel(old(queues), level)
    {
      ShapeFacts();
      ghost var heads, tails := mlHeads[..], mlTails[..];
      if level == MAIN {
        if head == NIL {
          return NIL;
        }
        PopSingle(alg, next[..], head, tail, heads, tails, tempPriority[..], queues);
        p := head;
        head := next[p];
        if head == NIL {
          tail := NIL;
        }
        queues := PopLevel(queues, MAIN).rest;
      } else {
        if mlHeads[level] == NIL {
          return NIL;
        }
        PopFeedback(next[..], head, tail, heads, tails, tempPriority[..], queues, level);
        p := mlHeads[level];
        mlHeads[level] := next[p];
        if mlHeads[level] == NIL {
          mlTails[level] := NIL;
        }
        queues := PopLevel(queues, level).rest;
        assert mlHeads[..] == heads[level := next[p]];
        assert mlTails[..] == tails[level := if next[p] == NIL then NIL else tails[level]];
      }
    }

    /** The first loop of the static-priority branch of `getReadyProcess`:
        walk the single list from `head`, keeping the first process whose
        static priority exceeds all seen before it. */
    method ScanHighest() returns (best: int, ghost bi: nat)
      requires Shape() && head != NIL
      ensures InTable(queues, |staticPriority|) && queues.single != []
      ensures best == queues.single[MaxScan(queues.single, staticPriority, |queues.single|)]
      ensures bi == MaxScan(queues.single, staticPriority, |queues.single|) && best == queues.single[bi]
    {
      ShapeFacts();
      ghost var q := queues.single;
      assert Linked(next[..], head, tail, q);
      var curr := head;
      var highest := staticPriority[curr];
      best := curr;
      ghost var k := 0;
      bi := 0;
      while curr != NIL
        invariant 0 <= k <= |q|
        invariant curr == if k < |q| then q[k] else NIL
        invariant bi == MaxScan(q, staticPriority, if k == 0 then 1 else k)
        invariant best == q[bi] && highest == staticPriority[best]
        decreases |q| - k
      {
        if staticPriority[curr] > highest {
          highest := staticPriority[curr];
          best := curr;
          bi := k;
        }
        curr := next[curr];
        k := k + 1;
      }
    }

    /** The second loop of the static-priority branch: walk from the second
        element with a trailing `prev` until `best` is met, point `prev` past
        it, and move `tail` back to `prev` if `best` was the tail. */
    method UnlinkAfterHead(best: int, ghost bi: nat)
      requires Shape() && alg == StaticPriority
      requires 0 < bi < |queues.single| && queues.single[bi] == best
      modifies this`tail, this`queues, next
      ensures Shape()
      ensures queues == old(queues).(single := RemoveAt(old(queues).single, bi))
    {
      ShapeFacts();
      ghost var q := queues.single;
      ghost var nx, heads, tails := next[..], mlHeads[..], mlTails[..];
      assert Linked(nx, head, tail, q);
      var prev := head;
      var curr := next[head];
      ghost var j := 1;
      while curr != NIL && prev != NIL
        invariant 1 <= j <= bi
        invariant prev == q[j - 1] && curr == q[j]
        invariant next[..] == nx && tail == old(tail) && queues == old(queues)
        decreases |q| - j
      {
        if curr == best {
          UnlinkSingle(alg, nx, head, tail, heads, tails, tempPriority[..], queues, j);
          next[prev] := next[curr];
          if curr == tail {
            tail := prev;
          }
          assert next[..] == nx[q[j - 1] := nx[q[j]]];
          assert j == bi by {
            assert q[j] == q[bi];
          }
          queues := queues.(single := RemoveAt(q, bi));
          return;
        }
        prev := curr;
        curr := next[curr];
        j := j + 1;
      }
    }

    /** Moving `head` past the first element removes position 0; `tail`
        is stale exactly when the list becomes empty. */
    lemma HeadUnlinked(bi: nat)
      requires Shape() && alg == StaticPriority && bi == 0 && queues.single != [] && head != NIL
      ensures 0 <= head < next.Length && head == queues.single[0]
      ensures var h := next[head];
        Lists(alg, next[..], h, if h == NIL then NIL else tail, mlHeads[..], mlTails[..], tempPriority[..],
              queues.(single := RemoveAt(queues.single, bi)))
    {
      PopSingle(alg, next[..], head, tail, mlHeads[..], mlTails[..], tempPriority[..], queues);
      assert RemoveAt(queues.single, 0) == queues.single[1..];
    }

    /** The static-priority branch of `getReadyProcess`: scan the whole list
        for the first process of highest static priority, then unlink it from
        the head, the middle or the tail, patching `tail`. */
    method TakeHighestPriority() returns (p: int)
      requires Shape() && alg == StaticPriority
      modifies this`head, this`tail, this`queues, next
      ensures Shape()
      ensures InTable(old(queues), |staticPriority|)
      ensures Taken(p, queues) == Dequeue(alg, old(queues), staticPriority)
    {
      ShapeFacts();
      if head == NIL {
        return NIL;
      }
      var best;
      ghost var bi;
      best, bi := ScanHighest();
      ghost var rest := queues.(single := RemoveAt(queues.single, bi));
      assert Dequeue(alg, queues, staticPriority) == Taken(best, rest);
      if head == best {
        HeadUnlinked(bi);
        head := next[best];
        queues := rest;
      } else {
        UnlinkAfterHead(best, bi);
      }
      if head == NIL {
        tail := NIL;
      }
      p := best;
    }

    /** The level loop of `getReadyProcess` under multi-level feedback:
        from level 3 down, the first non-empty level, or level 0 when all
        four are empty. Taking the head of that level is `Dequeue`. */
    method HighestLevel() returns (level: int)
      requires Shape()
      ensures 0 <= level < LEVELS && InTable(queues, |staticPriority|)
      ensures level == (if TopFrom(queues.levels, TOP_LEVEL) == NIL then 0 else TopFrom(queues.levels, TOP_LEVEL))
      ensures Dequeue(MultiLevelFeedback, queues, staticPriority) == PopLevel(queues, level)
    {
      ShapeFacts();
      level := 0;
      for i := LEVELS downto 0
        invariant i < LEVELS ==> level == i
        invariant forall j :: i <= j < LEVELS ==> mlHeads[j] == NIL
      {
        level := i;
        if mlHeads[i] != NIL {
          break;
        }
      }
      if TopFrom(queues.levels, TOP_LEVEL) == NIL {
        assert queues.levels[0 := queues.levels[0]] == queues.levels;
      }
    }

    /** `getReadyProcess`: remove and return the process the algorithm
        selects, NIL when no process is ready. */
    method GetReadyProcess() returns (p: int)
      requires Shape()
      modifies this`head, this`tail, this`queues, next, mlHeads, mlTails
      ensures Shape()
      ensures InTable(old(queues), |staticPriority|)
      ensures Taken(p, queues) == Dequeue(alg, old(queues), staticPriority)
    {
      ShapeFacts();
      if alg == StaticPriority {
        p := TakeHighestPriority();
      } else {
        var level := MAIN;
        if alg == MultiLevelFeedback {
          level := HighestLevel();
        }
        p := PopFront(level);
      }
    }

    /** The loop of `should_idle` over the four feedback levels, from level
        3 down, stopping at the first non-empty one. */
    method LevelsEmpty() returns (empty: bool)
      requires mlHeads.Length == LEVELS
      ensures empty <==> forall j :: 0 <= j < LEVELS ==> mlHeads[j] == NIL
    {
      empty := true;
      for i := LEVELS downto 0
        invariant empty
        invariant forall j :: i <= j < LEVELS ==> mlHeads[j] == NIL
      {
        if mlHeads[i] != NIL {
          empty := false;
          break;
        }
      }
    }

    /** `should_idle`: true exactly when no process is ready to run. */
    method ShouldIdle() returns (noProcs: bool)
      requires Valid()
      ensures noProcs == IsEmpty(alg, queues)
      ensures noProcs <==> forall p :: 0 <= p < state.Length ==> state[p] != Ready
    {
      noProcs := head == NIL;
      if alg == MultiLevelFeedback {
        var empty := LevelsEmpty();
        if !empty {
          noProcs := false;
        }
      }
      ReadyFacts();
    }

    /** The ready structure is empty exactly when every list head is NULL,
        and exactly when no process is READY. */
    lemma ReadyFacts()
      requires Valid()
      ensures IsEmpty(alg, queues) <==>
        head == NIL && (alg == MultiLevelFeedback ==> forall j :: 0 <= j < LEVELS ==> mlHeads[j] == NIL)
      ensures IsEmpty(alg, queues) <==> forall p :: 0 <= p < state.Length ==> state[p] != Ready
    {
      ShapeFacts();
      IdleIffNothingReady(alg, queues, staticPriority, tempPriority[..]);
      NothingQueuedIffNoneReady(state[..], current[..], cpuOf, queues, NIL);
      assert forall p :: 0 <= p < state.Length ==> state[..][p] == state[p];
    }

    // -------------------------------------------------------------------
    // The event handlers

    /** `schedule`: dequeue the next process (possibly none), record it in
        `current[cpu]`, mark it RUNNING and dispatch it with the quantum. */
    method Schedule(cpu: nat) returns (d: Dispatch)
      requires Shape() && Placed(cpu) && cpu < current.Length
      modifies this`head, this`tail, this`queues, this`cpuOf, next, mlHeads, mlTails, current, state
      ensures Valid()
      ensures InTable(old(queues), |staticPriority|)
      ensures d.proc == NIL || 0 <= d.proc < |staticPriority|
      ensures Taken(d.proc, queues) == Dequeue(alg, old(queues), staticPriority)
      ensures d == Dispatch(cpu, d.proc, timeSlice)
      ensures current[..] == old(current[..])[cpu := d.proc]
      ensures state[..] == Dispatched(old(state[..]), d.proc)
    {
      DispatchEffect(cpu);
      ghost var st, cur, cpus := state[..], current[..], cpuOf;
      var proc := GetReadyProcess();
      ghost var nx, heads, tails, tp := next[..], mlHeads[..], mlTails[..], tempPriority[..];
      current[cpu] := proc;
      if proc != NIL {
        state[proc] := Running;
        cpuOf := cpuOf[proc := cpu];
      }
      assert state[..] == Dispatched(st, proc);
      assert current[..] == cur[cpu := proc];
      ValidFrom(nx, heads, tails, tp, Dispatched(st, proc), cur[cpu := proc]);
      d := Dispatch(cpu, proc, timeSlice);
    }

    /** What `schedule` leaves if it dispatches what `Dequeue` selects:
        every process is again in exactly one place. */
    lemma DispatchEffect(cpu: nat)
      requires Shape() && Placed(cpu) && cpu < current.Length
      ensures InTable(queues, |staticPriority|)
      ensures var t := Dequeue(alg, queues, staticPriority);
        && (t.proc == NIL || 0 <= t.proc < |staticPriority|)
        && PlacedV(Dispatched(state[..], t.proc), current[..][cpu := t.proc],
                   if t.proc == NIL then cpuOf else cpuOf[t.proc := cpu], t.rest, NIL)
        && Aged(alg, Dispatched(state[..], t.proc), tempPriority[..])
    {
      ShapeFacts();
      DequeueEffect(alg, queues, staticPriority, tempPriority[..]);
      var t := Dequeue(alg, queues, staticPriority);
      DispatchPlaced(state[..], current[..], cpuOf, queues, cpu, t.proc, t.rest);
      if t.proc != NIL {
        AgedUpdate(alg, state[..], tempPriority[..], t.proc, Running, tempPriority[t.proc]);
        assert tempPriority[..][t.proc := tempPriority[t.proc]] == tempPriority[..];
      }
    }

    /** `idle`: one pass of the wait loop. With nothing ready the CPU keeps
        waiting on `ready_empty` (None, nothing changes); otherwise a ready
        process is scheduled on it. */
    method Idle(cpu: nat) returns (d: Option<Dispatch>)
      requires Valid() && cpu < current.Length && current[cpu] == NIL
      modifies this`head, this`tail, this`queues, this`cpuOf, next, mlHeads, mlTails, current, state
      ensures Valid()
      ensures old(IsEmpty(alg, queues)) ==> d == None && queues == old(queues)
      ensures old(IsEmpty(alg, queues)) ==> current[..] == old(current[..]) && state[..] == old(state[..])
      ensures !old(IsEmpty(alg, queues)) ==>
        && d.Some? && d.value.cpu == cpu && d.value.quantum == timeSlice
        && d.value.proc != NIL && 0 <= d.value.proc < |staticPriority|
        && old(InTable(queues, |staticPriority|))
        && Taken(d.value.proc, queues) == Dequeue(alg, old(queues), staticPriority)
        && current[..] == old(current[..])[cpu := d.value.proc]
        && state[..] == old(state[..])[d.value.proc := Running]
    {
      var blocked := ShouldIdle();
      if blocked {
        return None;
      }
      ShapeFacts();
      IdleIffNothingReady(alg, queues, staticPriority, tempPriority[..]);
      SlotExempt(cpu);
      var dispatch := Schedule(cpu);
      d := Some(dispatch);
    }

    /** An idle CPU may be treated as the slot `schedule` overwrites. */
    lemma SlotExempt(cpu: nat)
      requires Placed(NIL) && cpu < current.Length && current[cpu] == NIL
      ensures Placed(cpu)
    {
      forall p | 0 <= p < state.Length && cpuOf[p] != NIL ensures cpuOf[p] != cpu {
        assert cpuOf[p] == cpu <==> current[..][cpu] == p;
      }
    }

    /** `Shape` from snapshots of the arrays it reads. */
    lemma ShapeFrom(nx: seq<int>, heads: seq<int>, tails: seq<int>, tp: seq<int>)
      requires next[..] == nx && mlHeads[..] == heads && mlTails[..] == tails && tempPriority[..] == tp
      requires next.Length == |staticPriority| && Distinct()
      requires Lists(alg, nx, head, tail, heads, tails, tp, queues)
      ensures Shape()
    {
    }

    /** `Placed(skip)` from snapshots of the arrays it reads. */
    lemma PlacedFrom(st: seq<ProcState>, cur: seq<int>, tp: seq<int>, skip: int)
      requires state[..] == st && current[..] == cur && tempPriority[..] == tp
      requires state.Length == |staticPriority|
      requires PlacedV(st, cur, cpuOf, queues, skip) && Aged(alg, st, tp)
      ensures Placed(skip)
    {
    }

    /** The process on a busy CPU is RUNNING, and under multi-level
        feedback its dynamic priority is in range. */
    lemma RunningFacts(cpu: nat)
      requires Valid() && cpu < current.Length && current[cpu] != NIL
      ensures 0 <= current[cpu] < |staticPriority| && state[current[cpu]] == Running
      ensures alg == MultiLevelFeedback ==> FLOOR <= tempPriority[current[cpu]] <= CEILING
      ensures Distinct() && next.Length == |staticPriority| && state.Length == |staticPriority|
    {
      assert current[..][cpu] == current[cpu];
      assert state[..][current[cpu]] == state[current[cpu]];
    }

    /** The process on `cpu` leaves it with state `s` and dynamic priority
        `t`, and is requeued exactly when `s` is READY: the lists hold with
        the new priority, and placement holds with slot `cpu` exempt. */
    lemma ReleaseEffect(cpu: nat, s: ProcState, t: int)
      requires Valid() && cpu < current.Length && current[cpu] != NIL
      requires s != Running && s != New
      requires alg == MultiLevelFeedback ==> FLOOR <= t <= CEILING
      ensures var p := current[cpu];
        && 0 <= p < |staticPriority| && !Queued(queues, p)
        && Lists(alg, next[..], head, tail, mlHeads[..], mlTails[..], tempPriority[..][p := t], queues)
        && Aged(alg, state[..][p := s], tempPriority[..][p := t])
        && PlacedV(state[..][p := s], current[..], cpuOf[p := NIL],
                   if s == Ready then Enqueue(alg, queues, p, if alg == MultiLevelFeedback then t else 0) else queues, cpu)
    {
      ShapeFacts();
      var p := current[cpu];
      assert current[..][cpu] == p;
      var qs' := if s == Ready then Enqueue(alg, queues, p, if alg == MultiLevelFeedback then t else 0) else queues;
      if s == Ready {
        EnqueueEffect(alg, queues, p, if alg == MultiLevelFeedback then t else 0);
      }
      ReleasePlaced(state[..], current[..], cpuOf, queues, cpu, s, qs');
      RetagLists(alg, next[..], head, tail, mlHeads[..], mlTails[..], tempPriority[..], queues, p, t);
      AgedUpdate(alg, state[..], tempPriority[..], p, s, t);
    }

    /** A NEW or WAITING process `p` becomes READY with its new dynamic
        priority and is queued: the lists hold with that priority and every
        process is again in exactly one place. */
    lemma WakeEffect(p: int)
      requires Valid() && 0 <= p < |staticPriority|
      requires state[p] == New || state[p] == Waiting
      ensures var t := if alg == MultiLevelFeedback && state[p] == New then CEILING else tempPriority[p];
        && !Queued(queues, p)
        && (alg == MultiLevelFeedback ==> FLOOR <= t <= CEILING)
        && Lists(alg, next[..], head, tail, mlHeads[..], mlTails[..], tempPriority[..][p := t], queues)
        && Aged(alg, state[..][p := Ready], tempPriority[..][p := t])
        && PlacedV(state[..][p := Ready], current[..], cpuOf,
                   Enqueue(alg, queues, p, if alg == MultiLevelFeedback then t else 0), NIL)
        && SlotsInTable(current[..], |staticPriority|)
    {
      ShapeFacts();
      var t := if alg == MultiLevelFeedback && state[p] == New then CEILING else tempPriority[p];
      assert state[..][p] == state[p] && tempPriority[..][p] == tempPriority[p];
      assert !Queued(queues, p);
      RetagLists(alg, next[..], head, tail, mlHeads[..], mlTails[..], tempPriority[..], queues, p, t);
      AgedUpdate(alg, state[..], tempPriority[..], p, Ready, t);
      EnqueueEffect(alg, queues, p, if alg == MultiLevelFeedback then t else 0);
      WakePlaced(state[..], current[..], cpuOf, queues, p, Enqueue(alg, queues, p, if alg == MultiLevelFeedback then t else 0));
      assert forall c :: 0 <= c < current.Length ==> current[..][c] == current[c];
    }

    /** The part of `preempt` before `schedule`: the running process on
        `cpu` becomes READY, under multi-level feedback loses one level (not
        below 0), and goes back to the tail of its ready list. */
    method Requeue(cpu: nat) returns (p: int)
      requires Valid() && cpu < current.Length && current[cpu] != NIL
      modifies this`head, this`tail, this`queues, this`cpuOf, next, mlHeads, mlTails, state, tempPriority
      ensures Shape() && Placed(cpu)
      ensures p == current[cpu] && 0 <= p < |staticPriority|
      ensures tempPriority[..] == old(tempPriority[..])[p :=
        if alg == MultiLevelFeedback then AgeOnPreempt(old(tempPriority[p])) else old(tempPriority[p])]
      ensures alg == MultiLevelFeedback ==> 0 <= tempPriority[p] < LEVELS
      ensures queues == Enqueue(alg, old(queues), p, if alg == MultiLevelFeedback then tempPriority[p] else 0)
      ensures state[..] == old(state[..])[p := Ready]
    {
      RunningFacts(cpu);
      p := current[cpu];
      ghost var st, tp, cur := state[..], tempPriority[..], current[..];
      ghost var nx, heads, tails := next[..], mlHeads[..], mlTails[..];
      ghost var t := if alg == MultiLevelFeedback then AgeOnPreempt(tp[p]) else tp[p];
      ReleaseEffect(cpu, Ready, t);
      state[p] := Ready;
      if alg == MultiLevelFeedback && tempPriority[p] > FLOOR {
        tempPriority[p] := tempPriority[p] - 1;
        assert tempPriority[..] == tp[p := tp[p] - 1];
      } else {
        assert tp[p := t] == tp;
      }
      assert state[..] == st[p := Ready];
      assert tempPriority[..] == tp[p := t];
      cpuOf := cpuOf[p := NIL];
      ShapeFrom(nx, heads, tails, tp[p := t]);
      AddReadyProcess(p);
      PlacedFrom(st[p := Ready], cur, tp[p := t], cpu);
    }

    /** `preempt`: the running process's quantum expired. It is requeued
        (see `Requeue`) and the CPU is rescheduled. */
    method Preempt(cpu: nat) returns (d: Dispatch)
      requires Valid() && cpu < current.Length && current[cpu] != NIL
      modifies this`head, this`tail, this`queues, this`cpuOf, next, mlHeads, mlTails, current, state, tempPriority
      ensures Valid()
      ensures var p := old(current[cpu]);
        && 0 <= p < |staticPriority|
        && tempPriority[..] == old(tempPriority[..])[p :=
             if alg == MultiLevelFeedback then AgeOnPreempt(old(tempPriority[p])) else old(tempPriority[p])]
        && (alg == MultiLevelFeedback ==> 0 <= tempPriority[p] < LEVELS)
        && InTable(Enqueue(alg, old(queues), p, if alg == MultiLevelFeedback then tempPriority[p] else 0), |staticPriority|)
        && Taken(d.proc, queues) ==
             Dequeue(alg, Enqueue(alg, old(queues), p, if alg == MultiLevelFeedback then tempPriority[p] else 0), staticPriority)
        && (d.proc == NIL || 0 <= d.proc < |staticPriority|)
        && state[..] == Dispatched(old(state[..])[p := Ready], d.proc)
        && current[..] == old(current[..])[cpu := d.proc]
        && d == Dispatch(cpu, d.proc, timeSlice)
    {
      var p := Requeue(cpu);
      ghost var tp := tempPriority[..];
      d := Schedule(cpu);
      assert tempPriority[..] == tp;
    }

    /** The part of `yield` before `schedule`: the running process on `cpu`
        becomes WAITING and under multi-level feedback gains one level (not
        above 3); it is not queued. */
    method Block(cpu: nat) returns (p: int)
      requires Valid() && cpu < current.Length && current[cpu] != NIL
      modifies this`cpuOf, state, tempPriority
      ensures Shape() && Placed(cpu)
      ensures p == current[cpu] && 0 <= p < |staticPriority|
      ensures tempPriority[..] == old(tempPriority[..])[p :=
        if alg == MultiLevelFeedback then AgeOnYield(old(tempPriority[p])) else old(tempPriority[p])]
      ensures state[..] == old(state[..])[p := Waiting]
    {
      RunningFacts(cpu);
      p := current[cpu];
      ghost var st, tp, cur := state[..], tempPriority[..], current[..];
      ghost var nx, heads, tails := next[..], mlHeads[..], mlTails[..];
      ghost var t := if alg == MultiLevelFeedback then AgeOnYield(tp[p]) else tp[p];
      ReleaseEffect(cpu, Waiting, t);
      state[p] := Waiting;
      if alg == MultiLevelFeedback && tempPriority[p] < CEILING {
        tempPriority[p] := tempPriority[p] + 1;
        assert tempPriority[..] == tp[p := tp[p] + 1];
      } else {
        assert tp[p := t] == tp;
      }
      assert state[..] == st[p := Waiting];
      assert tempPriority[..] == tp[p := t];
      cpuOf := cpuOf[p := NIL];
      ShapeFrom(nx, heads, tails, tp[p := t]);
      PlacedFrom(st[p := Waiting], cur, tp[p := t], cpu);
    }

    /** `yield`: the running process starts an I/O request. It is blocked
        (see `Block`) and the CPU is rescheduled. */
    method Yield(cpu: nat) returns (d: Dispatch)
      requires Valid() && cpu < current.Length && current[cpu] != NIL
      modifies this`head, this`tail, this`queues, this`cpuOf, next, mlHeads, mlTails, current, state, tempPriority
      ensures Valid()
      ensures var p := old(current[cpu]);
        && 0 <= p < |staticPriority|
        && tempPriority[..] == old(tempPriority[..])[p :=
             if alg == MultiLevelFeedback then AgeOnYield(old(tempPriority[p])) else old(tempPriority[p])]
        && InTable(old(queues), |staticPriority|)
        && Taken(d.proc, queues) == Dequeue(alg, old(queues), staticPriority)
        && (d.proc == NIL || 0 <= d.proc < |staticPriority|)
        && state[..] == Dispatched(old(state[..])[p := Waiting], d.proc)
        && current[..] == old(current[..])[cpu := d.proc]
        && d == Dispatch(cpu, d.proc, timeSlice)
    {
      var p := Block(cpu);
      ghost var tp := tempPriority[..];
      d := Schedule(cpu);
      assert tempPriority[..] == tp;
    }

    /** `terminate`: the running process finished. It becomes TERMINATED,
        is not queued, and the CPU is rescheduled. */
    method Terminate(cpu: nat) returns (d: Dispatch)
      requires Valid() && cpu < current.Length && current[cpu] != NIL
      modifies this`head, this`tail, this`queues, this`cpuOf, next, mlHeads, mlTails, current, state
      ensures Valid()
      ensures var p := old(current[cpu]);
        && 0 <= p < |staticPriority|
        && InTable(old(queues), |staticPriority|)
        && Taken(d.proc, queues) == Dequeue(alg, old(queues), staticPriority)
        && (d.proc == NIL || 0 <= d.proc < |staticPriority|)
        && state[..] == Dispatched(old(state[..])[p := Terminated], d.proc)
        && current[..] == old(current[..])[cpu := d.proc]
        && d == Dispatch(cpu, d.proc, timeSlice)
    {
      RunningFacts(cpu);
      var p := current[cpu];
      ghost var st, tp, cur := state[..], tempPriority[..], current[..];
      ghost var nx, heads, tails := next[..], mlHeads[..], mlTails[..];
      ReleaseEffect(cpu, Terminated, tp[p]);
      assert tp[p := tp[p]] == tp;
      state[p] := Terminated;
      assert state[..] == st[p := Terminated];
      cpuOf := cpuOf[p := NIL];
      ShapeFrom(nx, heads, tails, tp);
      PlacedFrom(st[p := Terminated], cur, tp, cpu);
      d := Schedule(cpu);
    }

    /** `wake_up`: a NEW process is admitted or a WAITING one finished its
        I/O. Under multi-level feedback a NEW process starts at level 3; the
        process becomes READY and is enqueued; under static priority the
        CPU to preempt, if any, is returned (the `force_preempt` request). */
    method WakeUp(p: int) returns (victim: Option<nat>)
      requires Valid() && 0 <= p < |staticPriority|
      requires state[p] == New || state[p] == Waiting
      modifies this`head, this`tail, this`queues, next, mlHeads, mlTails, state, tempPriority
      ensures Valid()
      ensures tempPriority[..] ==
        if alg == MultiLevelFeedback && old(state[p]) == New then old(tempPriority[..])[p := CEILING]
        else old(tempPriority[..])
      ensures state[..] == old(state[..])[p := Ready]
      ensures alg == MultiLevelFeedback ==> 0 <= tempPriority[p] < LEVELS
      ensures queues == Enqueue(alg, old(queues), p, if alg == MultiLevelFeedback then tempPriority[p] else 0)
      ensures SlotsInTable(current[..], |staticPriority|)
      ensures victim == if alg == StaticPriority then Victim(current[..], staticPriority, staticPriority[p]) else None
    {
      ghost var st, tp, cur := state[..], tempPriority[..], current[..];
      ghost var nx, heads, tails := next[..], mlHeads[..], mlTails[..];
      ghost var t := if alg == MultiLevelFeedback && state[p] == New then CEILING else tp[p];
      WakeEffect(p);
      if alg == MultiLevelFeedback && state[p] == New {
        tempPriority[p] := CEILING;
      }
      state[p] := Ready;
      assert tempPriority[..] == tp[p := t];
      assert state[..] == st[p := Ready];
      ShapeFrom(nx, heads, tails, tp[p := t]);
      AddReadyProcess(p);
      PlacedFrom(st[p := Ready], cur, tp[p := t], NIL);
      if alg == StaticPriority {
        victim := PreemptionTarget(p);
      } else {
        victim := None;
      }
    }

    /** The static-priority scan of `wake_up` over `current`: no request if
        any CPU is idle, else the first CPU of lowest static priority if it
        is strictly below that of `w`. The "no minimum yet" case is kept
        apart instead of starting from the sentinel priority 11. */
    method PreemptionTarget(w: int) returns (victim: Option<nat>)
      requires 0 <= w < |staticPriority|
      requires SlotsInTable(current[..], |staticPriority|)
      ensures victim == Victim(current[..], staticPriority, staticPriority[w])
    {
      var lowest: nat := 0;
      var lowestIndex := NIL;
      for i := 0 to current.Length
        invariant forall c :: 0 <= c < i ==> current[c] != NIL
        invariant i == 0 ==> lowestIndex == NIL
        invariant i > 0 ==> 0 <= lowestIndex < i
        invariant i > 0 ==> lowestIndex == LowestScan(current[..], staticPriority, i)
        invariant i > 0 ==> lowest == staticPriority[current[lowestIndex]]
      {
        var curr := current[i];
        if curr == NIL {
          assert current[..][i] == NIL;
          return None;
        }
        if lowestIndex == NIL || staticPriority[curr] < lowest {
          lowest := staticPriority[curr];
          lowestIndex := i;
        }
      }
      if lowestIndex != NIL && lowest < staticPriority[w] {
        victim := Some(lowestIndex);
      } else {
        victim := None;
      }
    }
  }
}
