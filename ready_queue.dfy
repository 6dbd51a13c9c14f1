/** The abstract ready structure of the completed scheduler and the selection
    rule of each algorithm: one list for FIFO, round-robin and static
    priority, four lists indexed by dynamic priority for multi-level
    feedback. These functions are the specification that the linked-list
    code of `addReadyProcess` / `getReadyProcess` is proved against. */
module ReadyQueue {
  import opened Common

  /** Number of feedback queues, and the highest dynamic priority. */
  const LEVELS: int := 4
  const TOP_LEVEL: int := 3

  /** Selects the single `head`/`tail` list rather than a feedback level. */
  const MAIN: int := -1

  type Levels = s: seq<seq<int>> | |s| == 4 witness [[], [], [], []]

  /** `single` is the list behind `head`/`tail`; `levels[k]` the list behind
      `multi_level_heads[k]`/`multi_level_tails[k]`. */
  datatype Queues = Queues(single: seq<int>, levels: Levels)

  /** What `getReadyProcess` returns (NIL for NULL) and the lists it leaves. */
  datatype Taken = Taken(proc: int, rest: Queues)

  const EMPTY: Queues := Queues([], [[], [], [], []])

  /** Whether `p` is held by any ready list. */
  predicate Queued(qs: Queues, p: int)
  {
    p in qs.single || p in qs.levels[0] || p in qs.levels[1] || p in qs.levels[2] || p in qs.levels[3]
  }

  /** Every queued pid indexes the priority table. */
  predicate InTable(qs: Queues, n: int)
  {
    && (forall i :: 0 <= i < |qs.single| ==> 0 <= qs.single[i] < n)
    && (forall k, i :: 0 <= k < LEVELS && 0 <= i < |qs.levels[k]| ==> 0 <= qs.levels[k][i] < n)
  }

  /** Scanning the first `k` elements of `q` from the head, keeping the first
      process whose static priority is strictly greater than every one seen
      before it: the position of the earliest maximal element of `q[..k]`. */
  function MaxScan(q: seq<int>, prio: seq<nat>, k: nat): (r: nat)
    requires 1 <= k <= |q|
    requires forall i :: 0 <= i < |q| ==> 0 <= q[i] < |prio|
    ensures r < k
    ensures forall j :: 0 <= j < k ==> prio[q[j]] <= prio[q[r]]
    ensures forall j :: 0 <= j < r ==> prio[q[j]] < prio[q[r]]
    decreases k
  {
    if k == 1 then 0
    else
      var m := MaxScan(q, prio, k - 1);
      if prio[q[k - 1]] > prio[q[m]] then k - 1 else m
  }

  /** `q` without its element at position `i`, the others in their order. */
  function RemoveAt(q: seq<int>, i: nat): (r: seq<int>)
    requires i < |q|
    ensures |r| == |q| - 1
    ensures forall j :: 0 <= j < i ==> r[j] == q[j]
    ensures forall j :: i <= j < |r| ==> r[j] == q[j + 1]
  {
    q[..i] + q[i + 1..]
  }

  /** The highest level at or below `k` whose list is non-empty, or NIL. */
  function TopFrom(levels: Levels, k: int): (r: int)
    requires -1 <= k < LEVELS
    ensures -1 <= r <= k
    ensures r != NIL ==> levels[r] != []
    ensures forall j :: r < j <= k ==> levels[j] == []
    decreases k + 1
  {
    if k < 0 then NIL
    else if levels[k] != [] then k
    else TopFrom(levels, k - 1)
  }

  /** First-in-first-out removal from the head of one list. */
  function Pop(q: seq<int>): (int, seq<int>)
  {
    if q == [] then (NIL, q) else (q[0], q[1..])
  }

  /** Removal from the head of the list `level` (MAIN is `head`/`tail`). */
  function PopLevel(qs: Queues, level: int): Taken
    requires level == MAIN || 0 <= level < LEVELS
  {
    if level == MAIN then
      var (p, rest) := Pop(qs.single);
      Taken(p, qs.(single := rest))
    else
      var (p, rest) := Pop(qs.levels[level]);
      Taken(p, qs.(levels := qs.levels[level := rest]))
  }

  /** `addReadyProcess`: append at the tail of the single list, or under
      multi-level feedback at the tail of the list of the process's dynamic
      priority `level`. */
  function Enqueue(alg: Alg, qs: Queues, p: int, level: int): Queues
    requires alg == MultiLevelFeedback ==> 0 <= level < LEVELS
  {
    if alg == MultiLevelFeedback then qs.(levels := qs.levels[level := qs.levels[level] + [p]])
    else qs.(single := qs.single + [p])
  }

  /** `getReadyProcess`: static priority takes the earliest process of
      maximal static priority; multi-level feedback the head of the highest
      non-empty level; FIFO and round-robin the head of the single list. */
  function Dequeue(alg: Alg, qs: Queues, prio: seq<nat>): Taken
    requires InTable(qs, |prio|)
  {
    match alg
    case StaticPriority =>
      if qs.single == [] then Taken(NIL, qs)
      else
        var i := MaxScan(qs.single, prio, |qs.single|);
        Taken(qs.single[i], qs.(single := RemoveAt(qs.single, i)))
    case MultiLevelFeedback =>
      var k := TopFrom(qs.levels, TOP_LEVEL);
      if k == NIL then Taken(NIL, qs) else PopLevel(qs, k)
    case _ => PopLevel(qs, MAIN)
  }

  /** `should_idle`: the single list is empty and, under multi-level
      feedback, so are all four levels. */
  predicate IsEmpty(alg: Alg, qs: Queues)
  {
    qs.single == [] && (alg == MultiLevelFeedback ==> forall k :: 0 <= k < LEVELS ==> qs.levels[k] == [])
  }

  /** How the lists are used by each algorithm: multi-level feedback leaves
      the single list empty and keeps each process in the level of its
      dynamic priority `temp`; the others leave the four levels empty. */
  ghost predicate Layout(alg: Alg, qs: Queues, temp: seq<int>)
  {
    if alg == MultiLevelFeedback then
      && qs.single == []
      && forall k, i :: 0 <= k < LEVELS && 0 <= i < |qs.levels[k]| ==>
           0 <= qs.levels[k][i] < |temp| && temp[qs.levels[k][i]] == k
    else
      forall k :: 0 <= k < LEVELS ==> qs.levels[k] == []
  }

  /** No list holds a pid twice. */
  ghost predicate Unique(qs: Queues)
  {
    && (forall i, j :: 0 <= i < j < |qs.single| ==> qs.single[i] != qs.single[j])
    && (forall k, i, j :: 0 <= k < LEVELS && 0 <= i < j < |qs.levels[k]| ==> qs.levels[k][i] != qs.levels[k][j])
  }

  /** Replacing the dynamic priority of a process that is not queued keeps the layout. */
  lemma LayoutRetag(alg: Alg, qs: Queues, temp: seq<int>, p: int, v: int)
    requires Layout(alg, qs, temp) && 0 <= p < |temp| && !Queued(qs, p)
    ensures Layout(alg, qs, temp[p := v])
  {
    if alg == MultiLevelFeedback {
      forall k, i | 0 <= k < LEVELS && 0 <= i < |qs.levels[k]|
        ensures temp[p := v][qs.levels[k][i]] == k
      {
        assert qs.levels[k][i] in qs.levels[k];
      }
    }
  }

  // ---------------------------------------------------------------------
  // Properties of the selection rules

  /** Enqueue adds exactly `p` to the set of queued processes; under
      multi-level feedback only the list `level` changes (the other three
      and the single list are untouched), otherwise only the single list. */
  lemma EnqueueEffect(alg: Alg, qs: Queues, p: int, level: int)
    requires alg == MultiLevelFeedback ==> 0 <= level < LEVELS
    ensures forall x :: Queued(Enqueue(alg, qs, p, level), x) <==> Queued(qs, x) || x == p
    ensures alg == MultiLevelFeedback ==>
      && Enqueue(alg, qs, p, level).single == qs.single
      && Enqueue(alg, qs, p, level).levels[level] == qs.levels[level] + [p]
      && forall k :: 0 <= k < LEVELS && k != level ==> Enqueue(alg, qs, p, level).levels[k] == qs.levels[k]
    ensures alg != MultiLevelFeedback ==>
      Enqueue(alg, qs, p, level) == qs.(single := qs.single + [p])
  {
  }

  /** Under the layout invariant an enqueued process stays laid out by its
      dynamic priority, and a process that was absent is queued once. */
  lemma EnqueueKeepsLayout(alg: Alg, qs: Queues, temp: seq<int>, p: int)
    requires Layout(alg, qs, temp) && Unique(qs) && 0 <= p < |temp| && !Queued(qs, p)
    requires alg == MultiLevelFeedback ==> 0 <= temp[p] < LEVELS
    ensures Layout(alg, Enqueue(alg, qs, p, if alg == MultiLevelFeedback then temp[p] else 0), temp)
    ensures Unique(Enqueue(alg, qs, p, if alg == MultiLevelFeedback then temp[p] else 0))
  {
    var level := if alg == MultiLevelFeedback then temp[p] else 0;
    var qs' := Enqueue(alg, qs, p, level);
    if alg == MultiLevelFeedback {
      forall k, i | 0 <= k < LEVELS && 0 <= i < |qs'.levels[k]|
        ensures 0 <= qs'.levels[k][i] < |temp| && temp[qs'.levels[k][i]] == k
      {
        if k == level && i == |qs.levels[k]| {
          assert qs'.levels[k][i] == p;
        } else {
          assert qs'.levels[k][i] == qs.levels[k][i];
        }
      }
    }
  }

  /** Removing position `i` from a list without duplicates removes exactly
      the element there and keeps the list free of duplicates. */
  lemma RemoveAtMembers(q: seq<int>, i: nat)
    requires i < |q| && forall a, b :: 0 <= a < b < |q| ==> q[a] != q[b]
    ensures forall x :: x in RemoveAt(q, i) <==> x in q && x != q[i]
    ensures forall a, b :: 0 <= a < b < |RemoveAt(q, i)| ==> RemoveAt(q, i)[a] != RemoveAt(q, i)[b]
  {
    var r := RemoveAt(q, i);
    forall x | x in r ensures x in q && x != q[i] {
      var j :| 0 <= j < |r| && r[j] == x;
      if j < i { assert x == q[j]; } else { assert x == q[j + 1]; }
    }
    forall x | x in q && x != q[i] ensures x in r {
      var j :| 0 <= j < |q| && q[j] == x;
      if j < i { assert r[j] == x; } else { assert r[j - 1] == x; }
    }
    forall a, b | 0 <= a < b < |r| ensures r[a] != r[b] {
      var a0 := if a < i then a else a + 1;
      var b0 := if b < i then b else b + 1;
      assert r[a] == q[a0] && r[b] == q[b0];
    }
  }

  /** Under multi-level feedback a process is queued in one level only. */
  lemma LevelOfQueued(qs: Queues, temp: seq<int>, k: int, x: int)
    requires Layout(MultiLevelFeedback, qs, temp) && 0 <= k < LEVELS && x in qs.levels[k]
    ensures 0 <= x < |temp| && temp[x] == k
    ensures forall j :: 0 <= j < LEVELS && j != k ==> x !in qs.levels[j]
  {
    var i :| 0 <= i < |qs.levels[k]| && qs.levels[k][i] == x;
  }

  /** Dequeue either reports that nothing is ready and changes nothing, or
      removes exactly the returned process, which was queued. */
  lemma DequeueEffect(alg: Alg, qs: Queues, prio: seq<nat>, temp: seq<int>)
    requires InTable(qs, |prio|) && Layout(alg, qs, temp) && Unique(qs)
    ensures var t := Dequeue(alg, qs, prio);
      && (t.proc == NIL ==> t.rest == qs)
      && (t.proc != NIL ==> Queued(qs, t.proc) && !Queued(t.rest, t.proc) && 0 <= t.proc < |prio|)
      && (forall x :: x != t.proc ==> (Queued(t.rest, x) <==> Queued(qs, x)))
      && InTable(t.rest, |prio|) && Layout(alg, t.rest, temp) && Unique(t.rest)
  {
    if alg == MultiLevelFeedback {
      DequeueEffectFeedback(qs, prio, temp);
    } else {
      DequeueEffectSingle(alg, qs, prio, temp);
    }
  }

  /** Removing position `i` of the single list while the four levels are
      empty: exactly the element there stops being queued. */
  lemma SingleRemoval(qs: Queues, i: nat)
    requires i < |qs.single| && Unique(qs)
    requires forall k :: 0 <= k < LEVELS ==> qs.levels[k] == []
    ensures var rest := qs.(single := RemoveAt(qs.single, i));
      && Queued(qs, qs.single[i]) && !Queued(rest, qs.single[i])
      && (forall x :: x != qs.single[i] ==> (Queued(rest, x) <==> Queued(qs, x)))
  {
    RemoveAtMembers(qs.single, i);
    assert qs.single[i] in qs.single;
  }

  /** ... and the lists stay in the table, free of duplicates and laid out. */
  lemma SingleRemovalShape(alg: Alg, qs: Queues, n: int, temp: seq<int>, i: nat)
    requires alg != MultiLevelFeedback
    requires i < |qs.single| && InTable(qs, n) && Unique(qs) && Layout(alg, qs, temp)
    ensures var rest := qs.(single := RemoveAt(qs.single, i));
      InTable(rest, n) && Unique(rest) && Layout(alg, rest, temp)
  {
    RemoveAtMembers(qs.single, i);
  }

  /** Removing the head of feedback level `k`: exactly that process stops
      being queued. */
  lemma LevelRemoval(qs: Queues, temp: seq<int>, k: int)
    requires 0 <= k < LEVELS && qs.levels[k] != [] && Unique(qs) && Layout(MultiLevelFeedback, qs, temp)
    ensures var rest := qs.(levels := qs.levels[k := qs.levels[k][1..]]);
      && Queued(qs, qs.levels[k][0]) && !Queued(rest, qs.levels[k][0])
      && (forall x :: x != qs.levels[k][0] ==> (Queued(rest, x) <==> Queued(qs, x)))
  {
    var q := qs.levels[k];
    assert q[1..] == RemoveAt(q, 0);
    RemoveAtMembers(q, 0);
    LevelOfQueued(qs, temp, k, q[0]);
    var rest := qs.(levels := qs.levels[k := q[1..]]);
    assert forall j :: 0 <= j < LEVELS && j != k ==> rest.levels[j] == qs.levels[j];
    assert q[0] in q;
  }

  /** ... and the lists stay in the table, free of duplicates and laid out. */
  lemma LevelRemovalShape(qs: Queues, n: int, temp: seq<int>, k: int)
    requires 0 <= k < LEVELS && qs.levels[k] != []
    requires InTable(qs, n) && Unique(qs) && Layout(MultiLevelFeedback, qs, temp)
    ensures var rest := qs.(levels := qs.levels[k := qs.levels[k][1..]]);
      InTable(rest, n) && Unique(rest) && Layout(MultiLevelFeedback, rest, temp)
  {
    var q := qs.levels[k];
    var rest := qs.(levels := qs.levels[k := q[1..]]);
    forall j, i | 0 <= j < LEVELS && 0 <= i < |rest.levels[j]|
      ensures rest.levels[j][i] == if j == k then q[i + 1] else qs.levels[j][i]
    {
    }
  }

  lemma DequeueEffectFeedback(qs: Queues, prio: seq<nat>, temp: seq<int>)
    requires InTable(qs, |prio|) && Layout(MultiLevelFeedback, qs, temp) && Unique(qs)
    ensures var t := Dequeue(MultiLevelFeedback, qs, prio);
      && (t.proc == NIL ==> t.rest == qs)
      && (t.proc != NIL ==> Queued(qs, t.proc) && !Queued(t.rest, t.proc))
      && (forall x :: x != t.proc ==> (Queued(t.rest, x) <==> Queued(qs, x)))
      && InTable(t.rest, |prio|) && Layout(MultiLevelFeedback, t.rest, temp) && Unique(t.rest)
  {
    var k := TopFrom(qs.levels, TOP_LEVEL);
    if k != NIL {
      LevelRemoval(qs, temp, k);
      LevelRemovalShape(qs, |prio|, temp, k);
      assert Dequeue(MultiLevelFeedback, qs, prio) ==
        Taken(qs.levels[k][0], qs.(levels := qs.levels[k := qs.levels[k][1..]]));
    }
  }

  lemma DequeueEffectSingle(alg: Alg, qs: Queues, prio: seq<nat>, temp: seq<int>)
    requires alg != MultiLevelFeedback
    requires InTable(qs, |prio|) && Layout(alg, qs, temp) && Unique(qs)
    ensures var t := Dequeue(alg, qs, prio);
      && (t.proc == NIL ==> t.rest == qs)
      && (t.proc != NIL ==> Queued(qs, t.proc) && !Queued(t.rest, t.proc))
      && (forall x :: x != t.proc ==> (Queued(t.rest, x) <==> Queued(qs, x)))
      && InTable(t.rest, |prio|) && Layout(alg, t.rest, temp) && Unique(t.rest)
  {
    if qs.single != [] {
      var q := qs.single;
      var i := if alg == StaticPriority then MaxScan(q, prio, |q|) else 0;
      assert q[1..] == RemoveAt(q, 0);
      SingleRemoval(qs, i);
      SingleRemovalShape(alg, qs, |prio|, temp, i);
      assert Dequeue(alg, qs, prio) == Taken(q[i], qs.(single := RemoveAt(q, i)));
    }
  }

  /** Static priority: the chosen process has maximal static priority among
      the ready ones, every process ahead of it has strictly lower priority
      (the first one found wins a tie), and the others keep their order. */
  lemma StaticPicksFirstMaximum(qs: Queues, prio: seq<nat>)
    requires InTable(qs, |prio|) && qs.single != []
    ensures var t := Dequeue(StaticPriority, qs, prio);
      exists i :: 0 <= i < |qs.single|
        && t.proc == qs.single[i]
        && (forall j :: 0 <= j < |qs.single| ==> prio[qs.single[j]] <= prio[t.proc])
        && (forall j :: 0 <= j < i ==> prio[qs.single[j]] < prio[t.proc])
        && t.rest == qs.(single := qs.single[..i] + qs.single[i + 1..])
  {
    var i := MaxScan(qs.single, prio, |qs.single|);
    assert qs.single[i] == Dequeue(StaticPriority, qs, prio).proc;
  }

  /** The tie rule determines the choice: any position holding a maximal
      priority with only strictly lower priorities ahead of it is the one
      the scan selects. */
  lemma {:induction false} FirstMaximumUnique(q: seq<int>, prio: seq<nat>, i: nat)
    requires q != [] && forall j :: 0 <= j < |q| ==> 0 <= q[j] < |prio|
    requires i < |q|
    requires forall j :: 0 <= j < |q| ==> prio[q[j]] <= prio[q[i]]
    requires forall j :: 0 <= j < i ==> prio[q[j]] < prio[q[i]]
    ensures MaxScan(q, prio, |q|) == i
  {
  }

  /** Multi-level feedback: the chosen process is the head of the highest
      non-empty level, every higher level is empty, and only that level
      changes; when all four are empty nothing is returned. */
  lemma FeedbackPicksHighestLevel(qs: Queues, prio: seq<nat>)
    requires InTable(qs, |prio|)
    ensures var t := Dequeue(MultiLevelFeedback, qs, prio);
      && (t.proc == NIL <==> forall k :: 0 <= k < LEVELS ==> qs.levels[k] == [])
      && (t.proc != NIL ==>
            exists k :: 0 <= k < LEVELS
              && qs.levels[k] != [] && t.proc == qs.levels[k][0]
              && (forall j :: k < j < LEVELS ==> qs.levels[j] == [])
              && t.rest == qs.(levels := qs.levels[k := qs.levels[k][1..]]))
  {
    var k := TopFrom(qs.levels, TOP_LEVEL);
    if k != NIL {
      assert qs.levels[k][0] >= 0;
    }
  }

  /** `should_idle` and `getReadyProcess` agree: the ready structure is
      empty exactly when there is nothing to dequeue. */
  lemma IdleIffNothingReady(alg: Alg, qs: Queues, prio: seq<nat>, temp: seq<int>)
    requires InTable(qs, |prio|) && Layout(alg, qs, temp)
    ensures IsEmpty(alg, qs) <==> Dequeue(alg, qs, prio).proc == NIL
    ensures IsEmpty(alg, qs) <==> forall x :: !Queued(qs, x)
  {
    if !IsEmpty(alg, qs) {
      if alg == MultiLevelFeedback {
        var k :| 0 <= k < LEVELS && qs.levels[k] != [];
        assert Queued(qs, qs.levels[k][0]);
        var top := TopFrom(qs.levels, TOP_LEVEL);
        assert qs.levels[top][0] >= 0;
      } else {
        assert Queued(qs, qs.single[0]);
        assert qs.single[0] >= 0;
      }
    } else {
      forall x ensures !Queued(qs, x) {
        if alg != MultiLevelFeedback {
          assert forall k :: 0 <= k < LEVELS ==> qs.levels[k] == [];
        }
      }
    }
  }

  // ---------------------------------------------------------------------
  // First-in-first-out order over any sequence of operations

  datatype Op = Add(p: int) | Get

  /** The processes that an operation sequence adds, in order. */
  function Added(ops: seq<Op>): seq<int>
  {
    if ops == [] then []
    else (if ops[0].Add? then [ops[0].p] else []) + Added(ops[1..])
  }

  /** Replays operations on the ready structure under FIFO: `Add` is
      `Enqueue`, `Get` is the head removal `PopLevel(_, MAIN)` that
      `Dequeue` performs for FIFO and round-robin. Yields the processes
      handed out (a NULL result hands out nothing) and the final lists. */
  function Replay(qs: Queues, ops: seq<Op>): (seq<int>, Queues)
    decreases |ops|
  {
    if ops == [] then ([], qs)
    else if ops[0].Add? then Replay(Enqueue(FIFO, qs, ops[0].p, 0), ops[1..])
    else if qs.single == [] then Replay(qs, ops[1..])
    else
      var t := PopLevel(qs, MAIN);
      var r := Replay(t.rest, ops[1..]);
      ([t.proc] + r.0, r.1)
  }

  /** Dequeue order equals enqueue order: what is handed out, followed by
      what is still queued, is exactly the initial list followed by every
      added process; the feedback levels are never touched. */
  lemma {:induction false} FifoOrder(qs: Queues, ops: seq<Op>)
    ensures Replay(qs, ops).0 + Replay(qs, ops).1.single == qs.single + Added(ops)
    ensures Replay(qs, ops).1.levels == qs.levels
    decreases |ops|
  {
    if ops != [] {
      var rest := ops[1..];
      var q := qs.single;
      if ops[0].Add? {
        var p := ops[0].p;
        var qs' := Enqueue(FIFO, qs, p, 0);
        assert qs'.single == q + [p] && qs'.levels == qs.levels;
        assert Added(ops) == [p] + Added(rest);
        FifoOrder(qs', rest);
        assert Replay(qs, ops) == Replay(qs', rest);
        assert q + [p] + Added(rest) == q + Added(ops);
      } else {
        assert Added(ops) == Added(rest);
        if q == [] {
          FifoOrder(qs, rest);
          assert Replay(qs, ops) == Replay(qs, rest);
        } else {
          var t := PopLevel(qs, MAIN);
          assert t.proc == q[0] && t.rest.single == q[1..] && t.rest.levels == qs.levels;
          FifoOrder(t.rest, rest);
          var r := Replay(t.rest, rest);
          assert Replay(qs, ops) == ([q[0]] + r.0, r.1);
          assert r.0 + r.1.single == q[1..] + Added(rest);
          assert [q[0]] + r.0 + r.1.single == [q[0]] + (r.0 + r.1.single);
          assert q == [q[0]] + q[1..];
        }
      }
    }
  }

  /** FIFO and round-robin use Pop and append on the single list. */
  lemma FifoDequeueIsPop(alg: Alg, qs: Queues, prio: seq<nat>, p: int, level: int)
    requires alg == FIFO || alg == RoundRobin
    requires InTable(qs, |prio|)
    ensures Dequeue(alg, qs, prio) == Taken(Pop(qs.single).0, qs.(single := Pop(qs.single).1))
    ensures Enqueue(alg, qs, p, level).single == qs.single + [p]
  {
  }

  // ---------------------------------------------------------------------
  // Concrete instances of the documented behaviour

  /** Priorities [5, 9, 9, 3] enqueued in that order: the first 9 is chosen. */
  lemma StaticTieExample()
    ensures Dequeue(StaticPriority, Queues([0, 1, 2, 3], [[], [], [], []]), [5, 9, 9, 3]).proc == 1
  {
    assert MaxScan([0, 1, 2, 3], [5, 9, 9, 3], 4) == 1;
  }

  /** Non-empty levels {0, 2}: the process comes from level 2. */
  lemma FeedbackLevelExample()
    ensures Dequeue(MultiLevelFeedback, Queues([], [[4], [], [7], []]), [0, 0, 0, 0, 0, 0, 0, 0]).proc == 7
  {
  }
}
