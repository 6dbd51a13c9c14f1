/** The intrusive singly-linked ready list: a `head` and a `tail` pid and the
    `next` field of every process control block. `nx` is a snapshot of all
    `next` fields, indexed by pid; `q` is the sequence of pids the list
    holds, from head to tail. */
module Links {
  import opened Common

  /** Every element of `q` is a pid of the table and no pid occurs twice. */
  ghost predicate Pids(q: seq<int>, n: int)
  {
    && (forall i :: 0 <= i < |q| ==> 0 <= q[i] < n)
    && (forall i, j :: 0 <= i < j < |q| ==> q[i] != q[j])
  }

  /** `h`, `t` and the `next` links of the elements of `q` spell out `q`:
      an empty list has no head and no tail, the head is the first element,
      the tail the last one, whose `next` is NULL. */
  ghost predicate Linked(nx: seq<int>, h: int, t: int, q: seq<int>)
  {
    && Pids(q, |nx|)
    && (if q == [] then h == NIL && t == NIL
        else h == q[0] && t == q[|q| - 1] && nx[t] == NIL)
    && (forall i :: 0 <= i < |q| - 1 ==> nx[q[i]] == q[i + 1])
  }

  /** Writing the `next` field of a process outside the list leaves the list intact. */
  lemma LinkedFrame(nx: seq<int>, h: int, t: int, q: seq<int>, x: int, v: int)
    requires Linked(nx, h, t, q)
    requires 0 <= x < |nx| && x !in q
    ensures Linked(nx[x := v], h, t, q)
  {
    forall i | 0 <= i < |q| ensures nx[x := v][q[i]] == nx[q[i]] {
      assert q[i] != x;
    }
  }

  /** Appending `p` at the tail: link the old tail to `p` (or make `p` the
      head of an empty list), make `p` the tail, and clear `p.next`. */
  lemma LinkedAppend(nx: seq<int>, h: int, t: int, q: seq<int>, p: int)
    requires Linked(nx, h, t, q)
    requires 0 <= p < |nx| && p !in q
    ensures var nx1 := if q == [] then nx else nx[t := p];
            Linked(nx1[p := NIL], if q == [] then p else h, p, q + [p])
  {
    var nx1 := if q == [] then nx else nx[t := p];
    var nx2 := nx1[p := NIL];
    var q' := q + [p];
    forall i | 0 <= i < |q'| - 1 ensures nx2[q'[i]] == q'[i + 1] {
      assert q'[i] == q[i] && q[i] != p;
      if i < |q| - 1 {
        assert q[i] != t;
      }
    }
    forall i, j | 0 <= i < j < |q'| ensures q'[i] != q'[j] {
      if j == |q| {
        assert q'[i] == q[i];
      }
    }
  }

  /** Removing the head: the new head is `head.next`; the tail is cleared
      exactly when that is NULL. */
  lemma LinkedPop(nx: seq<int>, h: int, t: int, q: seq<int>)
    requires Linked(nx, h, t, q) && q != []
    ensures nx[h] == (if |q| == 1 then NIL else q[1])
    ensures Linked(nx, nx[h], if nx[h] == NIL then NIL else t, q[1..])
  {
    if |q| > 1 {
      assert nx[q[0]] == q[1];
    }
  }

  /** Unlinking the element at position `i > 0`: its predecessor takes over
      its `next`; if it was the tail, the predecessor becomes the tail. */
  lemma LinkedUnlink(nx: seq<int>, h: int, t: int, q: seq<int>, i: nat)
    requires Linked(nx, h, t, q) && 0 < i < |q|
    ensures Linked(nx[q[i - 1] := nx[q[i]]], h, if q[i] == t then q[i - 1] else t,
                   q[..i] + q[i + 1..])
  {
    var nx' := nx[q[i - 1] := nx[q[i]]];
    var q' := q[..i] + q[i + 1..];
    assert |q'| == |q| - 1;
    assert forall k :: 0 <= k < i ==> q'[k] == q[k];
    assert forall k :: i <= k < |q'| ==> q'[k] == q[k + 1];
    assert q[i] == t <==> i == |q| - 1;
    forall k | 0 <= k < |q'| - 1 ensures nx'[q'[k]] == q'[k + 1] {
      if k < i - 1 {
        assert q[k] != q[i - 1];
      } else if k == i - 1 {
        assert nx[q[i]] == q[i + 1];
      } else {
        assert q[k + 1] != q[i - 1];
      }
    }
    if i == |q| - 1 {
      assert q'[|q'| - 1] == q[i - 1];
    } else {
      assert q'[|q'| - 1] == q[|q| - 1] && q[|q| - 1] != q[i - 1];
    }
    forall a, b | 0 <= a < b < |q'| ensures q'[a] != q'[b] {
      var a0 := if a < i then a else a + 1;
      var b0 := if b < i then b else b + 1;
      assert q'[a] == q[a0] && q'[b] == q[b0] && a0 < b0;
    }
  }
}
