/** Vocabulary shared by both scheduler versions: process states, the four
    scheduling algorithms, NULL, and the record of a dispatch
    request sent to the simulator engine. */
module Common {

  /** A `pcb_t*` reference is modelled as the pid of the
      process (its index in the fixed process table); NULL is NIL. */
  const NIL: int := -1

  datatype Option<T> = None | Some(value: T)

  /** Lifecycle state of a process (PROCESS_NEW ... PROCESS_TERMINATED). */
  datatype ProcState = New | Ready | Running | Waiting | Terminated

  /** The scheduling algorithm selected on the command line. */
  datatype Alg = FIFO | RoundRobin | StaticPriority | MultiLevelFeedback

  /** The arguments of one `context_switch(cpu, proc, quantum)` call:
      `proc == NIL` runs the idle process, `quantum == -1` means no clock
      interrupt. */
  datatype Dispatch = Dispatch(cpu: nat, proc: int, quantum: int)

  /** The state table after `schedule` marks the dispatched process RUNNING
      (nothing changes when the idle process is dispatched). */
  function Dispatched(st: seq<ProcState>, proc: int): (r: seq<ProcState>)
    requires proc == NIL || 0 <= proc < |st|
    ensures |r| == |st|
    ensures forall p :: 0 <= p < |st| && p != proc ==> r[p] == st[p]
    ensures proc != NIL ==> r[proc] == Running
  {
    if proc == NIL then st else st[proc := Running]
  }
}
