/**
 The emulated DPC queues of `src/ke.cpp`: one FIFO and one worker per CPU. A step is one critical
 section under a queue's mutex, or the end of a DPC routine. Every successful insertion gets a
 ticket, its position among the insertions on that CPU; tickets, arguments and the three logs are
 history.
 */
module DpcProtocol {
  import opened Options

  type Dpc = nat

  datatype Args = Args(parameter1: int, parameter2: int)

  datatype Slot = Work(dpc: Dpc) | Marker

  datatype Record = Record(dpc: Dpc, args: Args, ticket: nat)

  datatype Worker = Idle | Running(record: Record)

  /** `queue` is the list behind `head`, `stored` the parameter fields of each KDPC. */
  datatype Cpu = Cpu(
    queue: seq<Slot>, stored: map<Dpc, Args>, worker: Worker,
    inserted: seq<Record>, executed: seq<Record>, removed: seq<Record>, ticket: map<Dpc, nat>)

  const NEW_CPU := Cpu([], map[], Idle, [], [], [], map[])

  function Position(queue: seq<Slot>, slot: Slot): (k: nat)
    requires slot in queue
    ensures k < |queue| && queue[k] == slot
  {
    if queue[0] == slot then 0 else 1 + Position(queue[1..], slot)
  }

  function TakeOut(queue: seq<Slot>, slot: Slot): seq<Slot>
    requires slot in queue
  {
    queue[..Position(queue, slot)] + queue[Position(queue, slot) + 1..]
  }

  /** `insert`: refuses a DPC that is already queued. */
  function Insert(c: Cpu, d: Dpc, args: Args): Cpu {
    if Work(d) in c.queue then c
    else c.(queue := c.queue + [Work(d)],
            stored := c.stored[d := args],
            inserted := c.inserted + [Record(d, args, |c.inserted|)],
            ticket := c.ticket[d := |c.inserted|])
  }

  function QueuedRecord(c: Cpu, d: Dpc): Record {
    Record(d,
           if d in c.stored then c.stored[d] else Args(0, 0),
           if d in c.ticket then c.ticket[d] else 0)
  }

  /** `remove`. */
  function Remove(c: Cpu, d: Dpc): Cpu {
    if Work(d) !in c.queue then c
    else c.(queue := TakeOut(c.queue, Work(d)), removed := c.removed + [QueuedRecord(c, d)])
  }

  /** The worker takes the first entry: it starts the routine with the arguments stored in the KDPC,
      or answers a flush. */
  function Take(c: Cpu): Cpu {
    if c.queue == [] || !c.worker.Idle? then c
    else
      match c.queue[0]
      case Marker => c.(queue := c.queue[1..])
      case Work(d) =>
        c.(queue := c.queue[1..],
           worker := Running(QueuedRecord(c, d)),
           executed := c.executed + [QueuedRecord(c, d)])
  }

  function Finish(c: Cpu): Cpu {
    c.(worker := Idle)
  }

  function EnqueueMarker(c: Cpu): Cpu {
    c.(queue := c.queue + [Marker])
  }

  // ----- all CPUs, and the threads in KeFlushQueuedDpcs

  type Tid = nat

  /** A thread in KeFlushQueuedDpcs has passed the CPUs below `next`. `before` is, for each CPU, how
      many insertions had succeeded when it made the call. */
  datatype Flusher = Flusher(next: nat, waiting: bool, before: seq<nat>)

  datatype State = State(cpus: seq<Cpu>, flushers: map<Tid, Flusher>)

  datatype Action =
    | InsertDpc(cpu: nat, dpc: Dpc, args: Args)
    | RemoveDpc(cpu: nat, dpc: Dpc)
    | WorkerTakes(cpu: nat)
    | RoutineReturns(cpu: nat)
    | FlushCalled(t: Tid)
    | FlushMarks(t: Tid)
    | FlushWakes(t: Tid)
    | FlushReturns(t: Tid)

  function Boot(cpuCount: nat): State {
    State(seq(cpuCount, _ => NEW_CPU), map[])
  }

  function SetCpu(s: State, i: nat, c: Cpu): State
    requires i < |s.cpus|
  {
    s.(cpus := s.cpus[i := c])
  }

  /** The steps of a flush. A marker is put only into a queue that does not hold it: the other case
      would link an entry twice. */
  function ExecFlush(s: State, t: Tid, f: Flusher, a: Action): Option<State> {
    match a
    case FlushMarks(_) =>
      if !f.waiting && f.next < |s.cpus| && Marker !in s.cpus[f.next].queue then
        Some(State(s.cpus[f.next := EnqueueMarker(s.cpus[f.next])], s.flushers[t := f.(waiting := true)]))
      else None
    case FlushWakes(_) =>
      if f.waiting && f.next < |s.cpus| && Marker !in s.cpus[f.next].queue then
        Some(s.(flushers := s.flushers[t := f.(next := f.next + 1, waiting := false)]))
      else None
    case FlushReturns(_) =>
      if f.next == |s.cpus| then Some(s.(flushers := s.flushers - {t})) else None
    case _ => None
  }

  function Inserted(cpus: seq<Cpu>): seq<nat> {
    seq(|cpus|, i requires 0 <= i < |cpus| => |cpus[i].inserted|)
  }

  /** None: the action is not enabled. `target` is the CPU each DPC was aimed at; it does not change
      during a run. */
  function Exec(s: State, target: Dpc -> nat, a: Action): Option<State> {
    match a
    case InsertDpc(i, d, args) =>
      if i < |s.cpus| && target(d) == i then Some(SetCpu(s, i, Insert(s.cpus[i], d, args))) else None
    case RemoveDpc(i, d) =>
      if i < |s.cpus| && target(d) == i then Some(SetCpu(s, i, Remove(s.cpus[i], d))) else None
    case WorkerTakes(i) =>
      if i < |s.cpus| && s.cpus[i].worker.Idle? && s.cpus[i].queue != [] then Some(SetCpu(s, i, Take(s.cpus[i]))) else None
    case RoutineReturns(i) =>
      if i < |s.cpus| && s.cpus[i].worker.Running? then Some(SetCpu(s, i, Finish(s.cpus[i]))) else None
    case FlushCalled(t) =>
      if t in s.flushers then None else Some(s.(flushers := s.flushers[t := Flusher(0, false, Inserted(s.cpus))]))
    case _ =>
      if a.t in s.flushers then ExecFlush(s, a.t, s.flushers[a.t], a) else None
  }

  function Run(s: State, target: Dpc -> nat, actions: seq<Action>): Option<State> {
    if actions == [] then Some(s)
    else
      var before := Run(s, target, actions[..|actions| - 1]);
      if before.Some? then Exec(before.value, target, actions[|actions| - 1]) else None
  }
}

/** What holds of every CPU in every run. */
module DpcInvariant {
  import opened DpcProtocol

  /** No DPC is queued twice, tickets grow along the queue, and a queued DPC's fields still hold what
      the insertion that queued it put there. */
  ghost predicate QueueOk(c: Cpu) {
    && (forall i, j :: 0 <= i < j < |c.queue| ==> c.queue[i] != c.queue[j])
    && (forall i :: 0 <= i < |c.queue| && c.queue[i].Work? ==> TicketOk(c, c.queue[i].dpc))
    && (forall i, j :: 0 <= i < j < |c.queue| && c.queue[i].Work? && c.queue[j].Work? ==>
          QueuedRecord(c, c.queue[i].dpc).ticket < QueuedRecord(c, c.queue[j].dpc).ticket)
  }

  ghost predicate TicketOk(c: Cpu, d: Dpc) {
    && d in c.ticket && d in c.stored && c.ticket[d] < |c.inserted|
    && c.inserted[c.ticket[d]] == QueuedRecord(c, d)
  }

  ghost predicate IsQueued(c: Cpu, k: nat) {
    exists i :: 0 <= i < |c.queue| && c.queue[i].Work? && QueuedRecord(c, c.queue[i].dpc).ticket == k
  }

  ghost predicate Logged(log: seq<Record>, k: nat) {
    exists i :: 0 <= i < |log| && log[i].ticket == k
  }

  /** Executions follow insertion order, each with the arguments of its insertion, and everything
      still queued was inserted later. */
  ghost predicate LogsOk(c: Cpu) {
    && (forall k :: 0 <= k < |c.inserted| ==> c.inserted[k].ticket == k)
    && (forall i :: 0 <= i < |c.executed| ==>
          c.executed[i].ticket < |c.inserted| && c.executed[i] == c.inserted[c.executed[i].ticket])
    && (forall i, j :: 0 <= i < j < |c.executed| ==> c.executed[i].ticket < c.executed[j].ticket)
    && (forall i, j :: 0 <= i < |c.executed| && 0 <= j < |c.queue| && c.queue[j].Work? ==>
          c.executed[i].ticket < QueuedRecord(c, c.queue[j].dpc).ticket)
    && (c.worker.Running? ==> c.executed != [] && c.worker.record == c.executed[|c.executed| - 1])
  }

  /** No insertion is lost. */
  ghost predicate Covered(c: Cpu) {
    forall k :: 0 <= k < |c.inserted| ==> IsQueued(c, k) || Logged(c.executed, k) || Logged(c.removed, k)
  }

  function Times(log: seq<Record>, d: Dpc): nat {
    if log == [] then 0
    else Times(log[..|log| - 1], d) + (if log[|log| - 1].dpc == d then 1 else 0)
  }

  /** None is duplicated either. */
  ghost predicate Conserved(c: Cpu) {
    forall d: Dpc ::
      Times(c.inserted, d) == Times(c.executed, d) + Times(c.removed, d) + (if Work(d) in c.queue then 1 else 0)
  }

  ghost predicate CpuOk(c: Cpu) {
    QueueOk(c) && LogsOk(c) && Covered(c) && Conserved(c)
  }

  lemma TimesAppend(log: seq<Record>, r: Record, d: Dpc)
    ensures Times(log + [r], d) == Times(log, d) + (if r.dpc == d then 1 else 0)
  {
  }

  // ----- insert

  lemma InsertKeepsQueue(c: Cpu, d: Dpc, args: Args)
    requires QueueOk(c) && LogsOk(c) && Work(d) !in c.queue
    ensures QueueOk(Insert(c, d, args))
    ensures forall i :: 0 <= i < |c.queue| && c.queue[i].Work? ==>
      QueuedRecord(Insert(c, d, args), c.queue[i].dpc) == QueuedRecord(c, c.queue[i].dpc)
  {
    var e := Insert(c, d, args);
    forall i | 0 <= i < |c.queue| && c.queue[i].Work?
      ensures c.queue[i].dpc != d && QueuedRecord(e, c.queue[i].dpc) == QueuedRecord(c, c.queue[i].dpc)
      ensures TicketOk(e, c.queue[i].dpc)
    {
      assert c.queue[i] in c.queue;
      assert TicketOk(c, c.queue[i].dpc);
    }
  }

  lemma InsertKeepsCover(c: Cpu, d: Dpc, args: Args)
    requires Covered(c) && Work(d) !in c.queue
    requires forall i :: 0 <= i < |c.queue| && c.queue[i].Work? ==>
      QueuedRecord(Insert(c, d, args), c.queue[i].dpc) == QueuedRecord(c, c.queue[i].dpc)
    ensures Covered(Insert(c, d, args))
  {
    var e := Insert(c, d, args);
    forall k | 0 <= k < |e.inserted|
      ensures IsQueued(e, k) || Logged(e.executed, k) || Logged(e.removed, k)
    {
      if k == |c.inserted| {
        assert e.queue[|c.queue|] == Work(d);
      } else if IsQueued(c, k) {
        var i :| 0 <= i < |c.queue| && c.queue[i].Work? && QueuedRecord(c, c.queue[i].dpc).ticket == k;
        assert e.queue[i] == c.queue[i];
      }
    }
  }

  lemma InsertKeeps(c: Cpu, d: Dpc, args: Args)
    requires CpuOk(c)
    ensures CpuOk(Insert(c, d, args))
  {
    if Work(d) !in c.queue {
      var e := Insert(c, d, args);
      InsertKeepsQueue(c, d, args);
      InsertKeepsCover(c, d, args);
      InsertKeepsLogs(c, d, args);
      forall x: Dpc
        ensures Times(e.inserted, x) == Times(e.executed, x) + Times(e.removed, x) + (if Work(x) in e.queue then 1 else 0)
      {
        TimesAppend(c.inserted, e.inserted[|c.inserted|], x);
      }
    }
  }

  lemma InsertKeepsLogs(c: Cpu, d: Dpc, args: Args)
    requires LogsOk(c) && Work(d) !in c.queue
    requires forall i :: 0 <= i < |c.queue| && c.queue[i].Work? ==>
      QueuedRecord(Insert(c, d, args), c.queue[i].dpc) == QueuedRecord(c, c.queue[i].dpc)
    ensures LogsOk(Insert(c, d, args))
  {
  }

  // ----- taking an entry out of the queue

  /** `q` is the queue of `c` without its entry `k`. */
  ghost predicate Shorter(c: Cpu, k: nat, e: Cpu) {
    && k < |c.queue| && e.queue == c.queue[..k] + c.queue[k + 1..]
    && e.stored == c.stored && e.ticket == c.ticket && e.inserted == c.inserted
  }

  lemma ShorterKeepsQueue(c: Cpu, k: nat, e: Cpu)
    requires QueueOk(c) && Shorter(c, k, e)
    ensures QueueOk(e) && c.queue[k] !in e.queue
  {
    forall i | 0 <= i < |e.queue|
      ensures e.queue[i] == c.queue[if i < k then i else i + 1]
    {
    }
    forall i | 0 <= i < |e.queue| && e.queue[i].Work?
      ensures TicketOk(e, e.queue[i].dpc)
    {
      assert TicketOk(c, e.queue[i].dpc);
    }
  }

  lemma ShorterCover(c: Cpu, k: nat, e: Cpu)
    requires Covered(c) && Shorter(c, k, e)
    requires c.executed <= e.executed && c.removed <= e.removed
    requires c.queue[k].Work? ==>
      var t := QueuedRecord(c, c.queue[k].dpc).ticket; Logged(e.executed, t) || Logged(e.removed, t)
    ensures Covered(e)
  {
    forall n | 0 <= n < |e.inserted|
      ensures IsQueued(e, n) || Logged(e.executed, n) || Logged(e.removed, n)
    {
      if IsQueued(c, n) {
        var i :| 0 <= i < |c.queue| && c.queue[i].Work? && QueuedRecord(c, c.queue[i].dpc).ticket == n;
        if i != k {
          var j := if i < k then i else i - 1;
          assert e.queue[j] == c.queue[i];
        }
      } else if Logged(c.executed, n) {
        var i :| 0 <= i < |c.executed| && c.executed[i].ticket == n;
        assert e.executed[i] == c.executed[i];
      } else {
        var i :| 0 <= i < |c.removed| && c.removed[i].ticket == n;
        assert e.removed[i] == c.removed[i];
      }
    }
  }

  lemma QueueMembers(c: Cpu, k: nat, e: Cpu, x: Slot)
    requires QueueOk(c) && Shorter(c, k, e)
    ensures x in e.queue <==> x in c.queue && x != c.queue[k]
  {
  }

  lemma RemoveKeeps(c: Cpu, d: Dpc)
    requires CpuOk(c)
    ensures CpuOk(Remove(c, d))
  {
    if Work(d) in c.queue {
      var e := Remove(c, d);
      var k := Position(c.queue, Work(d));
      ShorterKeepsQueue(c, k, e);
      assert e.removed[|c.removed|] == QueuedRecord(c, d);
      ShorterCover(c, k, e);
      ShorterKeepsLogs(c, k, e);
      forall x: Dpc
        ensures Times(e.inserted, x) == Times(e.executed, x) + Times(e.removed, x) + (if Work(x) in e.queue then 1 else 0)
      {
        TimesAppend(c.removed, QueuedRecord(c, d), x);
        QueueMembers(c, k, e, Work(x));
      }
    }
  }

  lemma ShorterKeepsLogs(c: Cpu, k: nat, e: Cpu)
    requires LogsOk(c) && Shorter(c, k, e) && e.executed == c.executed && e.worker == c.worker
    ensures LogsOk(e)
  {
  }

  // ----- the worker

  lemma TakeMarkerKeeps(c: Cpu)
    requires CpuOk(c) && c.queue != [] && c.worker.Idle? && c.queue[0].Marker?
    ensures CpuOk(Take(c))
  {
    var e := Take(c);
    assert e.queue == c.queue[..0] + c.queue[1..];
    ShorterKeepsQueue(c, 0, e);
    ShorterCover(c, 0, e);
    ShorterKeepsLogs(c, 0, e);
    forall x: Dpc
      ensures Times(e.inserted, x) == Times(e.executed, x) + Times(e.removed, x) + (if Work(x) in e.queue then 1 else 0)
    {
      QueueMembers(c, 0, e, Work(x));
    }
  }

  lemma TakeWorkLogs(c: Cpu)
    requires QueueOk(c) && LogsOk(c) && c.queue != [] && c.worker.Idle? && c.queue[0].Work?
    ensures LogsOk(Take(c))
  {
  }

  lemma TakeWorkKeeps(c: Cpu)
    requires CpuOk(c) && c.queue != [] && c.worker.Idle? && c.queue[0].Work?
    ensures CpuOk(Take(c))
  {
    var e := Take(c);
    var r := QueuedRecord(c, c.queue[0].dpc);
    assert e.queue == c.queue[..0] + c.queue[1..];
    ShorterKeepsQueue(c, 0, e);
    assert e.executed[|c.executed|] == r;
    ShorterCover(c, 0, e);
    TakeWorkLogs(c);
    forall x: Dpc
      ensures Times(e.inserted, x) == Times(e.executed, x) + Times(e.removed, x) + (if Work(x) in e.queue then 1 else 0)
    {
      TimesAppend(c.executed, r, x);
      QueueMembers(c, 0, e, Work(x));
    }
  }

  lemma TakeKeeps(c: Cpu)
    requires CpuOk(c)
    ensures CpuOk(Take(c))
  {
    if c.queue != [] && c.worker.Idle? {
      if c.queue[0].Marker? {
        TakeMarkerKeeps(c);
      } else {
        TakeWorkKeeps(c);
      }
    }
  }

  lemma MarkerKeeps(c: Cpu)
    requires CpuOk(c) && Marker !in c.queue
    ensures CpuOk(EnqueueMarker(c))
  {
    var e := EnqueueMarker(c);
    forall i | 0 <= i < |c.queue| && c.queue[i].Work?
      ensures TicketOk(e, c.queue[i].dpc)
    {
      assert TicketOk(c, c.queue[i].dpc);
    }
    forall k | 0 <= k < |e.inserted| && IsQueued(c, k)
      ensures IsQueued(e, k)
    {
      MarkerStaysBehind(c, k);
    }
  }

  lemma MarkerStaysBehind(c: Cpu, k: nat)
    requires IsQueued(c, k)
    ensures IsQueued(EnqueueMarker(c), k)
  {
    var e := EnqueueMarker(c);
    var i :| 0 <= i < |c.queue| && c.queue[i].Work? && QueuedRecord(c, c.queue[i].dpc).ticket == k;
    assert e.queue[i] == c.queue[i];
  }

  lemma FinishKeeps(c: Cpu)
    requires CpuOk(c)
    ensures CpuOk(Finish(c))
  {
  }
}
