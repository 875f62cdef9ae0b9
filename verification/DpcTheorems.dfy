/** Every run of the DPC queues conserves DPCs, executes them in insertion order with their own
    arguments, and makes KeFlushQueuedDpcs a barrier. */
module DpcTheorems {
  import opened Options
  import opened DpcProtocol
  import opened DpcInvariant

  /** Everything inserted before the first `n` tickets were given out is over on this CPU. */
  ghost predicate Passed(c: Cpu, n: nat) {
    && (forall i :: 0 <= i < |c.queue| && c.queue[i].Work? ==> n <= QueuedRecord(c, c.queue[i].dpc).ticket)
    && (c.worker.Running? ==> n <= c.worker.record.ticket)
  }

  /** Only later insertions are behind the flush marker. */
  ghost predicate Behind(c: Cpu, n: nat) {
    forall m, i :: 0 <= m < i < |c.queue| && c.queue[m].Marker? && c.queue[i].Work? ==>
      n <= QueuedRecord(c, c.queue[i].dpc).ticket
  }

  /** What a flush in progress has established: the CPUs below `next` are past everything inserted
      before the call, and so is the one it waits for, or else the marker is still queued there with
      only later insertions behind it. */
  ghost predicate FlusherOk(cpus: seq<Cpu>, f: Flusher) {
    && |f.before| == |cpus| && f.next <= |cpus| && (f.waiting ==> f.next < |cpus|)
    && (forall i :: 0 <= i < |cpus| ==> f.before[i] <= |cpus[i].inserted|)
    && (forall i :: 0 <= i < f.next ==> Passed(cpus[i], f.before[i]))
    && (f.waiting ==>
          || Passed(cpus[f.next], f.before[f.next])
          || (Marker in cpus[f.next].queue && Behind(cpus[f.next], f.before[f.next])))
  }

  ghost predicate FlushOk(s: State) {
    forall t :: t in s.flushers ==> FlusherOk(s.cpus, s.flushers[t])
  }

  ghost predicate StateOk(s: State) {
    (forall i :: 0 <= i < |s.cpus| ==> CpuOk(s.cpus[i])) && FlushOk(s)
  }

  /** A step on one CPU that gives out tickets only above `n`. */
  ghost predicate Kept(c: Cpu, e: Cpu, n: nat) {
    && |c.inserted| <= |e.inserted|
    && (Passed(c, n) ==> Passed(e, n))
    && (Marker in c.queue && Behind(c, n) ==> if Marker in e.queue then Behind(e, n) else Passed(e, n))
  }

  lemma InsertKept(c: Cpu, d: Dpc, args: Args, n: nat)
    requires QueueOk(c) && LogsOk(c) && n <= |c.inserted|
    ensures Kept(c, Insert(c, d, args), n)
  {
    if Work(d) !in c.queue {
      InsertKeepsQueue(c, d, args);
      var e := Insert(c, d, args);
      assert forall i :: 0 <= i < |c.queue| ==> e.queue[i] == c.queue[i];
    }
  }

  lemma ShorterKept(c: Cpu, k: nat, e: Cpu, n: nat)
    requires QueueOk(c) && Shorter(c, k, e) && c.queue[k].Work? && e.worker == c.worker
    ensures Kept(c, e, n)
  {
  }

  lemma RemoveKept(c: Cpu, d: Dpc, n: nat)
    requires QueueOk(c)
    ensures Kept(c, Remove(c, d), n)
  {
    if Work(d) in c.queue {
      ShorterKept(c, Position(c.queue, Work(d)), Remove(c, d), n);
    }
  }

  lemma TakeKept(c: Cpu, n: nat)
    requires QueueOk(c) && c.queue != [] && c.worker.Idle?
    ensures Kept(c, Take(c), n)
  {
  }

  lemma FinishKept(c: Cpu, n: nat)
    ensures Kept(c, Finish(c), n)
  {
  }

  ghost predicate KeptAll(c: Cpu, e: Cpu) {
    forall n: nat :: n <= |c.inserted| ==> Kept(c, e, n)
  }

  /** Every step on one CPU. */
  ghost predicate CpuSteps(c: Cpu, e: Cpu) {
    || (exists d, args :: e == Insert(c, d, args))
    || (exists d :: e == Remove(c, d))
    || (c.worker.Idle? && c.queue != [] && e == Take(c))
    || e == Finish(c)
  }

  lemma CpuStepKept(c: Cpu, e: Cpu, n: nat)
    requires QueueOk(c) && LogsOk(c) && n <= |c.inserted| && CpuSteps(c, e)
    ensures Kept(c, e, n)
  {
    if d, args :| e == Insert(c, d, args) {
      InsertKept(c, d, args, n);
    } else if d :| e == Remove(c, d) {
      RemoveKept(c, d, n);
    } else if e == Finish(c) {
      FinishKept(c, n);
    } else {
      TakeKept(c, n);
    }
  }

  lemma CpuStepKeeps(c: Cpu, e: Cpu)
    requires CpuOk(c) && CpuSteps(c, e)
    ensures CpuOk(e) && KeptAll(c, e)
  {
    if d, args :| e == Insert(c, d, args) {
      InsertKeeps(c, d, args);
    } else if d :| e == Remove(c, d) {
      RemoveKeeps(c, d);
    } else if e == Finish(c) {
      FinishKeeps(c);
    } else {
      TakeKeeps(c);
    }
    forall n: nat | n <= |c.inserted|
      ensures Kept(c, e, n)
    {
      CpuStepKept(c, e, n);
    }
  }

  /** A step on one CPU keeps what a flush has established. */
  lemma CpuStepFlusher(cpus: seq<Cpu>, i: nat, e: Cpu, f: Flusher)
    requires FlusherOk(cpus, f) && i < |cpus| && KeptAll(cpus[i], e)
    ensures FlusherOk(cpus[i := e], f)
  {
    assert Kept(cpus[i], e, f.before[i]);
  }

  lemma CpuStep(s: State, i: nat, e: Cpu)
    requires StateOk(s) && i < |s.cpus| && CpuOk(e) && KeptAll(s.cpus[i], e)
    ensures StateOk(SetCpu(s, i, e))
  {
    forall t | t in s.flushers
      ensures FlusherOk(s.cpus[i := e], s.flushers[t])
    {
      CpuStepFlusher(s.cpus, i, e, s.flushers[t]);
    }
  }

  lemma ExecKeeps(s: State, target: Dpc -> nat, a: Action)
    requires StateOk(s) && Exec(s, target, a).Some?
    ensures StateOk(Exec(s, target, a).value)
  {
    if a.InsertDpc? || a.RemoveDpc? || a.WorkerTakes? || a.RoutineReturns? {
      var c := s.cpus[a.cpu];
      var e := Exec(s, target, a).value.cpus[a.cpu];
      assert CpuSteps(c, e);
      CpuStepKeeps(c, e);
      CpuStep(s, a.cpu, e);
      assert Exec(s, target, a).value == SetCpu(s, a.cpu, e);
    } else if !a.FlushCalled? {
      FlushKeeps(s, a.t, a);
    }
  }

  /** Another flush's marker does not undo anything. */
  lemma MarkerFlusher(cpus: seq<Cpu>, i: nat, f: Flusher)
    requires FlusherOk(cpus, f) && i < |cpus| && Marker !in cpus[i].queue
    ensures FlusherOk(cpus[i := EnqueueMarker(cpus[i])], f)
  {
    var e := EnqueueMarker(cpus[i]);
    assert Passed(cpus[i], f.before[i]) ==> Passed(e, f.before[i]);
  }

  lemma OwnMarker(cpus: seq<Cpu>, f: Flusher)
    requires FlusherOk(cpus, f) && !f.waiting && f.next < |cpus| && Marker !in cpus[f.next].queue
    ensures FlusherOk(cpus[f.next := EnqueueMarker(cpus[f.next])], f.(waiting := true))
  {
    MarkerFlusher(cpus, f.next, f);
    var c, e := cpus[f.next], EnqueueMarker(cpus[f.next]);
    assert forall m :: 0 <= m < |c.queue| ==> c.queue[m] in c.queue;
    assert e.queue[|c.queue|] == Marker;
    assert Behind(e, f.before[f.next]);
  }

  lemma FlushKeeps(s: State, t: Tid, a: Action)
    requires StateOk(s) && t in s.flushers && ExecFlush(s, t, s.flushers[t], a).Some?
    ensures StateOk(ExecFlush(s, t, s.flushers[t], a).value)
  {
    var f, s' := s.flushers[t], ExecFlush(s, t, s.flushers[t], a).value;
    assert FlusherOk(s.cpus, f);
    if a.FlushMarks? {
      MarkerKeeps(s.cpus[f.next]);
      forall u | u in s'.flushers
        ensures FlusherOk(s'.cpus, s'.flushers[u])
      {
        if u == t {
          OwnMarker(s.cpus, f);
        } else {
          MarkerFlusher(s.cpus, f.next, s.flushers[u]);
        }
      }
    }
  }

  lemma {:induction false} RunKeeps(cpuCount: nat, target: Dpc -> nat, actions: seq<Action>)
    requires Run(Boot(cpuCount), target, actions).Some?
    ensures StateOk(Run(Boot(cpuCount), target, actions).value)
  {
    if actions != [] {
      var n := |actions| - 1;
      RunKeeps(cpuCount, target, actions[..n]);
      ExecKeeps(Run(Boot(cpuCount), target, actions[..n]).value, target, actions[n]);
    }
  }

  // ----- the results

  /** The DPC was not queued on that CPU at that point of the run. */
  ghost predicate NotQueued(cpuCount: nat, target: Dpc -> nat, actions: seq<Action>, i: nat, d: Dpc) {
    var s := Run(Boot(cpuCount), target, actions);
    s.Some? && i < |s.value.cpus| && Work(d) !in s.value.cpus[i].queue
  }

  /** The calls of KeInsertQueueDpc in a run that found their DPC not queued, with their arguments. */
  ghost function Insertions(cpuCount: nat, target: Dpc -> nat, actions: seq<Action>, i: nat): seq<(Dpc, Args)> {
    if actions == [] then []
    else
      var before, a := actions[..|actions| - 1], actions[|actions| - 1];
      Insertions(cpuCount, target, before, i) +
      if a.InsertDpc? && a.cpu == i && NotQueued(cpuCount, target, before, i, a.dpc) then [(a.dpc, a.args)] else []
  }

  lemma InsertedStep(s: State, target: Dpc -> nat, a: Action, i: nat)
    requires Exec(s, target, a).Some? && i < |s.cpus|
    ensures var s' := Exec(s, target, a).value;
      && |s'.cpus| == |s.cpus|
      && s'.cpus[i].inserted == s.cpus[i].inserted +
           if a.InsertDpc? && a.cpu == i && Work(a.dpc) !in s.cpus[i].queue
           then [Record(a.dpc, a.args, |s.cpus[i].inserted|)] else []
  {
  }

  /** The log of insertions is those calls, numbered. */
  lemma {:induction false} InsertedIsInsertions(cpuCount: nat, target: Dpc -> nat, actions: seq<Action>, i: nat)
    requires Run(Boot(cpuCount), target, actions).Some? && i < cpuCount
    ensures |Run(Boot(cpuCount), target, actions).value.cpus| == cpuCount
    ensures var inserted := Run(Boot(cpuCount), target, actions).value.cpus[i].inserted;
      var calls := Insertions(cpuCount, target, actions, i);
      && |inserted| == |calls|
      && forall k :: 0 <= k < |calls| ==> inserted[k] == Record(calls[k].0, calls[k].1, k)
  {
    if actions != [] {
      var n := |actions| - 1;
      InsertedIsInsertions(cpuCount, target, actions[..n], i);
      InsertedStep(Run(Boot(cpuCount), target, actions[..n]).value, target, actions[n], i);
    }
  }

  /** The calls of KeRemoveQueueDpc in a run that found their DPC queued. */
  ghost function Removals(cpuCount: nat, target: Dpc -> nat, actions: seq<Action>, i: nat): seq<Dpc> {
    if actions == [] then []
    else
      var before, a := actions[..|actions| - 1], actions[|actions| - 1];
      var s := Run(Boot(cpuCount), target, before);
      Removals(cpuCount, target, before, i) +
      if a.RemoveDpc? && a.cpu == i && s.Some? && i < |s.value.cpus| && Work(a.dpc) in s.value.cpus[i].queue then [a.dpc] else []
  }

  lemma RemovedStep(s: State, target: Dpc -> nat, a: Action, i: nat)
    requires Exec(s, target, a).Some? && i < |s.cpus|
    ensures var s' := Exec(s, target, a).value;
      && |s'.cpus| == |s.cpus|
      && s'.cpus[i].removed == s.cpus[i].removed +
           if a.RemoveDpc? && a.cpu == i && Work(a.dpc) in s.cpus[i].queue then [QueuedRecord(s.cpus[i], a.dpc)] else []
  {
  }

  function Dpcs(log: seq<Record>): seq<Dpc> {
    seq(|log|, k requires 0 <= k < |log| => log[k].dpc)
  }

  /** The log of removals is those calls. */
  lemma {:induction false} RemovedIsRemovals(cpuCount: nat, target: Dpc -> nat, actions: seq<Action>, i: nat)
    requires Run(Boot(cpuCount), target, actions).Some? && i < cpuCount
    ensures |Run(Boot(cpuCount), target, actions).value.cpus| == cpuCount
    ensures Dpcs(Run(Boot(cpuCount), target, actions).value.cpus[i].removed) == Removals(cpuCount, target, actions, i)
  {
    if actions != [] {
      var n := |actions| - 1;
      RemovedIsRemovals(cpuCount, target, actions[..n], i);
      RemovedStep(Run(Boot(cpuCount), target, actions[..n]).value, target, actions[n], i);
    }
  }

  function Count(dpcs: seq<Dpc>, d: Dpc): nat {
    if dpcs == [] then 0 else Count(dpcs[..|dpcs| - 1], d) + if dpcs[|dpcs| - 1] == d then 1 else 0
  }

  lemma {:induction false} TimesIsCount(log: seq<Record>, d: Dpc)
    ensures Times(log, d) == Count(Dpcs(log), d)
  {
    if log != [] {
      TimesIsCount(log[..|log| - 1], d);
      assert Dpcs(log)[..|log| - 1] == Dpcs(log[..|log| - 1]);
    }
  }

  ghost function Called(calls: seq<(Dpc, Args)>): seq<Dpc> {
    seq(|calls|, k requires 0 <= k < |calls| => calls[k].0)
  }

  /** For every DPC in every run: calls that inserted it = executions + calls that removed it + one if it
      is queued. */
  lemma InsertionsAreConserved(cpuCount: nat, target: Dpc -> nat, actions: seq<Action>, i: nat, d: Dpc)
    requires Run(Boot(cpuCount), target, actions).Some? && i < cpuCount
    ensures i < |Run(Boot(cpuCount), target, actions).value.cpus|
    ensures var c := Run(Boot(cpuCount), target, actions).value.cpus[i];
      Count(Called(Insertions(cpuCount, target, actions, i)), d)
      == Count(Dpcs(c.executed), d) + Count(Removals(cpuCount, target, actions, i), d) + (if Work(d) in c.queue then 1 else 0)
  {
    RunKeeps(cpuCount, target, actions);
    InsertedIsInsertions(cpuCount, target, actions, i);
    RemovedIsRemovals(cpuCount, target, actions, i);
    var c := Run(Boot(cpuCount), target, actions).value.cpus[i];
    assert CpuOk(c);
    assert Called(Insertions(cpuCount, target, actions, i)) == Dpcs(c.inserted);
    TimesIsCount(c.inserted, d);
    TimesIsCount(c.executed, d);
    TimesIsCount(c.removed, d);
  }

  /** Executions on a CPU happen in the order of the calls that inserted them, and each execution is
      exactly one such call: its DPC with its arguments, even if the DPC was inserted again in between. */
  lemma ExecutionsFollowInsertions(cpuCount: nat, target: Dpc -> nat, actions: seq<Action>, i: nat)
    requires Run(Boot(cpuCount), target, actions).Some? && i < cpuCount
    ensures i < |Run(Boot(cpuCount), target, actions).value.cpus|
    ensures var executed := Run(Boot(cpuCount), target, actions).value.cpus[i].executed;
      var calls := Insertions(cpuCount, target, actions, i);
      && (forall x, y :: 0 <= x < y < |executed| ==> executed[x].ticket < executed[y].ticket)
      && (forall x :: 0 <= x < |executed| ==>
            executed[x].ticket < |calls| && (executed[x].dpc, executed[x].args) == calls[executed[x].ticket])
  {
    RunKeeps(cpuCount, target, actions);
    InsertedIsInsertions(cpuCount, target, actions, i);
    assert CpuOk(Run(Boot(cpuCount), target, actions).value.cpus[i]);
  }

  function Returns(actions: seq<Action>, i: nat): nat {
    if actions == [] then 0
    else Returns(actions[..|actions| - 1], i) + if actions[|actions| - 1] == RoutineReturns(i) then 1 else 0
  }

  lemma ExecutedStep(s: State, target: Dpc -> nat, a: Action, i: nat)
    requires Exec(s, target, a).Some? && i < |s.cpus|
    ensures var c, c' := s.cpus[i], Exec(s, target, a).value.cpus[i];
      var starts := a == WorkerTakes(i) && c.queue[0].Work?;
      && |c'.executed| == |c.executed| + (if starts then 1 else 0)
      && (c'.worker.Running? <==> starts || (c.worker.Running? && a != RoutineReturns(i)))
      && (starts ==> c.worker.Idle? && c'.worker.record.dpc == c.queue[0].dpc && c'.queue == c.queue[1..])
  {
  }

  /** Every execution is a call of the routine: as many have returned as the log holds, but for the one the
      worker is in. */
  lemma {:induction false} ExecutionsReturn(cpuCount: nat, target: Dpc -> nat, actions: seq<Action>, i: nat)
    requires Run(Boot(cpuCount), target, actions).Some? && i < cpuCount
    ensures |Run(Boot(cpuCount), target, actions).value.cpus| == cpuCount
    ensures var c := Run(Boot(cpuCount), target, actions).value.cpus[i];
      |c.executed| == Returns(actions, i) + if c.worker.Running? then 1 else 0
  {
    if actions != [] {
      var n := |actions| - 1;
      ExecutionsReturn(cpuCount, target, actions[..n], i);
      ExecutedStep(Run(Boot(cpuCount), target, actions[..n]).value, target, actions[n], i);
    }
  }

  /** The routine that a worker runs is called with the arguments of its insertion. */
  lemma RoutineGetsItsArguments(cpuCount: nat, target: Dpc -> nat, actions: seq<Action>, i: nat)
    requires Run(Boot(cpuCount), target, actions).Some? && i < |Run(Boot(cpuCount), target, actions).value.cpus| && i < cpuCount
    requires Run(Boot(cpuCount), target, actions).value.cpus[i].worker.Running?
    ensures var r := Run(Boot(cpuCount), target, actions).value.cpus[i].worker.record;
      var calls := Insertions(cpuCount, target, actions, i);
      r.ticket < |calls| && (r.dpc, r.args) == calls[r.ticket]
  {
    RunKeeps(cpuCount, target, actions);
    ExecutionsFollowInsertions(cpuCount, target, actions, i);
    assert CpuOk(Run(Boot(cpuCount), target, actions).value.cpus[i]);
  }

  /** An insertion is over: it was removed, or its routine has run and returned. */
  ghost predicate IsOver(c: Cpu, k: nat) {
    && (Logged(c.removed, k) || Logged(c.executed, k))
    && (c.worker.Running? ==> c.worker.record.ticket != k)
  }

  lemma PassedIsOver(s: State, t: Tid, i: nat, k: nat)
    requires StateOk(s) && t in s.flushers && s.flushers[t].next == |s.cpus| && i < |s.cpus| && k < s.flushers[t].before[i]
    ensures IsOver(s.cpus[i], k)
  {
    assert FlusherOk(s.cpus, s.flushers[t]) && CpuOk(s.cpus[i]);
    assert Passed(s.cpus[i], s.flushers[t].before[i]);
    assert k < |s.cpus[i].inserted| && !IsQueued(s.cpus[i], k);
  }

  /** A flusher knows how many insertions came before it was called. */
  ghost predicate Remembers(s0: State, s: State, t: Tid) {
    t in s.flushers && s.flushers[t].before == Inserted(s0.cpus) && |s.cpus| == |s0.cpus|
  }

  lemma StepRemembers(s0: State, s: State, t: Tid, target: Dpc -> nat, a: Action)
    requires Remembers(s0, s, t) && a != FlushReturns(t) && Exec(s, target, a).Some?
    ensures Remembers(s0, Exec(s, target, a).value, t)
  {
  }

  lemma {:induction false} FlushRemembers(cpuCount: nat, target: Dpc -> nat, before: seq<Action>, t: Tid, during: seq<Action>)
    requires Run(Boot(cpuCount), target, before).Some?
    requires Run(Boot(cpuCount), target, before + [FlushCalled(t)] + during).Some?
    requires FlushReturns(t) !in during
    ensures Remembers(Run(Boot(cpuCount), target, before).value,
                      Run(Boot(cpuCount), target, before + [FlushCalled(t)] + during).value, t)
  {
    var all := before + [FlushCalled(t)] + during;
    if during == [] {
      assert all[..|all| - 1] == before;
    } else {
      var n := |during| - 1;
      assert all[..|all| - 1] == before + [FlushCalled(t)] + during[..n];
      FlushRemembers(cpuCount, target, before, t, during[..n]);
      assert during[n] in during;
      StepRemembers(Run(Boot(cpuCount), target, before).value,
                    Run(Boot(cpuCount), target, before + [FlushCalled(t)] + during[..n]).value, t, target, during[n]);
    }
  }

  /** When a thread's KeFlushQueuedDpcs is about to return, every DPC that was successfully inserted on
      any CPU before it was called has been removed or has run to completion, however many other
      threads are flushing at the same time. */
  lemma FlushIsABarrier(cpuCount: nat, target: Dpc -> nat, before: seq<Action>, t: Tid, during: seq<Action>, i: nat, k: nat)
    requires Run(Boot(cpuCount), target, before).Some?
    requires Run(Boot(cpuCount), target, before + [FlushCalled(t)] + during).Some? && FlushReturns(t) !in during
    requires Exec(Run(Boot(cpuCount), target, before + [FlushCalled(t)] + during).value, target, FlushReturns(t)).Some?
    requires i < |Run(Boot(cpuCount), target, before).value.cpus|
    requires k < |Run(Boot(cpuCount), target, before).value.cpus[i].inserted|
    ensures i < |Run(Boot(cpuCount), target, before + [FlushCalled(t)] + during).value.cpus|
    ensures IsOver(Run(Boot(cpuCount), target, before + [FlushCalled(t)] + during).value.cpus[i], k)
  {
    FlushRemembers(cpuCount, target, before, t, during);
    RunKeeps(cpuCount, target, before + [FlushCalled(t)] + during);
    PassedIsOver(Run(Boot(cpuCount), target, before + [FlushCalled(t)] + during).value, t, i, k);
  }
}
