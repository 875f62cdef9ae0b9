/**
 IRQLs and the per-CPU dispatch locks of `src/ke.cpp`. Raising to DISPATCH_LEVEL pins the thread to
 the CPU it runs on and takes that CPU's lock; lowering releases the lock of the CPU the thread runs
 on then. The operating system may move a thread between the CPUs of its real affinity at any time.
 The thread-local cache of the affinity is kept apart from the real one, because
 KeSetSystemAffinityThreadEx at DISPATCH_LEVEL writes only the cache.
 */
module DispatchLock {
  import opened Options

  type Tid = nat

  const DISPATCH_LEVEL := 2

  /** Where a thread is inside KfRaiseIrql: about to set its affinity, or about to lock. */
  datatype Pc = Normal | Pinning(cpu: nat) | Locking(cpu: nat)

  /** `saved` is what the raises not yet undone returned. A DPC worker has `worker` = its CPU and
      `inRoutine` while it runs a DPC routine. An empty affinity stands for no override. */
  datatype Thread = Thread(
    irql: nat, saved: seq<nat>, pc: Pc, cpu: nat,
    actual: set<nat>, cache: set<nat>, beforeRaise: set<nat>,
    worker: Option<nat>, inRoutine: bool)

  /** `firstGroup` is the number of CPUs in processor group 0, which have the lowest indices. */
  datatype State = State(cpus: set<nat>, firstGroup: nat, locks: map<nat, Tid>, threads: map<Tid, Thread>)

  datatype Action =
    | Start(t: Tid, cpu: nat)
    | StartWorker(t: Tid, cpu: nat, affinity: set<nat>, landsOn: nat)
    | Migrate(t: Tid, cpu: nat)
    | Raise(t: Tid, irql: nat)
    | Pin(t: Tid)
    | Lock(t: Tid)
    | Lower(t: Tid, landsOn: nat)
    | SetSystemAffinity(t: Tid, affinity: set<nat>, landsOn: nat)
    | SetGroupAffinity(t: Tid, affinity: set<nat>, landsOn: nat)
    | EnterRoutine(t: Tid)
    | LeaveRoutine(t: Tid)

  /** Fault: a mutex is unlocked that the thread does not hold, or locked again by its holder. */
  datatype Outcome = Ok(state: State) | Blocked | Fault

  function Effective(cpus: set<nat>, affinity: set<nat>): set<nat> {
    if affinity == {} then cpus else affinity
  }

  /** `usersim_set_current_thread_affinity`: does nothing if the cache already says so. */
  function SetAffinity(cpus: set<nat>, th: Thread, affinity: set<nat>, landsOn: nat): Thread {
    if affinity == th.cache then th
    else th.(actual := Effective(cpus, affinity), cache := affinity, cpu := landsOn)
  }

  predicate CanLand(cpus: set<nat>, th: Thread, affinity: set<nat>, landsOn: nat) {
    affinity <= cpus && (affinity != th.cache ==> landsOn in Effective(cpus, affinity))
  }

  function Put(s: State, t: Tid, th: Thread): Outcome {
    Ok(s.(threads := s.threads[t := th]))
  }

  /** KfRaiseIrql up to the point where it has read the current processor. */
  function Raised(th: Thread, irql: nat): Thread {
    th.(irql := irql, saved := th.saved + [th.irql],
        pc := if irql >= DISPATCH_LEVEL && th.irql < DISPATCH_LEVEL then Pinning(th.cpu) else th.pc)
  }

  function DoRaise(s: State, t: Tid, th: Thread, irql: nat): Outcome {
    if !th.pc.Normal? || irql < th.irql || (th.worker.Some? && !th.inRoutine) then Blocked
    else Put(s, t, Raised(th, irql))
  }

  /** It sets its affinity to the processor it read. */
  function Pinned(cpus: set<nat>, th: Thread): Thread
    requires th.pc.Pinning?
  {
    SetAffinity(cpus, th, {th.pc.cpu}, th.pc.cpu).(beforeRaise := th.cache, pc := Locking(th.pc.cpu))
  }

  function DoPin(s: State, t: Tid, th: Thread): Outcome {
    if !th.pc.Pinning? then Blocked else Put(s, t, Pinned(s.cpus, th))
  }

  function DoLock(s: State, t: Tid, th: Thread): Outcome {
    if !th.pc.Locking? then Blocked
    else if th.pc.cpu in s.locks then (if s.locks[th.pc.cpu] == t then Fault else Blocked)
    else Ok(s.(locks := s.locks[th.pc.cpu := t], threads := s.threads[t := th.(pc := Normal)]))
  }

  predicate LeavesDispatch(th: Thread)
    requires th.saved != []
  {
    th.irql >= DISPATCH_LEVEL && th.saved[|th.saved| - 1] < DISPATCH_LEVEL
  }

  /** KeLowerIrql to any level. */
  function LoweredTo(cpus: set<nat>, th: Thread, irql: nat, landsOn: nat): Thread {
    var lowered := th.(irql := irql, saved := if th.saved == [] then [] else th.saved[..|th.saved| - 1]);
    if th.irql >= DISPATCH_LEVEL && irql < DISPATCH_LEVEL then SetAffinity(cpus, lowered, th.beforeRaise, landsOn) else lowered
  }

  /** KeLowerIrql to the level that the matching raise returned. */
  function Lowered(cpus: set<nat>, th: Thread, landsOn: nat): Thread
    requires th.saved != []
  {
    LoweredTo(cpus, th, th.saved[|th.saved| - 1], landsOn)
  }

  function DoLower(s: State, t: Tid, th: Thread, landsOn: nat): Outcome {
    if !th.pc.Normal? || th.saved == [] then Blocked
    else if LeavesDispatch(th) then
      if !(th.cpu in s.locks && s.locks[th.cpu] == t) then Fault
      else if !CanLand(s.cpus, th, th.beforeRaise, landsOn) then Blocked
      else Ok(s.(locks := s.locks - {th.cpu}, threads := s.threads[t := Lowered(s.cpus, th, landsOn)]))
    else Put(s, t, Lowered(s.cpus, th, landsOn))
  }

  function DoSetSystemAffinity(s: State, t: Tid, th: Thread, affinity: set<nat>, landsOn: nat): Outcome {
    if !th.pc.Normal? || !CanLand(s.cpus, th, affinity, landsOn) || (th.worker.Some? && !th.inRoutine) then Blocked
    else if th.irql >= DISPATCH_LEVEL then Put(s, t, th.(cache := affinity, beforeRaise := affinity))
    else Put(s, t, SetAffinity(s.cpus, th, affinity, landsOn))
  }

  /** KeSetSystemGroupAffinityThread does not look at the IRQL. */
  function DoSetGroupAffinity(s: State, t: Tid, th: Thread, affinity: set<nat>, landsOn: nat): Outcome {
    if !th.pc.Normal? || !CanLand(s.cpus, th, affinity, landsOn) || (th.worker.Some? && !th.inRoutine) then Blocked
    else Put(s, t, SetAffinity(s.cpus, th, affinity, landsOn))
  }

  function DoEnterRoutine(s: State, t: Tid, th: Thread): Outcome {
    if !(th.worker.Some? && !th.inRoutine && th.pc.Normal?) then Blocked
    else if th.worker.value in s.locks then (if s.locks[th.worker.value] == t then Fault else Blocked)
    else
      Ok(s.(locks := s.locks[th.worker.value := t],
            threads := s.threads[t := th.(irql := DISPATCH_LEVEL, inRoutine := true)]))
  }

  /** The routine has undone its own raises. */
  function DoLeaveRoutine(s: State, t: Tid, th: Thread): Outcome {
    if !(th.worker.Some? && th.inRoutine && th.pc.Normal? && th.saved == []) then Blocked
    else if !(th.worker.value in s.locks && s.locks[th.worker.value] == t) then Fault
    else
      Ok(s.(locks := s.locks - {th.worker.value},
            threads := s.threads[t := th.(irql := 0, inRoutine := false)]))
  }

  /** Worker `i` asks for the CPU with bit `i` in group 0. That is CPU `i` if the group has so many;
      if not, the request fails or names some other CPU. */
  predicate CanStartWorker(s: State, i: nat, affinity: set<nat>, landsOn: nat) {
    && i in s.cpus && affinity <= s.cpus && landsOn in Effective(s.cpus, affinity)
    && (i < s.firstGroup ==> affinity == {i})
  }

  function Exec(s: State, a: Action): Outcome {
    match a
    case Start(t, i) =>
      if t in s.threads || i !in s.cpus then Blocked
      else Put(s, t, Thread(0, [], Normal, i, s.cpus, {}, {}, None, false))
    case StartWorker(t, i, affinity, landsOn) =>
      if t in s.threads || !CanStartWorker(s, i, affinity, landsOn) then Blocked
      else Put(s, t, Thread(0, [], Normal, landsOn, Effective(s.cpus, affinity), affinity, {}, Some(i), false))
    case _ =>
      if a.t !in s.threads then Blocked
      else
        var th := s.threads[a.t];
        match a
        case Migrate(t, i) => if i in th.actual then Put(s, t, th.(cpu := i)) else Blocked
        case Raise(t, irql) => DoRaise(s, t, th, irql)
        case Pin(t) => DoPin(s, t, th)
        case Lock(t) => DoLock(s, t, th)
        case Lower(t, landsOn) => DoLower(s, t, th, landsOn)
        case SetSystemAffinity(t, affinity, landsOn) => DoSetSystemAffinity(s, t, th, affinity, landsOn)
        case SetGroupAffinity(t, affinity, landsOn) => DoSetGroupAffinity(s, t, th, affinity, landsOn)
        case EnterRoutine(t) => DoEnterRoutine(s, t, th)
        case LeaveRoutine(t) => DoLeaveRoutine(s, t, th)
        case _ => Blocked
  }

  /** A group affinity that does not let a thread that has raised itself to DISPATCH_LEVEL off its CPU.
      A DPC routine may set any: its worker unlocks by index. */
  predicate Harmless(cpus: set<nat>, th: Thread, affinity: set<nat>) {
    th.worker.Some? || th.irql < DISPATCH_LEVEL || affinity == th.cache || Effective(cpus, affinity) == {th.cpu}
  }

  predicate Allowed(s: State, a: Action) {
    a.SetGroupAffinity? && a.t in s.threads ==> Harmless(s.cpus, s.threads[a.t], a.affinity)
  }

  /** A run in which group affinity is changed at DISPATCH_LEVEL only harmlessly. */
  function Run(s: State, actions: seq<Action>): Outcome {
    if actions == [] then Ok(s)
    else
      var before := Run(s, actions[..|actions| - 1]);
      if !before.Ok? then before
      else if !Allowed(before.state, actions[|actions| - 1]) then Blocked
      else Exec(before.state, actions[|actions| - 1])
  }

  function Boot(cpus: set<nat>, firstGroup: nat): State {
    State(cpus, firstGroup, map[], map[])
  }

  // ----- the invariant

  /** The CPU whose dispatch lock the thread holds. */
  function Held(th: Thread): Option<nat> {
    if th.worker.Some? then (if th.inRoutine then th.worker else None)
    else if th.pc.Normal? && th.irql >= DISPATCH_LEVEL then Some(th.cpu)
    else None
  }

  predicate Nested(saved: seq<nat>, irql: nat) {
    && (forall i, j :: 0 <= i < j < |saved| ==> saved[i] <= saved[j])
    && (forall i :: 0 <= i < |saved| ==> saved[i] <= irql)
  }

  /** Unless it is a worker, its real affinity is what the cache says, or a single CPU. */
  predicate AffinityOk(cpus: set<nat>, th: Thread) {
    && th.cpu in th.actual && th.actual <= cpus && th.cache <= cpus && th.beforeRaise <= cpus
    && (th.worker.None? ==> th.actual == Effective(cpus, th.cache) || th.actual == {th.cpu})
  }

  predicate ThreadOk(cpus: set<nat>, th: Thread) {
    && AffinityOk(cpus, th) && Nested(th.saved, th.irql)
    && (th.worker.Some? ==>
          && th.pc.Normal? && th.worker.value in cpus
          && (if th.inRoutine then th.irql >= DISPATCH_LEVEL && (forall i :: 0 <= i < |th.saved| ==> th.saved[i] >= DISPATCH_LEVEL)
              else th.irql == 0 && th.saved == []))
    && (th.worker.None? ==>
          && (th.irql >= DISPATCH_LEVEL ==> th.saved != [] && th.saved[0] < DISPATCH_LEVEL)
          && (!th.pc.Normal? ==> th.irql >= DISPATCH_LEVEL && th.saved != [] && th.saved[|th.saved| - 1] < DISPATCH_LEVEL)
          && (th.pc.Pinning? ==> th.pc.cpu in th.actual)
          && (th.pc.Locking? ==> th.actual == {th.pc.cpu} && th.cpu == th.pc.cpu)
          && (th.pc.Normal? && th.irql >= DISPATCH_LEVEL ==> th.actual == {th.cpu}))
  }

  /** Locks are held by exactly the threads that think so. */
  predicate LocksOk(s: State) {
    && (forall i :: i in s.locks ==> s.locks[i] in s.threads && Held(s.threads[s.locks[i]]) == Some(i))
    && (forall t :: t in s.threads && Held(s.threads[t]).Some? ==>
          Held(s.threads[t]).value in s.locks && s.locks[Held(s.threads[t]).value] == t)
  }

  ghost predicate Inv(s: State) {
    && (forall t :: t in s.threads ==> ThreadOk(s.cpus, s.threads[t]))
    && LocksOk(s)
  }

  lemma PinThread(cpus: set<nat>, th: Thread)
    requires ThreadOk(cpus, th) && th.pc.Pinning?
    ensures ThreadOk(cpus, Pinned(cpus, th))
  {
  }

  lemma SetAffinityThread(cpus: set<nat>, th: Thread, affinity: set<nat>, landsOn: nat)
    requires ThreadOk(cpus, th) && th.pc.Normal? && CanLand(cpus, th, affinity, landsOn)
    requires th.irql < DISPATCH_LEVEL && th.worker.None?
    ensures ThreadOk(cpus, SetAffinity(cpus, th, affinity, landsOn))
  {
  }

  lemma GroupAffinityThread(cpus: set<nat>, th: Thread, affinity: set<nat>, landsOn: nat)
    requires ThreadOk(cpus, th) && th.pc.Normal? && CanLand(cpus, th, affinity, landsOn)
    requires Harmless(cpus, th, affinity) && (th.worker.Some? ==> th.inRoutine)
    ensures ThreadOk(cpus, SetAffinity(cpus, th, affinity, landsOn))
    ensures Held(SetAffinity(cpus, th, affinity, landsOn)) == Held(th)
  {
  }

  lemma LowerThread(cpus: set<nat>, th: Thread, landsOn: nat)
    requires ThreadOk(cpus, th) && th.pc.Normal? && th.saved != []
    requires LeavesDispatch(th) && CanLand(cpus, th, th.beforeRaise, landsOn)
    ensures ThreadOk(cpus, Lowered(cpus, th, landsOn)) && Held(Lowered(cpus, th, landsOn)) == None
    ensures Held(th) == Some(th.cpu)
  {
  }

  lemma RaiseThread(cpus: set<nat>, th: Thread, irql: nat)
    requires ThreadOk(cpus, th) && th.pc.Normal? && irql >= th.irql && (th.worker.Some? ==> th.inRoutine)
    ensures ThreadOk(cpus, Raised(th, irql)) && Held(Raised(th, irql)) == Held(th)
  {
  }

  /** A step that changes one thread but not the lock it holds. */
  lemma PutKeeps(s: State, t: Tid, th: Thread)
    requires Inv(s) && ThreadOk(s.cpus, th)
    requires if t in s.threads then Held(th) == Held(s.threads[t]) else Held(th) == None
    ensures Inv(Put(s, t, th).state)
  {
  }

  lemma TakeKeeps(s: State, t: Tid, th: Thread, i: nat)
    requires Inv(s) && t in s.threads && Held(s.threads[t]) == None && ThreadOk(s.cpus, th) && Held(th) == Some(i)
    requires i !in s.locks
    ensures Inv(s.(locks := s.locks[i := t], threads := s.threads[t := th]))
  {
  }

  lemma ReleaseKeeps(s: State, t: Tid, th: Thread, i: nat)
    requires Inv(s) && t in s.threads && Held(s.threads[t]) == Some(i) && ThreadOk(s.cpus, th) && Held(th) == None
    ensures Inv(s.(locks := s.locks - {i}, threads := s.threads[t := th]))
  {
  }

  ghost predicate Safe(r: Outcome) {
    !r.Fault? && (r.Ok? ==> Inv(r.state))
  }

  lemma LockKeeps(s: State, t: Tid, th: Thread)
    requires Inv(s) && t in s.threads && th == s.threads[t]
    ensures Safe(DoLock(s, t, th)) && Safe(DoEnterRoutine(s, t, th))
  {
    assert ThreadOk(s.cpus, th);
    if th.pc.Locking? && th.pc.cpu !in s.locks {
      TakeKeeps(s, t, th.(pc := Normal), th.pc.cpu);
    }
    if th.worker.Some? && !th.inRoutine && th.worker.value !in s.locks {
      TakeKeeps(s, t, th.(irql := DISPATCH_LEVEL, inRoutine := true), th.worker.value);
    }
  }

  lemma LowerKeeps(s: State, t: Tid, th: Thread, landsOn: nat)
    requires Inv(s) && t in s.threads && th == s.threads[t]
    ensures Safe(DoLower(s, t, th, landsOn)) && Safe(DoLeaveRoutine(s, t, th))
  {
    assert ThreadOk(s.cpus, th);
    if th.pc.Normal? && th.saved != [] {
      if LeavesDispatch(th) {
        assert th.worker.None? && Held(th) == Some(th.cpu);
        if CanLand(s.cpus, th, th.beforeRaise, landsOn) {
          LowerThread(s.cpus, th, landsOn);
          ReleaseKeeps(s, t, Lowered(s.cpus, th, landsOn), th.cpu);
        }
      } else {
        PutKeeps(s, t, Lowered(s.cpus, th, landsOn));
      }
    }
    if th.worker.Some? && th.inRoutine && th.saved == [] {
      ReleaseKeeps(s, t, th.(irql := 0, inRoutine := false), th.worker.value);
    }
  }

  lemma AffinityKeeps(s: State, t: Tid, th: Thread, affinity: set<nat>, landsOn: nat)
    requires Inv(s) && t in s.threads && th == s.threads[t]
    ensures Safe(DoSetSystemAffinity(s, t, th, affinity, landsOn))
    ensures Harmless(s.cpus, th, affinity) ==> Safe(DoSetGroupAffinity(s, t, th, affinity, landsOn))
  {
    assert ThreadOk(s.cpus, th);
    if th.pc.Normal? && CanLand(s.cpus, th, affinity, landsOn) && (th.worker.Some? ==> th.inRoutine) {
      if th.irql >= DISPATCH_LEVEL {
        PutKeeps(s, t, th.(cache := affinity, beforeRaise := affinity));
      } else {
        SetAffinityThread(s.cpus, th, affinity, landsOn);
        PutKeeps(s, t, SetAffinity(s.cpus, th, affinity, landsOn));
      }
      if Harmless(s.cpus, th, affinity) {
        GroupAffinityThread(s.cpus, th, affinity, landsOn);
        PutKeeps(s, t, SetAffinity(s.cpus, th, affinity, landsOn));
      }
    }
  }

  lemma RaiseKeeps(s: State, t: Tid, th: Thread, irql: nat)
    requires Inv(s) && t in s.threads && th == s.threads[t]
    ensures Safe(DoRaise(s, t, th, irql)) && Safe(DoPin(s, t, th))
  {
    assert ThreadOk(s.cpus, th);
    if th.pc.Normal? && irql >= th.irql && (th.worker.Some? ==> th.inRoutine) {
      RaiseThread(s.cpus, th, irql);
      PutKeeps(s, t, Raised(th, irql));
    }
    if th.pc.Pinning? {
      PinThread(s.cpus, th);
      PutKeeps(s, t, Pinned(s.cpus, th));
    }
  }

  lemma StartKeeps(s: State, a: Action)
    requires Inv(s) && (a.Start? || a.StartWorker?) && Exec(s, a).Ok?
    ensures Inv(Exec(s, a).state)
  {
    PutKeeps(s, a.t, Exec(s, a).state.threads[a.t]);
  }

  lemma MigrateKeeps(s: State, t: Tid, th: Thread, i: nat)
    requires Inv(s) && t in s.threads && th == s.threads[t]
    ensures i in th.actual ==> Inv(Put(s, t, th.(cpu := i)).state)
  {
    assert ThreadOk(s.cpus, th);
    if i in th.actual {
      PutKeeps(s, t, th.(cpu := i));
    }
  }

  lemma ExecKeeps(s: State, a: Action)
    requires Inv(s) && Allowed(s, a)
    ensures Safe(Exec(s, a))
  {
    if a.t !in s.threads {
      if (a.Start? || a.StartWorker?) && Exec(s, a).Ok? {
        StartKeeps(s, a);
      }
    } else {
      var th := s.threads[a.t];
      match a
      case Migrate(t, i) => MigrateKeeps(s, t, th, i);
      case Raise(t, irql) => RaiseKeeps(s, t, th, irql);
      case Pin(t) => RaiseKeeps(s, t, th, 0);
      case Lock(t) => LockKeeps(s, t, th);
      case EnterRoutine(t) => LockKeeps(s, t, th);
      case Lower(t, landsOn) => LowerKeeps(s, t, th, landsOn);
      case LeaveRoutine(t) => LowerKeeps(s, t, th, 0);
      case SetSystemAffinity(t, affinity, landsOn) => AffinityKeeps(s, t, th, affinity, landsOn);
      case SetGroupAffinity(t, affinity, landsOn) => AffinityKeeps(s, t, th, affinity, landsOn);
      case _ =>
    }
  }

  /** In every run no dispatch lock is released by a thread, or at an index, that did not take it,
      and none is taken twice by its holder. */
  lemma {:induction false} RunIsSafe(cpus: set<nat>, firstGroup: nat, actions: seq<Action>)
    ensures Safe(Run(Boot(cpus, firstGroup), actions))
  {
    if actions != [] {
      var n := |actions| - 1;
      RunIsSafe(cpus, firstGroup, actions[..n]);
      var before := Run(Boot(cpus, firstGroup), actions[..n]);
      if before.Ok? && Allowed(before.state, actions[n]) {
        ExecKeeps(before.state, actions[n]);
      }
    }
  }

  /** A thread is at DISPATCH_LEVEL on a CPU: raised there, or running one of its DPC routines. */
  predicate AtDispatchOn(th: Thread, i: nat) {
    || (th.worker.None? && th.pc.Normal? && th.irql >= DISPATCH_LEVEL && th.cpu == i)
    || (th.worker == Some(i) && th.inRoutine)
  }

  /** In every run at most one thread is at DISPATCH_LEVEL on a CPU, so no DPC routine of a CPU
      overlaps a thread raised there; and a raised thread really runs on that CPU. */
  lemma OneAtDispatchPerCpu(cpus: set<nat>, firstGroup: nat, actions: seq<Action>, i: nat, t: Tid, u: Tid)
    requires Run(Boot(cpus, firstGroup), actions).Ok?
    requires var s := Run(Boot(cpus, firstGroup), actions).state;
      t in s.threads && u in s.threads && AtDispatchOn(s.threads[t], i) && AtDispatchOn(s.threads[u], i)
    ensures t == u
    ensures var th := Run(Boot(cpus, firstGroup), actions).state.threads[t]; th.worker.None? ==> th.actual == {i} && th.cpu == i
  {
    RunIsSafe(cpus, firstGroup, actions);
    var s := Run(Boot(cpus, firstGroup), actions).state;
    assert ThreadOk(s.cpus, s.threads[t]) && ThreadOk(s.cpus, s.threads[u]);
    assert Held(s.threads[t]) == Some(i) && Held(s.threads[u]) == Some(i);
  }

  /** In every run a worker is at PASSIVE_LEVEL between routines and at DISPATCH_LEVEL or above inside one. */
  lemma WorkersRaiseForRoutines(cpus: set<nat>, firstGroup: nat, actions: seq<Action>, t: Tid)
    requires Run(Boot(cpus, firstGroup), actions).Ok? && t in Run(Boot(cpus, firstGroup), actions).state.threads
    requires Run(Boot(cpus, firstGroup), actions).state.threads[t].worker.Some?
    ensures var th := Run(Boot(cpus, firstGroup), actions).state.threads[t];
      if th.inRoutine then th.irql >= DISPATCH_LEVEL else th.irql == 0 && th.saved == []
  {
    RunIsSafe(cpus, firstGroup, actions);
    assert ThreadOk(Run(Boot(cpus, firstGroup), actions).state.cpus, Run(Boot(cpus, firstGroup), actions).state.threads[t]);
  }

  /** The worker of a CPU in group 0 is on that CPU. */
  predicate AtHome(s: State, t: Tid) {
    t in s.threads && s.threads[t].worker.Some? && s.threads[t].worker.value < s.firstGroup ==>
      s.threads[t].actual == {s.threads[t].worker.value} && s.threads[t].cpu == s.threads[t].worker.value
  }

  lemma ExecAtHome(s: State, a: Action, t: Tid)
    requires Inv(s) && AtHome(s, t) && !(a.SetGroupAffinity? && a.t == t) && Exec(s, a).Ok?
    ensures AtHome(Exec(s, a).state, t)
  {
    assert t in s.threads ==> ThreadOk(s.cpus, s.threads[t]);
  }

  /** It stays there in every run in which its routines do not call KeSetSystemGroupAffinityThread. */
  lemma {:induction false} WorkersStayHome(cpus: set<nat>, firstGroup: nat, actions: seq<Action>, t: Tid)
    requires Run(Boot(cpus, firstGroup), actions).Ok?
    requires forall a :: a in actions ==> !(a.SetGroupAffinity? && a.t == t)
    ensures AtHome(Run(Boot(cpus, firstGroup), actions).state, t)
  {
    if actions != [] {
      var n := |actions| - 1;
      WorkersStayHome(cpus, firstGroup, actions[..n], t);
      RunIsSafe(cpus, firstGroup, actions[..n]);
      assert actions[n] in actions;
      ExecAtHome(Run(Boot(cpus, firstGroup), actions[..n]).state, actions[n], t);
    }
  }

  // ----- raising and lowering undo each other

  predicate SetsAffinity(a: Action, t: Tid) {
    (a.SetSystemAffinity? || a.SetGroupAffinity?) && a.t == t
  }

  /** A thread that had affinity `cache` when it was last below DISPATCH_LEVEL, and has not asked for another
      since: it has it still, or has it saved while it is pinned to its CPU. */
  predicate Remembers(th: Thread, cache: set<nat>) {
    && th.worker.None?
    && (if th.irql < DISPATCH_LEVEL || th.pc.Pinning? then th.cache == cache
        else th.beforeRaise == cache && th.cache == {th.cpu} && th.actual == {th.cpu})
  }

  lemma ExecRemembers(s: State, a: Action, t: Tid, cache: set<nat>)
    requires Inv(s) && Allowed(s, a) && !SetsAffinity(a, t) && Exec(s, a).Ok?
    requires t in s.threads && Remembers(s.threads[t], cache)
    ensures t in Exec(s, a).state.threads && Remembers(Exec(s, a).state.threads[t], cache)
  {
    assert ThreadOk(s.cpus, s.threads[t]);
  }

  lemma RunStep(boot: State, actions: seq<Action>)
    requires actions != [] && Run(boot, actions).Ok?
    ensures var n := |actions| - 1;
      && Run(boot, actions[..n]).Ok? && Allowed(Run(boot, actions[..n]).state, actions[n])
      && Run(boot, actions) == Exec(Run(boot, actions[..n]).state, actions[n])
  {
  }

  /** Thread `t`, below DISPATCH_LEVEL after the first `k` steps, makes no affinity call from then on. */
  predicate LeavesAffinityAlone(cpus: set<nat>, firstGroup: nat, actions: seq<Action>, k: nat, t: Tid) {
    && k <= |actions| && Run(Boot(cpus, firstGroup), actions[..k]).Ok?
    && BelowDispatch(Run(Boot(cpus, firstGroup), actions[..k]).state, t)
    && forall i :: k <= i < |actions| ==> !SetsAffinity(actions[i], t)
  }

  predicate BelowDispatch(s: State, t: Tid) {
    t in s.threads && s.threads[t].worker.None? && s.threads[t].pc.Normal? && s.threads[t].irql < DISPATCH_LEVEL
  }

  lemma {:induction false} AffinityIsRemembered(cpus: set<nat>, firstGroup: nat, actions: seq<Action>, k: nat, t: Tid)
    requires Run(Boot(cpus, firstGroup), actions).Ok? && LeavesAffinityAlone(cpus, firstGroup, actions, k, t)
    ensures var s := Run(Boot(cpus, firstGroup), actions).state;
      t in s.threads && Remembers(s.threads[t], Run(Boot(cpus, firstGroup), actions[..k]).state.threads[t].cache)
  {
    if k == |actions| {
      assert actions[..k] == actions;
    } else {
      var boot, n := Boot(cpus, firstGroup), |actions| - 1;
      assert actions[..n][..k] == actions[..k];
      RunStep(boot, actions);
      AffinityIsRemembered(cpus, firstGroup, actions[..n], k, t);
      RunIsSafe(cpus, firstGroup, actions[..n]);
      ExecRemembers(Run(boot, actions[..n]).state, actions[n], t, Run(boot, actions[..k]).state.threads[t].cache);
    }
  }

  lemma LeavingRestores(s: State, a: Action, t: Tid, cache: set<nat>)
    requires Inv(s) && Exec(s, a).Ok? && !SetsAffinity(a, t) && t in s.threads && t in Exec(s, a).state.threads
    requires Remembers(s.threads[t], cache)
    requires s.threads[t].irql >= DISPATCH_LEVEL && Exec(s, a).state.threads[t].irql < DISPATCH_LEVEL
    ensures Exec(s, a).state.threads[t].cache == cache && Exec(s, a).state.threads[t].actual == Effective(s.cpus, cache)
  {
    assert ThreadOk(s.cpus, s.threads[t]);
  }

  lemma {:induction false} SameCpus(boot: State, actions: seq<Action>)
    requires Run(boot, actions).Ok?
    ensures Run(boot, actions).state.cpus == boot.cpus && Run(boot, actions).state.firstGroup == boot.firstGroup
  {
    if actions != [] {
      RunStep(boot, actions);
      SameCpus(boot, actions[..|actions| - 1]);
      StepSameCpus(Run(boot, actions[..|actions| - 1]).state, actions[|actions| - 1]);
    }
  }

  lemma StepSameCpus(s: State, a: Action)
    requires Exec(s, a).Ok?
    ensures Exec(s, a).state.cpus == s.cpus && Exec(s, a).state.firstGroup == s.firstGroup
  {
  }

  /** The round trip: a thread that raises itself to DISPATCH_LEVEL, however deep it nests and whatever others
      do meanwhile, has the affinity it had before when it lowers itself again, in the cache and in fact,
      unless it asked for another in between. */
  lemma LoweringRestoresAffinity(cpus: set<nat>, firstGroup: nat, actions: seq<Action>, k: nat, t: Tid)
    requires actions != [] && Run(Boot(cpus, firstGroup), actions).Ok?
    requires k < |actions| && LeavesAffinityAlone(cpus, firstGroup, actions, k, t)
    requires var before := Run(Boot(cpus, firstGroup), actions[..|actions| - 1]);
      before.Ok? && t in before.state.threads && before.state.threads[t].irql >= DISPATCH_LEVEL
    requires var s := Run(Boot(cpus, firstGroup), actions).state;
      t in s.threads && s.threads[t].irql < DISPATCH_LEVEL
    ensures var th0 := Run(Boot(cpus, firstGroup), actions[..k]).state.threads[t];
      var th := Run(Boot(cpus, firstGroup), actions).state.threads[t];
      th.cache == th0.cache && th.actual == Effective(cpus, th0.cache)
  {
    var boot, n := Boot(cpus, firstGroup), |actions| - 1;
    assert actions[..n][..k] == actions[..k];
    RunStep(boot, actions);
    AffinityIsRemembered(cpus, firstGroup, actions[..n], k, t);
    RunIsSafe(cpus, firstGroup, actions[..n]);
    SameCpus(boot, actions[..n]);
    LeavingRestores(Run(boot, actions[..n]).state, actions[n], t, Run(boot, actions[..k]).state.threads[t].cache);
  }

  function NextLevels(levels: seq<nat>, a: Action, t: Tid): seq<nat> {
    if a.t != t then levels
    else if a.Start? then [0]
    else if a.Raise? then levels + [a.irql]
    else if a.Lower? && levels != [] then levels[..|levels| - 1]
    else levels
  }

  /** The levels a thread has raised itself to and not yet lowered itself from, the present one last. */
  function Levels(actions: seq<Action>, t: Tid): seq<nat> {
    if actions == [] then [] else NextLevels(Levels(actions[..|actions| - 1], t), actions[|actions| - 1], t)
  }

  predicate AtLevels(s: State, t: Tid, levels: seq<nat>) {
    t in s.threads && s.threads[t].worker.None? ==> levels == s.threads[t].saved + [s.threads[t].irql]
  }

  lemma StepLevels(s: State, a: Action, t: Tid, levels: seq<nat>)
    requires Exec(s, a).Ok? && AtLevels(s, t, levels)
    ensures AtLevels(Exec(s, a).state, t, NextLevels(levels, a, t))
  {
    if a.t == t && a.Lower? {
      LowerLevels(s.cpus, s.threads[t], a.landsOn);
    }
  }

  lemma LowerLevels(cpus: set<nat>, th: Thread, landsOn: nat)
    requires th.saved != []
    ensures var th' := Lowered(cpus, th, landsOn); th'.saved + [th'.irql] == (th.saved + [th.irql])[..|th.saved|]
    ensures Lowered(cpus, th, landsOn).worker == th.worker
  {
  }

  /** In every run a thread's IRQL is the last of them: lowering goes back to the level before the matching
      raise. */
  lemma {:induction false} IrqlIsTheLastLevel(cpus: set<nat>, firstGroup: nat, actions: seq<Action>, t: Tid)
    requires Run(Boot(cpus, firstGroup), actions).Ok?
    ensures AtLevels(Run(Boot(cpus, firstGroup), actions).state, t, Levels(actions, t))
  {
    if actions != [] {
      var boot, n := Boot(cpus, firstGroup), |actions| - 1;
      RunStep(boot, actions);
      IrqlIsTheLastLevel(cpus, firstGroup, actions[..n], t);
      StepLevels(Run(boot, actions[..n]).state, actions[n], t, Levels(actions[..n], t));
    }
  }

  /** An affinity call below DISPATCH_LEVEL, and KeSetSystemGroupAffinityThread at any level, puts what was
      asked for in the cache, and makes it so unless the cache said it already. */
  lemma AffinityCallTakesEffect(s: State, a: Action)
    requires a.SetSystemAffinity? || a.SetGroupAffinity?
    requires Exec(s, a).Ok? && a.t in s.threads && (a.SetGroupAffinity? || s.threads[a.t].irql < DISPATCH_LEVEL)
    ensures var th, th' := s.threads[a.t], Exec(s, a).state.threads[a.t];
      && th'.cache == a.affinity
      && th'.actual == (if a.affinity == th.cache then th.actual else if a.affinity == {} then s.cpus else a.affinity)
      && th'.irql == th.irql && th'.saved == th.saved && Exec(s, a).state.locks == s.locks
  {
  }

  // ----- group affinity at DISPATCH_LEVEL

  function Lowers(t: Tid, landsOn: nat, n: nat): seq<Action> {
    seq(n, _ => Lower(t, landsOn))
  }

  lemma {:induction false} RunFront(s: State, a: Action, rest: seq<Action>)
    requires Allowed(s, a) && Exec(s, a).Ok?
    ensures Run(s, [a] + rest) == Run(Exec(s, a).state, rest)
  {
    var all := [a] + rest;
    if rest == [] {
      assert all[..0] == [] && Run(s, all[..0]) == Ok(s);
    } else {
      assert all[..|all| - 1] == [a] + rest[..|rest| - 1];
      RunFront(s, a, rest[..|rest| - 1]);
    }
  }

  /** A raised thread that is not where its lock is. */
  predicate Astray(s: State, t: Tid) {
    && t in s.threads && s.threads[t].pc.Normal? && s.threads[t].irql >= DISPATCH_LEVEL
    && s.threads[t].saved != [] && s.threads[t].saved[0] < DISPATCH_LEVEL
    && !(s.threads[t].cpu in s.locks && s.locks[s.threads[t].cpu] == t)
  }

  /** Undoing its raises ends in an unlock of a mutex it does not hold. */
  lemma {:induction false} AstrayFaults(s: State, t: Tid, landsOn: nat) returns (n: nat)
    requires Astray(s, t)
    ensures Run(s, Lowers(t, landsOn, n)).Fault?
    decreases |s.threads[t].saved|
  {
    var a := Lower(t, landsOn);
    if LeavesDispatch(s.threads[t]) {
      n := 1;
      assert Lowers(t, landsOn, 1) == [a] && [a][..0] == [] && Run(s, [a][..0]) == Ok(s);
    } else {
      var m := AstrayFaults(Exec(s, a).state, t, landsOn);
      n := m + 1;
      assert Lowers(t, landsOn, n) == [a] + Lowers(t, landsOn, m);
      RunFront(s, a, Lowers(t, landsOn, m));
    }
  }

  /** The condition on group affinity is exact: at any depth of nested raises, any other change lets the
      thread move to a CPU from which undoing its raises releases a lock it does not hold. */
  lemma HarmfulAffinityBreaksLower(s: State, t: Tid, affinity: set<nat>) returns (j: nat, n: nat)
    requires Inv(s) && t in s.threads && s.threads[t].pc.Normal?
    requires affinity <= s.cpus && !Harmless(s.cpus, s.threads[t], affinity)
    ensures Exec(s, SetGroupAffinity(t, affinity, j)).Ok?
    ensures Run(Exec(s, SetGroupAffinity(t, affinity, j)).state, Lowers(t, j, n)).Fault?
  {
    var th := s.threads[t];
    assert ThreadOk(s.cpus, th);
    var actual := Effective(s.cpus, affinity);
    assert actual != {} && actual != {th.cpu};
    var elsewhere := actual - {th.cpu};
    assert elsewhere == {} ==> actual <= {th.cpu};
    j :| j in elsewhere;
    var s' := Exec(s, SetGroupAffinity(t, affinity, j)).state;
    assert Held(th) == Some(th.cpu);
    assert j in s.locks ==> s.locks[j] != t;
    assert Astray(s', t);
    n := AstrayFaults(s', t, j);
  }

  lemma StepTo(boot: State, s: State, actions: seq<Action>, a: Action, th: Thread) returns (s': State, longer: seq<Action>)
    requires Run(boot, actions) == Ok(s) && Allowed(s, a) && Exec(s, a).Ok? && a.t in Exec(s, a).state.threads
    requires Exec(s, a).state.threads[a.t] == th
    ensures longer == actions + [a] && Run(boot, longer) == Ok(s') && s' == Exec(s, a).state && a.t in s'.threads
    ensures s'.threads[a.t] == th
  {
    s', longer := Exec(s, a).state, actions + [a];
    assert longer[..|actions|] == actions;
  }

  /** Such a change can be made: on a machine with two CPUs a thread raises itself on CPU 0, is sent to
      CPU 1 and lowers itself there. */
  lemma HarmfulAffinityIsReached() returns (actions: seq<Action>)
    ensures Run(Boot({0, 1}, 2), actions).Ok?
    ensures var s := Run(Boot({0, 1}, 2), actions).state;
      && 0 in s.threads && !Harmless(s.cpus, s.threads[0], {1}) && Exec(s, SetGroupAffinity(0, {1}, 1)).Ok?
      && Exec(Exec(s, SetGroupAffinity(0, {1}, 1)).state, Lower(0, 1)).Fault?
  {
    var boot := Boot({0, 1}, 2);
    assert Run(boot, []) == Ok(boot);
    var started := Thread(0, [], Normal, 0, {0, 1}, {}, {}, None, false);
    var s1, l1 := StepTo(boot, boot, [], Start(0, 0), started);
    var s2, l2 := StepTo(boot, s1, l1, Raise(0, 2), started.(irql := 2, saved := [0], pc := Pinning(0)));
    var pinned := Thread(2, [0], Locking(0), 0, {0}, {0}, {}, None, false);
    var s3, l3 := StepTo(boot, s2, l2, Pin(0), pinned);
    var s4, l4 := StepTo(boot, s3, l3, Lock(0), pinned.(pc := Normal));
    assert 1 in {1} && 1 !in {0};
    MovedThreadFaults(s4);
    actions := l4;
  }

  lemma MovedThreadFaults(s: State)
    requires s.cpus == {0, 1} && 0 in s.threads && s.locks == map[0 := 0]
    requires s.threads[0] == Thread(2, [0], Normal, 0, {0}, {0}, {}, None, false)
    ensures !Harmless(s.cpus, s.threads[0], {1}) && Exec(s, SetGroupAffinity(0, {1}, 1)).Ok?
    ensures Exec(Exec(s, SetGroupAffinity(0, {1}, 1)).state, Lower(0, 1)).Fault?
  {
    assert 1 in {1} && 1 !in {0};
    assert {1} <= s.cpus;
  }

  // ----- affinity set through the other call

  /** KeSetSystemAffinityThreadEx at DISPATCH_LEVEL changes neither where the thread may run nor the
      lock it holds. Nor does the lower that follows apply what was asked for: the cache says it is in
      force already. The thread stays on its CPU, so cache and real affinity agree afterwards exactly if
      that CPU is what was asked for. */
  lemma SystemAffinityIsNotApplied(s: State, t: Tid, affinity: set<nat>, landsOn: nat, landsOn2: nat)
    requires Inv(s) && t in s.threads && s.threads[t].worker.None? && s.threads[t].irql >= DISPATCH_LEVEL
    requires s.threads[t].saved != [] && LeavesDispatch(s.threads[t])
    requires DoSetSystemAffinity(s, t, s.threads[t], affinity, landsOn).Ok?
    ensures var th, th1 := s.threads[t], DoSetSystemAffinity(s, t, s.threads[t], affinity, landsOn).state.threads[t];
      && th1.cpu == th.cpu && th1.actual == th.actual && Held(th1) == Held(th) && th1.saved == th.saved
      && var th2 := Lowered(s.cpus, th1, landsOn2);
         && th2.irql < DISPATCH_LEVEL && th2.cache == affinity && th2.actual == {th.cpu} && th2.cpu == th.cpu
         && (th2.actual == Effective(s.cpus, th2.cache) <==> Effective(s.cpus, affinity) == {th.cpu})
  {
    assert ThreadOk(s.cpus, s.threads[t]);
  }

  // ----- the thread-local variables

  /** One thread's `_usersim_current_irql`, affinity cache and affinity before raising. `saved` is
      what its callers hold. The methods run to the point where a dispatch lock is taken, or from
      the point where one has been released. */
  class ThreadLocals {
    const cpus: set<nat>
    const worker: Option<nat>
    var irql: nat
    var saved: seq<nat>
    var cpu: nat
    var actual: set<nat>
    var cache: set<nat>
    var beforeRaise: set<nat>
    var inRoutine: bool

    ghost function View(pc: Pc): Thread
      reads this
    {
      Thread(irql, saved, pc, cpu, actual, cache, beforeRaise, worker, inRoutine)
    }

    constructor (cpus: set<nat>, cpu: nat)
      ensures View(Normal) == Thread(0, [], Normal, cpu, cpus, {}, {}, None, false) && this.cpus == cpus
    {
      this.cpus, this.cpu, worker := cpus, cpu, None;
      irql, saved, actual, cache, beforeRaise, inRoutine := 0, [], cpus, {}, {}, false;
    }

    /** `granted` is what SetThreadGroupAffinity returns, if it comes to that. */
    method SetCurrentThreadAffinity(affinity: set<nat>, granted: bool, landsOn: nat) returns (ok: bool, previous: set<nat>)
      modifies this
      ensures ok == (affinity == old(cache) || affinity == {} || granted)
      ensures ok ==> previous == old(cache) && forall pc :: View(pc) == SetAffinity(cpus, old(View(pc)), affinity, landsOn)
      ensures !ok ==> forall pc :: View(pc) == old(View(pc))
    {
      previous := cache;
      if affinity == cache {
        ok := true;
      } else if affinity == {} {
        actual, cpu, ok := cpus, landsOn, true;
      } else {
        ok := granted;
        if granted {
          actual, cpu := affinity, landsOn;
        }
      }
      if ok {
        cache := affinity;
      }
    }

    /** The result says which dispatch lock to take. */
    method KfRaiseIrql(newIrql: nat) returns (oldIrql: nat, lock: Option<nat>)
      modifies this
      ensures oldIrql == old(irql)
      ensures lock == if newIrql >= DISPATCH_LEVEL && old(irql) < DISPATCH_LEVEL then Some(old(cpu)) else None
      ensures lock.None? ==> View(Normal) == Raised(old(View(Normal)), newIrql)
      ensures lock.Some? ==> View(Locking(lock.value)) == Pinned(cpus, Raised(old(View(Normal)), newIrql))
      ensures irql == newIrql && (lock.Some? ==> beforeRaise == old(cache) && cache == {old(cpu)})
    {
      oldIrql, lock := irql, None;
      irql, saved := newIrql, saved + [irql];
      if newIrql >= DISPATCH_LEVEL && oldIrql < DISPATCH_LEVEL {
        lock := Some(cpu);
        ghost var pinning := View(Pinning(cpu));
        assert pinning == Raised(old(View(Normal)), newIrql);
        var ok, previous := SetCurrentThreadAffinity({cpu}, true, cpu);
        assert View(pinning.pc) == SetAffinity(cpus, pinning, {pinning.cpu}, pinning.cpu);
        beforeRaise := previous;
      }
    }

    /** The result says which dispatch lock to release first. */
    method KeLowerIrql(newIrql: nat, landsOn: nat) returns (unlock: Option<nat>)
      modifies this
      ensures unlock == if old(irql) >= DISPATCH_LEVEL && newIrql < DISPATCH_LEVEL then Some(old(cpu)) else None
      ensures View(Normal) == LoweredTo(cpus, old(View(Normal)), newIrql, landsOn)
      ensures irql == newIrql && cache == if unlock.Some? then old(beforeRaise) else old(cache)
    {
      unlock := None;
      if irql >= DISPATCH_LEVEL && newIrql < DISPATCH_LEVEL {
        unlock := Some(cpu);
        var ok, previous := SetCurrentThreadAffinity(beforeRaise, true, landsOn);
      }
      irql := newIrql;
      if saved != [] {
        saved := saved[..|saved| - 1];
      }
    }

    /** The step of the machine that the call is. */
    method KeSetSystemAffinityThreadEx(affinity: set<nat>, landsOn: nat, ghost s: State, ghost t: Tid) returns (previous: set<nat>)
      requires s.cpus == cpus && t in s.threads && s.threads[t] == View(Normal)
      requires DoSetSystemAffinity(s, t, s.threads[t], affinity, landsOn).Ok?
      modifies this
      ensures DoSetSystemAffinity(s, t, s.threads[t], affinity, landsOn) == Ok(s.(threads := s.threads[t := View(Normal)]))
      ensures previous == if old(irql) >= DISPATCH_LEVEL then {} else old(cache)
    {
      previous := {};
      if irql >= DISPATCH_LEVEL {
        cache, beforeRaise := affinity, affinity;
      } else {
        var ok;
        ok, previous := SetCurrentThreadAffinity(affinity, true, landsOn);
      }
    }
  }
}
