/**
 The Network Module Registrar as a state machine. A step is one critical section of
 `src/nmr_impl.cpp`, or the call or the return of one callback made outside the lock. Threads keep
 across steps what the program keeps in local variables: the pending actions of `perform_bind`,
 the bindings that `perform_unbind` has collected, the detach results of `begin_unbind`.
 */
module NmrProtocol {
  import opened Options
  import opened NmrCore
  import opened NmrTrace

  datatype ActionPc = NextAction | InAttach | AttachBroken

  datatype UnbindPc = NextBinding | InDetach(step: DetachStep) | LastStep

  datatype Thread =
    | Registering(side: Side, handle: Handle)
    | RunningActions(todo: seq<BindingId>, apc: ActionPc)
    | Deregistering(side: Side, handle: Handle)
    | Unbinding(side: Side, handle: Handle, todo: seq<BindingId>, pending: bool, pc: UnbindPc)
    | Removing(side: Side, handle: Handle, waited: bool)
    | CompletingDetach(binding: BindingId)

  /** `traces` and `awaiting` are history: what has happened to each binding, and the
      registrations whose deregistration has returned pending and is not yet waited for. */
  datatype State = State(
    core: Core,
    threads: map<Tid, Thread>,
    traces: map<BindingId, seq<Event>>,
    awaiting: set<(Side, Handle)>)

  const INIT := State(EMPTY, map[], map[], {})

  datatype Action =
    | Register(t: Tid, side: Side, npi: Option<int>, hasCleanup: bool)
    | Bind(t: Tid, targets: seq<Handle>)
    | CallAttach(t: Tid)
    | SaveContexts(t: Tid, clientContext: bool, providerContext: bool)
    | AttachReturns(t: Tid, success: bool)
    | Deregister(t: Tid, side: Side, handle: Handle)
    | CollectBindings(t: Tid, order: seq<BindingId>)
    | TryBeginUnbind(t: Tid)
    | CallDetach(t: Tid)
    | DetachReturns(t: Tid, pending: bool)
    | SettleDetach(t: Tid)
    | CompleteDetach(t: Tid, binding: BindingId, side: Side)
    | FinishUnbind(t: Tid)
    | EndLoop(t: Tid)
    | WaitForDeregister(t: Tid, side: Side, handle: Handle)
    | FinishRemove(t: Tid)

  /** Blocked: the action is not this thread's next step, must wait, or breaks the callers'
      contract. Fault: the step would use a binding or a registration that is no longer there. */
  datatype Outcome = Ok(state: State) | Blocked | Fault

  // ----- steps on one binding

  /** Thread `t` (which then continues as `thread`, or ends) changes one binding object. */
  datatype Effect = Effect(binding: BindingId, record: Binding, events: seq<Event>, thread: Option<Thread>)

  function SetThread(threads: map<Tid, Thread>, t: Tid, thread: Option<Thread>): map<Tid, Thread> {
    if thread.Some? then threads[t := thread.value] else threads - {t}
  }

  function Commit(s: State, t: Tid, eff: Effect): Outcome {
    var b := eff.binding;
    if b !in s.traces then Fault
    else
      Ok(s.(core := s.core.(objects := s.core.objects[b := eff.record]),
            traces := s.traces[b := s.traces[b] + eff.events],
            threads := SetThread(s.threads, t, eff.thread)))
  }

  function DoCallAttach(s: State, t: Tid, th: Thread): Outcome {
    if !(th.RunningActions? && th.apc.NextAction? && th.todo != []) then Blocked
    else if !s.core.PartiesRegistered(th.todo[0]) then Fault
    else Commit(s, t, Effect(th.todo[0], s.core.objects[th.todo[0]], [AttachCalled], Some(th.(apc := InAttach))))
  }

  /** `client_attach_provider`, called by the client from inside its attach callback. */
  function DoSaveContexts(s: State, t: Tid, th: Thread, c: bool, p: bool): Outcome {
    if !(th.RunningActions? && th.apc.InAttach? && th.todo != []) then Blocked
    else if !(th.todo[0] in s.core.live && s.core.PartiesRegistered(th.todo[0])) then Fault
    else
      var o := s.core.objects[th.todo[0]];
      Commit(s, t, Effect(th.todo[0], o.(clientContext := c, providerContext := p), [], Some(th)))
  }

  function DoAttachReturns(s: State, t: Tid, th: Thread, success: bool): Outcome {
    if !(th.RunningActions? && th.apc.InAttach? && th.todo != []) then Blocked
    else if th.todo[0] !in s.core.objects then Fault
    else
      var o := s.core.objects[th.todo[0]];
      if success then
        Commit(s, t, Effect(th.todo[0], MarkReady(o), [AttachReady(o.clientContext, o.providerContext)],
                            Some(RunningActions(th.todo[1..], NextAction))))
      else
        Commit(s, t, Effect(th.todo[0], o, [AttachFailed], Some(th.(apc := AttachBroken))))
  }

  function DoTryBeginUnbind(s: State, t: Tid, th: Thread): Outcome {
    if !(th.Unbinding? && th.pc.NextBinding? && th.todo != []) then Blocked
    else if th.todo[0] !in s.core.objects then Fault
    else
      var o := s.core.objects[th.todo[0]];
      if CanBeginUnbind(o) then
        Commit(s, t, Effect(th.todo[0], MarkBeginUnbind(o), [UnbindBegun(t)], Some(th.(pc := InDetach(CallClient)))))
      else
        Ok(s.(threads := s.threads[t := th.(todo := th.todo[1..], pending := true)]))
  }

  function DoCallDetach(s: State, t: Tid, th: Thread): Outcome {
    if !(th.Unbinding? && th.pc.InDetach? && th.todo != []) then Blocked
    else if !s.core.PartiesRegistered(th.todo[0]) then Fault
    else
      var b := th.todo[0];
      var o := s.core.objects[b];
      match th.pc.step
      case CallClient =>
        if o.clientContext
        then Commit(s, t, Effect(b, o, [DetachCalled(Client)], Some(th.(pc := InDetach(InClient)))))
        else Commit(s, t, Effect(b, o, [DetachSkipped(Client)], Some(th.(pc := InDetach(CallProvider(false))))))
      case CallProvider(c) =>
        if o.providerContext
        then Commit(s, t, Effect(b, o, [DetachCalled(Provider)], Some(th.(pc := InDetach(InProvider(c))))))
        else Commit(s, t, Effect(b, o, [DetachSkipped(Provider)], Some(th.(pc := InDetach(Settle(c, false))))))
      case _ => Blocked
  }

  function DoDetachReturns(s: State, t: Tid, th: Thread, pending: bool): Outcome {
    if !(th.Unbinding? && th.pc.InDetach? && th.todo != []) then Blocked
    else if th.todo[0] !in s.core.objects then Fault
    else
      var b := th.todo[0];
      var o := s.core.objects[b];
      match th.pc.step
      case InClient =>
        Commit(s, t, Effect(b, o, [DetachReturned(Client, pending)], Some(th.(pc := InDetach(CallProvider(pending))))))
      case InProvider(c) =>
        Commit(s, t, Effect(b, o, [DetachReturned(Provider, pending)], Some(th.(pc := InDetach(Settle(c, pending))))))
      case _ => Blocked
  }

  function DoSettle(s: State, t: Tid, th: Thread): Outcome {
    if !(th.Unbinding? && th.pc.InDetach? && th.pc.step.Settle? && th.todo != []) then Blocked
    else if th.todo[0] !in s.core.objects then Fault
    else
      var o := SettleUnbind(s.core.objects[th.todo[0]], th.pc.step.clientPending, th.pc.step.providerPending);
      var next := if UnbindFinished(o) then th.(pc := LastStep)
                  else th.(todo := th.todo[1..], pending := true, pc := NextBinding);
      Commit(s, t, Effect(th.todo[0], o, [Settled], Some(next)))
  }

  /** `side`'s pending detach has ended; the status it settles is the other side's. The guard on
      the status is the program's assertion. An unknown handle throws and changes nothing. */
  function DoCompleteDetach(s: State, t: Tid, b: BindingId, side: Side): Outcome {
    if t in s.threads then Blocked
    else if b !in s.core.live then Ok(s)
    else if b !in s.core.objects then Fault
    else if !s.core.objects[b].StatusOf(side.Other()).UnbindPending? then Blocked
    else
      var o := MarkDetachComplete(s.core.objects[b], side.Other());
      var next := if UnbindFinished(o) then Some(CompletingDetach(b)) else None;
      Commit(s, t, Effect(b, o, [DetachCompleted(side, t)], next))
  }

  // ----- unbind_complete

  /** The binding for which a thread is about to run `unbind_complete`. */
  function Finishes(th: Thread): Option<BindingId> {
    match th
    case RunningActions(todo, apc) => if apc.AttachBroken? && todo != [] then Some(todo[0]) else None
    case Unbinding(_, _, todo, _, pc) => if pc.LastStep? && todo != [] then Some(todo[0]) else None
    case CompletingDetach(b) => Some(b)
    case _ => None
  }

  function AfterFinish(th: Thread): Option<Thread>
    requires Finishes(th).Some?
  {
    match th
    case RunningActions(todo, _) => Some(RunningActions(todo[1..], NextAction))
    case Unbinding(_, _, todo, _, _) => Some(th.(todo := todo[1..], pc := NextBinding))
    case CompletingDetach(_) => None
  }

  function CleanupEvents(core: Core, b: BindingId): seq<Event>
    requires core.PartiesRegistered(b)
  {
    (if CallsCleanup(core, b, Client) then [CleanedUp(Client)] else [])
    + (if CallsCleanup(core, b, Provider) then [CleanedUp(Provider)] else [])
    + [Erased]
  }

  function DoFinishUnbind(s: State, t: Tid, th: Thread): Outcome {
    if Finishes(th).None? then Blocked
    else
      var b := Finishes(th).value;
      if !(b in s.traces && s.core.PartiesRegistered(b)) then Fault
      else
        Ok(s.(core := Erase(s.core, b),
              traces := s.traces[b := s.traces[b] + CleanupEvents(s.core, b)],
              threads := SetThread(s.threads, t, AfterFinish(th))))
  }

  // ----- registration and deregistration

  function DoRegister(s: State, t: Tid, side: Side, npi: Option<int>, hasCleanup: bool): Outcome {
    if t in s.threads then Blocked
    else
      Ok(s.(core := Add(s.core, side, npi, hasCleanup),
            threads := s.threads[t := Registering(side, s.core.nextHandle)]))
  }

  ghost function DoBind(s: State, t: Tid, th: Thread, targets: seq<Handle>): Outcome {
    if !th.Registering? then Blocked
    else if !s.core.Has(th.side, th.handle) then Ok(s.(threads := s.threads - {t}))
    else if !Enumerates(targets, s.core.Regs(th.side.Other()).Keys) then Blocked
    else
      var (core, ids) := BindAll(s.core, th.side, th.handle, targets);
      Ok(s.(core := core,
            threads := s.threads[t := RunningActions(ids, NextAction)],
            traces := s.traces + map b | b in ids :: [Created(t, th.side)]))
  }

  /** Callers deregister a registration once. An unknown handle throws. */
  function DoDeregister(s: State, t: Tid, side: Side, h: Handle): Outcome {
    if t in s.threads then Blocked
    else if !s.core.Has(side, h) then Ok(s)
    else if s.core.Deregistering(side, h) then Blocked
    else
      Ok(s.(core := Deactivate(s.core, side, h), threads := s.threads[t := Deregistering(side, h)]))
  }

  ghost function DoCollect(s: State, t: Tid, th: Thread, order: seq<BindingId>): Outcome {
    if !th.Deregistering? then Blocked
    else if !s.core.Has(th.side, th.handle) then Ok(s.(threads := s.threads - {t}))
    else if !Enumerates(order, s.core.Refs(th.side, th.handle)) then Blocked
    else Ok(s.(threads := s.threads[t := Unbinding(th.side, th.handle, order, false, NextBinding)]))
  }

  function DoEndLoop(s: State, t: Tid, th: Thread): Outcome {
    if th.RunningActions? && th.todo == [] then Ok(s.(threads := s.threads - {t}))
    else if !(th.Unbinding? && th.todo == []) then Blocked
    else if th.pending then
      Ok(s.(threads := s.threads - {t}, awaiting := s.awaiting + {(th.side, th.handle)}))
    else if !s.core.Has(th.side, th.handle) then Ok(s.(threads := s.threads - {t}))
    else Ok(s.(threads := s.threads[t := Removing(th.side, th.handle, false)]))
  }

  /** Callers wait once, after a deregistration that returned pending. */
  function DoWait(s: State, t: Tid, side: Side, h: Handle): Outcome {
    if t in s.threads then Blocked
    else if !s.core.Has(side, h) then Ok(s)
    else if (side, h) !in s.awaiting then Blocked
    else
      Ok(s.(awaiting := s.awaiting - {(side, h)}, threads := s.threads[t := Removing(side, h, true)]))
  }

  /** The end of `remove`: waits for the binding count to be zero, then erases the entry. */
  function DoFinishRemove(s: State, t: Tid, th: Thread): Outcome {
    if !th.Removing? then Blocked
    else if !s.core.Has(th.side, th.handle) then Fault
    else if s.core.Regs(th.side)[th.handle].bindingCount != 0 then Blocked
    else Ok(s.(core := Remove(s.core, th.side, th.handle), threads := s.threads - {t}))
  }

  ghost function Exec(s: State, a: Action): Outcome {
    match a
    case Register(t, side, npi, hasCleanup) => DoRegister(s, t, side, npi, hasCleanup)
    case Deregister(t, side, h) => DoDeregister(s, t, side, h)
    case CompleteDetach(t, b, side) => DoCompleteDetach(s, t, b, side)
    case WaitForDeregister(t, side, h) => DoWait(s, t, side, h)
    case _ =>
      if a.t !in s.threads then Blocked
      else
        var th := s.threads[a.t];
        match a
        case Bind(t, targets) => DoBind(s, t, th, targets)
        case CallAttach(t) => DoCallAttach(s, t, th)
        case SaveContexts(t, c, p) => DoSaveContexts(s, t, th, c, p)
        case AttachReturns(t, success) => DoAttachReturns(s, t, th, success)
        case CollectBindings(t, order) => DoCollect(s, t, th, order)
        case TryBeginUnbind(t) => DoTryBeginUnbind(s, t, th)
        case CallDetach(t) => DoCallDetach(s, t, th)
        case DetachReturns(t, pending) => DoDetachReturns(s, t, th, pending)
        case SettleDetach(t) => DoSettle(s, t, th)
        case FinishUnbind(t) => DoFinishUnbind(s, t, th)
        case EndLoop(t) => DoEndLoop(s, t, th)
        case FinishRemove(t) => DoFinishRemove(s, t, th)
        case _ => Blocked
  }

  /** The outcome of a run: the sequence of actions in any interleaving of any number of threads. */
  ghost function Run(s: State, actions: seq<Action>): Outcome {
    if actions == [] then Ok(s)
    else
      var before := Run(s, actions[..|actions| - 1]);
      if before.Ok? then Exec(before.state, actions[|actions| - 1]) else before
  }
}
