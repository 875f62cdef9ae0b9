/**
 The inductive invariant of the registrar: what holds whenever the lock is free, in every
 interleaving. It is split into parts that are preserved for separate reasons.
 */
module NmrInvariant {
  import opened Options
  import opened NmrCore
  import opened NmrTrace
  import opened NmrProtocol

  function Ph(s: State, b: BindingId): Phase {
    if b in s.traces then PhaseOf(s.traces[b]) else Nil
  }

  /** The fields of a binding are what its history says they are. */
  ghost predicate BindingOk(o: Binding, live: bool, ph: Phase) {
    && ph != Nil && ph != Bad
    && o.clientStatus == StatusIn(ph, Client)
    && o.providerStatus == StatusIn(ph, Provider)
    && (live <==> !ph.Closed?)
    && (ph.Linked? || ph.Detaching? ==> o.clientContext == ph.clientContext && o.providerContext == ph.providerContext)
    && (ph.Finishing? ==> ph.cleaned == 0)
    && (ph.Waiting? ==> ph.clientOpen || ph.providerOpen)
  }

  ghost predicate TracesOk(s: State) {
    && s.traces.Keys == s.core.objects.Keys
    && forall b :: b in s.core.objects ==> BindingOk(s.core.objects[b], b in s.core.live, Ph(s, b))
  }

  ghost predicate Bounded(core: Core) {
    && core.live <= core.objects.Keys
    && (forall b :: b in core.objects ==> b < core.nextBinding)
    && (forall b :: b in core.objects ==>
         core.objects[b].client < core.nextHandle && core.objects[b].provider < core.nextHandle)
    && (forall side: Side, h: Handle :: core.Has(side, h) ==> h < core.nextHandle)
  }

  ghost predicate Counted(core: Core) {
    forall side: Side, h: Handle :: core.Has(side, h) ==> core.Regs(side)[h].bindingCount == |core.Refs(side, h)|
  }

  /** Reference counts are exact, and a binding in the map keeps both its registrations. */
  ghost predicate RefsOk(core: Core) {
    && Bounded(core)
    && (forall b :: b in core.live ==> core.PartiesRegistered(b))
    && Counted(core)
  }

  function ActionPhase(t: Tid, apc: ActionPc, i: nat): Phase {
    if i > 0 || apc.NextAction? then Queued(t)
    else if apc.InAttach? then Attaching(t)
    else Finishing(t, false, 0)
  }

  ghost predicate ActionsOk(s: State, t: Tid, todo: seq<BindingId>, apc: ActionPc) {
    && (!apc.NextAction? ==> todo != [])
    && (forall i, j :: 0 <= i < j < |todo| ==> todo[i] != todo[j])
    && (forall i :: 0 <= i < |todo| ==> Ph(s, todo[i]) == ActionPhase(t, apc, i))
  }

  ghost predicate UnbindPcOk(s: State, t: Tid, todo: seq<BindingId>, pc: UnbindPc) {
    match pc
    case NextBinding => true
    case InDetach(step) =>
      todo != [] && Ph(s, todo[0]).Detaching? && Ph(s, todo[0]).thread == t && Ph(s, todo[0]).step == step
    case LastStep => todo != [] && Ph(s, todo[0]) == Finishing(t, true, 0)
  }

  ghost predicate ThreadOk(s: State, t: Tid, th: Thread) {
    match th
    case Registering(side, h) => h < s.core.nextHandle
    case RunningActions(todo, apc) => ActionsOk(s, t, todo, apc)
    case Deregistering(side, h) => s.core.Deregistering(side, h)
    case Unbinding(side, h, todo, pending, pc) =>
      && s.core.Deregistering(side, h)
      && (forall b :: b in todo ==> b in s.core.objects && s.core.objects[b].Party(side) == h)
      && UnbindPcOk(s, t, todo, pc)
      && (!pending ==> forall b :: b in s.core.Refs(side, h) ==> b in todo)
    case Removing(side, h, waited) =>
      && s.core.Deregistering(side, h)
      && (!waited ==> s.core.Refs(side, h) == {})
    case CompletingDetach(b) => Ph(s, b) == Finishing(t, true, 0)
  }

  ghost predicate ThreadsOk(s: State) {
    forall t :: t in s.threads ==> ThreadOk(s, t, s.threads[t])
  }

  /** The registration a thread is taking away. */
  function Custody(th: Thread): Option<(Side, Handle)> {
    match th
    case Deregistering(side, h) => Some((side, h))
    case Unbinding(side, h, _, _, _) => Some((side, h))
    case Removing(side, h, _) => Some((side, h))
    case _ => None
  }

  ghost predicate CustodyOk(s: State) {
    && (forall t, u :: t in s.threads && u in s.threads && t != u && Custody(s.threads[t]).Some? ==>
          Custody(s.threads[t]) != Custody(s.threads[u]))
    && (forall t :: t in s.threads && Custody(s.threads[t]).Some? ==> Custody(s.threads[t]).value !in s.awaiting)
    && (forall side: Side, h: Handle :: (side, h) in s.awaiting ==> s.core.Deregistering(side, h))
  }

  /** A binding whose attach is not over belongs to a thread that will get to it. */
  ghost predicate AttachersOk(s: State) {
    forall b :: b in s.core.objects && (Ph(s, b).Queued? || Ph(s, b).Attaching?) ==>
      Attends(s, Ph(s, b).thread, b)
  }

  ghost predicate Attends(s: State, t: Tid, b: BindingId) {
    t in s.threads && s.threads[t].RunningActions? && b in s.threads[t].todo
  }

  ghost predicate Leaving(core: Core, side: Side, h: Handle) {
    !core.Has(side, h) || core.Deregistering(side, h)
  }

  predicate UnbindStarted(ph: Phase) {
    ph.Detaching? || ph.Waiting? || (ph.Finishing? && ph.attached) || (ph.Closed? && ph.attached)
  }

  /** Unbinding starts only because one of the two parties is going away. */
  ghost predicate UnbindsOk(s: State) {
    forall b :: b in s.core.objects && UnbindStarted(Ph(s, b)) ==>
      Leaving(s.core, Client, s.core.objects[b].client) || Leaving(s.core, Provider, s.core.objects[b].provider)
  }

  ghost predicate Inv(s: State) {
    TracesOk(s) && RefsOk(s.core) && ThreadsOk(s) && CustodyOk(s) && AttachersOk(s) && UnbindsOk(s)
  }
}
