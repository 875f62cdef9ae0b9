/** The steps in which a thread changes one binding object keep the invariant. */
module NmrLocalSteps {
  import opened Options
  import opened NmrCore
  import opened NmrTrace
  import opened NmrProtocol
  import opened NmrInvariant

  function PhaseAfter(s: State, eff: Effect): Phase
    requires |eff.events| <= 1
  {
    if eff.events == [] then Ph(s, eff.binding) else PhaseNext(Ph(s, eff.binding), eff.events[0])
  }

  /** What makes a change to one binding harmless to everybody else: no other thread owns it,
      before or after, and its fields follow its history. */
  ghost predicate Local(s: State, t: Tid, eff: Effect) {
    && |eff.events| <= 1
    && eff.binding in s.core.objects && eff.binding in s.core.live && eff.binding in s.traces
    && eff.record.client == s.core.objects[eff.binding].client
    && eff.record.provider == s.core.objects[eff.binding].provider
    && (Owner(Ph(s, eff.binding)) == None || Owner(Ph(s, eff.binding)) == Some(t))
    && BindingOk(eff.record, true, PhaseAfter(s, eff))
  }

  function After(s: State, t: Tid, eff: Effect): State
    requires eff.binding in s.traces
  {
    s.(core := s.core.(objects := s.core.objects[eff.binding := eff.record]),
       traces := s.traces[eff.binding := s.traces[eff.binding] + eff.events],
       threads := SetThread(s.threads, t, eff.thread))
  }

  lemma PhasesAfter(s: State, t: Tid, eff: Effect)
    requires Local(s, t, eff)
    ensures Ph(After(s, t, eff), eff.binding) == PhaseAfter(s, eff)
    ensures forall b :: b != eff.binding ==> Ph(After(s, t, eff), b) == Ph(s, b)
  {
    if eff.events == [] {
      assert s.traces[eff.binding] + eff.events == s.traces[eff.binding];
    } else {
      assert eff.events == [eff.events[0]];
      PhaseAppend(s.traces[eff.binding], eff.events[0]);
    }
  }

  lemma LocalTraces(s: State, t: Tid, eff: Effect)
    requires Local(s, t, eff) && TracesOk(s)
    ensures TracesOk(After(s, t, eff))
  {
    PhasesAfter(s, t, eff);
  }

  /** Changing a binding's status or contexts does not change who refers to whom. */
  lemma SameRefs(c: Core, d: Core, side: Side, h: Handle)
    requires c.live == d.live && c.objects.Keys == d.objects.Keys
    requires forall b :: b in c.objects ==> c.objects[b].Party(side) == d.objects[b].Party(side)
    ensures c.Refs(side, h) == d.Refs(side, h)
  {
  }

  lemma SameParties(c: Core, d: Core)
    requires RefsOk(c)
    requires d == c.(objects := d.objects) && c.objects.Keys == d.objects.Keys
    requires forall b :: b in c.objects ==>
      c.objects[b].client == d.objects[b].client && c.objects[b].provider == d.objects[b].provider
    ensures RefsOk(d)
    ensures forall side: Side, h: Handle :: d.Refs(side, h) == c.Refs(side, h)
  {
    forall side: Side, h: Handle
      ensures d.Refs(side, h) == c.Refs(side, h)
      ensures d.Has(side, h) ==> c.Has(side, h) && d.Regs(side)[h] == c.Regs(side)[h]
    {
      SameRefs(c, d, side, h);
    }
  }

  lemma LocalRefs(s: State, t: Tid, eff: Effect)
    requires Local(s, t, eff) && RefsOk(s.core)
    ensures RefsOk(After(s, t, eff).core)
    ensures forall side: Side, h: Handle :: After(s, t, eff).core.Refs(side, h) == s.core.Refs(side, h)
  {
    SameParties(s.core, After(s, t, eff).core);
  }

  lemma LocalOtherActions(s: State, t: Tid, eff: Effect, u: Tid, todo: seq<BindingId>, apc: ActionPc)
    requires Local(s, t, eff) && u != t && ActionsOk(s, u, todo, apc)
    ensures ActionsOk(After(s, t, eff), u, todo, apc)
  {
  }

  lemma LocalOtherUnbinding(s: State, t: Tid, eff: Effect, u: Tid, th: Thread)
    requires Local(s, t, eff) && RefsOk(s.core) && u != t && ThreadOk(s, u, th) && th.Unbinding?
    ensures ThreadOk(After(s, t, eff), u, th)
  {
    PhasesAfter(s, t, eff);
    LocalRefs(s, t, eff);
    assert After(s, t, eff).core.Refs(th.side, th.handle) == s.core.Refs(th.side, th.handle);
  }

  /** A thread that is not `t` does not notice. */
  lemma LocalOther(s: State, t: Tid, eff: Effect, u: Tid, th: Thread)
    requires Local(s, t, eff) && RefsOk(s.core) && u != t && ThreadOk(s, u, th)
    ensures ThreadOk(After(s, t, eff), u, th)
  {
    if th.RunningActions? {
      LocalOtherActions(s, t, eff, u, th.todo, th.apc);
    } else if th.Unbinding? {
      LocalOtherUnbinding(s, t, eff, u, th);
    } else {
      PhasesAfter(s, t, eff);
      LocalRefs(s, t, eff);
    }
  }

  /** What a step must still show about its own thread. */
  ghost predicate OwnThreadOk(s: State, t: Tid, eff: Effect)
    requires Local(s, t, eff)
  {
    && (eff.thread.Some? ==>
          && ThreadOk(After(s, t, eff), t, eff.thread.value)
          && (Custody(eff.thread.value).Some? ==>
                t in s.threads && Custody(s.threads[t]) == Custody(eff.thread.value)))
    && (PhaseAfter(s, eff).Queued? || PhaseAfter(s, eff).Attaching? ==>
          PhaseAfter(s, eff).thread == t && eff.thread.Some? && eff.thread.value.RunningActions?
          && eff.binding in eff.thread.value.todo)
    && (t in s.threads && s.threads[t].RunningActions? ==>
          eff.thread.Some? && eff.thread.value.RunningActions?
          && forall b :: b in s.threads[t].todo && b != eff.binding ==> b in eff.thread.value.todo)
    && (UnbindStarted(PhaseAfter(s, eff)) ==>
          Leaving(s.core, Client, eff.record.client) || Leaving(s.core, Provider, eff.record.provider))
  }

  lemma LocalThreads(s: State, t: Tid, eff: Effect)
    requires Local(s, t, eff) && RefsOk(s.core) && ThreadsOk(s) && OwnThreadOk(s, t, eff)
    ensures ThreadsOk(After(s, t, eff))
  {
    var s' := After(s, t, eff);
    forall u | u in s'.threads
      ensures ThreadOk(s', u, s'.threads[u])
    {
      if u != t {
        LocalOther(s, t, eff, u, s.threads[u]);
      }
    }
  }

  lemma LocalCustody(s: State, t: Tid, eff: Effect)
    requires Local(s, t, eff) && CustodyOk(s) && OwnThreadOk(s, t, eff)
    ensures CustodyOk(After(s, t, eff))
  {
  }

  lemma LocalAttachers(s: State, t: Tid, eff: Effect)
    requires Local(s, t, eff) && AttachersOk(s) && OwnThreadOk(s, t, eff)
    ensures AttachersOk(After(s, t, eff))
  {
    PhasesAfter(s, t, eff);
    var s' := After(s, t, eff);
    forall b | b in s'.core.objects && (Ph(s', b).Queued? || Ph(s', b).Attaching?)
      ensures Attends(s', Ph(s', b).thread, b)
    {
      if b != eff.binding {
        assert Attends(s, Ph(s, b).thread, b);
      }
    }
  }

  lemma LocalUnbinds(s: State, t: Tid, eff: Effect)
    requires Local(s, t, eff) && UnbindsOk(s) && OwnThreadOk(s, t, eff)
    ensures UnbindsOk(After(s, t, eff))
  {
    PhasesAfter(s, t, eff);
  }

  lemma LocalKeeps(s: State, t: Tid, eff: Effect)
    requires Inv(s) && Local(s, t, eff) && OwnThreadOk(s, t, eff)
    ensures Inv(After(s, t, eff))
  {
    LocalTraces(s, t, eff);
    LocalRefs(s, t, eff);
    LocalThreads(s, t, eff);
    LocalCustody(s, t, eff);
    LocalAttachers(s, t, eff);
    LocalUnbinds(s, t, eff);
  }
}
