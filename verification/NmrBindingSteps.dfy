/** Each callback and each critical section on one binding keeps the invariant, and finds the
    binding and the registrations it uses still there. */
module NmrBindingSteps {
  import opened Options
  import opened NmrCore
  import opened NmrTrace
  import opened NmrProtocol
  import opened NmrInvariant
  import opened NmrLocalSteps

  /** The step cannot touch freed memory, and what it leaves is a good state. */
  ghost predicate Safe(r: Outcome) {
    !r.Fault? && (r.Ok? ==> Inv(r.state))
  }

  lemma CommitKeeps(s: State, t: Tid, eff: Effect)
    requires Inv(s) && Local(s, t, eff) && OwnThreadOk(s, t, eff)
    ensures Safe(Commit(s, t, eff))
  {
    LocalKeeps(s, t, eff);
    assert Commit(s, t, eff) == Ok(After(s, t, eff));
  }

  /** A binding in the map whose fields are as its history says. */
  ghost predicate AtHand(s: State, b: BindingId) {
    b in s.core.live && b in s.core.objects && b in s.traces && BindingOk(s.core.objects[b], true, Ph(s, b))
  }

  /** A thread at work on a binding: the binding's fields are as its history says. */
  lemma OwnFacts(s: State, t: Tid, b: BindingId)
    requires TracesOk(s) && RefsOk(s.core) && Owner(Ph(s, b)) == Some(t)
    ensures AtHand(s, b) && s.core.PartiesRegistered(b)
  {
  }

  // ----- the pending actions of perform_bind

  /** The thread goes on with its first pending action, or is done with it. */
  ghost predicate ActionMoves(s: State, t: Tid, th: Thread, eff: Effect)
    requires |eff.events| <= 1 && th.RunningActions? && th.todo != []
  {
    || (exists apc: ActionPc :: eff.thread == Some(th.(apc := apc)) && !apc.NextAction?
                                && PhaseAfter(s, eff) == ActionPhase(t, apc, 0))
    || (eff.thread == Some(RunningActions(th.todo[1..], NextAction)) && PhaseAfter(s, eff).Linked?)
  }

  lemma ActionOwnThread(s: State, t: Tid, th: Thread, eff: Effect)
    requires th.RunningActions? && th.todo != [] && ActionsOk(s, t, th.todo, th.apc)
    requires t in s.threads && th == s.threads[t]
    requires eff.binding == th.todo[0] && Local(s, t, eff) && ActionMoves(s, t, th, eff)
    ensures OwnThreadOk(s, t, eff)
  {
    PhasesAfter(s, t, eff);
    var s' := After(s, t, eff);
    assert forall i :: 1 <= i < |th.todo| ==> Ph(s', th.todo[i]) == Queued(t);
  }

  lemma ActionKeeps(s: State, t: Tid, th: Thread, eff: Effect)
    requires Inv(s) && t in s.threads && th == s.threads[t] && th.RunningActions? && th.todo != []
    requires eff.binding == th.todo[0] && Local(s, t, eff) && ActionMoves(s, t, th, eff)
    ensures Safe(Commit(s, t, eff))
  {
    assert ThreadOk(s, t, th);
    ActionOwnThread(s, t, th, eff);
    CommitKeeps(s, t, eff);
  }

  lemma CallAttachLocal(s: State, t: Tid, th: Thread, eff: Effect)
    requires th.RunningActions? && th.todo != [] && th.apc.NextAction? && ActionsOk(s, t, th.todo, th.apc)
    requires AtHand(s, th.todo[0])
    requires eff == Effect(th.todo[0], s.core.objects[th.todo[0]], [AttachCalled], Some(th.(apc := InAttach)))
    ensures Local(s, t, eff) && ActionMoves(s, t, th, eff)
  {
  }

  lemma CallAttachKeeps(s: State, t: Tid, th: Thread)
    requires Inv(s) && t in s.threads && th == s.threads[t]
    ensures Safe(DoCallAttach(s, t, th))
  {
    if th.RunningActions? && th.apc.NextAction? && th.todo != [] {
      var b := th.todo[0];
      assert ThreadOk(s, t, th);
      OwnFacts(s, t, b);
      var eff := Effect(b, s.core.objects[b], [AttachCalled], Some(th.(apc := InAttach)));
      CallAttachLocal(s, t, th, eff);
      ActionKeeps(s, t, th, eff);
      assert DoCallAttach(s, t, th) == Commit(s, t, eff);
    }
  }

  lemma SaveContextsLocal(s: State, t: Tid, th: Thread, c: bool, p: bool, eff: Effect)
    requires th.RunningActions? && th.todo != [] && th.apc.InAttach? && ActionsOk(s, t, th.todo, th.apc)
    requires AtHand(s, th.todo[0])
    requires eff == Effect(th.todo[0], s.core.objects[th.todo[0]].(clientContext := c, providerContext := p), [], Some(th))
    ensures Local(s, t, eff) && ActionMoves(s, t, th, eff)
  {
  }

  lemma SaveContextsKeeps(s: State, t: Tid, th: Thread, c: bool, p: bool)
    requires Inv(s) && t in s.threads && th == s.threads[t]
    ensures Safe(DoSaveContexts(s, t, th, c, p))
  {
    if th.RunningActions? && th.apc.InAttach? && th.todo != [] {
      var b := th.todo[0];
      assert ThreadOk(s, t, th);
      OwnFacts(s, t, b);
      var eff := Effect(b, s.core.objects[b].(clientContext := c, providerContext := p), [], Some(th));
      SaveContextsLocal(s, t, th, c, p, eff);
      ActionKeeps(s, t, th, eff);
      assert DoSaveContexts(s, t, th, c, p) == Commit(s, t, eff);
    }
  }

  function AttachEffect(o: Binding, th: Thread, success: bool): Effect
    requires th.RunningActions? && th.todo != []
  {
    if success
    then Effect(th.todo[0], MarkReady(o), [AttachReady(o.clientContext, o.providerContext)],
                Some(RunningActions(th.todo[1..], NextAction)))
    else Effect(th.todo[0], o, [AttachFailed], Some(th.(apc := AttachBroken)))
  }

  lemma AttachReturnsLocal(s: State, t: Tid, th: Thread, success: bool, eff: Effect)
    requires th.RunningActions? && th.todo != [] && th.apc.InAttach? && ActionsOk(s, t, th.todo, th.apc)
    requires AtHand(s, th.todo[0])
    requires eff == AttachEffect(s.core.objects[th.todo[0]], th, success)
    ensures Local(s, t, eff) && ActionMoves(s, t, th, eff)
  {
  }

  lemma AttachReturnsKeeps(s: State, t: Tid, th: Thread, success: bool)
    requires Inv(s) && t in s.threads && th == s.threads[t]
    ensures Safe(DoAttachReturns(s, t, th, success))
  {
    if th.RunningActions? && th.apc.InAttach? && th.todo != [] {
      var b := th.todo[0];
      assert ThreadOk(s, t, th);
      OwnFacts(s, t, b);
      var eff := AttachEffect(s.core.objects[b], th, success);
      AttachReturnsLocal(s, t, th, success, eff);
      ActionKeeps(s, t, th, eff);
      assert DoAttachReturns(s, t, th, success) == Commit(s, t, eff);
    }
  }

  // ----- begin_unbind

  /** The thread goes on with the first binding it collected, or is done with it and will report
      pending. */
  ghost predicate UnbindMoves(s: State, t: Tid, th: Thread, eff: Effect)
    requires |eff.events| <= 1 && th.Unbinding? && th.todo != []
  {
    var ph := PhaseAfter(s, eff);
    || (exists step: DetachStep :: eff.thread == Some(th.(pc := InDetach(step)))
                                   && ph.Detaching? && ph.thread == t && ph.step == step)
    || (eff.thread == Some(th.(pc := LastStep)) && ph == Finishing(t, true, 0))
    || (eff.thread == Some(th.(todo := th.todo[1..], pending := true, pc := NextBinding)) && ph.Waiting?)
  }

  lemma UnbindThreadOk(s: State, t: Tid, th: Thread, eff: Effect)
    requires th.Unbinding? && th.todo != [] && ThreadOk(s, t, th)
    requires eff.binding == th.todo[0] && Local(s, t, eff) && UnbindMoves(s, t, th, eff)
    requires Ph(After(s, t, eff), eff.binding) == PhaseAfter(s, eff)
    requires After(s, t, eff).core.Refs(th.side, th.handle) == s.core.Refs(th.side, th.handle)
    ensures ThreadOk(After(s, t, eff), t, eff.thread.value)
  {
    var s' := After(s, t, eff);
    assert s'.core.Deregistering(th.side, th.handle);
    forall b | b in th.todo
      ensures b in s'.core.objects && s'.core.objects[b].Party(th.side) == th.handle
    {
    }
  }

  lemma UnbindOwnThread(s: State, t: Tid, th: Thread, eff: Effect)
    requires th.Unbinding? && th.todo != [] && ThreadOk(s, t, th) && RefsOk(s.core)
    requires t in s.threads && th == s.threads[t]
    requires eff.binding == th.todo[0] && Local(s, t, eff) && UnbindMoves(s, t, th, eff)
    ensures OwnThreadOk(s, t, eff)
  {
    PhasesAfter(s, t, eff);
    LocalRefs(s, t, eff);
    UnbindThreadOk(s, t, th, eff);
    assert eff.record.Party(th.side) == th.handle;
  }

  lemma UnbindKeeps(s: State, t: Tid, th: Thread, eff: Effect)
    requires Inv(s) && t in s.threads && th == s.threads[t] && th.Unbinding? && th.todo != []
    requires eff.binding == th.todo[0] && Local(s, t, eff) && UnbindMoves(s, t, th, eff)
    ensures Safe(Commit(s, t, eff))
  {
    assert ThreadOk(s, t, th);
    UnbindOwnThread(s, t, th, eff);
    CommitKeeps(s, t, eff);
  }

  lemma BeginUnbindLocal(s: State, t: Tid, th: Thread, eff: Effect)
    requires th.Unbinding? && th.todo != [] && th.pc.NextBinding?
    requires AtHand(s, th.todo[0]) && CanBeginUnbind(s.core.objects[th.todo[0]])
    requires eff == Effect(th.todo[0], MarkBeginUnbind(s.core.objects[th.todo[0]]), [UnbindBegun(t)],
                           Some(th.(pc := InDetach(CallClient))))
    ensures Local(s, t, eff) && UnbindMoves(s, t, th, eff)
  {
  }

  lemma TryBeginUnbindKeeps(s: State, t: Tid, th: Thread)
    requires Inv(s) && t in s.threads && th == s.threads[t]
    ensures Safe(DoTryBeginUnbind(s, t, th))
  {
    if th.Unbinding? && th.pc.NextBinding? && th.todo != [] {
      var b := th.todo[0];
      assert ThreadOk(s, t, th);
      assert b in th.todo;
      var o := s.core.objects[b];
      if CanBeginUnbind(o) {
        var eff := Effect(b, MarkBeginUnbind(o), [UnbindBegun(t)], Some(th.(pc := InDetach(CallClient))));
        assert BindingOk(o, b in s.core.live, Ph(s, b));
        BeginUnbindLocal(s, t, th, eff);
        UnbindKeeps(s, t, th, eff);
        assert DoTryBeginUnbind(s, t, th) == Commit(s, t, eff);
      } else {
        SkipKeeps(s, t, th);
      }
    }
  }

  /** `begin_unbind` found the unbind already started: only the thread's own variables change. */
  lemma SkipKeeps(s: State, t: Tid, th: Thread)
    requires Inv(s) && t in s.threads && th == s.threads[t] && th.Unbinding? && th.pc.NextBinding? && th.todo != []
    ensures Inv(s.(threads := s.threads[t := th.(todo := th.todo[1..], pending := true)]))
  {
    var s' := s.(threads := s.threads[t := th.(todo := th.todo[1..], pending := true)]);
    assert ThreadOk(s, t, th);
    assert ThreadOk(s, t, s'.threads[t]);
    ThreadMoves(s, t, s');
  }

  /** A step that changes one thread's variables and nothing else. */
  lemma ThreadMoves(s: State, t: Tid, s': State)
    requires Inv(s) && t in s.threads && !s.threads[t].RunningActions?
    requires s'.core == s.core && s'.traces == s.traces && s'.awaiting == s.awaiting
    requires s'.threads.Keys == s.threads.Keys && s'.threads - {t} == s.threads - {t}
    requires ThreadOk(s, t, s'.threads[t])
    requires Custody(s'.threads[t]) == Custody(s.threads[t])
    ensures Inv(s')
  {
    assert forall b :: Ph(s', b) == Ph(s, b);
    forall u | u in s.threads && u != t
      ensures s'.threads[u] == s.threads[u]
    {
      assert u in s'.threads - {t};
      assert (s'.threads - {t})[u] == (s.threads - {t})[u];
    }
    ThreadsFrame(s, t, s');
    AttachersFrame(s, t, s');
  }

  lemma ThreadsFrame(s: State, t: Tid, s': State)
    requires ThreadsOk(s) && t in s.threads
    requires s'.core == s.core && s'.traces == s.traces
    requires s'.threads.Keys <= s.threads.Keys
    requires forall u :: u in s'.threads && u != t ==> s'.threads[u] == s.threads[u]
    requires t in s'.threads ==> ThreadOk(s, t, s'.threads[t])
    ensures ThreadsOk(s')
  {
  }

  lemma AttachersFrame(s: State, t: Tid, s': State)
    requires AttachersOk(s) && t in s.threads
    requires s'.core == s.core && s'.traces == s.traces
    requires s.threads.Keys <= s'.threads.Keys + {t}
    requires forall u :: u in s.threads && u != t ==> s'.threads[u] == s.threads[u]
    requires s.threads[t].RunningActions? ==> s.threads[t].todo == []
    ensures AttachersOk(s')
  {
  }


  function CallDetachEffect(o: Binding, th: Thread): Effect
    requires th.Unbinding? && th.todo != [] && th.pc.InDetach? && (th.pc.step.CallClient? || th.pc.step.CallProvider?)
  {
    if th.pc.step.CallClient? then
      if o.clientContext
      then Effect(th.todo[0], o, [DetachCalled(Client)], Some(th.(pc := InDetach(InClient))))
      else Effect(th.todo[0], o, [DetachSkipped(Client)], Some(th.(pc := InDetach(CallProvider(false)))))
    else
      var c := th.pc.step.clientPending;
      if o.providerContext
      then Effect(th.todo[0], o, [DetachCalled(Provider)], Some(th.(pc := InDetach(InProvider(c)))))
      else Effect(th.todo[0], o, [DetachSkipped(Provider)], Some(th.(pc := InDetach(Settle(c, false)))))
  }

  lemma CallDetachLocal(s: State, t: Tid, th: Thread, eff: Effect)
    requires th.Unbinding? && th.todo != [] && th.pc.InDetach? && UnbindPcOk(s, t, th.todo, th.pc)
    requires th.pc.step.CallClient? || th.pc.step.CallProvider?
    requires AtHand(s, th.todo[0])
    requires eff == CallDetachEffect(s.core.objects[th.todo[0]], th)
    ensures Local(s, t, eff) && UnbindMoves(s, t, th, eff)
  {
    var step := eff.thread.value.pc.step;
    assert eff.thread == Some(th.(pc := InDetach(step)));
  }

  lemma CallDetachKeeps(s: State, t: Tid, th: Thread)
    requires Inv(s) && t in s.threads && th == s.threads[t]
    ensures Safe(DoCallDetach(s, t, th))
  {
    if th.Unbinding? && th.pc.InDetach? && th.todo != [] && (th.pc.step.CallClient? || th.pc.step.CallProvider?) {
      var b := th.todo[0];
      assert ThreadOk(s, t, th);
      OwnFacts(s, t, b);
      var eff := CallDetachEffect(s.core.objects[b], th);
      CallDetachLocal(s, t, th, eff);
      UnbindKeeps(s, t, th, eff);
      assert DoCallDetach(s, t, th) == Commit(s, t, eff);
    } else if th.Unbinding? && th.pc.InDetach? && th.todo != [] {
      assert ThreadOk(s, t, th);
      OwnFacts(s, t, th.todo[0]);
      assert DoCallDetach(s, t, th).Blocked?;
    }
  }

  function ReturnEffect(o: Binding, th: Thread, pending: bool): Effect
    requires th.Unbinding? && th.todo != [] && th.pc.InDetach? && (th.pc.step.InClient? || th.pc.step.InProvider?)
  {
    if th.pc.step.InClient?
    then Effect(th.todo[0], o, [DetachReturned(Client, pending)], Some(th.(pc := InDetach(CallProvider(pending)))))
    else Effect(th.todo[0], o, [DetachReturned(Provider, pending)],
                Some(th.(pc := InDetach(Settle(th.pc.step.clientPending, pending)))))
  }

  lemma DetachReturnsLocal(s: State, t: Tid, th: Thread, pending: bool, eff: Effect)
    requires th.Unbinding? && th.todo != [] && th.pc.InDetach? && UnbindPcOk(s, t, th.todo, th.pc)
    requires th.pc.step.InClient? || th.pc.step.InProvider?
    requires AtHand(s, th.todo[0])
    requires eff == ReturnEffect(s.core.objects[th.todo[0]], th, pending)
    ensures Local(s, t, eff) && UnbindMoves(s, t, th, eff)
  {
    var step := eff.thread.value.pc.step;
    assert eff.thread == Some(th.(pc := InDetach(step)));
  }

  lemma DetachReturnsKeeps(s: State, t: Tid, th: Thread, pending: bool)
    requires Inv(s) && t in s.threads && th == s.threads[t]
    ensures Safe(DoDetachReturns(s, t, th, pending))
  {
    if th.Unbinding? && th.pc.InDetach? && th.todo != [] {
      var b := th.todo[0];
      assert ThreadOk(s, t, th);
      OwnFacts(s, t, b);
      if th.pc.step.InClient? || th.pc.step.InProvider? {
        var eff := ReturnEffect(s.core.objects[b], th, pending);
        DetachReturnsLocal(s, t, th, pending, eff);
        UnbindKeeps(s, t, th, eff);
        assert DoDetachReturns(s, t, th, pending) == Commit(s, t, eff);
      } else {
        assert DoDetachReturns(s, t, th, pending).Blocked?;
      }
    }
  }

  function SettleEffect(o: Binding, th: Thread): Effect
    requires th.Unbinding? && th.todo != [] && th.pc.InDetach? && th.pc.step.Settle?
  {
    var o' := SettleUnbind(o, th.pc.step.clientPending, th.pc.step.providerPending);
    Effect(th.todo[0], o', [Settled],
           Some(if UnbindFinished(o') then th.(pc := LastStep)
                else th.(todo := th.todo[1..], pending := true, pc := NextBinding)))
  }

  lemma SettleLocal(s: State, t: Tid, th: Thread, eff: Effect)
    requires th.Unbinding? && th.todo != [] && th.pc.InDetach? && UnbindPcOk(s, t, th.todo, th.pc)
    requires th.pc.step.Settle?
    requires AtHand(s, th.todo[0])
    requires eff == SettleEffect(s.core.objects[th.todo[0]], th)
    ensures Local(s, t, eff) && UnbindMoves(s, t, th, eff)
  {
  }

  lemma SettleKeeps(s: State, t: Tid, th: Thread)
    requires Inv(s) && t in s.threads && th == s.threads[t]
    ensures Safe(DoSettle(s, t, th))
  {
    if th.Unbinding? && th.pc.InDetach? && th.pc.step.Settle? && th.todo != [] {
      var b := th.todo[0];
      assert ThreadOk(s, t, th);
      OwnFacts(s, t, b);
      var eff := SettleEffect(s.core.objects[b], th);
      SettleLocal(s, t, th, eff);
      UnbindKeeps(s, t, th, eff);
      assert DoSettle(s, t, th) == Commit(s, t, eff);
    }
  }

  // ----- binding_detach_client_complete and binding_detach_provider_complete

  function CompleteEffect(o: Binding, t: Tid, b: BindingId, side: Side): Effect {
    var o' := MarkDetachComplete(o, side.Other());
    Effect(b, o', [DetachCompleted(side, t)], if UnbindFinished(o') then Some(CompletingDetach(b)) else None)
  }

  lemma CompleteDetachLocal(s: State, t: Tid, b: BindingId, side: Side, eff: Effect)
    requires AtHand(s, b) && UnbindsOk(s) && t !in s.threads && s.core.objects[b].StatusOf(side.Other()).UnbindPending?
    requires eff == CompleteEffect(s.core.objects[b], t, b, side)
    ensures Local(s, t, eff) && OwnThreadOk(s, t, eff)
  {
    assert Ph(s, b).Waiting?;
    PhasesAfter(s, t, eff);
  }

  lemma CompleteDetachKeeps(s: State, t: Tid, b: BindingId, side: Side)
    requires Inv(s)
    ensures Safe(DoCompleteDetach(s, t, b, side))
  {
    if t !in s.threads && b in s.core.live && s.core.objects[b].StatusOf(side.Other()).UnbindPending? {
      var eff := CompleteEffect(s.core.objects[b], t, b, side);
      assert BindingOk(s.core.objects[b], b in s.core.live, Ph(s, b));
      CompleteDetachLocal(s, t, b, side, eff);
      CommitKeeps(s, t, eff);
      assert DoCompleteDetach(s, t, b, side) == Commit(s, t, eff);
    }
  }
}
