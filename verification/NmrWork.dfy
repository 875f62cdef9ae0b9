/** Nothing the registrar has begun is forgotten: a binding in the middle of `begin_unbind` or
    `unbind_complete` has a thread at work on it, and a deregistering registration has a thread that
    takes it away or a caller that has been told to wait. */
module NmrWork {
  import opened Options
  import opened NmrCore
  import opened NmrTrace
  import opened NmrProtocol
  import opened NmrInvariant
  import opened NmrLocalSteps
  import opened NmrBindingSteps
  import opened NmrRegistrationSteps
  import opened NmrQuiet
  import opened NmrSafety

  predicate Busy(ph: Phase) {
    ph.Detaching? || ph.Finishing?
  }

  ghost predicate WorkedOn(s: State, t: Tid, b: BindingId) {
    t in s.threads && WorksOn(s.threads[t]) == Some(b)
  }

  ghost predicate Workers(s: State) {
    forall b :: b in s.core.objects && Busy(Ph(s, b)) ==> WorkedOn(s, Ph(s, b).thread, b)
  }

  /** No binding is collected twice by one thread. */
  ghost predicate Apart(th: Thread) {
    th.Unbinding? ==> forall i, j :: 0 <= i < j < |th.todo| ==> th.todo[i] != th.todo[j]
  }

  ghost predicate Todos(s: State) {
    forall t :: t in s.threads ==> Apart(s.threads[t])
  }

  ghost predicate HeldBy(s: State, side: Side, h: Handle) {
    (side, h) in s.awaiting || exists t :: t in s.threads && Custody(s.threads[t]) == Some((side, h))
  }

  ghost predicate Holders(s: State) {
    forall side: Side, h: Handle :: s.core.Deregistering(side, h) ==> HeldBy(s, side, h)
  }

  ghost predicate Ledger(s: State) {
    Workers(s) && Todos(s) && Holders(s)
  }

  // ----- steps on one binding

  ghost predicate OthersSame(s: State, t: Tid, s': State) {
    && (forall u :: u in s.threads && u != t ==> u in s'.threads && s'.threads[u] == s.threads[u])
    && (forall u :: u in s'.threads && u != t ==> u in s.threads)
  }

  /** The thread stays with the binding as long as there is work on it, and keeps what it holds. */
  ghost predicate Carries(s: State, t: Tid, eff: Effect)
    requires |eff.events| <= 1
  {
    && (Busy(PhaseAfter(s, eff)) ==>
          PhaseAfter(s, eff).thread == t && eff.thread.Some? && WorksOn(eff.thread.value) == Some(eff.binding))
    && (t in s.threads ==>
          && (WorksOn(s.threads[t]) == None || WorksOn(s.threads[t]) == Some(eff.binding))
          && eff.thread.Some? && Custody(eff.thread.value) == Custody(s.threads[t]))
    && (eff.thread.Some? && (t in s.threads ==> Apart(s.threads[t])) ==> Apart(eff.thread.value))
  }

  lemma LocalWorkers(s: State, t: Tid, eff: Effect)
    requires Local(s, t, eff) && Carries(s, t, eff) && Workers(s)
    ensures Workers(After(s, t, eff))
  {
    PhasesAfter(s, t, eff);
    var s' := After(s, t, eff);
    forall b | b in s'.core.objects && Busy(Ph(s', b))
      ensures WorkedOn(s', Ph(s', b).thread, b)
    {
      if b != eff.binding {
        assert WorkedOn(s, Ph(s, b).thread, b);
      }
    }
  }

  lemma HoldersFrame(s: State, t: Tid, s': State)
    requires Holders(s) && OthersSame(s, t, s') && s.awaiting <= s'.awaiting
    requires forall side: Side, h: Handle :: s'.core.Deregistering(side, h) ==> s.core.Deregistering(side, h)
    requires t in s.threads && Custody(s.threads[t]).Some? ==>
      t in s'.threads && Custody(s'.threads[t]) == Custody(s.threads[t])
    ensures Holders(s')
  {
    forall side: Side, h: Handle | s'.core.Deregistering(side, h)
      ensures HeldBy(s', side, h)
    {
      assert HeldBy(s, side, h);
      if (side, h) !in s.awaiting {
        var u :| u in s.threads && Custody(s.threads[u]) == Some((side, h));
        assert u in s'.threads && Custody(s'.threads[u]) == Some((side, h));
      }
    }
  }

  lemma CommitLedger(s: State, t: Tid, eff: Effect)
    requires Ledger(s) && Local(s, t, eff) && Carries(s, t, eff)
    ensures Commit(s, t, eff).Ok? && Ledger(Commit(s, t, eff).state)
  {
    LocalWorkers(s, t, eff);
    var s' := After(s, t, eff);
    HoldersFrame(s, t, s');
  }

  lemma ActionCarries(s: State, t: Tid, th: Thread, eff: Effect)
    requires th.RunningActions? && th.todo != [] && eff.binding == th.todo[0] && t in s.threads && th == s.threads[t]
    requires Local(s, t, eff) && ActionMoves(s, t, th, eff)
    ensures Carries(s, t, eff)
  {
  }

  lemma UnbindCarries(s: State, t: Tid, th: Thread, eff: Effect)
    requires th.Unbinding? && th.todo != [] && eff.binding == th.todo[0] && t in s.threads && th == s.threads[t]
    requires Local(s, t, eff) && UnbindMoves(s, t, th, eff)
    ensures Carries(s, t, eff)
  {
  }

  lemma AttachLedger(s: State, a: Action, th: Thread)
    requires Inv(s) && Ledger(s) && a.t in s.threads && th == s.threads[a.t] && Exec(s, a).Ok?
    requires a.CallAttach? || a.SaveContexts? || a.AttachReturns?
    ensures Ledger(Exec(s, a).state)
  {
    var t, b := a.t, th.todo[0];
    assert ThreadOk(s, t, th);
    OwnFacts(s, t, b);
    var o := s.core.objects[b];
    var eff :=
      if a.CallAttach? then Effect(b, o, [AttachCalled], Some(th.(apc := InAttach)))
      else if a.SaveContexts? then Effect(b, o.(clientContext := a.clientContext, providerContext := a.providerContext), [], Some(th))
      else AttachEffect(o, th, a.success);
    if a.CallAttach? {
      CallAttachLocal(s, t, th, eff);
    } else if a.SaveContexts? {
      SaveContextsLocal(s, t, th, a.clientContext, a.providerContext, eff);
    } else {
      AttachReturnsLocal(s, t, th, a.success, eff);
    }
    ActionCarries(s, t, th, eff);
    CommitLedger(s, t, eff);
  }

  lemma DetachLedger(s: State, a: Action, th: Thread)
    requires Inv(s) && Ledger(s) && a.t in s.threads && th == s.threads[a.t] && Exec(s, a).Ok?
    requires a.CallDetach? || a.DetachReturns? || a.SettleDetach?
    ensures Ledger(Exec(s, a).state)
  {
    var t, b := a.t, th.todo[0];
    assert ThreadOk(s, t, th);
    OwnFacts(s, t, b);
    var o := s.core.objects[b];
    var eff :=
      if a.CallDetach? then CallDetachEffect(o, th)
      else if a.DetachReturns? then ReturnEffect(o, th, a.pending)
      else SettleEffect(o, th);
    if a.CallDetach? {
      CallDetachLocal(s, t, th, eff);
    } else if a.DetachReturns? {
      DetachReturnsLocal(s, t, th, a.pending, eff);
    } else {
      SettleLocal(s, t, th, eff);
    }
    UnbindCarries(s, t, th, eff);
    CommitLedger(s, t, eff);
  }

  lemma BeginLedger(s: State, t: Tid, th: Thread)
    requires Inv(s) && Ledger(s) && t in s.threads && th == s.threads[t] && DoTryBeginUnbind(s, t, th).Ok?
    requires CanBeginUnbind(s.core.objects[th.todo[0]])
    ensures Ledger(DoTryBeginUnbind(s, t, th).state)
  {
    var b := th.todo[0];
    var o := s.core.objects[b];
    var eff := Effect(b, MarkBeginUnbind(o), [UnbindBegun(t)], Some(th.(pc := InDetach(CallClient))));
    assert BindingOk(o, b in s.core.live, Ph(s, b));
    BeginUnbindLocal(s, t, th, eff);
    UnbindCarries(s, t, th, eff);
    CommitLedger(s, t, eff);
  }

  lemma CompleteLedger(s: State, t: Tid, b: BindingId, side: Side)
    requires Inv(s) && Ledger(s) && DoCompleteDetach(s, t, b, side).Ok? && b in s.core.live
    ensures Ledger(DoCompleteDetach(s, t, b, side).state)
  {
    var eff := CompleteEffect(s.core.objects[b], t, b, side);
    assert BindingOk(s.core.objects[b], b in s.core.live, Ph(s, b));
    assert Ph(s, b).Waiting?;
    CompleteDetachLocal(s, t, b, side, eff);
    CommitLedger(s, t, eff);
  }

  // ----- steps that change no binding object

  /** One thread, with no binding in hand, moves on. */
  lemma IdleLedger(s: State, t: Tid, s': State)
    requires Workers(s) && Todos(s) && OthersSame(s, t, s') && s'.traces == s.traces && s'.core.objects == s.core.objects
    requires t in s.threads ==> WorksOn(s.threads[t]) == None
    requires t in s'.threads ==> Apart(s'.threads[t])
    ensures Workers(s') && Todos(s')
  {
    assert forall b :: Ph(s', b) == Ph(s, b);
    forall b | b in s'.core.objects && Busy(Ph(s', b))
      ensures WorkedOn(s', Ph(s', b).thread, b)
    {
      assert WorkedOn(s, Ph(s, b).thread, b);
    }
  }

  lemma SkipLedger(s: State, t: Tid, th: Thread)
    requires Ledger(s) && t in s.threads && th == s.threads[t] && DoTryBeginUnbind(s, t, th).Ok?
    requires !CanBeginUnbind(s.core.objects[th.todo[0]])
    ensures Ledger(DoTryBeginUnbind(s, t, th).state)
  {
    var s' := DoTryBeginUnbind(s, t, th).state;
    assert Apart(th);
    IdleLedger(s, t, s');
    HoldersFrame(s, t, s');
  }

  lemma RegisterLedger(s: State, t: Tid, side: Side, npi: Option<int>, hasCleanup: bool)
    requires Ledger(s) && t !in s.threads
    ensures Ledger(DoRegister(s, t, side, npi, hasCleanup).state)
  {
    var s' := DoRegister(s, t, side, npi, hasCleanup).state;
    IdleLedger(s, t, s');
    HoldersFrame(s, t, s');
  }

  lemma DeregisterLedger(s: State, t: Tid, side: Side, h: Handle)
    requires Ledger(s) && DoDeregister(s, t, side, h).Ok?
    ensures Ledger(DoDeregister(s, t, side, h).state)
  {
    var s' := DoDeregister(s, t, side, h).state;
    if s.core.Has(side, h) {
      IdleLedger(s, t, s');
      forall side2: Side, h2: Handle | s'.core.Deregistering(side2, h2)
        ensures HeldBy(s', side2, h2)
      {
        if (side2, h2) == (side, h) {
          assert Custody(s'.threads[t]) == Some((side, h));
        } else {
          assert HeldBy(s, side2, h2);
          StillHeld(s, t, s', side2, h2);
        }
      }
    }
  }

  /** A registration that is not the thread's concern stays held. */
  lemma StillHeld(s: State, t: Tid, s': State, side: Side, h: Handle)
    requires HeldBy(s, side, h) && OthersSame(s, t, s')
    requires (side, h) in s.awaiting ==> (side, h) in s'.awaiting
    requires t in s.threads ==> Custody(s.threads[t]) != Some((side, h))
    ensures HeldBy(s', side, h)
  {
    if (side, h) !in s.awaiting {
      var u :| u in s.threads && Custody(s.threads[u]) == Some((side, h));
      assert u in s'.threads && Custody(s'.threads[u]) == Some((side, h));
    }
  }

  lemma CollectLedger(s: State, t: Tid, th: Thread, order: seq<BindingId>)
    requires Ledger(s) && t in s.threads && th == s.threads[t] && ThreadOk(s, t, th) && DoCollect(s, t, th, order).Ok?
    ensures Ledger(DoCollect(s, t, th, order).state)
  {
    var s' := DoCollect(s, t, th, order).state;
    IdleLedger(s, t, s');
    HoldersFrame(s, t, s');
  }

  lemma EndLoopLedger(s: State, t: Tid, th: Thread)
    requires Ledger(s) && t in s.threads && th == s.threads[t] && ThreadOk(s, t, th) && DoEndLoop(s, t, th).Ok?
    ensures Ledger(DoEndLoop(s, t, th).state)
  {
    var s' := DoEndLoop(s, t, th).state;
    IdleLedger(s, t, s');
    forall side: Side, h: Handle | s'.core.Deregistering(side, h)
      ensures HeldBy(s', side, h)
    {
      assert HeldBy(s, side, h);
      if Custody(th) == Some((side, h)) {
        assert th.pending || Custody(s'.threads[t]) == Some((side, h));
      } else {
        StillHeld(s, t, s', side, h);
      }
    }
  }

  lemma WaitLedger(s: State, t: Tid, side: Side, h: Handle)
    requires Ledger(s) && DoWait(s, t, side, h).Ok?
    ensures Ledger(DoWait(s, t, side, h).state)
  {
    var s' := DoWait(s, t, side, h).state;
    if s.core.Has(side, h) {
      IdleLedger(s, t, s');
      forall side2: Side, h2: Handle | s'.core.Deregistering(side2, h2)
        ensures HeldBy(s', side2, h2)
      {
        assert HeldBy(s, side2, h2);
        if (side2, h2) == (side, h) {
          assert Custody(s'.threads[t]) == Some((side, h));
        } else {
          StillHeld(s, t, s', side2, h2);
        }
      }
    }
  }

  lemma RemoveLedger(s: State, t: Tid, th: Thread)
    requires Ledger(s) && t in s.threads && th == s.threads[t] && DoFinishRemove(s, t, th).Ok?
    ensures Ledger(DoFinishRemove(s, t, th).state)
  {
    var s' := DoFinishRemove(s, t, th).state;
    IdleLedger(s, t, s');
    forall side: Side, h: Handle | s'.core.Deregistering(side, h)
      ensures HeldBy(s', side, h)
    {
      assert s.core.Deregistering(side, h) && (side, h) != (th.side, th.handle);
      assert HeldBy(s, side, h);
      StillHeld(s, t, s', side, h);
    }
  }

  // ----- unbind_complete and perform_bind

  lemma FinishWorkers(s: State, t: Tid, th: Thread, s': State)
    requires Workers(s) && Todos(s) && t in s.threads && th == s.threads[t] && Finishes(th).Some?
    requires DoFinishUnbind(s, t, th) == Ok(s') && Ph(s', Finishes(th).value).Closed?
    requires forall b :: b != Finishes(th).value ==> Ph(s', b) == Ph(s, b)
    ensures Workers(s') && Todos(s')
  {
    forall b | b in s'.core.objects && Busy(Ph(s', b))
      ensures WorkedOn(s', Ph(s', b).thread, b)
    {
      assert WorkedOn(s, Ph(s, b).thread, b);
    }
    assert Apart(th);
  }

  lemma FinishLedger(s: State, t: Tid, th: Thread)
    requires Inv(s) && Ledger(s) && t in s.threads && th == s.threads[t] && DoFinishUnbind(s, t, th).Ok?
    ensures Ledger(DoFinishUnbind(s, t, th).state)
  {
    var s', b := DoFinishUnbind(s, t, th).state, Finishes(th).value;
    assert ThreadOk(s, t, th);
    FinishOwned(s, t, th);
    FinishPhase(s.core, b, s.traces[b], t, Ph(s, b).attached);
    FinishWorkers(s, t, th, s');
    FinishHolders(s, t, th, s');
  }

  lemma FinishHolders(s: State, t: Tid, th: Thread, s': State)
    requires Holders(s) && t in s.threads && th == s.threads[t] && DoFinishUnbind(s, t, th) == Ok(s')
    ensures Holders(s')
  {
    EraseSets(s.core, Finishes(th).value);
    SameLeaving(s.core, s'.core);
    HoldersFrame(s, t, s');
  }

  lemma BindLedger(s: State, t: Tid, th: Thread, targets: seq<Handle>)
    requires Inv(s) && Ledger(s) && t in s.threads && th == s.threads[t] && DoBind(s, t, th, targets).Ok?
    ensures Ledger(DoBind(s, t, th, targets).state)
  {
    var s' := DoBind(s, t, th, targets).state;
    if s.core.Has(th.side, th.handle) {
      var ids := BindAll(s.core, th.side, th.handle, targets).1;
      BindAllFacts(s.core, th.side, th.handle, targets);
      BindPhases(s, t, th.side, s', ids);
      BindWorkers(s, t, th, s', ids);
      SameLeaving(s.core, s'.core);
    } else {
      IdleLedger(s, t, s');
    }
    HoldersFrame(s, t, s');
  }

  lemma BindWorkers(s: State, t: Tid, th: Thread, s': State, ids: seq<BindingId>)
    requires Workers(s) && Todos(s) && t in s.threads && th == s.threads[t] && th.Registering?
    requires s'.threads == s.threads[t := RunningActions(ids, NextAction)]
    requires forall b :: b in s'.core.objects ==> b in s.core.objects || b in ids
    requires forall b :: b in ids ==> Ph(s', b) == Queued(t)
    requires forall b :: b !in ids ==> Ph(s', b) == Ph(s, b)
    ensures Workers(s') && Todos(s')
  {
    forall b | b in s'.core.objects && Busy(Ph(s', b))
      ensures WorkedOn(s', Ph(s', b).thread, b)
    {
      assert WorkedOn(s, Ph(s, b).thread, b);
    }
  }

  // ----- all steps

  lemma ExecLedger(s: State, a: Action)
    requires Inv(s) && Ledger(s) && Exec(s, a).Ok?
    ensures Ledger(Exec(s, a).state)
  {
    if a.Register? {
      RegisterLedger(s, a.t, a.side, a.npi, a.hasCleanup);
    } else if a.Deregister? {
      DeregisterLedger(s, a.t, a.side, a.handle);
    } else if a.WaitForDeregister? {
      WaitLedger(s, a.t, a.side, a.handle);
    } else if a.CompleteDetach? {
      if a.binding in s.core.live {
        CompleteLedger(s, a.t, a.binding, a.side);
      }
    } else {
      ThreadStepLedger(s, a, s.threads[a.t]);
    }
  }

  lemma ThreadStepLedger(s: State, a: Action, th: Thread)
    requires Inv(s) && Ledger(s) && a.t in s.threads && th == s.threads[a.t] && Exec(s, a).Ok?
    requires !a.Register? && !a.Deregister? && !a.CompleteDetach? && !a.WaitForDeregister?
    ensures Ledger(Exec(s, a).state)
  {
    assert ThreadOk(s, a.t, th);
    match a
    case Bind(t, targets) => BindLedger(s, t, th, targets);
    case CallAttach(_) => AttachLedger(s, a, th);
    case SaveContexts(_, _, _) => AttachLedger(s, a, th);
    case AttachReturns(_, _) => AttachLedger(s, a, th);
    case CollectBindings(t, order) => CollectLedger(s, t, th, order);
    case TryBeginUnbind(t) =>
      if CanBeginUnbind(s.core.objects[th.todo[0]]) {
        BeginLedger(s, t, th);
      } else {
        SkipLedger(s, t, th);
      }
    case CallDetach(_) => DetachLedger(s, a, th);
    case DetachReturns(_, _) => DetachLedger(s, a, th);
    case SettleDetach(_) => DetachLedger(s, a, th);
    case FinishUnbind(t) => FinishLedger(s, t, th);
    case EndLoop(t) => EndLoopLedger(s, t, th);
    case FinishRemove(t) => RemoveLedger(s, t, th);
  }

  /** In every run: every unbind in progress has its thread, and every deregistering registration a
      thread or a caller that will wait for it. */
  lemma {:induction false} RunLedger(actions: seq<Action>)
    requires Run(INIT, actions).Ok?
    ensures Ledger(Run(INIT, actions).state)
  {
    if actions != [] {
      var n := |actions| - 1;
      RunLedger(actions[..n]);
      RunIsSafe(actions[..n]);
      ExecLedger(Run(INIT, actions[..n]).state, actions[n]);
    }
  }
}
