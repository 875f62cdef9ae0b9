/** What every step of the registrar does at most, unless it registers or binds: it adds no binding
    and no registration, changes no party and no NPI, and forgets no history. */
module NmrQuiet {
  import opened Options
  import opened NmrCore
  import opened NmrTrace
  import opened NmrProtocol
  import opened NmrInvariant
  import opened NmrLocalSteps
  import opened NmrRegistrationSteps

  ghost predicate SameBindings(s: State, s': State) {
    && s'.core.objects.Keys == s.core.objects.Keys
    && (forall b :: b in s.core.objects ==>
          s'.core.objects[b].client == s.core.objects[b].client
          && s'.core.objects[b].provider == s.core.objects[b].provider)
    && s'.traces.Keys == s.traces.Keys
    && (forall b :: b in s.traces ==> s.traces[b] <= s'.traces[b])
    && s'.core.live <= s.core.live
  }

  ghost predicate FewerRegistrations(c: Core, d: Core) {
    && d.nextHandle == c.nextHandle
    && forall side: Side, h: Handle :: d.Has(side, h) ==>
         && c.Has(side, h)
         && d.Regs(side)[h].npi == c.Regs(side)[h].npi
         && (c.Regs(side)[h].deregistering ==> d.Regs(side)[h].deregistering)
  }

  ghost predicate SameRegistering(s: State, s': State) {
    && (forall t :: t in s'.threads && s'.threads[t].Registering? ==> t in s.threads && s.threads[t] == s'.threads[t])
    && (forall t :: t in s.threads && s.threads[t].Registering? ==>
          || (t in s'.threads && s'.threads[t] == s.threads[t])
          || !s.core.Has(s.threads[t].side, s.threads[t].handle))
  }

  ghost predicate Quiet(s: State, s': State) {
    SameBindings(s, s') && FewerRegistrations(s.core, s'.core) && SameRegistering(s, s')
  }

  lemma CommitIsQuiet(s: State, t: Tid, eff: Effect)
    requires eff.binding in s.core.objects
    requires eff.record.client == s.core.objects[eff.binding].client
    requires eff.record.provider == s.core.objects[eff.binding].provider
    requires t in s.threads ==> !s.threads[t].Registering?
    requires eff.thread.Some? ==> !eff.thread.value.Registering?
    ensures Commit(s, t, eff).Ok? ==> Quiet(s, Commit(s, t, eff).state)
  {
  }

  /** The steps inside a pending attach action. */
  lemma AttachStepsAreQuiet(s: State, t: Tid, th: Thread, c: bool, p: bool)
    requires t in s.threads && th == s.threads[t]
    ensures DoCallAttach(s, t, th).Ok? ==> Quiet(s, DoCallAttach(s, t, th).state)
    ensures DoSaveContexts(s, t, th, c, p).Ok? ==> Quiet(s, DoSaveContexts(s, t, th, c, p).state)
  {
    if th.RunningActions? && th.todo != [] && th.todo[0] in s.core.objects {
      var b := th.todo[0];
      var o := s.core.objects[b];
      CommitIsQuiet(s, t, Effect(b, o, [AttachCalled], Some(th.(apc := InAttach))));
      CommitIsQuiet(s, t, Effect(b, o.(clientContext := c, providerContext := p), [], Some(th)));
    }
  }

  lemma AttachReturnsIsQuiet(s: State, t: Tid, th: Thread, success: bool)
    requires t in s.threads && th == s.threads[t]
    ensures DoAttachReturns(s, t, th, success).Ok? ==> Quiet(s, DoAttachReturns(s, t, th, success).state)
  {
    if th.RunningActions? && th.todo != [] && th.todo[0] in s.core.objects {
      var b := th.todo[0];
      var o := s.core.objects[b];
      CommitIsQuiet(s, t, Effect(b, MarkReady(o), [AttachReady(o.clientContext, o.providerContext)],
                                 Some(RunningActions(th.todo[1..], NextAction))));
      CommitIsQuiet(s, t, Effect(b, o, [AttachFailed], Some(th.(apc := AttachBroken))));
    }
  }

  lemma TryBeginUnbindIsQuiet(s: State, t: Tid, th: Thread)
    requires t in s.threads && th == s.threads[t]
    ensures DoTryBeginUnbind(s, t, th).Ok? ==> Quiet(s, DoTryBeginUnbind(s, t, th).state)
  {
    if th.Unbinding? && th.todo != [] && th.todo[0] in s.core.objects {
      var o := s.core.objects[th.todo[0]];
      CommitIsQuiet(s, t, Effect(th.todo[0], MarkBeginUnbind(o), [UnbindBegun(t)], Some(th.(pc := InDetach(CallClient)))));
    }
  }

  lemma CallDetachIsQuiet(s: State, t: Tid, th: Thread)
    requires t in s.threads && th == s.threads[t]
    ensures DoCallDetach(s, t, th).Ok? ==> Quiet(s, DoCallDetach(s, t, th).state)
  {
    var r := DoCallDetach(s, t, th);
    if r.Ok? {
      var b, o := th.todo[0], s.core.objects[th.todo[0]];
      if th.pc.step.CallClient? {
        CommitIsQuiet(s, t, Effect(b, o, [DetachCalled(Client)], Some(th.(pc := InDetach(InClient)))));
        CommitIsQuiet(s, t, Effect(b, o, [DetachSkipped(Client)], Some(th.(pc := InDetach(CallProvider(false))))));
      } else {
        var c := th.pc.step.clientPending;
        CommitIsQuiet(s, t, Effect(b, o, [DetachCalled(Provider)], Some(th.(pc := InDetach(InProvider(c))))));
        CommitIsQuiet(s, t, Effect(b, o, [DetachSkipped(Provider)], Some(th.(pc := InDetach(Settle(c, false))))));
      }
    }
  }

  lemma DetachReturnsIsQuiet(s: State, t: Tid, th: Thread, pending: bool)
    requires t in s.threads && th == s.threads[t]
    ensures DoDetachReturns(s, t, th, pending).Ok? ==> Quiet(s, DoDetachReturns(s, t, th, pending).state)
  {
    var r := DoDetachReturns(s, t, th, pending);
    if r.Ok? {
      var b, o := th.todo[0], s.core.objects[th.todo[0]];
      if th.pc.step.InClient? {
        CommitIsQuiet(s, t, Effect(b, o, [DetachReturned(Client, pending)], Some(th.(pc := InDetach(CallProvider(pending))))));
      } else {
        var next := th.(pc := InDetach(Settle(th.pc.step.clientPending, pending)));
        CommitIsQuiet(s, t, Effect(b, o, [DetachReturned(Provider, pending)], Some(next)));
      }
    }
  }

  lemma SettleIsQuiet(s: State, t: Tid, th: Thread)
    requires t in s.threads && th == s.threads[t]
    ensures DoSettle(s, t, th).Ok? ==> Quiet(s, DoSettle(s, t, th).state)
  {
  }

  lemma CompleteDetachIsQuiet(s: State, t: Tid, b: BindingId, side: Side)
    ensures DoCompleteDetach(s, t, b, side).Ok? ==> Quiet(s, DoCompleteDetach(s, t, b, side).state)
  {
    if DoCompleteDetach(s, t, b, side).Ok? && b in s.core.live {
      var o := MarkDetachComplete(s.core.objects[b], side.Other());
      var next := if UnbindFinished(o) then Some(CompletingDetach(b)) else None;
      CommitIsQuiet(s, t, Effect(b, o, [DetachCompleted(side, t)], next));
    }
  }

  lemma FinishUnbindIsQuiet(s: State, t: Tid, th: Thread)
    requires t in s.threads && th == s.threads[t]
    ensures DoFinishUnbind(s, t, th).Ok? ==> Quiet(s, DoFinishUnbind(s, t, th).state)
  {
    if DoFinishUnbind(s, t, th).Ok? {
      var b := Finishes(th).value;
      EraseSets(s.core, b);
      SameLeaving(s.core, Erase(s.core, b));
    }
  }

  lemma DeregisterIsQuiet(s: State, t: Tid, side: Side, h: Handle)
    ensures DoDeregister(s, t, side, h).Ok? ==> Quiet(s, DoDeregister(s, t, side, h).state)
  {
  }

  lemma WaitIsQuiet(s: State, t: Tid, side: Side, h: Handle)
    ensures DoWait(s, t, side, h).Ok? ==> Quiet(s, DoWait(s, t, side, h).state)
  {
  }

  lemma LoopStepsAreQuiet(s: State, t: Tid, th: Thread, order: seq<BindingId>)
    requires t in s.threads && th == s.threads[t]
    ensures DoCollect(s, t, th, order).Ok? ==> Quiet(s, DoCollect(s, t, th, order).state)
    ensures DoEndLoop(s, t, th).Ok? ==> Quiet(s, DoEndLoop(s, t, th).state)
    ensures DoFinishRemove(s, t, th).Ok? ==> Quiet(s, DoFinishRemove(s, t, th).state)
  {
  }

  lemma ExecIsQuiet(s: State, a: Action)
    requires Exec(s, a).Ok? && !a.Register? && !a.Bind?
    ensures Quiet(s, Exec(s, a).state)
  {
    if a.Deregister? {
      DeregisterIsQuiet(s, a.t, a.side, a.handle);
    } else if a.WaitForDeregister? {
      WaitIsQuiet(s, a.t, a.side, a.handle);
    } else if a.CompleteDetach? {
      CompleteDetachIsQuiet(s, a.t, a.binding, a.side);
    } else {
      ThreadStepIsQuiet(s, a, s.threads[a.t]);
    }
  }

  lemma ThreadStepIsQuiet(s: State, a: Action, th: Thread)
    requires a.t in s.threads && th == s.threads[a.t] && Exec(s, a).Ok? && !a.Register? && !a.Bind?
    requires !a.Deregister? && !a.CompleteDetach? && !a.WaitForDeregister?
    ensures Quiet(s, Exec(s, a).state)
  {
    match a
    case CallAttach(t) => AttachStepsAreQuiet(s, t, th, true, true);
    case SaveContexts(t, c, p) => AttachStepsAreQuiet(s, t, th, c, p);
    case AttachReturns(t, success) => AttachReturnsIsQuiet(s, t, th, success);
    case CollectBindings(t, order) => LoopStepsAreQuiet(s, t, th, order);
    case TryBeginUnbind(t) => TryBeginUnbindIsQuiet(s, t, th);
    case CallDetach(t) => CallDetachIsQuiet(s, t, th);
    case DetachReturns(t, pending) => DetachReturnsIsQuiet(s, t, th, pending);
    case SettleDetach(t) => SettleIsQuiet(s, t, th);
    case FinishUnbind(t) => FinishUnbindIsQuiet(s, t, th);
    case EndLoop(t) => LoopStepsAreQuiet(s, t, th, []);
    case FinishRemove(t) => LoopStepsAreQuiet(s, t, th, []);
  }
}
