/** Safety of the registrar over whole runs: any number of clients, providers and threads, any
    callback results, any interleaving of critical sections. */
module NmrSafety {
  import opened Options
  import opened NmrCore
  import opened NmrTrace
  import opened NmrProtocol
  import opened NmrInvariant
  import opened NmrLocalSteps
  import opened NmrBindingSteps
  import opened NmrRegistrationSteps
  import opened NmrQuiet

  /** Every step keeps the invariant and never uses a binding or registration that is gone. */
  lemma ExecKeeps(s: State, a: Action)
    requires Inv(s)
    ensures Safe(Exec(s, a))
  {
    match a
    case Register(t, side, npi, hasCleanup) => RegisterKeeps(s, t, side, npi, hasCleanup);
    case Deregister(t, side, h) => DeregisterKeeps(s, t, side, h);
    case CompleteDetach(t, b, side) => CompleteDetachKeeps(s, t, b, side);
    case WaitForDeregister(t, side, h) => WaitKeeps(s, t, side, h);
    case _ =>
      if a.t in s.threads {
        ThreadStepKeeps(s, a, s.threads[a.t]);
      }
  }

  lemma ThreadStepKeeps(s: State, a: Action, th: Thread)
    requires Inv(s) && a.t in s.threads && th == s.threads[a.t]
    requires !a.Register? && !a.Deregister? && !a.CompleteDetach? && !a.WaitForDeregister?
    ensures Safe(Exec(s, a))
  {
    match a
    case Bind(t, targets) => BindKeeps(s, t, th, targets);
    case CallAttach(t) => CallAttachKeeps(s, t, th);
    case SaveContexts(t, c, p) => SaveContextsKeeps(s, t, th, c, p);
    case AttachReturns(t, success) => AttachReturnsKeeps(s, t, th, success);
    case CollectBindings(t, order) => CollectKeeps(s, t, th, order);
    case TryBeginUnbind(t) => TryBeginUnbindKeeps(s, t, th);
    case CallDetach(t) => CallDetachKeeps(s, t, th);
    case DetachReturns(t, pending) => DetachReturnsKeeps(s, t, th, pending);
    case SettleDetach(t) => SettleKeeps(s, t, th);
    case FinishUnbind(t) => FinishUnbindKeeps(s, t, th);
    case EndLoop(t) => EndLoopKeeps(s, t, th);
    case FinishRemove(t) => FinishRemoveKeeps(s, t, th);
  }

  /** In every run the invariant holds at every lock release, and no step uses freed memory. */
  lemma {:induction false} RunIsSafe(actions: seq<Action>)
    ensures Safe(Run(INIT, actions))
  {
    if actions != [] {
      RunIsSafe(actions[..|actions| - 1]);
      var before := Run(INIT, actions[..|actions| - 1]);
      if before.Ok? {
        ExecKeeps(before.state, actions[|actions| - 1]);
      }
    }
  }

  /** For every binding in every run: each callback is made at most once, `unbind_complete` runs at
      most once, and nothing is cleaned up or erased before a failed attach, or before both
      detaches have returned and every pending one has been completed. */
  lemma BindingsAreWellOrdered(actions: seq<Action>, b: BindingId)
    requires Run(INIT, actions).Ok? && b in Run(INIT, actions).state.traces
    ensures WellOrdered(Run(INIT, actions).state.traces[b])
  {
    RunIsSafe(actions);
    var s := Run(INIT, actions).state;
    assert BindingOk(s.core.objects[b], b in s.core.live, Ph(s, b));
    LegalIsWellOrdered(s.traces[b]);
  }

  /** A registration's binding count is the number of bindings in the map that refer to it, and
      the two registrations of every binding in the map are themselves in their maps. */
  lemma CountsAreExact(actions: seq<Action>)
    requires Run(INIT, actions).Ok?
    ensures var core := Run(INIT, actions).state.core;
      && (forall side: Side, h: Handle :: core.Has(side, h) ==>
            core.Regs(side)[h].bindingCount == |core.Refs(side, h)|)
      && (forall b :: b in core.live ==> core.PartiesRegistered(b))
  {
    RunIsSafe(actions);
  }

  /** A thread that is deregistering synchronously, because no unbind was pending, finds the count
      at zero: its `remove` does not wait. */
  lemma SynchronousDeregisterNeverWaits(actions: seq<Action>, t: Tid)
    requires Run(INIT, actions).Ok? && t in Run(INIT, actions).state.threads
    requires var th := Run(INIT, actions).state.threads[t]; th.Removing? && !th.waited
    ensures Exec(Run(INIT, actions).state, FinishRemove(t)).Ok?
  {
    RunIsSafe(actions);
    var s := Run(INIT, actions).state;
    var th := s.threads[t];
    assert ThreadOk(s, t, th);
    assert s.core.Regs(th.side)[th.handle].bindingCount == |s.core.Refs(th.side, th.handle)|;
  }

  /** Two threads never work on one binding at a time. */
  lemma OneThreadPerBinding(actions: seq<Action>, t: Tid, u: Tid)
    requires Run(INIT, actions).Ok?
    requires var s := Run(INIT, actions).state;
      && t in s.threads && u in s.threads
      && WorksOn(s.threads[t]).Some? && WorksOn(s.threads[t]) == WorksOn(s.threads[u])
    ensures t == u
  {
    RunIsSafe(actions);
    var s := Run(INIT, actions).state;
    assert ThreadOk(s, t, s.threads[t]) && ThreadOk(s, u, s.threads[u]);
    assert Owner(Ph(s, WorksOn(s.threads[t]).value)) == Some(t);
    assert Owner(Ph(s, WorksOn(s.threads[u]).value)) == Some(u);
  }

  /** The binding a thread has taken up: its attach action, its begin_unbind or its unbind_complete. */
  function WorksOn(th: Thread): Option<BindingId> {
    match th
    case RunningActions(todo, _) => if todo != [] then Some(todo[0]) else None
    case Unbinding(_, _, todo, _, pc) => if todo != [] && !pc.NextBinding? then Some(todo[0]) else None
    case CompletingDetach(b) => Some(b)
    case _ => None
  }

  // ----- what a step can only add to

  /** History only grows, and a binding never changes its two parties. */
  ghost predicate Extends(s: State, s': State) {
    && (forall b :: b in s.traces ==> b in s'.traces && s.traces[b] <= s'.traces[b])
    && (forall b :: b in s.core.objects ==>
          b in s'.core.objects && s'.core.objects[b].client == s.core.objects[b].client
          && s'.core.objects[b].provider == s.core.objects[b].provider)
  }

  lemma BindExtends(s: State, t: Tid, th: Thread, targets: seq<Handle>)
    requires Inv(s) && t in s.threads && th == s.threads[t]
    ensures DoBind(s, t, th, targets).Ok? ==> Extends(s, DoBind(s, t, th, targets).state)
  {
    if th.Registering? && s.core.Has(th.side, th.handle) {
      BindAllFacts(s.core, th.side, th.handle, targets);
    }
  }

  lemma ExecExtends(s: State, a: Action)
    requires Inv(s) && Exec(s, a).Ok?
    ensures Extends(s, Exec(s, a).state)
  {
    if a.Bind? {
      BindExtends(s, a.t, s.threads[a.t], a.targets);
    } else if !a.Register? {
      ExecIsQuiet(s, a);
    }
  }

  /** A later state of a run extends an earlier one. */
  lemma {:induction false} RunExtends(actions: seq<Action>, k: nat)
    requires k <= |actions| && Run(INIT, actions).Ok?
    ensures Run(INIT, actions[..k]).Ok?
    ensures Extends(Run(INIT, actions[..k]).state, Run(INIT, actions).state)
  {
    if k == |actions| {
      assert actions[..k] == actions;
    } else {
      var n := |actions| - 1;
      RunExtends(actions[..n], k);
      assert actions[..n][..k] == actions[..k];
      RunIsSafe(actions[..n]);
      ExecExtends(Run(INIT, actions[..n]).state, actions[n]);
    }
  }

  lemma RankStep(ph: Phase, e: Event, side: Side)
    requires PhaseNext(ph, e) != Bad
    ensures StatusIn(ph, side).Rank() <= StatusIn(PhaseNext(ph, e), side).Rank()
  {
  }

  lemma {:induction false} RankGrows(trace: seq<Event>, k: nat, side: Side)
    requires PhaseOf(trace) != Bad && k <= |trace|
    ensures StatusIn(PhaseOf(trace[..k]), side).Rank() <= StatusIn(PhaseOf(trace), side).Rank()
  {
    if k == |trace| {
      assert trace[..k] == trace;
    } else {
      var n := |trace| - 1;
      RankGrows(trace[..n], k, side);
      assert trace[..n][..k] == trace[..k];
      RankStep(PhaseOf(trace[..n]), trace[n], side);
    }
  }

  /** In every run each side's status only moves forward: Start, Ready, BeginUnbind,
      UnbindPending, UnbindComplete. */
  lemma StatusOnlyMovesForward(actions: seq<Action>, k: nat, b: BindingId, side: Side)
    requires k <= |actions| && Run(INIT, actions).Ok? && Run(INIT, actions[..k]).Ok?
    requires b in Run(INIT, actions[..k]).state.core.objects
    ensures b in Run(INIT, actions).state.core.objects
    ensures Run(INIT, actions[..k]).state.core.objects[b].StatusOf(side).Rank()
         <= Run(INIT, actions).state.core.objects[b].StatusOf(side).Rank()
  {
    RunExtends(actions, k);
    RunIsSafe(actions);
    RunIsSafe(actions[..k]);
    var s, s' := Run(INIT, actions[..k]).state, Run(INIT, actions).state;
    assert BindingOk(s.core.objects[b], b in s.core.live, Ph(s, b));
    assert BindingOk(s'.core.objects[b], b in s'.core.live, Ph(s', b));
    RankGrows(s'.traces[b], |s.traces[b]|, side);
    assert s'.traces[b][..|s.traces[b]|] == s.traces[b];
  }

  // ----- after deactivate

  lemma BindShrinksLeaving(s: State, t: Tid, th: Thread, targets: seq<Handle>, side: Side, h: Handle)
    requires Inv(s) && t in s.threads && th == s.threads[t] && DoBind(s, t, th, targets).Ok? && Leaving(s.core, side, h)
    ensures var s' := DoBind(s, t, th, targets).state;
      Leaving(s'.core, side, h) && s'.core.Refs(side, h) <= s.core.Refs(side, h) && s'.core.nextHandle == s.core.nextHandle
  {
    if s.core.Has(th.side, th.handle) {
      var (core, ids) := BindAll(s.core, th.side, th.handle, targets);
      BindAllFacts(s.core, th.side, th.handle, targets);
      BindAllSparesLeaving(s.core, th.side, th.handle, targets, core, ids, side, h);
      SameLeaving(s.core, core);
    }
  }

  lemma QuietShrinksLeaving(s: State, s': State, side: Side, h: Handle)
    requires Quiet(s, s') && Leaving(s.core, side, h)
    ensures Leaving(s'.core, side, h) && s'.core.Refs(side, h) <= s.core.Refs(side, h)
    ensures s'.core.nextHandle == s.core.nextHandle
  {
  }

  lemma ExecShrinksLeaving(s: State, a: Action, side: Side, h: Handle)
    requires Inv(s) && Exec(s, a).Ok? && h < s.core.nextHandle && Leaving(s.core, side, h)
    ensures var s' := Exec(s, a).state;
      h < s'.core.nextHandle && Leaving(s'.core, side, h) && s'.core.Refs(side, h) <= s.core.Refs(side, h)
  {
    if a.Bind? {
      BindShrinksLeaving(s, a.t, s.threads[a.t], a.targets, side, h);
    } else if a.Register? {
      SameRefs(s.core, Exec(s, a).state.core, side, h);
    } else {
      ExecIsQuiet(s, a);
      QuietShrinksLeaving(s, Exec(s, a).state, side, h);
    }
  }

  /** Once a registration has been deactivated, the set of its bindings never grows. */
  lemma {:induction false} DeactivatedNeverGains(actions: seq<Action>, k: nat, side: Side, h: Handle)
    requires k <= |actions| && Run(INIT, actions).Ok? && Run(INIT, actions[..k]).Ok?
    requires Run(INIT, actions[..k]).state.core.Deregistering(side, h)
    ensures Run(INIT, actions).state.core.Refs(side, h) <= Run(INIT, actions[..k]).state.core.Refs(side, h)
    ensures Leaving(Run(INIT, actions).state.core, side, h) && h < Run(INIT, actions).state.core.nextHandle
  {
    RunIsSafe(actions[..k]);
    if k == |actions| {
      assert actions[..k] == actions;
    } else {
      var n := |actions| - 1;
      assert actions[..n][..k] == actions[..k];
      DeactivatedNeverGains(actions[..n], k, side, h);
      RunIsSafe(actions[..n]);
      ExecShrinksLeaving(Run(INIT, actions[..n]).state, actions[n], side, h);
    }
  }
}
