/** Two limits of the protocol: registrations that overlap can bind a pair twice, and a binding that
    was still attaching when its client or provider deregistered is never unbound on that account. */
module NmrLimits {
  import opened Options
  import opened NmrCore
  import opened NmrTrace
  import opened NmrProtocol
  import opened NmrInvariant
  import opened NmrBindingSteps
  import opened NmrRegistrationSteps
  import opened NmrQuiet
  import opened NmrSafety
  import opened NmrMatching

  lemma StepTo(s: State, actions: seq<Action>, a: Action) returns (s': State, longer: seq<Action>)
    requires Run(INIT, actions) == Ok(s) && Exec(s, a).Ok?
    ensures longer == actions + [a] && Run(INIT, longer) == Ok(s') && s' == Exec(s, a).state
  {
    s', longer := Exec(s, a).state, actions + [a];
    assert longer[..|actions|] == actions;
  }

  lemma BindAllOne(core: Core, side: Side, h: Handle, target: Handle)
    requires CanBind(core, ClientOf(side, h, target), ProviderOf(side, h, target))
    ensures BindAll(core, side, h, [target])
      == (BindOne(core, ClientOf(side, h, target), ProviderOf(side, h, target)), [core.nextBinding])
  {
    assert [target][..0] == [];
    assert BindAll(core, side, h, []) == (core, []);
    var none: seq<BindingId> := [];
    assert none + [core.nextBinding] == [core.nextBinding];
  }

  /** One target, and it matches: `perform_bind` makes one binding. */
  lemma BindOneTarget(s: State, t: Tid, side: Side, h: Handle, target: Handle)
    requires t in s.threads && s.threads[t] == Registering(side, h) && s.core.Has(side, h)
    requires s.core.Regs(side.Other()).Keys == {target}
    requires CanBind(s.core, ClientOf(side, h, target), ProviderOf(side, h, target))
    ensures Exec(s, Bind(t, [target])).Ok?
    ensures var s' := Exec(s, Bind(t, [target])).state;
      && s'.core == BindOne(s.core, ClientOf(side, h, target), ProviderOf(side, h, target))
      && s'.threads == s.threads[t := RunningActions([s.core.nextBinding], NextAction)]
      && s'.traces == s.traces[s.core.nextBinding := [Created(t, side)]]
      && s'.awaiting == s.awaiting
  {
    BindAllOne(s.core, side, h, target);
    assert Enumerates([target], s.core.Regs(side.Other()).Keys);
    var s' := Exec(s, Bind(t, [target])).state;
    assert s'.traces == s.traces[s.core.nextBinding := [Created(t, side)]];
  }

  /** A client and a provider that are both added before either looks at the other side are bound
      twice. */
  lemma OverlappingPairIsBoundTwice() returns (actions: seq<Action>)
    ensures Run(INIT, actions).Ok?
    ensures var s := Run(INIT, actions).state; Joins(s, 0, 1, 2) && Joins(s, 1, 1, 2)
  {
    var s2, l2 := BothAdded();
    BindOneTarget(s2, 0, Client, 1, 2);
    var s3, l3 := StepTo(s2, l2, Bind(0, [2]));
    SecondBinds(s3);
    var s4, l4 := StepTo(s3, l3, Bind(1, [1]));
    actions := l4;
  }

  ghost predicate Offered(core: Core, client: Handle, provider: Handle) {
    && core.clients.Keys == {client} && core.providers.Keys == {provider}
    && CanBind(core, client, provider)
  }

  lemma BothAdded() returns (s: State, actions: seq<Action>)
    ensures Run(INIT, actions) == Ok(s) && Offered(s.core, 1, 2)
    ensures s.core.objects == map[] && s.core.live == {} && s.core.nextBinding == 0
    ensures s.threads == map[0 := Registering(Client, 1), 1 := Registering(Provider, 2)]
  {
    BothOffered();
    var s1, l1 := StepTo(INIT, [], Register(0, Client, Some(7), false));
    assert s1 == INIT.(core := Add(INIT.core, Client, Some(7), false), threads := map[0 := Registering(Client, 1)]);
    s, actions := StepTo(s1, l1, Register(1, Provider, Some(7), false));
  }

  lemma BothOffered()
    ensures var core := Add(Add(INIT.core, Client, Some(7), false), Provider, Some(7), false);
      Offered(core, 1, 2) && core.objects == map[] && core.live == {} && core.nextBinding == 0
  {
  }

  lemma SecondBinds(s: State)
    requires 1 in s.threads && s.threads[1] == Registering(Provider, 2)
    requires Offered(s.core, 1, 2) && s.core.nextBinding == 1
    requires s.core.objects == map[0 := Binding(1, 2, Start, Start, false, false)] && s.core.live == {0}
    ensures Exec(s, Bind(1, [1])).Ok?
    ensures Joins(Exec(s, Bind(1, [1])).state, 0, 1, 2) && Joins(Exec(s, Bind(1, [1])).state, 1, 1, 2)
  {
    BindOneTarget(s, 1, Provider, 2, 1);
  }

  // ----- the binding nobody comes back for

  ghost predicate NobodyUnbinds(s: State, b: BindingId) {
    forall t :: t in s.threads && s.threads[t].Unbinding? ==> b !in s.threads[t].todo
  }

  ghost predicate NobodyCollects(s: State, side: Side, h: Handle) {
    forall t :: t in s.threads ==> s.threads[t] != Deregistering(side, h)
  }

  /** Registration `h` of side `side` is going away and has collected its bindings; `b` is a Ready
      binding of it that no thread is going to unbind; nor is the other party about to collect it. */
  ghost predicate LeftBehind(s: State, side: Side, h: Handle, b: BindingId) {
    && b in s.core.live && b in s.core.objects && Ph(s, b).Linked?
    && s.core.objects[b].Party(side) == h
    && s.core.Deregistering(side, h) && NobodyCollects(s, side, h)
    && NobodyUnbinds(s, b)
    && NobodyCollects(s, side.Other(), s.core.objects[b].Party(side.Other()))
  }

  /** A thread at work on some binding does not touch one that nobody owns. */
  lemma ActionSpares(s: State, a: Action, b: BindingId)
    requires Inv(s) && Ph(s, b).Linked? && a.t in s.threads && Exec(s, a).Ok?
    requires a.CallAttach? || a.SaveContexts? || a.AttachReturns?
    ensures var s' := Exec(s, a).state; Ph(s', b) == Ph(s, b) && s'.core.live == s.core.live
  {
    var th := s.threads[a.t];
    assert ThreadOk(s, a.t, th);
    assert th.todo[0] != b;
  }

  lemma UnbindSpares(s: State, a: Action, b: BindingId)
    requires NobodyUnbinds(s, b) && a.t in s.threads && Exec(s, a).Ok?
    requires a.TryBeginUnbind? || a.CallDetach? || a.DetachReturns? || a.SettleDetach?
    ensures var s' := Exec(s, a).state; Ph(s', b) == Ph(s, b) && s'.core.live == s.core.live
  {
    var th := s.threads[a.t];
    assert th.todo[0] in th.todo;
  }

  lemma FinishSpares(s: State, t: Tid, th: Thread, b: BindingId)
    requires Inv(s) && Ph(s, b).Linked? && t in s.threads && th == s.threads[t] && DoFinishUnbind(s, t, th).Ok?
    ensures var s' := DoFinishUnbind(s, t, th).state; Ph(s', b) == Ph(s, b) && (b in s'.core.live <==> b in s.core.live)
  {
    assert ThreadOk(s, t, th);
    FinishOwned(s, t, th);
  }

  lemma CompleteSpares(s: State, t: Tid, d: BindingId, side: Side, b: BindingId)
    requires Inv(s) && Ph(s, b).Linked? && b in s.core.objects && DoCompleteDetach(s, t, d, side).Ok?
    ensures var s' := DoCompleteDetach(s, t, d, side).state; Ph(s', b) == Ph(s, b) && s'.core.live == s.core.live
  {
    assert BindingOk(s.core.objects[b], b in s.core.live, Ph(s, b));
  }

  lemma BindSpares(s: State, t: Tid, th: Thread, targets: seq<Handle>, b: BindingId)
    requires Inv(s) && t in s.threads && th == s.threads[t] && DoBind(s, t, th, targets).Ok? && b in s.core.objects
    ensures var s' := DoBind(s, t, th, targets).state; Ph(s', b) == Ph(s, b) && (b in s.core.live ==> b in s'.core.live)
  {
    if s.core.Has(th.side, th.handle) {
      BindAllAdds(s.core, th.side, th.handle, targets);
      BindPhases(s, t, th.side, DoBind(s, t, th, targets).state, BindAll(s.core, th.side, th.handle, targets).1);
    }
  }

  lemma ExecSpares(s: State, a: Action, b: BindingId)
    requires Inv(s) && Ph(s, b).Linked? && b in s.core.live && NobodyUnbinds(s, b) && Exec(s, a).Ok?
    ensures var s' := Exec(s, a).state; Ph(s', b) == Ph(s, b) && b in s'.core.live
  {
    assert b in s.core.objects;
    if a.Bind? {
      BindSpares(s, a.t, s.threads[a.t], a.targets, b);
    } else if a.CompleteDetach? {
      CompleteSpares(s, a.t, a.binding, a.side, b);
    } else if a.FinishUnbind? {
      FinishSpares(s, a.t, s.threads[a.t], b);
    } else if a.CallAttach? || a.SaveContexts? || a.AttachReturns? {
      ActionSpares(s, a, b);
    } else if a.TryBeginUnbind? || a.CallDetach? || a.DetachReturns? || a.SettleDetach? {
      UnbindSpares(s, a, b);
    } else {
      OthersSpare(s, a);
    }
  }

  lemma OthersSpare(s: State, a: Action)
    requires Exec(s, a).Ok?
    requires a.Register? || a.Deregister? || a.CollectBindings? || a.EndLoop? || a.WaitForDeregister? || a.FinishRemove?
    ensures Exec(s, a).state.traces == s.traces && Exec(s, a).state.core.live == s.core.live
  {
  }

  /** Threads that may unbind come only from deregistrations. */
  lemma NewUnbinders(s: State, a: Action, u: Tid)
    requires Exec(s, a).Ok? && u in Exec(s, a).state.threads && Exec(s, a).state.threads[u].Unbinding?
    ensures u in s.threads
    ensures s.threads[u].Unbinding? || (s.threads[u].Deregistering? && a.CollectBindings? && a.t == u)
    ensures s.threads[u].Unbinding? ==>
      forall b :: b in Exec(s, a).state.threads[u].todo ==> b in s.threads[u].todo
  {
  }

  lemma ExecNobodyUnbinds(s: State, a: Action, side: Side, h: Handle, b: BindingId)
    requires Inv(s) && LeftBehind(s, side, h, b) && Exec(s, a).Ok?
    ensures NobodyUnbinds(Exec(s, a).state, b)
  {
    var s' := Exec(s, a).state;
    forall u | u in s'.threads && s'.threads[u].Unbinding?
      ensures b !in s'.threads[u].todo
    {
      NewUnbinders(s, a, u);
      if s.threads[u].Deregistering? {
        CollectMisses(s, u, a.order, side, h, b);
      }
    }
  }

  lemma CollectMisses(s: State, t: Tid, order: seq<BindingId>, side: Side, h: Handle, b: BindingId)
    requires LeftBehind(s, side, h, b) && t in s.threads && s.threads[t].Deregistering?
    requires DoCollect(s, t, s.threads[t], order).Ok? && t in DoCollect(s, t, s.threads[t], order).state.threads
    ensures b !in DoCollect(s, t, s.threads[t], order).state.threads[t].todo
  {
  }

  /** Deregistration begins with `deactivate`, once. */
  lemma NewCollectors(s: State, a: Action, side: Side, h: Handle)
    requires Exec(s, a).Ok? && NobodyCollects(s, side, h)
    requires s.core.Deregistering(side, h) || !(a.Deregister? && a.side == side && a.handle == h)
    ensures NobodyCollects(Exec(s, a).state, side, h)
  {
  }

  lemma BindKeepsFlags(s: State, t: Tid, th: Thread, targets: seq<Handle>, side: Side, h: Handle)
    requires Inv(s) && t in s.threads && th == s.threads[t] && DoBind(s, t, th, targets).Ok?
    ensures DoBind(s, t, th, targets).state.core.Deregistering(side, h) == s.core.Deregistering(side, h)
  {
    if s.core.Has(th.side, th.handle) {
      BindAllFacts(s.core, th.side, th.handle, targets);
      SameLeaving(s.core, DoBind(s, t, th, targets).state.core);
    }
  }

  lemma FinishKeepsFlags(s: State, t: Tid, th: Thread, side: Side, h: Handle)
    requires DoFinishUnbind(s, t, th).Ok?
    ensures DoFinishUnbind(s, t, th).state.core.Deregistering(side, h) == s.core.Deregistering(side, h)
  {
  }

  lemma StaysOrGoes(s: State, a: Action, side: Side, h: Handle)
    requires Inv(s) && Exec(s, a).Ok? && s.core.Has(side, h)
    requires Exec(s, a).state.core.Has(side, h)
    requires s.core.Deregistering(side, h) || !(a.Deregister? && a.side == side && a.handle == h)
    ensures Exec(s, a).state.core.Deregistering(side, h) == s.core.Deregistering(side, h)
  {
    if a.Bind? {
      BindKeepsFlags(s, a.t, s.threads[a.t], a.targets, side, h);
    } else if a.FinishUnbind? {
      FinishKeepsFlags(s, a.t, s.threads[a.t], side, h);
    } else if a.Register? {
      assert h != s.core.nextHandle;
    } else if a.Deregister? || a.FinishRemove? {
      DeregisterKeepsFlags(s, a, side, h);
    } else {
      OthersKeepRegistrations(s, a);
    }
  }

  lemma DeregisterKeepsFlags(s: State, a: Action, side: Side, h: Handle)
    requires Exec(s, a).Ok? && (a.Deregister? || a.FinishRemove?) && s.core.Has(side, h)
    requires Exec(s, a).state.core.Has(side, h)
    requires s.core.Deregistering(side, h) || !(a.Deregister? && a.side == side && a.handle == h)
    ensures Exec(s, a).state.core.Deregistering(side, h) == s.core.Deregistering(side, h)
  {
  }

  lemma OthersKeepRegistrations(s: State, a: Action)
    requires Exec(s, a).Ok?
    requires !a.Bind? && !a.FinishUnbind? && !a.Register? && !a.Deregister? && !a.FinishRemove?
    ensures Exec(s, a).state.core.clients == s.core.clients && Exec(s, a).state.core.providers == s.core.providers
  {
  }

  lemma ExecLeavesBehind(s: State, a: Action, side: Side, h: Handle, b: BindingId)
    requires Inv(s) && LeftBehind(s, side, h, b) && Exec(s, a).Ok?
    requires !(a.Deregister? && a.side == side.Other() && a.handle == s.core.objects[b].Party(side.Other()))
    ensures LeftBehind(Exec(s, a).state, side, h, b)
  {
    var s' := Exec(s, a).state;
    var q := s.core.objects[b].Party(side.Other());
    ExecKeeps(s, a);
    ExecSpares(s, a, b);
    ExecExtends(s, a);
    ExecNobodyUnbinds(s, a, side, h, b);
    NewCollectors(s, a, side, h);
    NewCollectors(s, a, side.Other(), q);
    assert s.core.PartiesRegistered(b) && s'.core.PartiesRegistered(b);
    StaysOrGoes(s, a, side, h);
  }

  /** From such a state on, as long as the other party does not deregister, the deregistration of
      `h` never gets to the end of its wait: the count is not zero. */
  lemma {:induction false} LeftBehindWaitsForever(actions: seq<Action>, k: nat, side: Side, h: Handle, b: BindingId, q: Handle)
    requires k <= |actions| && Run(INIT, actions).Ok? && Run(INIT, actions[..k]).Ok?
    requires LeftBehind(Run(INIT, actions[..k]).state, side, h, b)
    requires q == Run(INIT, actions[..k]).state.core.objects[b].Party(side.Other())
    requires forall i :: k <= i < |actions| ==>
      !(actions[i].Deregister? && actions[i].side == side.Other() && actions[i].handle == q)
    ensures LeftBehind(Run(INIT, actions).state, side, h, b)
    ensures Run(INIT, actions).state.core.objects[b].Party(side.Other()) == q
    ensures Waiting(Run(INIT, actions).state.core, side, h)
  {
    if k == |actions| {
      assert actions[..k] == actions;
    } else {
      var n := |actions| - 1;
      assert actions[..n][..k] == actions[..k];
      LeftBehindWaitsForever(actions[..n], k, side, h, b, q);
      RunIsSafe(actions[..n]);
      ExecLeavesBehind(Run(INIT, actions[..n]).state, actions[n], side, h, b);
      ExecExtends(Run(INIT, actions[..n]).state, actions[n]);
    }
    RunIsSafe(actions);
    LeftBehindWaits(Run(INIT, actions).state, side, h, b);
  }

  /** The condition for which `remove` waits does not hold. */
  ghost predicate Waiting(core: Core, side: Side, h: Handle) {
    core.Has(side, h) && core.Regs(side)[h].bindingCount > 0
  }

  lemma LeftBehindWaits(s: State, side: Side, h: Handle, b: BindingId)
    requires Inv(s) && LeftBehind(s, side, h, b)
    ensures Waiting(s.core, side, h)
  {
    assert b in s.core.Refs(side, h);
  }

  /** Such states are reached: the client deregisters while the attach is still running. */
  lemma SomeBindingIsLeftBehind() returns (actions: seq<Action>)
    ensures Run(INIT, actions).Ok? && LeftBehind(Run(INIT, actions).state, Client, 1, 0)
  {
    var s3, l3 := ClientFirst();
    BindOneTarget(s3, 1, Provider, 2, 1);
    var s4, l4 := StepTo(s3, l3, Bind(1, [1]));
    var s5, l5 := StepTo(s4, l4, Deregister(2, Client, 1));
    assert s5.core.objects == map[0 := Binding(1, 2, Start, Start, false, false)] && s5.core.live == {0};
    actions := LeftBehindRest(s5, l5);
  }

  /** A client has registered and found nobody; a provider has been added. */
  lemma ClientFirst() returns (s: State, actions: seq<Action>)
    ensures Run(INIT, actions) == Ok(s) && Offered(s.core, 1, 2)
    ensures s.core.objects == map[] && s.core.live == {} && s.core.nextBinding == 0 && s.traces == map[]
    ensures s.threads == map[0 := RunningActions([], NextAction), 1 := Registering(Provider, 2)]
  {
    BothOffered();
    var s1, l1 := StepTo(INIT, [], Register(0, Client, Some(7), false));
    assert BindAll(s1.core, Client, 1, []) == (s1.core, []);
    var s2, l2 := StepTo(s1, l1, Bind(0, []));
    assert s2.core == s1.core && s2.traces == map[];
    s, actions := StepTo(s2, l2, Register(1, Provider, Some(7), false));
  }

  lemma LeftBehindRest(s5: State, l5: seq<Action>) returns (actions: seq<Action>)
    requires Run(INIT, l5) == Ok(s5)
    requires s5.core.objects == map[0 := Binding(1, 2, Start, Start, false, false)] && s5.core.live == {0}
    requires s5.threads == map[0 := RunningActions([], NextAction), 1 := RunningActions([0], NextAction),
                               2 := Deregistering(Client, 1)]
    requires s5.traces == map[0 := [Created(1, Provider)]]
    requires s5.core.Deregistering(Client, 1) && s5.core.Has(Provider, 2) && !s5.core.Deregistering(Provider, 2)
    ensures Run(INIT, actions).Ok? && LeftBehind(Run(INIT, actions).state, Client, 1, 0)
  {
    assert s5.core.Refs(Client, 1) == {0};
    assert Enumerates([0], s5.core.Refs(Client, 1));
    var s6, l6 := StepTo(s5, l5, CollectBindings(2, [0]));
    var s7, l7 := StepTo(s6, l6, TryBeginUnbind(2));
    var s8, l8 := StepTo(s7, l7, EndLoop(2));
    assert s8.threads == map[0 := RunningActions([], NextAction), 1 := RunningActions([0], NextAction)];
    actions := AttachAfterSkip(s8, l8);
  }

  lemma AttachAfterSkip(s8: State, l8: seq<Action>) returns (actions: seq<Action>)
    requires Run(INIT, l8) == Ok(s8)
    requires s8.core.objects == map[0 := Binding(1, 2, Start, Start, false, false)] && s8.core.live == {0}
    requires s8.threads == map[0 := RunningActions([], NextAction), 1 := RunningActions([0], NextAction)]
    requires s8.traces == map[0 := [Created(1, Provider)]]
    requires s8.core.Deregistering(Client, 1) && s8.core.Has(Provider, 2) && !s8.core.Deregistering(Provider, 2)
    ensures Run(INIT, actions).Ok? && LeftBehind(Run(INIT, actions).state, Client, 1, 0)
  {
    var s9, l9 := StepTo(s8, l8, CallAttach(1));
    var s10, l10 := StepTo(s9, l9, AttachReturns(1, true));
    assert s10.traces[0] == [Created(1, Provider)] + [AttachCalled] + [AttachReady(false, false)];
    FirstPhase(1, Provider);
    PhaseAppend([Created(1, Provider)], AttachCalled);
    PhaseAppend([Created(1, Provider)] + [AttachCalled], AttachReady(false, false));
    assert forall t :: t in s10.threads ==> s10.threads[t].RunningActions?;
    actions := l10;
  }
}
