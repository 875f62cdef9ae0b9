/** What the parties hand in is what the registrar keeps: ids and cleanup callbacks of registrations, binding
    contexts, and the outcomes of attaches. All of it is stated in terms of the calls of a run. */
module NmrGiven {
  import opened Options
  import opened NmrCore
  import opened NmrTrace
  import opened NmrProtocol
  import opened NmrInvariant
  import opened NmrBindingSteps
  import opened NmrRegistrationSteps
  import opened NmrQuiet
  import opened NmrSafety
  import opened NmrMatching
  import opened NmrLimits
  import opened NmrWork
  import opened NmrProgress
  import opened NmrAnswers

  // ----- registrations

  datatype Given = Given(side: Side, npi: Option<int>, hasCleanup: bool)

  /** The registration calls of a run, in order; the n-th of them got handle n. */
  function Registrations(actions: seq<Action>): seq<Given> {
    if actions == [] then []
    else
      var a := actions[|actions| - 1];
      Registrations(actions[..|actions| - 1]) + if a.Register? then [Given(a.side, a.npi, a.hasCleanup)] else []
  }

  ghost predicate IsGiven(given: seq<Given>, side: Side, h: Handle, r: Registration) {
    1 <= h <= |given| && given[h - 1] == Given(side, r.npi, r.hasCleanup)
  }

  ghost predicate AllGiven(core: Core, given: seq<Given>) {
    && core.nextHandle == |given| + 1
    && forall side: Side, h: Handle :: core.Has(side, h) ==> IsGiven(given, side, h, core.Regs(side)[h])
  }

  /** No registration is added, and none changes its id or its cleanup callback. */
  ghost predicate KeepsGiven(c: Core, d: Core) {
    && d.nextHandle == c.nextHandle
    && forall side: Side, h: Handle :: d.Has(side, h) ==>
         c.Has(side, h) && d.Regs(side)[h].npi == c.Regs(side)[h].npi && d.Regs(side)[h].hasCleanup == c.Regs(side)[h].hasCleanup
  }

  lemma SameKeepsGiven(c: Core, d: Core)
    requires SameRegistrations(c, d)
    ensures KeepsGiven(c, d)
  {
    SameLeaving(c, d);
    forall side: Side, h: Handle | d.Has(side, h)
      ensures c.Has(side, h) && d.Regs(side)[h].npi == c.Regs(side)[h].npi && d.Regs(side)[h].hasCleanup == c.Regs(side)[h].hasCleanup
    {
      assert c.Has(side, h);
      assert h in c.Regs(side);
    }
  }

  lemma DeactivateKeepsGiven(core: Core, side: Side, h: Handle)
    requires core.Has(side, h)
    ensures KeepsGiven(core, Deactivate(core, side, h))
  {
  }

  lemma RemoveKeepsGiven(core: Core, side: Side, h: Handle)
    ensures KeepsGiven(core, Remove(core, side, h))
  {
  }

  lemma DeregisterKeepsGiven(s: State, a: Action)
    requires (a.Deregister? || a.FinishRemove?) && Exec(s, a).Ok?
    ensures KeepsGiven(s.core, Exec(s, a).state.core)
  {
    if a.FinishRemove? {
      RemoveKeepsGiven(s.core, s.threads[a.t].side, s.threads[a.t].handle);
    } else if s.core.Has(a.side, a.handle) {
      DeactivateKeepsGiven(s.core, a.side, a.handle);
    }
  }

  lemma OthersKeepHandles(s: State, a: Action)
    requires Exec(s, a).Ok?
    requires !a.Bind? && !a.FinishUnbind? && !a.Register? && !a.Deregister? && !a.FinishRemove?
    ensures Exec(s, a).state.core.nextHandle == s.core.nextHandle
  {
  }

  lemma StepKeepsGiven(s: State, a: Action)
    requires RefsOk(s.core) && Exec(s, a).Ok? && !a.Register?
    ensures KeepsGiven(s.core, Exec(s, a).state.core)
  {
    if a.Bind? {
      var th := s.threads[a.t];
      if s.core.Has(th.side, th.handle) {
        BindAllFacts(s.core, th.side, th.handle, a.targets);
        SameKeepsGiven(s.core, Exec(s, a).state.core);
      }
    } else if a.FinishUnbind? {
      EraseSets(s.core, Finishes(s.threads[a.t]).value);
      SameKeepsGiven(s.core, Exec(s, a).state.core);
    } else if a.Deregister? || a.FinishRemove? {
      DeregisterKeepsGiven(s, a);
    } else {
      OthersKeepRegistrations(s, a);
      OthersKeepHandles(s, a);
    }
  }

  lemma AddIsGiven(core: Core, side: Side, npi: Option<int>, hasCleanup: bool, given: seq<Given>)
    requires AllGiven(core, given)
    ensures AllGiven(Add(core, side, npi, hasCleanup), given + [Given(side, npi, hasCleanup)])
  {
    var d, more := Add(core, side, npi, hasCleanup), given + [Given(side, npi, hasCleanup)];
    forall side2: Side, h: Handle | d.Has(side2, h)
      ensures IsGiven(more, side2, h, d.Regs(side2)[h])
    {
      if (side2, h) != (side, core.nextHandle) {
        assert core.Has(side2, h) && IsGiven(given, side2, h, core.Regs(side2)[h]);
      }
    }
  }

  /** In every run each registration in the maps has the side, the id and the cleanup callback with which it was
      registered. */
  lemma {:induction false} RegistrationsAreAsGiven(actions: seq<Action>)
    requires Run(INIT, actions).Ok?
    ensures AllGiven(Run(INIT, actions).state.core, Registrations(actions))
  {
    if actions != [] {
      var n := |actions| - 1;
      var s, a := Run(INIT, actions[..n]).state, actions[n];
      RegistrationsAreAsGiven(actions[..n]);
      RunIsSafe(actions[..n]);
      if a.Register? {
        AddIsGiven(s.core, a.side, a.npi, a.hasCleanup, Registrations(actions[..n]));
      } else {
        StepKeepsGiven(s, a);
      }
    }
  }

  // ----- binding contexts

  datatype Contexts = Contexts(client: bool, provider: bool) {
    function Of(side: Side): bool {
      if side.Client? then client else provider
    }
  }

  /** The step is a call of `client_attach_provider` for `b`, from inside its attach callback. */
  ghost predicate SavesFor(s: State, a: Action, b: BindingId) {
    a.SaveContexts? && InAttachOf(s, a.t, b)
  }

  /** The contexts that the last such call handed in, and none before the first. */
  ghost function ContextsOf(actions: seq<Action>, b: BindingId): Contexts {
    if actions == [] then Contexts(false, false)
    else
      var before, a := actions[..|actions| - 1], actions[|actions| - 1];
      if Run(INIT, before).Ok? && SavesFor(Run(INIT, before).state, a, b) then Contexts(a.clientContext, a.providerContext)
      else ContextsOf(before, b)
  }

  function ContextsIn(s: State, b: BindingId): Contexts {
    if b in s.core.objects then Contexts(s.core.objects[b].clientContext, s.core.objects[b].providerContext) else Contexts(false, false)
  }

  lemma SaveStep(s: State, a: Action, b: BindingId)
    requires Exec(s, a).Ok? && a.SaveContexts?
    ensures ContextsIn(Exec(s, a).state, b) ==
      if SavesFor(s, a, b) then Contexts(a.clientContext, a.providerContext) else ContextsIn(s, b)
  {
  }

  lemma AttachKeepsContexts(s: State, a: Action, b: BindingId)
    requires Exec(s, a).Ok? && (a.CallAttach? || a.AttachReturns?)
    ensures ContextsIn(Exec(s, a).state, b) == ContextsIn(s, b)
  {
  }

  lemma UnbindKeepsContexts(s: State, a: Action, b: BindingId)
    requires Exec(s, a).Ok? && (a.TryBeginUnbind? || a.CallDetach? || a.DetachReturns? || a.SettleDetach?)
    ensures ContextsIn(Exec(s, a).state, b) == ContextsIn(s, b)
  {
  }

  lemma BindKeepsContexts(s: State, a: Action, b: BindingId)
    requires RefsOk(s.core) && Exec(s, a).Ok? && a.Bind?
    ensures ContextsIn(Exec(s, a).state, b) == ContextsIn(s, b)
  {
    var th := s.threads[a.t];
    if s.core.Has(th.side, th.handle) {
      BindAllFacts(s.core, th.side, th.handle, a.targets);
      var (d, ids) := BindAll(s.core, th.side, th.handle, a.targets);
      assert forall x :: x in ids ==> NewBinding(s.core, th.side, th.handle, a.targets, d, x);
    }
  }

  lemma OthersKeepContexts(s: State, a: Action, b: BindingId)
    requires Exec(s, a).Ok?
    requires a.Register? || a.Deregister? || a.CollectBindings? || a.EndLoop? || a.WaitForDeregister? || a.FinishRemove? || a.FinishUnbind? || a.CompleteDetach?
    ensures ContextsIn(Exec(s, a).state, b) == ContextsIn(s, b)
  {
  }

  lemma StepKeepsContexts(s: State, a: Action, b: BindingId)
    requires RefsOk(s.core) && Exec(s, a).Ok?
    ensures ContextsIn(Exec(s, a).state, b) ==
      if SavesFor(s, a, b) then Contexts(a.clientContext, a.providerContext) else ContextsIn(s, b)
  {
    if a.SaveContexts? {
      SaveStep(s, a, b);
    } else if a.CallAttach? || a.AttachReturns? {
      AttachKeepsContexts(s, a, b);
    } else if a.TryBeginUnbind? || a.CallDetach? || a.DetachReturns? || a.SettleDetach? {
      UnbindKeepsContexts(s, a, b);
    } else if a.Bind? {
      BindKeepsContexts(s, a, b);
    } else {
      OthersKeepContexts(s, a, b);
    }
  }

  /** In every run a binding has the contexts that the last `client_attach_provider` of its attach handed in. */
  lemma {:induction false} ContextsAreAsGiven(actions: seq<Action>, b: BindingId)
    requires Run(INIT, actions).Ok?
    ensures ContextsIn(Run(INIT, actions).state, b) == ContextsOf(actions, b)
  {
    if actions != [] {
      var n := |actions| - 1;
      ContextsAreAsGiven(actions[..n], b);
      RunIsSafe(actions[..n]);
      StepKeepsContexts(Run(INIT, actions[..n]).state, actions[n], b);
    }
  }

  // ----- which registrations are going away

  /** A deregistration of `h` has been called, and found it. */
  ghost predicate DeregisterCalled(actions: seq<Action>, side: Side, h: Handle) {
    actions != [] &&
    var before, a := actions[..|actions| - 1], actions[|actions| - 1];
    || (a.Deregister? && a.side == side && a.handle == h && Run(INIT, before).Ok? && Run(INIT, before).state.core.Has(side, h))
    || DeregisterCalled(before, side, h)
  }

  lemma FlagStep(s: State, a: Action, side: Side, h: Handle)
    requires Inv(s) && Exec(s, a).Ok? && s.core.Has(side, h) && Exec(s, a).state.core.Has(side, h)
    ensures Exec(s, a).state.core.Deregistering(side, h) <==>
      s.core.Deregistering(side, h) || (a.Deregister? && a.side == side && a.handle == h)
  {
    if !(a.Deregister? && a.side == side && a.handle == h) || s.core.Deregistering(side, h) {
      StaysOrGoes(s, a, side, h);
    }
  }

  lemma NewRegistration(s: State, a: Action, side: Side, h: Handle)
    requires RefsOk(s.core) && Exec(s, a).Ok? && !s.core.Has(side, h) && Exec(s, a).state.core.Has(side, h)
    ensures a.Register? && h == s.core.nextHandle && !Exec(s, a).state.core.Deregistering(side, h)
  {
    if !a.Register? {
      StepKeepsGiven(s, a);
    }
  }

  lemma HandlesGrow(s: State, a: Action)
    requires RefsOk(s.core) && Exec(s, a).Ok?
    ensures s.core.nextHandle <= Exec(s, a).state.core.nextHandle
  {
    if !a.Register? {
      StepKeepsGiven(s, a);
    }
  }

  /** In every run a registration in the maps is deregistering exactly when its deregistration has been called. */
  lemma {:induction false} DeregisteringIsCalled(actions: seq<Action>, side: Side, h: Handle)
    requires Run(INIT, actions).Ok?
    ensures DeregisterCalled(actions, side, h) ==> h < Run(INIT, actions).state.core.nextHandle
    ensures Run(INIT, actions).state.core.Has(side, h) ==>
      (Run(INIT, actions).state.core.Deregistering(side, h) <==> DeregisterCalled(actions, side, h))
  {
    if actions != [] {
      var n := |actions| - 1;
      var s, s' := Run(INIT, actions[..n]).state, Run(INIT, actions).state;
      DeregisteringIsCalled(actions[..n], side, h);
      RunIsSafe(actions[..n]);
      HandlesGrow(s, actions[n]);
      if s'.core.Has(side, h) {
        if s.core.Has(side, h) {
          FlagStep(s, actions[n], side, h);
        } else {
          NewRegistration(s, actions[n], side, h);
        }
      }
    }
  }

  // ----- cleanup

  lemma ClosedStays(s: State, a: Action, b: BindingId)
    requires Inv(s) && Exec(s, a).Ok? && b in s.core.objects && b !in s.core.live
    ensures b in Exec(s, a).state.traces && b in s.traces && Exec(s, a).state.traces[b] == s.traces[b]
    ensures b !in Exec(s, a).state.core.live
  {
    ExecKeeps(s, a);
    ExecExtends(s, a);
    ClosedKept(s, Exec(s, a).state, b);
  }

  lemma ClosedKept(s: State, s': State, b: BindingId)
    requires TracesOk(s) && TracesOk(s') && Extends(s, s') && b in s.core.objects && b !in s.core.live
    ensures b in s'.traces && b in s.traces && s'.traces[b] == s.traces[b] && b !in s'.core.live
  {
    assert BindingOk(s.core.objects[b], b in s.core.live, Ph(s, b));
    assert BindingOk(s'.core.objects[b], b in s'.core.live, Ph(s', b));
    ClosedIsLast(s.traces[b], s'.traces[b]);
  }

  lemma ClosedIsLast(before: seq<Event>, after: seq<Event>)
    requires before <= after && PhaseOf(before).Closed? && PhaseOf(after) != Bad
    ensures after == before
  {
    assert after[..|before|] == before;
    NothingAfterClosed(after, |before|);
  }

  lemma {:induction false} NothingAfterClosed(trace: seq<Event>, k: nat)
    requires k <= |trace| && PhaseOf(trace) != Bad && PhaseOf(trace[..k]).Closed?
    ensures k == |trace|
  {
    if k < |trace| {
      var n := |trace| - 1;
      LegalPrefix(trace, n);
      assert trace[..n][..k] == trace[..k];
      NothingAfterClosed(trace[..n], k);
    }
  }

  lemma OthersKeepLive(s: State, a: Action, b: BindingId)
    requires RefsOk(s.core) && Exec(s, a).Ok? && b in s.core.live && !a.FinishUnbind?
    ensures b in Exec(s, a).state.core.live
  {
    if a.Bind? {
      BindKeepsLive(s, a.t, s.threads[a.t], a.targets, b);
    } else {
      SameLive(s, a);
    }
  }

  lemma BindKeepsLive(s: State, t: Tid, th: Thread, targets: seq<Handle>, b: BindingId)
    requires RefsOk(s.core) && DoBind(s, t, th, targets).Ok? && b in s.core.live
    ensures b in DoBind(s, t, th, targets).state.core.live
  {
    if s.core.Has(th.side, th.handle) {
      BindAllFacts(s.core, th.side, th.handle, targets);
    }
  }

  lemma SameLive(s: State, a: Action)
    requires Exec(s, a).Ok? && !a.Bind? && !a.FinishUnbind?
    ensures Exec(s, a).state.core.live == s.core.live
  {
  }

  lemma FinishErases(s: State, t: Tid, b: BindingId)
    requires t in s.threads && DoFinishUnbind(s, t, s.threads[t]).Ok?
    requires b in s.core.live && b !in DoFinishUnbind(s, t, s.threads[t]).state.core.live
    ensures Finishes(s.threads[t]) == Some(b) && s.core.PartiesRegistered(b) && b in s.traces
    ensures DoFinishUnbind(s, t, s.threads[t]).state.traces == s.traces[b := s.traces[b] + CleanupEvents(s.core, b)]
    ensures DoFinishUnbind(s, t, s.threads[t]).state.core.objects == s.core.objects
  {
  }

  lemma OnlyFinishErases(s: State, a: Action, b: BindingId)
    requires RefsOk(s.core) && Exec(s, a).Ok? && b in s.core.live && b !in Exec(s, a).state.core.live
    ensures a.FinishUnbind? && Finishes(s.threads[a.t]) == Some(b) && s.core.PartiesRegistered(b) && b in s.traces
    ensures Exec(s, a).state.traces == s.traces[b := s.traces[b] + CleanupEvents(s.core, b)]
    ensures Exec(s, a).state.core.objects == s.core.objects
  {
    if a.FinishUnbind? {
      FinishErases(s, a.t, b);
    } else {
      OthersKeepLive(s, a, b);
    }
  }

  /** The registration call that made a binding's party on `side` supplied a cleanup callback, and a context was
      handed in for that side. */
  ghost predicate CleanupDue(actions: seq<Action>, b: BindingId, party: Handle, side: Side) {
    1 <= party <= |Registrations(actions)| && Registrations(actions)[party - 1].hasCleanup && ContextsOf(actions, b).Of(side)
  }

  lemma EraseCleansExactly(core: Core, b: BindingId, given: seq<Given>, side: Side)
    requires core.PartiesRegistered(b) && AllGiven(core, given)
    ensures 1 <= core.objects[b].Party(side) <= |given|
    ensures CleanedUp(side) in CleanupEvents(core, b) <==> given[core.objects[b].Party(side) - 1].hasCleanup && core.objects[b].Context(side)
  {
    assert core.Has(Client, core.objects[b].client) && core.Has(Provider, core.objects[b].provider);
    assert IsGiven(given, side, core.objects[b].Party(side), core.Regs(side)[core.objects[b].Party(side)]);
  }

  lemma NewObjectIsLive(s: State, a: Action, b: BindingId)
    requires Inv(s) && Exec(s, a).Ok? && b !in s.core.objects && b in Exec(s, a).state.core.objects
    ensures b in Exec(s, a).state.core.live
  {
    if a.Bind? {
      var th := s.threads[a.t];
      BindAllFacts(s.core, th.side, th.handle, a.targets);
    } else if !a.Register? {
      ExecIsQuiet(s, a);
    }
  }

  lemma AttachingIsLive(s: State, b: BindingId)
    requires Inv(s)
    ensures forall t :: InAttachOf(s, t, b) ==> b in s.core.live
  {
    forall t | InAttachOf(s, t, b)
      ensures b in s.core.live
    {
      assert ThreadOk(s, t, s.threads[t]);
      OwnFacts(s, t, b);
    }
  }

  lemma ClosedIsNotAttaching(s: State, a: Action, b: BindingId)
    requires Inv(s) && b !in s.core.live
    ensures !SavesFor(s, a, b)
  {
    AttachingIsLive(s, b);
  }

  lemma EraseStepCleans(s: State, a: Action, s': State, b: BindingId, given: seq<Given>, side: Side)
    requires TracesOk(s) && RefsOk(s.core) && AllGiven(s.core, given) && Exec(s, a) == Ok(s')
    requires b in s.core.live && b !in s'.core.live
    ensures !a.Register? && b in s'.traces && b in s'.core.objects && 1 <= s'.core.objects[b].Party(side) <= |given|
    ensures CleanedUp(side) in s'.traces[b] <==> given[s'.core.objects[b].Party(side) - 1].hasCleanup && s'.core.objects[b].Context(side)
  {
    OnlyFinishErases(s, a, b);
    LiveIsIntact(s, b);
    CleanedByErase(s, s', b, given, side);
  }

  lemma CleanedByErase(s: State, s': State, b: BindingId, given: seq<Given>, side: Side)
    requires AllGiven(s.core, given) && Intact(s, b) && s.core.PartiesRegistered(b)
    requires s'.core.objects == s.core.objects && s'.traces == s.traces[b := s.traces[b] + CleanupEvents(s.core, b)]
    ensures b in s'.traces && b in s'.core.objects && 1 <= s'.core.objects[b].Party(side) <= |given|
    ensures CleanedUp(side) in s'.traces[b] <==> given[s'.core.objects[b].Party(side) - 1].hasCleanup && s'.core.objects[b].Context(side)
  {
    EraseCleansExactly(s.core, b, given, side);
  }

  lemma RunParts(actions: seq<Action>)
    requires Run(INIT, actions).Ok?
    ensures TracesOk(Run(INIT, actions).state) && RefsOk(Run(INIT, actions).state.core)
  {
    RunIsSafe(actions);
  }

  /** What the last step of a run does to a binding that is erased by it. */
  lemma ErasedNow(actions: seq<Action>, s: State, s': State, b: BindingId, side: Side)
    requires actions != [] && Run(INIT, actions[..|actions| - 1]) == Ok(s) && Exec(s, actions[|actions| - 1]) == Ok(s')
    requires Run(INIT, actions) == Ok(s') && b in s.core.live && b !in s'.core.live
    ensures b in s'.core.objects && b in s'.traces
    ensures CleanedUp(side) in s'.traces[b] <==> CleanupDue(actions, b, s'.core.objects[b].Party(side), side)
  {
    var n := |actions| - 1;
    RunParts(actions[..n]);
    RegistrationsAreAsGiven(actions[..n]);
    EraseStepCleans(s, actions[n], s', b, Registrations(actions[..n]), side);
    ContextsAreAsGiven(actions, b);
    assert Registrations(actions) == Registrations(actions[..n]);
    CleanedAsDue(s', actions, b, side);
  }

  lemma CleanedAsDue(s: State, actions: seq<Action>, b: BindingId, side: Side)
    requires b in s.traces && b in s.core.objects && 1 <= s.core.objects[b].Party(side) <= |Registrations(actions)|
    requires ContextsIn(s, b) == ContextsOf(actions, b)
    requires CleanedUp(side) in s.traces[b] <==>
      Registrations(actions)[s.core.objects[b].Party(side) - 1].hasCleanup && s.core.objects[b].Context(side)
    ensures CleanedUp(side) in s.traces[b] <==> CleanupDue(actions, b, s.core.objects[b].Party(side), side)
  {
  }

  /** What it does to one that was erased before. */
  lemma ErasedBefore(actions: seq<Action>, b: BindingId, side: Side)
    requires actions != [] && Run(INIT, actions).Ok?
    requires b in Run(INIT, actions[..|actions| - 1]).state.core.objects && b !in Run(INIT, actions[..|actions| - 1]).state.core.live
    ensures var s, s' := Run(INIT, actions[..|actions| - 1]).state, Run(INIT, actions).state;
      && b in s.traces && b in s'.traces && b in s'.core.objects && s'.traces[b] == s.traces[b]
      && s'.core.objects[b].Party(side) == s.core.objects[b].Party(side)
      && (CleanupDue(actions, b, s'.core.objects[b].Party(side), side)
          <==> CleanupDue(actions[..|actions| - 1], b, s.core.objects[b].Party(side), side))
  {
    var n := |actions| - 1;
    var s := Run(INIT, actions[..n]).state;
    RunIsSafe(actions[..n]);
    ClosedStays(s, actions[n], b);
    ExecExtends(s, actions[n]);
    ClosedIsNotAttaching(s, actions[n], b);
    RegistrationsAreAsGiven(actions[..n]);
    assert s.core.objects[b].Party(side) < s.core.nextHandle;
  }

  /** In every run, once a binding has been erased, a side's cleanup callback was called for it exactly when its
      registration supplied one and a context was handed in; before that, never. */
  lemma {:induction false} CleanupIsExact(actions: seq<Action>, b: BindingId, side: Side)
    requires Run(INIT, actions).Ok? && b in Run(INIT, actions).state.core.objects
    ensures var s := Run(INIT, actions).state;
      && b in s.traces
      && (CleanedUp(side) in s.traces[b] <==>
            b !in s.core.live && CleanupDue(actions, b, s.core.objects[b].Party(side), side))
  {
    RunIsSafe(actions);
    var s' := Run(INIT, actions).state;
    if b in s'.core.live {
      LiveIsIntact(s', b);
    } else {
      var n := |actions| - 1;
      var s := Run(INIT, actions[..n]).state;
      RunIsSafe(actions[..n]);
      if b in s.core.live {
        ErasedNow(actions, s, s', b, side);
      } else {
        if b !in s.core.objects {
          NewObjectIsLive(s, actions[n], b);
        }
        CleanupIsExact(actions[..n], b, side);
        ErasedBefore(actions, b, side);
      }
    }
  }

  // ----- attaches that fail

  lemma {:induction false} FailureIsFinal(trace: seq<Event>)
    requires PhaseOf(trace) != Bad && AttachFailed in trace
    ensures var ph := PhaseOf(trace); (ph.Finishing? || ph.Closed?) && !ph.attached
  {
    var n := |trace| - 1;
    LegalPrefix(trace, n);
    assert trace == trace[..n] + [trace[n]];
    if AttachFailed in trace[..n] {
      FailureIsFinal(trace[..n]);
    }
  }

  lemma FailedIsOver(s: State, b: BindingId)
    requires Inv(s) && b in s.traces && AttachFailed in s.traces[b]
    ensures b in s.core.objects && s.core.objects[b].clientStatus.Start? && s.core.objects[b].providerStatus.Start?
    ensures Workers(s) && RegistrationsSettled(s) ==> b !in s.core.live
  {
    assert BindingOk(s.core.objects[b], b in s.core.live, Ph(s, b));
    FailureIsFinal(s.traces[b]);
    if Ph(s, b).Finishing? && Workers(s) {
      var t := Ph(s, b).thread;
      assert WorkedOn(s, t, b) && ThreadOk(s, t, s.threads[t]);
    }
  }

  /** If the attach callback for `b` fails, then `b` is Ready at no later point of the run, and it has been
      erased by the time no registration is in progress. */
  lemma FailedAttachIsNeverReady(actions: seq<Action>, k: nat, t: Tid, b: BindingId)
    requires k < |actions| && Run(INIT, actions).Ok? && Run(INIT, actions[..k]).Ok?
    requires InAttachOf(Run(INIT, actions[..k]).state, t, b) && actions[k] == AttachReturns(t, false)
    ensures var s := Run(INIT, actions).state;
      && b in s.core.objects && s.core.objects[b].clientStatus.Start? && s.core.objects[b].providerStatus.Start?
      && (RegistrationsSettled(s) ==> b !in s.core.live)
  {
    RunIsSafe(actions);
    RunLedger(actions);
    RunIsSafe(actions[..k]);
    RunOneMore(actions, k);
    AttachAnswerCounts(Run(INIT, actions[..k]).state, t, b, false);
    RunExtends(actions, k + 1);
    assert AttachFailed in Run(INIT, actions[..k + 1]).state.traces[b];
    FailedIsOver(Run(INIT, actions).state, b);
  }

  // ----- what a deregistration reports

  /** Thread `t`'s call of `begin_unbind` reports pending: the binding was not Ready, or one of its detaches has
      answered that it is pending. */
  ghost predicate ReportsPending(s: State, a: Action, t: Tid) {
    && a.t == t && t in s.threads && s.threads[t].Unbinding? && s.threads[t].todo != []
    && (|| (a.TryBeginUnbind? && s.threads[t].todo[0] in s.core.objects && !CanBeginUnbind(s.core.objects[s.threads[t].todo[0]]))
        || (a.SettleDetach? && s.threads[t].pc.InDetach? && s.threads[t].pc.step.Settle?
            && (s.threads[t].pc.step.clientPending || s.threads[t].pc.step.providerPending)))
  }

  /** One of them has, since the thread collected its bindings. */
  ghost predicate Reported(actions: seq<Action>, t: Tid) {
    actions != [] &&
    var before, a := actions[..|actions| - 1], actions[|actions| - 1];
    if a.CollectBindings? && a.t == t then false
    else (Run(INIT, before).Ok? && ReportsPending(Run(INIT, before).state, a, t)) || Reported(before, t)
  }

  lemma PendingStep(s: State, a: Action, t: Tid)
    requires Inv(s) && Exec(s, a).Ok? && t in Exec(s, a).state.threads && Exec(s, a).state.threads[t].Unbinding?
    ensures t in s.threads
    ensures if a.CollectBindings? && a.t == t then !Exec(s, a).state.threads[t].pending
      else s.threads[t].Unbinding? && (Exec(s, a).state.threads[t].pending <==> s.threads[t].pending || ReportsPending(s, a, t))
  {
    NewUnbinders(s, a, t);
    if a.t != t {
      OtherStepLists(s, a, t);
    } else if a.SettleDetach? {
      SettlePending(s, t, s.threads[t]);
    } else {
      OwnPending(s, a, s.threads[t]);
    }
  }

  lemma SettlePending(s: State, t: Tid, th: Thread)
    requires Inv(s) && t in s.threads && th == s.threads[t] && DoSettle(s, t, th).Ok?
    ensures var s' := DoSettle(s, t, th).state;
      t in s'.threads && s'.threads[t].Unbinding?
      && (s'.threads[t].pending <==> th.pending || th.pc.step.clientPending || th.pc.step.providerPending)
  {
    assert ThreadOk(s, t, th);
    OwnFacts(s, t, th.todo[0]);
  }

  lemma OwnPending(s: State, a: Action, th: Thread)
    requires Exec(s, a).Ok? && a.t in s.threads && th == s.threads[a.t] && !a.SettleDetach?
    requires a.t in Exec(s, a).state.threads && Exec(s, a).state.threads[a.t].Unbinding?
    ensures if a.CollectBindings? then !Exec(s, a).state.threads[a.t].pending
      else th.Unbinding? && (Exec(s, a).state.threads[a.t].pending <==> th.pending || ReportsPending(s, a, a.t))
  {
  }

  /** In every run a deregistering thread will report pending exactly when one of its calls of `begin_unbind` did. */
  lemma {:induction false} PendingIsReported(actions: seq<Action>, t: Tid)
    requires Run(INIT, actions).Ok? && t in Run(INIT, actions).state.threads && Run(INIT, actions).state.threads[t].Unbinding?
    ensures Run(INIT, actions).state.threads[t].pending <==> Reported(actions, t)
  {
    var n := |actions| - 1;
    RunIsSafe(actions[..n]);
    PendingStep(Run(INIT, actions[..n]).state, actions[n], t);
    if !(actions[n].CollectBindings? && actions[n].t == t) {
      PendingIsReported(actions[..n], t);
    }
  }

  /** So a deregistration whose unbinds have all finished synchronously is complete: it goes on to `remove`, which
      does not wait, and the registration is gone. One with a pending unbind is left to be waited for. */
  lemma DeregisterReports(actions: seq<Action>, t: Tid)
    requires Run(INIT, actions).Ok? && t in Run(INIT, actions).state.threads
    requires var th := Run(INIT, actions).state.threads[t]; th.Unbinding? && th.todo == []
    ensures var s := Run(INIT, actions).state;
      var side, h := s.threads[t].side, s.threads[t].handle;
      && Exec(s, EndLoop(t)).Ok?
      && var s1 := Exec(s, EndLoop(t)).state;
         if Reported(actions, t) then t !in s1.threads && (side, h) in s1.awaiting
         else t in s1.threads && Exec(s1, FinishRemove(t)).Ok? && !Exec(s1, FinishRemove(t)).state.core.Has(side, h)
  {
    RunIsSafe(actions);
    PendingIsReported(actions, t);
    EndLoopGoesOn(Run(INIT, actions).state, t);
  }

  lemma EndLoopGoesOn(s: State, t: Tid)
    requires ThreadsOk(s) && RefsOk(s.core) && t in s.threads && s.threads[t].Unbinding? && s.threads[t].todo == []
    ensures Exec(s, EndLoop(t)).Ok?
    ensures var side, h, s1 := s.threads[t].side, s.threads[t].handle, Exec(s, EndLoop(t)).state;
      if s.threads[t].pending then t !in s1.threads && (side, h) in s1.awaiting
      else t in s1.threads && Exec(s1, FinishRemove(t)).Ok? && !Exec(s1, FinishRemove(t)).state.core.Has(side, h)
  {
    var th := s.threads[t];
    assert ThreadOk(s, t, th);
    if !th.pending {
      assert s.core.Refs(th.side, th.handle) == {};
      assert s.core.Regs(th.side)[th.handle].bindingCount == |s.core.Refs(th.side, th.handle)|;
    }
  }
}
