/** What the parties answer is what the registrar acts on. These results speak of the calls and answers of
    a run, not of the histories that the steps record. */
module NmrAnswers {
  import opened Options
  import opened NmrCore
  import opened NmrTrace
  import opened NmrProtocol
  import opened NmrInvariant
  import opened NmrBindingSteps
  import opened NmrRegistrationSteps
  import opened NmrQuiet
  import opened NmrSafety
  import opened NmrMatching
  import opened NmrLimits
  import opened NmrWork
  import opened NmrProgress

  // ----- answers are recorded as they were given

  /** Thread `t` is inside the client's attach callback for `b`. */
  ghost predicate InAttachOf(s: State, t: Tid, b: BindingId) {
    t in s.threads && s.threads[t].RunningActions? && s.threads[t].apc.InAttach? && s.threads[t].todo != [] && s.threads[t].todo[0] == b
  }

  /** Thread `t` is inside `side`'s detach callback for `b`. */
  ghost predicate InDetachOf(s: State, t: Tid, b: BindingId, side: Side) {
    && t in s.threads && s.threads[t].Unbinding? && s.threads[t].todo != [] && s.threads[t].todo[0] == b
    && s.threads[t].pc.InDetach? && (if side.Client? then s.threads[t].pc.step.InClient? else s.threads[t].pc.step.InProvider?)
  }

  /** Either answer of an attach callback is accepted. Success makes the binding Ready on both sides at once;
      failure leaves it as it is. The history gets exactly the answer. */
  lemma AttachAnswerCounts(s: State, t: Tid, b: BindingId, success: bool)
    requires Inv(s) && InAttachOf(s, t, b)
    ensures b in s.core.objects && b in s.traces && Exec(s, AttachReturns(t, success)).Ok?
    ensures var s', o := Exec(s, AttachReturns(t, success)).state, s.core.objects[b];
      && b in s'.core.objects
      && s'.traces == s.traces[b := s.traces[b] + [if success then AttachReady(o.clientContext, o.providerContext) else AttachFailed]]
      && s'.core.objects[b] == (if success then o.(clientStatus := Ready, providerStatus := Ready) else o)
  {
    assert ThreadOk(s, t, s.threads[t]);
    OwnFacts(s, t, b);
  }

  /** Either answer of a detach callback is accepted, and the history gets exactly the answer. */
  lemma DetachAnswerCounts(s: State, t: Tid, b: BindingId, side: Side, pending: bool)
    requires Inv(s) && InDetachOf(s, t, b, side)
    ensures b in s.traces && Exec(s, DetachReturns(t, pending)).Ok?
    ensures Exec(s, DetachReturns(t, pending)).state.traces == s.traces[b := s.traces[b] + [DetachReturned(side, pending)]]
  {
    InDetachIsAtHand(s, t, b, side);
    DetachAnswerStep(s, t, b, side, pending);
  }

  lemma InDetachIsAtHand(s: State, t: Tid, b: BindingId, side: Side)
    requires Inv(s) && InDetachOf(s, t, b, side)
    ensures AtHand(s, b) && Ph(s, b).Detaching?
  {
    assert ThreadOk(s, t, s.threads[t]);
    OwnFacts(s, t, b);
  }

  lemma DetachAnswerStep(s: State, t: Tid, b: BindingId, side: Side, pending: bool)
    requires AtHand(s, b) && InDetachOf(s, t, b, side)
    ensures Exec(s, DetachReturns(t, pending)).Ok?
    ensures Exec(s, DetachReturns(t, pending)).state.traces == s.traces[b := s.traces[b] + [DetachReturned(side, pending)]]
  {
  }

  /** A completion that is owed is accepted from any thread, marks the status it settles, and is recorded. */
  lemma CompletionCounts(s: State, t: Tid, b: BindingId, side: Side)
    requires TracesOk(s) && t !in s.threads && b in s.core.live && b in s.core.objects
    requires s.core.objects[b].StatusOf(side.Other()).UnbindPending?
    ensures b in s.traces && Exec(s, CompleteDetach(t, b, side)).Ok?
    ensures var s' := Exec(s, CompleteDetach(t, b, side)).state;
      && b in s'.core.objects && s'.core.objects[b].StatusOf(side.Other()).UnbindComplete?
      && s'.core.objects[b].StatusOf(side) == s.core.objects[b].StatusOf(side)
      && s'.traces == s.traces[b := s.traces[b] + [DetachCompleted(side, t)]]
  {
    assert b in s.traces;
    CompletionStep(s, t, b, side);
  }

  lemma CompletionStep(s: State, t: Tid, b: BindingId, side: Side)
    requires t !in s.threads && b in s.core.live && b in s.core.objects && b in s.traces
    requires s.core.objects[b].StatusOf(side.Other()).UnbindPending?
    ensures DoCompleteDetach(s, t, b, side).Ok?
    ensures var s' := DoCompleteDetach(s, t, b, side).state;
      && b in s'.core.objects && s'.core.objects[b].StatusOf(side.Other()).UnbindComplete?
      && s'.core.objects[b].StatusOf(side) == s.core.objects[b].StatusOf(side)
      && s'.traces == s.traces[b := s.traces[b] + [DetachCompleted(side, t)]]
  {
  }

  // ----- calls are accepted

  /** A thread that is not in a call can register, can deregister a registration that is not deregistering yet, and
      can wait for one whose deregistration returned pending. */
  lemma CallsAreAccepted(s: State, t: Tid, side: Side, h: Handle, npi: Option<int>, hasCleanup: bool)
    requires t !in s.threads
    ensures Exec(s, Register(t, side, npi, hasCleanup)).Ok?
    ensures s.core.Has(side, h) && !s.core.Deregistering(side, h) ==>
      && Exec(s, Deregister(t, side, h)).Ok? && Exec(s, Deregister(t, side, h)).state.core.Deregistering(side, h)
      && Exec(s, Deregister(t, side, h)).state.threads == s.threads[t := Deregistering(side, h)]
    ensures s.core.Has(side, h) && (side, h) in s.awaiting ==>
      && Exec(s, WaitForDeregister(t, side, h)).Ok? && (side, h) !in Exec(s, WaitForDeregister(t, side, h)).state.awaiting
      && Exec(s, WaitForDeregister(t, side, h)).state.threads == s.threads[t := Removing(side, h, true)]
  {
  }

  /** Calls with a handle that is not in the maps change nothing. */
  lemma UnknownHandlesAreRefused(s: State, t: Tid, side: Side, h: Handle, b: BindingId)
    requires t !in s.threads
    ensures !s.core.Has(side, h) ==> Exec(s, Deregister(t, side, h)) == Ok(s) && Exec(s, WaitForDeregister(t, side, h)) == Ok(s)
    ensures b !in s.core.live ==> Exec(s, CompleteDetach(t, b, side)) == Ok(s)
  {
  }

  // ----- a pending detach is waited for

  /** A pending detach of `side` that has not been completed. */
  predicate Owed(ph: Phase, side: Side) {
    match ph
    case Detaching(_, _, _, step) =>
      (match step
       case CallProvider(c) => side.Client? && c
       case InProvider(c) => side.Client? && c
       case Settle(c, p) => if side.Client? then c else p
       case _ => false)
    case Waiting(c, p) => if side.Client? then c else p
    case _ => false
  }

  ghost predicate CompletedIn(trace: seq<Event>, side: Side) {
    exists u :: DetachCompleted(side, u) in trace
  }

  lemma {:induction false} PendingIsOwed(trace: seq<Event>, side: Side)
    requires PhaseOf(trace) != Bad && DetachReturned(side, true) in trace
    ensures CompletedIn(trace, side) || Owed(PhaseOf(trace), side)
  {
    var n := |trace| - 1;
    LegalPrefix(trace, n);
    assert trace == trace[..n] + [trace[n]];
    if DetachReturned(side, true) in trace[..n] {
      PendingIsOwed(trace[..n], side);
      OwedStep(trace[..n], trace[n], side);
    }
  }

  lemma OwedStep(trace: seq<Event>, e: Event, side: Side)
    requires PhaseNext(PhaseOf(trace), e) != Bad && (CompletedIn(trace, side) || Owed(PhaseOf(trace), side))
    ensures CompletedIn(trace + [e], side) || Owed(PhaseNext(PhaseOf(trace), e), side)
  {
    if CompletedIn(trace, side) {
      var u :| DetachCompleted(side, u) in trace;
      assert DetachCompleted(side, u) in trace + [e];
    } else if !Owed(PhaseNext(PhaseOf(trace), e), side) {
      assert e.DetachCompleted? && e.side == side;
      assert DetachCompleted(side, e.thread) in trace + [e];
    }
  }

  /** Nothing of `b` has been cleaned up or erased. */
  ghost predicate Intact(s: State, b: BindingId) {
    && b in s.core.live && b in s.traces
    && CleanedUp(Client) !in s.traces[b] && CleanedUp(Provider) !in s.traces[b] && Erased !in s.traces[b]
  }

  predicate Ends(e: Event) {
    e.CleanedUp? || e.Erased?
  }

  lemma {:induction false} EndsComeLast(trace: seq<Event>)
    requires PhaseOf(trace) != Bad
    ensures (exists e :: e in trace && Ends(e)) ==> PhaseOf(trace).Closed? || (PhaseOf(trace).Finishing? && PhaseOf(trace).cleaned > 0)
  {
    if trace != [] {
      var n := |trace| - 1;
      LegalPrefix(trace, n);
      EndsComeLast(trace[..n]);
      assert trace == trace[..n] + [trace[n]];
    }
  }

  lemma LiveIsIntact(s: State, b: BindingId)
    requires TracesOk(s) && RefsOk(s.core) && b in s.core.live
    ensures Intact(s, b)
  {
    assert BindingOk(s.core.objects[b], b in s.core.live, Ph(s, b));
    EndsComeLast(s.traces[b]);
    assert Ends(CleanedUp(Client)) && Ends(CleanedUp(Provider)) && Ends(Erased);
  }

  lemma {:induction false} CompletionsComeLate(trace: seq<Event>, side: Side)
    requires PhaseOf(trace) != Bad && CompletedIn(trace, side)
    ensures var ph := PhaseOf(trace); ph.Waiting? || ph.Finishing? || ph.Closed?
  {
    var n := |trace| - 1;
    LegalPrefix(trace, n);
    assert trace == trace[..n] + [trace[n]];
    if CompletedIn(trace[..n], side) {
      CompletionsComeLate(trace[..n], side);
    }
  }

  /** The step is an accepted completion of `side`'s detach for `b`. */
  ghost predicate Completes(s: State, a: Action, b: BindingId, side: Side) {
    a.CompleteDetach? && a.binding == b && a.side == side && b in s.core.live
  }

  /** Two histories that show the same completions. */
  ghost predicate SameCompletions(before: seq<Event>, after: seq<Event>) {
    forall side: Side, u :: DetachCompleted(side, u) in after ==> DetachCompleted(side, u) in before
  }

  lemma AppendedCompletes(before: seq<Event>, e: Event)
    requires !e.DetachCompleted?
    ensures SameCompletions(before, before + [e])
  {
  }

  lemma AttachStepsCompleteNothing(s: State, a: Action, b: BindingId)
    requires Exec(s, a).Ok? && b in s.traces && (a.CallAttach? || a.SaveContexts? || a.AttachReturns?)
    ensures b in Exec(s, a).state.traces && SameCompletions(s.traces[b], Exec(s, a).state.traces[b])
  {
  }

  lemma UnbindStepsCompleteNothing(s: State, a: Action, b: BindingId)
    requires Exec(s, a).Ok? && b in s.traces && (a.TryBeginUnbind? || a.CallDetach? || a.DetachReturns? || a.SettleDetach?)
    ensures b in Exec(s, a).state.traces && SameCompletions(s.traces[b], Exec(s, a).state.traces[b])
  {
  }

  lemma FinishCompletesNothing(s: State, a: Action, b: BindingId)
    requires Exec(s, a).Ok? && b in s.traces && a.FinishUnbind?
    ensures b in Exec(s, a).state.traces && SameCompletions(s.traces[b], Exec(s, a).state.traces[b])
  {
  }

  lemma BindCompletesNothing(s: State, a: Action, b: BindingId)
    requires RefsOk(s.core) && s.traces.Keys == s.core.objects.Keys && Exec(s, a).Ok? && b in s.traces && a.Bind?
    ensures b in Exec(s, a).state.traces && Exec(s, a).state.traces[b] == s.traces[b]
  {
    var th := s.threads[a.t];
    if s.core.Has(th.side, th.handle) {
      BindAllFacts(s.core, th.side, th.handle, a.targets);
    }
  }

  lemma CompletionIsACall(s: State, a: Action, b: BindingId, side: Side)
    requires Inv(s) && Exec(s, a).Ok? && b in s.traces && b in Exec(s, a).state.traces
    requires !CompletedIn(s.traces[b], side) && CompletedIn(Exec(s, a).state.traces[b], side)
    ensures Completes(s, a, b, side)
  {
    if a.CompleteDetach? {
      CompletionStepIsIt(s, a, b, side);
    } else if a.Bind? {
      BindCompletesNothing(s, a, b);
    } else if a.FinishUnbind? {
      FinishCompletesNothing(s, a, b);
    } else if a.CallAttach? || a.SaveContexts? || a.AttachReturns? {
      AttachStepsCompleteNothing(s, a, b);
    } else if a.TryBeginUnbind? || a.CallDetach? || a.DetachReturns? || a.SettleDetach? {
      UnbindStepsCompleteNothing(s, a, b);
    } else {
      OthersSpare(s, a);
    }
  }

  lemma CompletionStepIsIt(s: State, a: Action, b: BindingId, side: Side)
    requires a.CompleteDetach? && Exec(s, a).Ok? && b in s.traces && b in Exec(s, a).state.traces
    requires !CompletedIn(s.traces[b], side) && CompletedIn(Exec(s, a).state.traces[b], side)
    ensures Completes(s, a, b, side)
  {
    var u :| DetachCompleted(side, u) in Exec(s, a).state.traces[b];
    assert DetachCompleted(side, u) !in s.traces[b];
  }

  /** An accepted completion lies among the actions from number `k` on. */
  ghost predicate CompletionCalled(actions: seq<Action>, k: nat, b: BindingId, side: Side)
    decreases |actions|
  {
    k < |actions| &&
    var n := |actions| - 1;
    || (Run(INIT, actions[..n]).Ok? && Completes(Run(INIT, actions[..n]).state, actions[n], b, side))
    || CompletionCalled(actions[..n], k, b, side)
  }

  /** Action number `m` of the run is one. */
  ghost predicate CompletesAt(actions: seq<Action>, m: nat, b: BindingId, side: Side) {
    m < |actions| && Run(INIT, actions[..m]).Ok? && Completes(Run(INIT, actions[..m]).state, actions[m], b, side)
  }

  lemma CompletesInPrefix(actions: seq<Action>, n: nat, b: BindingId, side: Side)
    requires n <= |actions|
    ensures forall m: nat :: CompletesAt(actions[..n], m, b, side) <==> m < n && CompletesAt(actions, m, b, side)
  {
    forall m: nat | m < n
      ensures CompletesAt(actions[..n], m, b, side) <==> CompletesAt(actions, m, b, side)
    {
      assert actions[..n][..m] == actions[..m];
    }
  }

  /** The same, with the number of the action named. */
  lemma {:induction false} CompletionCalledAt(actions: seq<Action>, k: nat, b: BindingId, side: Side)
    ensures CompletionCalled(actions, k, b, side) <==> exists m: nat :: k <= m && CompletesAt(actions, m, b, side)
    decreases |actions|
  {
    if k < |actions| {
      var n := |actions| - 1;
      CompletionCalledAt(actions[..n], k, b, side);
      CompletesInPrefix(actions, n, b, side);
      assert Run(INIT, actions[..n]).Ok? && Completes(Run(INIT, actions[..n]).state, actions[n], b, side) <==> CompletesAt(actions, n, b, side);
    }
  }

  /** Between two points of a run at which `b`'s history does not and does show a completion, there is one. */
  lemma {:induction false} CompletionWasCalled(actions: seq<Action>, k: nat, b: BindingId, side: Side)
    requires k <= |actions| && Run(INIT, actions).Ok? && Run(INIT, actions[..k]).Ok?
    requires b in Run(INIT, actions[..k]).state.traces && !CompletedIn(Run(INIT, actions[..k]).state.traces[b], side)
    requires b in Run(INIT, actions).state.traces && CompletedIn(Run(INIT, actions).state.traces[b], side)
    ensures CompletionCalled(actions, k, b, side)
  {
    assert actions[..|actions|] == actions;
    if k < |actions| {
      var n := |actions| - 1;
      assert actions[..n][..k] == actions[..k];
      RunExtends(actions[..n], k);
      if CompletedIn(Run(INIT, actions[..n]).state.traces[b], side) {
        CompletionWasCalled(actions[..n], k, b, side);
      } else {
        RunIsSafe(actions[..n]);
        CompletionIsACall(Run(INIT, actions[..n]).state, actions[n], b, side);
      }
    }
  }

  lemma PendingAnswerIsOpen(s: State, t: Tid, b: BindingId, side: Side)
    requires Inv(s) && InDetachOf(s, t, b, side) && Exec(s, DetachReturns(t, true)).Ok?
    ensures var s' := Exec(s, DetachReturns(t, true)).state;
      b in s'.traces && DetachReturned(side, true) in s'.traces[b] && !CompletedIn(s'.traces[b], side)
  {
    DetachAnswerCounts(s, t, b, side, true);
    InDetachIsAtHand(s, t, b, side);
    if CompletedIn(s.traces[b], side) {
      CompletionsComeLate(s.traces[b], side);
    }
    AppendedCompletes(s.traces[b], DetachReturned(side, true));
  }

  /** If a detach callback of `side` for `b` answers that it is pending, then at every later point of the run
      nothing of `b` has been cleaned up or erased, unless `side`'s completion has been called in between. */
  lemma PendingDetachIsWaitedFor(actions: seq<Action>, k: nat, t: Tid, b: BindingId, side: Side)
    requires k < |actions| && Run(INIT, actions).Ok? && Run(INIT, actions[..k]).Ok?
    requires InDetachOf(Run(INIT, actions[..k]).state, t, b, side) && actions[k] == DetachReturns(t, true)
    ensures Intact(Run(INIT, actions).state, b) || CompletionCalled(actions, k + 1, b, side)
  {
    RunIsSafe(actions);
    RunIsSafe(actions[..k]);
    RunOneMore(actions, k);
    PendingAnswerIsOpen(Run(INIT, actions[..k]).state, t, b, side);
    RunExtends(actions, k + 1);
    var s := Run(INIT, actions).state;
    assert DetachReturned(side, true) in s.traces[b];
    StillOwedOrCompleted(s, b, side);
    if CompletedIn(s.traces[b], side) {
      CompletionWasCalled(actions, k + 1, b, side);
    }
  }

  lemma StillOwedOrCompleted(s: State, b: BindingId, side: Side)
    requires TracesOk(s) && RefsOk(s.core) && b in s.traces && DetachReturned(side, true) in s.traces[b]
    ensures CompletedIn(s.traces[b], side) || Intact(s, b)
  {
    assert BindingOk(s.core.objects[b], b in s.core.live, Ph(s, b));
    PendingIsOwed(s.traces[b], side);
    if !CompletedIn(s.traces[b], side) {
      LiveIsIntact(s, b);
    }
  }
}
