/** Who gets bound: every client and provider with the same NPI that stay registered get a bind
    attempt, and at most two. */
module NmrMatching {
  import opened Options
  import opened NmrCore
  import opened NmrTrace
  import opened NmrProtocol
  import opened NmrInvariant
  import opened NmrBindingSteps
  import opened NmrRegistrationSteps
  import opened NmrQuiet
  import opened NmrSafety

  ghost predicate Joins(s: State, b: BindingId, c: Handle, p: Handle) {
    b in s.core.objects && s.core.objects[b].client == c && s.core.objects[b].provider == p
  }

  /** The side whose registration made the binding. */
  function Initiator(s: State, b: BindingId): Side {
    if b in s.traces && s.traces[b] != [] && s.traces[b][0].Created? then s.traces[b][0].initiator else Client
  }

  /** `h` has been added but `perform_bind` has not looked at the other side for it yet. */
  ghost predicate Unbound(s: State, side: Side, h: Handle) {
    exists t :: t in s.threads && s.threads[t] == Registering(side, h)
  }

  ghost predicate TracesStart(s: State) {
    forall b :: b in s.traces ==> s.traces[b] != [] && s.traces[b][0].Created?
  }

  /** Each side makes at most one attempt for a pair. */
  ghost predicate OnePerInitiator(s: State) {
    forall b, d | b in s.core.objects && d in s.core.objects && b != d
      && s.core.objects[b].client == s.core.objects[d].client
      && s.core.objects[b].provider == s.core.objects[d].provider ::
      Initiator(s, b) != Initiator(s, d)
  }

  ghost predicate UnboundFresh(s: State) {
    && (forall t, b | t in s.threads && s.threads[t].Registering? && b in s.core.objects
          && Initiator(s, b) == s.threads[t].side ::
          s.core.objects[b].Party(s.threads[t].side) != s.threads[t].handle)
    && (forall t, u | t in s.threads && u in s.threads && t != u
          && s.threads[t].Registering? && s.threads[u].Registering? ::
          s.threads[t].handle != s.threads[u].handle)
  }

  /** No pair is forgotten. */
  ghost predicate Attempted(s: State) {
    forall c: Handle, p: Handle :: CanBind(s.core, c, p) && !Unbound(s, Client, c) && !Unbound(s, Provider, p) ==>
      exists b :: Joins(s, b, c, p)
  }

  /** Only matching pairs are bound. */
  ghost predicate Matched(core: Core) {
    forall b :: b in core.live && core.PartiesRegistered(b) ==>
      core.clients[core.objects[b].client].npi.Some?
      && core.clients[core.objects[b].client].npi == core.providers[core.objects[b].provider].npi
  }

  ghost predicate MatchInv(s: State) {
    TracesStart(s) && OnePerInitiator(s) && UnboundFresh(s) && Attempted(s) && Matched(s.core)
  }

  // ----- steps that add no binding and no registration

  lemma QuietInitiator(s: State, s': State)
    requires SameBindings(s, s') && TracesStart(s)
    ensures TracesStart(s') && forall b :: b in s.traces ==> Initiator(s', b) == Initiator(s, b)
  {
  }

  lemma QuietPairs(s: State, s': State)
    requires Quiet(s, s') && TracesStart(s) && OnePerInitiator(s) && UnboundFresh(s)
    requires s.traces.Keys == s.core.objects.Keys
    ensures OnePerInitiator(s') && UnboundFresh(s')
  {
    QuietInitiator(s, s');
  }

  lemma QuietAttempted(s: State, s': State)
    requires Quiet(s, s') && Attempted(s)
    ensures Attempted(s')
  {
    forall c: Handle, p: Handle | CanBind(s'.core, c, p) && !Unbound(s', Client, c) && !Unbound(s', Provider, p)
      ensures exists b :: Joins(s', b, c, p)
    {
      assert s'.core.Has(Client, c) && s'.core.Has(Provider, p);
      assert !Unbound(s, Client, c) && !Unbound(s, Provider, p);
      var b :| Joins(s, b, c, p);
      assert Joins(s', b, c, p);
    }
  }

  lemma QuietMatched(s: State, s': State)
    requires SameBindings(s, s') && FewerRegistrations(s.core, s'.core) && Matched(s.core) && RefsOk(s.core)
    ensures Matched(s'.core)
  {
  }

  // ----- register

  lemma RegisterMatches(s: State, t: Tid, side: Side, npi: Option<int>, hasCleanup: bool)
    requires Inv(s) && MatchInv(s) && t !in s.threads
    ensures MatchInv(DoRegister(s, t, side, npi, hasCleanup).state)
  {
    var s' := DoRegister(s, t, side, npi, hasCleanup).state;
    var h := s.core.nextHandle;
    assert forall b :: Initiator(s', b) == Initiator(s, b);
    RegisterFresh(s, t, side, npi, hasCleanup, s');
    RegisterAttempted(s, t, side, npi, hasCleanup, s');
    RegisterMatched(s, side, npi, hasCleanup);
  }

  lemma RegisterFresh(s: State, t: Tid, side: Side, npi: Option<int>, hasCleanup: bool, s': State)
    requires Bounded(s.core) && ThreadsOk(s) && UnboundFresh(s) && t !in s.threads
    requires DoRegister(s, t, side, npi, hasCleanup) == Ok(s')
    ensures UnboundFresh(s')
  {
  }

  lemma UnboundGrows(s: State, s': State, side: Side, h: Handle)
    requires forall u :: u in s.threads ==> u in s'.threads && s'.threads[u] == s.threads[u]
    ensures Unbound(s, side, h) ==> Unbound(s', side, h)
  {
  }

  lemma RegisterAttempted(s: State, t: Tid, side: Side, npi: Option<int>, hasCleanup: bool, s': State)
    requires Attempted(s) && t !in s.threads && DoRegister(s, t, side, npi, hasCleanup) == Ok(s')
    ensures Attempted(s')
  {
    forall c: Handle, p: Handle | CanBind(s'.core, c, p) && !Unbound(s', Client, c) && !Unbound(s', Provider, p)
      ensures exists b :: Joins(s', b, c, p)
    {
      assert s'.threads[t] == Registering(side, s.core.nextHandle);
      assert CanBind(s.core, c, p);
      UnboundGrows(s, s', Client, c);
      UnboundGrows(s, s', Provider, p);
      var b :| Joins(s, b, c, p);
      assert Joins(s', b, c, p);
    }
  }

  lemma RegisterMatched(s: State, side: Side, npi: Option<int>, hasCleanup: bool)
    requires RefsOk(s.core) && Matched(s.core)
    ensures Matched(Add(s.core, side, npi, hasCleanup))
  {
  }

  // ----- perform_bind

  lemma BindAllAdds(core: Core, side: Side, h: Handle, targets: seq<Handle>)
    requires RefsOk(core)
    ensures var (d, ids) := BindAll(core, side, h, targets); Adds(core, side, h, targets, d, ids)
  {
    BindAllFacts(core, side, h, targets);
  }

  lemma BindAllCanBind(core: Core, side: Side, h: Handle, targets: seq<Handle>, c: Handle, p: Handle)
    requires RefsOk(core)
    ensures CanBind(BindAll(core, side, h, targets).0, c, p) == CanBind(core, c, p)
    ensures BindAll(core, side, h, targets).0.clients.Keys == core.clients.Keys
    ensures BindAll(core, side, h, targets).0.providers.Keys == core.providers.Keys
    ensures BindAll(core, side, h, targets).0.nextHandle == core.nextHandle
  {
  }

  /** A staying, matching target gets a binding. */
  lemma {:induction false} BindAllCovers(core: Core, side: Side, h: Handle, targets: seq<Handle>, target: Handle)
    returns (b: BindingId)
    requires RefsOk(core) && target in targets && CanBind(core, ClientOf(side, h, target), ProviderOf(side, h, target))
    ensures var (d, ids) := BindAll(core, side, h, targets);
      b in ids && b in d.objects && d.objects[b].client == ClientOf(side, h, target)
      && d.objects[b].provider == ProviderOf(side, h, target)
  {
    var n := |targets| - 1;
    BindAllCanBind(core, side, h, targets[..n], ClientOf(side, h, target), ProviderOf(side, h, target));
    if target == targets[n] {
      b := BindAll(core, side, h, targets[..n]).0.nextBinding;
    } else {
      assert target in targets[..n];
      b := BindAllCovers(core, side, h, targets[..n], target);
      BindAllStays(core, side, h, targets, b);
    }
  }

  /** The last turn of the loop leaves the bindings made before it alone. */
  lemma BindAllStays(core: Core, side: Side, h: Handle, targets: seq<Handle>, b: BindingId)
    requires RefsOk(core) && targets != [] && b in BindAll(core, side, h, targets[..|targets| - 1]).1
    ensures b in BindAll(core, side, h, targets).1
    ensures var c1 := BindAll(core, side, h, targets[..|targets| - 1]).0;
      var d := BindAll(core, side, h, targets).0;
      b in d.objects && b in c1.objects && d.objects[b] == c1.objects[b]
  {
    BindAllAdds(core, side, h, targets[..|targets| - 1]);
  }

  /** Different targets, different bindings: no target is bound twice by one loop. */
  lemma {:induction false} BindAllDistinct(core: Core, side: Side, h: Handle, targets: seq<Handle>, b: BindingId, e: BindingId)
    requires RefsOk(core) && forall i, j :: 0 <= i < j < |targets| ==> targets[i] != targets[j]
    requires b in BindAll(core, side, h, targets).1 && e in BindAll(core, side, h, targets).1 && b != e
    ensures b in BindAll(core, side, h, targets).0.objects && e in BindAll(core, side, h, targets).0.objects
    ensures BindAll(core, side, h, targets).0.objects[b].Party(side.Other())
         != BindAll(core, side, h, targets).0.objects[e].Party(side.Other())
  {
    var n := |targets| - 1;
    var ids1 := BindAll(core, side, h, targets[..n]).1;
    if b in ids1 && e in ids1 {
      BindAllDistinct(core, side, h, targets[..n], b, e);
      BindAllStays(core, side, h, targets, b);
      BindAllStays(core, side, h, targets, e);
    } else {
      LastIsDifferent(core, side, h, targets, if b in ids1 then b else e, if b in ids1 then e else b);
    }
  }

  lemma LastIsDifferent(core: Core, side: Side, h: Handle, targets: seq<Handle>, old_b: BindingId, new_b: BindingId)
    requires RefsOk(core) && targets != [] && forall i, j :: 0 <= i < j < |targets| ==> targets[i] != targets[j]
    requires old_b in BindAll(core, side, h, targets[..|targets| - 1]).1
    requires new_b in BindAll(core, side, h, targets).1 && new_b !in BindAll(core, side, h, targets[..|targets| - 1]).1
    ensures new_b in BindAll(core, side, h, targets).0.objects && old_b in BindAll(core, side, h, targets).0.objects
    ensures BindAll(core, side, h, targets).0.objects[old_b].Party(side.Other())
         != BindAll(core, side, h, targets).0.objects[new_b].Party(side.Other())
  {
    var n := |targets| - 1;
    BindAllStays(core, side, h, targets, old_b);
    BindAllAdds(core, side, h, targets[..n]);
    var (c1, ids1) := BindAll(core, side, h, targets[..n]);
    assert NewBinding(core, side, h, targets[..n], c1, old_b);
    assert c1.objects[old_b].Party(side.Other()) in targets[..n];
    assert BindAll(core, side, h, targets).0.objects[new_b].Party(side.Other()) == targets[n];
  }

  /** The state after a `perform_bind` that found its handle. */
  ghost predicate Bound(s: State, t: Tid, th: Thread, targets: seq<Handle>, s': State, ids: seq<BindingId>) {
    && th.Registering? && t in s.threads && th == s.threads[t] && s.core.Has(th.side, th.handle)
    && Enumerates(targets, s.core.Regs(th.side.Other()).Keys)
    && (s'.core, ids) == BindAll(s.core, th.side, th.handle, targets)
    && s'.threads == s.threads[t := RunningActions(ids, NextAction)]
    && s'.traces == s.traces + (map b | b in ids :: [Created(t, th.side)])
    && s.traces.Keys == s.core.objects.Keys
  }

  lemma BindInitiators(s: State, t: Tid, th: Thread, targets: seq<Handle>, s': State, ids: seq<BindingId>)
    requires Bound(s, t, th, targets, s', ids) && TracesStart(s)
    ensures TracesStart(s')
    ensures forall b :: b in ids ==> Initiator(s', b) == th.side
    ensures forall b :: b !in ids ==> Initiator(s', b) == Initiator(s, b)
  {
  }

  lemma BindPairs(s: State, t: Tid, th: Thread, targets: seq<Handle>, s': State, ids: seq<BindingId>)
    requires RefsOk(s.core) && Bound(s, t, th, targets, s', ids)
    requires TracesStart(s) && OnePerInitiator(s) && UnboundFresh(s)
    ensures OnePerInitiator(s')
  {
    BindAllAdds(s.core, th.side, th.handle, targets);
    BindInitiators(s, t, th, targets, s', ids);
    forall b, d | b in s'.core.objects && d in s'.core.objects && b != d
      && s'.core.objects[b].client == s'.core.objects[d].client
      && s'.core.objects[b].provider == s'.core.objects[d].provider
      ensures Initiator(s', b) != Initiator(s', d)
    {
      if b in ids && d in ids {
        BindAllDistinct(s.core, th.side, th.handle, targets, b, d);
        assert false;
      } else if b in ids {
        assert NewBinding(s.core, th.side, th.handle, targets, s'.core, b);
      } else if d in ids {
        assert NewBinding(s.core, th.side, th.handle, targets, s'.core, d);
      }
    }
  }

  lemma BindFresh(s: State, t: Tid, th: Thread, targets: seq<Handle>, s': State, ids: seq<BindingId>)
    requires RefsOk(s.core) && Bound(s, t, th, targets, s', ids) && TracesStart(s) && UnboundFresh(s)
    ensures UnboundFresh(s')
  {
    BindAllAdds(s.core, th.side, th.handle, targets);
    BindInitiators(s, t, th, targets, s', ids);
    forall u, b | u in s'.threads && s'.threads[u].Registering? && b in s'.core.objects
      && Initiator(s', b) == s'.threads[u].side
      ensures s'.core.objects[b].Party(s'.threads[u].side) != s'.threads[u].handle
    {
      assert u != t;
      if b in ids {
        assert NewBinding(s.core, th.side, th.handle, targets, s'.core, b);
      }
    }
  }

  lemma BindAttempted(s: State, t: Tid, th: Thread, targets: seq<Handle>, s': State, ids: seq<BindingId>)
    requires RefsOk(s.core) && Bound(s, t, th, targets, s', ids) && Attempted(s)
    ensures Attempted(s')
  {
    BindAllAdds(s.core, th.side, th.handle, targets);
    forall c: Handle, p: Handle | CanBind(s'.core, c, p) && !Unbound(s', Client, c) && !Unbound(s', Provider, p)
      ensures exists b :: Joins(s', b, c, p)
    {
      BindAllCanBind(s.core, th.side, th.handle, targets, c, p);
      var own := if th.side.Client? then c else p;
      var target := if th.side.Client? then p else c;
      if own == th.handle {
        assert target in targets;
        var b := BindAllCovers(s.core, th.side, th.handle, targets, target);
        assert Joins(s', b, c, p);
      } else {
        StillUnbound(s, t, th, s', ids, Client, c);
        StillUnbound(s, t, th, s', ids, Provider, p);
        var b :| Joins(s, b, c, p);
        assert Joins(s', b, c, p);
      }
    }
  }

  lemma StillUnbound(s: State, t: Tid, th: Thread, s': State, ids: seq<BindingId>, side: Side, h: Handle)
    requires t in s.threads && th == s.threads[t] && th.Registering? && (side, h) != (th.side, th.handle)
    requires s'.threads == s.threads[t := RunningActions(ids, NextAction)]
    ensures Unbound(s, side, h) ==> Unbound(s', side, h)
  {
    if Unbound(s, side, h) {
      var u :| u in s.threads && s.threads[u] == Registering(side, h);
      assert s'.threads[u] == Registering(side, h);
    }
  }

  lemma BindMatched(core: Core, side: Side, h: Handle, targets: seq<Handle>)
    requires RefsOk(core) && Matched(core)
    ensures Matched(BindAll(core, side, h, targets).0)
  {
    var (d, ids) := BindAll(core, side, h, targets);
    BindAllFacts(core, side, h, targets);
    assert core.Regs(Client).Keys == d.Regs(Client).Keys && core.Regs(Provider).Keys == d.Regs(Provider).Keys;
    forall b | b in d.live && d.PartiesRegistered(b)
      ensures d.clients[d.objects[b].client].npi.Some?
      ensures d.clients[d.objects[b].client].npi == d.providers[d.objects[b].provider].npi
    {
      if b in ids {
        assert NewBinding(core, side, h, targets, d, b);
      } else {
        assert core.PartiesRegistered(b);
      }
    }
  }

  lemma BindMatches(s: State, t: Tid, th: Thread, targets: seq<Handle>)
    requires Inv(s) && MatchInv(s) && t in s.threads && th == s.threads[t] && DoBind(s, t, th, targets).Ok?
    ensures MatchInv(DoBind(s, t, th, targets).state)
  {
    var s' := DoBind(s, t, th, targets).state;
    if s.core.Has(th.side, th.handle) {
      var ids := BindAll(s.core, th.side, th.handle, targets).1;
      assert Bound(s, t, th, targets, s', ids);
      BindInitiators(s, t, th, targets, s', ids);
      BindPairs(s, t, th, targets, s', ids);
      BindFresh(s, t, th, targets, s', ids);
      BindAttempted(s, t, th, targets, s', ids);
      BindMatched(s.core, th.side, th.handle, targets);
    } else {
      assert Quiet(s, s');
      QuietMatches(s, s');
    }
  }

  lemma QuietMatches(s: State, s': State)
    requires Inv(s) && MatchInv(s) && Quiet(s, s')
    ensures MatchInv(s')
  {
    QuietInitiator(s, s');
    QuietPairs(s, s');
    QuietAttempted(s, s');
    QuietMatched(s, s');
  }

  lemma ExecMatches(s: State, a: Action)
    requires Inv(s) && MatchInv(s) && Exec(s, a).Ok?
    ensures MatchInv(Exec(s, a).state)
  {
    if a.Register? {
      RegisterMatches(s, a.t, a.side, a.npi, a.hasCleanup);
    } else if a.Bind? {
      BindMatches(s, a.t, s.threads[a.t], a.targets);
    } else {
      ExecIsQuiet(s, a);
      QuietMatches(s, Exec(s, a).state);
    }
  }

  lemma {:induction false} RunMatches(actions: seq<Action>)
    requires Run(INIT, actions).Ok?
    ensures MatchInv(Run(INIT, actions).state)
  {
    if actions != [] {
      var n := |actions| - 1;
      RunMatches(actions[..n]);
      RunIsSafe(actions[..n]);
      ExecMatches(Run(INIT, actions[..n]).state, actions[n]);
    }
  }

  // ----- the results

  /** A registered pair with equal NPIs that is staying, once both registrations have looked at the
      other side, has had at least one bind attempt; and no pair ever gets more than two. */
  lemma OneOrTwoBindAttempts(actions: seq<Action>, c: Handle, p: Handle)
    requires Run(INIT, actions).Ok?
    ensures var s := Run(INIT, actions).state;
      && (CanBind(s.core, c, p) && !Unbound(s, Client, c) && !Unbound(s, Provider, p) ==> exists b :: Joins(s, b, c, p))
      && (forall b, d, e :: Joins(s, b, c, p) && Joins(s, d, c, p) && Joins(s, e, c, p) ==> b == d || b == e || d == e)
  {
    RunMatches(actions);
  }

  /** Every binding in the map joins a registered client and provider with the same NPI. */
  lemma BoundPairsMatch(actions: seq<Action>, b: BindingId)
    requires Run(INIT, actions).Ok? && b in Run(INIT, actions).state.core.live
    ensures var core := Run(INIT, actions).state.core;
      && core.PartiesRegistered(b)
      && core.clients[core.objects[b].client].npi.Some?
      && core.clients[core.objects[b].client].npi == core.providers[core.objects[b].provider].npi
  {
    RunIsSafe(actions);
    RunMatches(actions);
    assert Run(INIT, actions).state.core.PartiesRegistered(b);
  }

  /** Registration is not in progress anywhere. */
  ghost predicate RegistrationsSettled(s: State) {
    forall t :: t in s.threads ==> !s.threads[t].Registering? && !s.threads[t].RunningActions?
  }

  lemma {:induction false} FailureIsRecorded(trace: seq<Event>)
    requires var ph := PhaseOf(trace); (ph.Finishing? || ph.Closed?) && !ph.attached
    ensures AttachFailed in trace
  {
    var n := |trace| - 1;
    var ph := PhaseOf(trace[..n]);
    if ph.Finishing? || ph.Closed? {
      FailureIsRecorded(trace[..n]);
    } else {
      assert trace[n] == AttachFailed;
    }
  }

  ghost predicate NeverFailed(s: State, b: BindingId) {
    b in s.traces && AttachFailed !in s.traces[b]
  }

  /** When no registration is in progress, a staying pair whose attaches succeeded is bound. */
  lemma StayingPairsAreReady(actions: seq<Action>, c: Handle, p: Handle)
    requires Run(INIT, actions).Ok? && RegistrationsSettled(Run(INIT, actions).state)
    requires CanBind(Run(INIT, actions).state.core, c, p)
    requires forall b :: Joins(Run(INIT, actions).state, b, c, p) ==> NeverFailed(Run(INIT, actions).state, b)
    ensures exists b :: ReadyPair(Run(INIT, actions).state, b, c, p)
    ensures forall b :: Joins(Run(INIT, actions).state, b, c, p) ==> ReadyPair(Run(INIT, actions).state, b, c, p)
  {
    RunIsSafe(actions);
    RunMatches(actions);
    var s := Run(INIT, actions).state;
    assert !Unbound(s, Client, c) && !Unbound(s, Provider, p);
    forall b | Joins(s, b, c, p)
      ensures ReadyPair(s, b, c, p)
    {
      JoinedIsReady(s, b, c, p);
    }
    var b :| Joins(s, b, c, p);
    assert ReadyPair(s, b, c, p);
  }

  ghost predicate ReadyPair(s: State, b: BindingId, c: Handle, p: Handle) {
    Joins(s, b, c, p) && b in s.core.live && s.core.objects[b].clientStatus.Ready? && s.core.objects[b].providerStatus.Ready?
  }

  lemma JoinedIsReady(s: State, b: BindingId, c: Handle, p: Handle)
    requires Inv(s) && RegistrationsSettled(s) && CanBind(s.core, c, p) && Joins(s, b, c, p) && NeverFailed(s, b)
    ensures ReadyPair(s, b, c, p)
  {
    assert BindingOk(s.core.objects[b], b in s.core.live, Ph(s, b));
    assert Ph(s, b).Queued? || Ph(s, b).Attaching? ==> Attends(s, Ph(s, b).thread, b);
    if (Ph(s, b).Finishing? || Ph(s, b).Closed?) && !Ph(s, b).attached {
      FailureIsRecorded(s.traces[b]);
    }
    assert !UnbindStarted(Ph(s, b));
  }
}
