/** How often a pair is bound: twice if there was a moment at which both its registrations had been
    added and neither had yet looked at the other side, and once otherwise. Whatever other clients
    and providers do at the same time makes no difference. */
module NmrPairs {
  import opened Options
  import opened NmrCore
  import opened NmrTrace
  import opened NmrProtocol
  import opened NmrInvariant
  import opened NmrRegistrationSteps
  import opened NmrQuiet
  import opened NmrSafety
  import opened NmrMatching

  /** Both registrations are between `add` and `perform_bind`. */
  ghost predicate BothUnbound(s: State, c: Handle, p: Handle) {
    Unbound(s, Client, c) && Unbound(s, Provider, p)
  }

  /** That was so at some point of the run. */
  ghost predicate Overlap(actions: seq<Action>, c: Handle, p: Handle)
    decreases |actions|
  {
    || (Run(INIT, actions).Ok? && BothUnbound(Run(INIT, actions).state, c, p))
    || (actions != [] && Overlap(actions[..|actions| - 1], c, p))
  }

  /** The same, with the point named. */
  lemma {:induction false} OverlapIsAMoment(actions: seq<Action>, c: Handle, p: Handle)
    ensures Overlap(actions, c, p) <==>
      exists k :: 0 <= k <= |actions| && Run(INIT, actions[..k]).Ok? && BothUnbound(Run(INIT, actions[..k]).state, c, p)
    decreases |actions|
  {
    assert actions[..|actions|] == actions;
    if actions != [] {
      var n := |actions| - 1;
      OverlapIsAMoment(actions[..n], c, p);
      assert forall k :: 0 <= k <= n ==> actions[..n][..k] == actions[..k];
    }
  }

  function Own(side: Side, c: Handle, p: Handle): Handle {
    if side.Client? then c else p
  }

  /** There is a binding of the pair that `side`'s registration made. */
  ghost predicate BoundBy(s: State, side: Side, c: Handle, p: Handle) {
    exists b :: Joins(s, b, c, p) && Initiator(s, b) == side
  }

  /** `side`'s registration has to bind the pair: it came later, or the two overlapped. */
  predicate Due(overlap: bool, side: Side, c: Handle, p: Handle) {
    overlap || Own(side.Other(), c, p) < Own(side, c, p)
  }

  /** A pair that can be bound has been bound by exactly the registrations that had to and have looked;
      and a registration that did not have to has looked. */
  ghost predicate PairOk(s: State, overlap: bool, c: Handle, p: Handle) {
    forall side: Side ::
      && (BoundBy(s, side, c, p) <==> Due(overlap, side, c, p) && !Unbound(s, side, Own(side, c, p)))
      && (Unbound(s, side, Own(side, c, p)) ==> Due(overlap, side, c, p))
  }

  /** One counter numbers clients and providers. */
  ghost predicate Numbered(s: State) {
    forall h: Handle :: !(h in s.core.clients && h in s.core.providers)
  }

  ghost predicate PairsOk(s: State, actions: seq<Action>) {
    && Numbered(s)
    && (forall c: Handle, p: Handle :: Overlap(actions, c, p) ==> c < s.core.nextHandle && p < s.core.nextHandle)
    && (forall c: Handle, p: Handle :: CanBind(s.core, c, p) ==> PairOk(s, Overlap(actions, c, p), c, p))
  }

  // ----- steps that neither register nor bind

  lemma QuietUnbound(s: State, s': State, side: Side, h: Handle)
    requires Quiet(s, s') && s.core.Has(side, h)
    ensures Unbound(s', side, h) <==> Unbound(s, side, h)
  {
    if Unbound(s, side, h) {
      var t :| t in s.threads && s.threads[t] == Registering(side, h);
      assert t in s'.threads && s'.threads[t] == s.threads[t];
    }
  }

  lemma QuietBoundBy(s: State, s': State, side: Side, c: Handle, p: Handle)
    requires SameBindings(s, s') && TracesStart(s) && s.traces.Keys == s.core.objects.Keys
    ensures BoundBy(s', side, c, p) <==> BoundBy(s, side, c, p)
  {
    QuietInitiator(s, s');
    if BoundBy(s, side, c, p) {
      var b :| Joins(s, b, c, p) && Initiator(s, b) == side;
      assert Joins(s', b, c, p) && Initiator(s', b) == side;
    }
    if BoundBy(s', side, c, p) {
      var b :| Joins(s', b, c, p) && Initiator(s', b) == side;
      assert Joins(s, b, c, p) && Initiator(s, b) == side;
    }
  }

  lemma QuietPair(s: State, s': State, overlap: bool, c: Handle, p: Handle)
    requires Quiet(s, s') && TracesStart(s) && s.traces.Keys == s.core.objects.Keys
    requires s.core.Has(Client, c) && s.core.Has(Provider, p) && PairOk(s, overlap, c, p)
    ensures PairOk(s', overlap, c, p)
  {
    forall side: Side
      ensures BoundBy(s', side, c, p) <==> BoundBy(s, side, c, p)
      ensures Unbound(s', side, Own(side, c, p)) <==> Unbound(s, side, Own(side, c, p))
    {
      QuietBoundBy(s, s', side, c, p);
      QuietUnbound(s, s', side, Own(side, c, p));
    }
  }

  lemma QuietCanBind(s: State, s': State, c: Handle, p: Handle)
    requires FewerRegistrations(s.core, s'.core) && CanBind(s'.core, c, p)
    ensures CanBind(s.core, c, p)
  {
    assert s'.core.Has(Client, c) && s'.core.Has(Provider, p);
  }

  /** What is known of one pair before a step. */
  ghost predicate Before(s: State, overlap: bool, c: Handle, p: Handle) {
    && Inv(s) && MatchInv(s) && Numbered(s)
    && (overlap ==> c < s.core.nextHandle && p < s.core.nextHandle)
    && (BothUnbound(s, c, p) ==> overlap)
    && (CanBind(s.core, c, p) ==> PairOk(s, overlap, c, p))
  }

  lemma QuietStep(s: State, s': State, overlap: bool, c: Handle, p: Handle)
    requires Before(s, overlap, c, p) && Quiet(s, s') && CanBind(s'.core, c, p)
    ensures PairOk(s', overlap || BothUnbound(s', c, p), c, p)
  {
    QuietCanBind(s, s', c, p);
    QuietPair(s, s', overlap, c, p);
    QuietUnbound(s, s', Client, c);
    QuietUnbound(s, s', Provider, p);
  }

  // ----- register

  lemma RegisterUnbound(s: State, t: Tid, side: Side, npi: Option<int>, hasCleanup: bool, side2: Side, h: Handle)
    requires t !in s.threads
    ensures var s' := DoRegister(s, t, side, npi, hasCleanup).state;
      Unbound(s', side2, h) <==> Unbound(s, side2, h) || (side2, h) == (side, s.core.nextHandle)
  {
    var s' := DoRegister(s, t, side, npi, hasCleanup).state;
    UnboundGrows(s, s', side2, h);
    assert s'.threads[t] == Registering(side, s.core.nextHandle);
  }

  lemma RegisterBoundBy(s: State, t: Tid, side: Side, npi: Option<int>, hasCleanup: bool, side2: Side, c: Handle, p: Handle)
    requires t !in s.threads
    ensures BoundBy(DoRegister(s, t, side, npi, hasCleanup).state, side2, c, p) <==> BoundBy(s, side2, c, p)
  {
    var s' := DoRegister(s, t, side, npi, hasCleanup).state;
    assert forall b :: Joins(s', b, c, p) <==> Joins(s, b, c, p);
    assert forall b :: Initiator(s', b) == Initiator(s, b);
  }

  /** The pair was there before. */
  lemma RegisterOldPair(s: State, t: Tid, side: Side, npi: Option<int>, hasCleanup: bool, overlap: bool, c: Handle, p: Handle)
    requires t !in s.threads && c != s.core.nextHandle && p != s.core.nextHandle && PairOk(s, overlap, c, p)
    ensures PairOk(DoRegister(s, t, side, npi, hasCleanup).state, overlap, c, p)
  {
    forall side2: Side
      ensures BoundBy(DoRegister(s, t, side, npi, hasCleanup).state, side2, c, p) <==> BoundBy(s, side2, c, p)
      ensures Unbound(DoRegister(s, t, side, npi, hasCleanup).state, side2, Own(side2, c, p))
        <==> Unbound(s, side2, Own(side2, c, p))
    {
      RegisterBoundBy(s, t, side, npi, hasCleanup, side2, c, p);
      RegisterUnbound(s, t, side, npi, hasCleanup, side2, Own(side2, c, p));
    }
  }

  /** The pair comes into being: the newcomer has to bind it, and the other one too if it has not
      looked yet. */
  lemma RegisterNewPair(s: State, t: Tid, side: Side, npi: Option<int>, hasCleanup: bool, c: Handle, p: Handle)
    requires Bounded(s.core) && t !in s.threads && Own(side, c, p) == s.core.nextHandle
    requires Own(side.Other(), c, p) < s.core.nextHandle
    ensures var s' := DoRegister(s, t, side, npi, hasCleanup).state; PairOk(s', BothUnbound(s', c, p), c, p)
  {
    var s' := DoRegister(s, t, side, npi, hasCleanup).state;
    forall side2: Side
      ensures !BoundBy(s', side2, c, p)
    {
      RegisterBoundBy(s, t, side, npi, hasCleanup, side2, c, p);
    }
    RegisterUnbound(s, t, side, npi, hasCleanup, side, s.core.nextHandle);
    assert Unbound(s', side, Own(side, c, p));
  }

  lemma RegisterStep(s: State, t: Tid, side: Side, npi: Option<int>, hasCleanup: bool, overlap: bool, c: Handle, p: Handle)
    requires Before(s, overlap, c, p) && t !in s.threads
    requires CanBind(DoRegister(s, t, side, npi, hasCleanup).state.core, c, p)
    ensures var s' := DoRegister(s, t, side, npi, hasCleanup).state; PairOk(s', overlap || BothUnbound(s', c, p), c, p)
  {
    var h := s.core.nextHandle;
    assert !s.core.Has(Client, h) && !s.core.Has(Provider, h);
    if Own(side, c, p) == h {
      assert s.core.Has(side.Other(), Own(side.Other(), c, p));
      RegisterNewPair(s, t, side, npi, hasCleanup, c, p);
    } else {
      assert s.core.Has(Client, c) && s.core.Has(Provider, p) && CanBind(s.core, c, p);
      RegisterOldPair(s, t, side, npi, hasCleanup, overlap, c, p);
      RegisterUnbound(s, t, side, npi, hasCleanup, Client, c);
      RegisterUnbound(s, t, side, npi, hasCleanup, Provider, p);
    }
  }

  // ----- perform_bind

  lemma BindUnbound(s: State, t: Tid, th: Thread, targets: seq<Handle>, s': State, ids: seq<BindingId>, side: Side, h: Handle)
    requires Bound(s, t, th, targets, s', ids) && UnboundFresh(s)
    ensures Unbound(s', side, h) <==> Unbound(s, side, h) && (side, h) != (th.side, th.handle)
  {
    if (side, h) != (th.side, th.handle) {
      StillUnbound(s, t, th, s', ids, side, h);
    }
    if Unbound(s', side, h) {
      var u :| u in s'.threads && s'.threads[u] == Registering(side, h);
      assert u != t && s.threads[u] == Registering(side, h);
    }
  }

  lemma BindKeepsBound(s: State, t: Tid, th: Thread, targets: seq<Handle>, s': State, ids: seq<BindingId>, side: Side, c: Handle, p: Handle)
    requires RefsOk(s.core) && Bound(s, t, th, targets, s', ids) && TracesStart(s)
    requires side != th.side || Own(side, c, p) != th.handle
    ensures BoundBy(s', side, c, p) <==> BoundBy(s, side, c, p)
  {
    BindAllAdds(s.core, th.side, th.handle, targets);
    BindInitiators(s, t, th, targets, s', ids);
    if BoundBy(s, side, c, p) {
      var b :| Joins(s, b, c, p) && Initiator(s, b) == side;
      assert Joins(s', b, c, p) && Initiator(s', b) == side;
    }
    if BoundBy(s', side, c, p) {
      var b :| Joins(s', b, c, p) && Initiator(s', b) == side;
      assert b in ids ==> NewBinding(s.core, th.side, th.handle, targets, s'.core, b);
      assert Joins(s, b, c, p) && Initiator(s, b) == side;
    }
  }

  lemma BindBindsPair(s: State, t: Tid, th: Thread, targets: seq<Handle>, s': State, ids: seq<BindingId>, c: Handle, p: Handle)
    requires RefsOk(s.core) && Bound(s, t, th, targets, s', ids) && TracesStart(s)
    requires Own(th.side, c, p) == th.handle && CanBind(s.core, c, p)
    ensures BoundBy(s', th.side, c, p)
  {
    BindInitiators(s, t, th, targets, s', ids);
    assert Own(th.side.Other(), c, p) in targets;
    var b := BindAllCovers(s.core, th.side, th.handle, targets, Own(th.side.Other(), c, p));
    assert Joins(s', b, c, p) && Initiator(s', b) == th.side;
  }

  lemma BindStep(s: State, t: Tid, th: Thread, targets: seq<Handle>, s': State, ids: seq<BindingId>, overlap: bool, c: Handle, p: Handle)
    requires Before(s, overlap, c, p) && Bound(s, t, th, targets, s', ids) && CanBind(s'.core, c, p)
    ensures PairOk(s', overlap || BothUnbound(s', c, p), c, p)
  {
    BindAllCanBind(s.core, th.side, th.handle, targets, c, p);
    assert s.threads[t] == Registering(th.side, th.handle);
    BindUnbound(s, t, th, targets, s', ids, Client, c);
    BindUnbound(s, t, th, targets, s', ids, Provider, p);
    forall side: Side
      ensures BoundBy(s', side, c, p) <==> Due(overlap, side, c, p) && !Unbound(s', side, Own(side, c, p))
      ensures Unbound(s', side, Own(side, c, p)) ==> Due(overlap, side, c, p)
    {
      BindUnbound(s, t, th, targets, s', ids, side, Own(side, c, p));
      if side == th.side && Own(side, c, p) == th.handle {
        BindBindsPair(s, t, th, targets, s', ids, c, p);
      } else {
        BindKeepsBound(s, t, th, targets, s', ids, side, c, p);
      }
    }
  }

  // ----- runs

  lemma ExecPair(s: State, a: Action, overlap: bool, c: Handle, p: Handle)
    requires Before(s, overlap, c, p) && Exec(s, a).Ok? && CanBind(Exec(s, a).state.core, c, p)
    ensures PairOk(Exec(s, a).state, overlap || BothUnbound(Exec(s, a).state, c, p), c, p)
  {
    var s' := Exec(s, a).state;
    if a.Register? {
      RegisterStep(s, a.t, a.side, a.npi, a.hasCleanup, overlap, c, p);
    } else if a.Bind? {
      var th := s.threads[a.t];
      if s.core.Has(th.side, th.handle) {
        BindStep(s, a.t, th, a.targets, s', BindAll(s.core, th.side, th.handle, a.targets).1, overlap, c, p);
      } else {
        assert Quiet(s, s');
        QuietStep(s, s', overlap, c, p);
      }
    } else {
      ExecIsQuiet(s, a);
      QuietStep(s, s', overlap, c, p);
    }
  }

  lemma RegisterNumbers(s: State, t: Tid, side: Side, npi: Option<int>, hasCleanup: bool)
    requires Bounded(s.core) && Numbered(s) && t !in s.threads
    ensures Numbered(DoRegister(s, t, side, npi, hasCleanup).state)
  {
    assert !s.core.Has(Client, s.core.nextHandle) && !s.core.Has(Provider, s.core.nextHandle);
  }

  lemma BindNumbers(s: State, t: Tid, th: Thread, targets: seq<Handle>)
    requires RefsOk(s.core) && Numbered(s) && DoBind(s, t, th, targets).Ok?
    ensures Numbered(DoBind(s, t, th, targets).state)
    ensures DoBind(s, t, th, targets).state.core.nextHandle == s.core.nextHandle
  {
    BindAllCanBind(s.core, th.side, th.handle, targets, 0, 0);
  }

  lemma QuietNumbers(s: State, s': State)
    requires FewerRegistrations(s.core, s'.core) && Numbered(s)
    ensures Numbered(s')
  {
    forall h: Handle
      ensures (h in s'.core.clients ==> h in s.core.clients) && (h in s'.core.providers ==> h in s.core.providers)
    {
      assert s'.core.Has(Client, h) ==> s.core.Has(Client, h);
      assert s'.core.Has(Provider, h) ==> s.core.Has(Provider, h);
    }
  }

  lemma ExecNumbers(s: State, a: Action)
    requires RefsOk(s.core) && Numbered(s) && Exec(s, a).Ok?
    ensures Numbered(Exec(s, a).state) && s.core.nextHandle <= Exec(s, a).state.core.nextHandle
  {
    if a.Register? {
      RegisterNumbers(s, a.t, a.side, a.npi, a.hasCleanup);
    } else if a.Bind? {
      BindNumbers(s, a.t, s.threads[a.t], a.targets);
    } else {
      ExecIsQuiet(s, a);
      QuietNumbers(s, Exec(s, a).state);
    }
  }

  lemma UnboundIsNumbered(s: State, side: Side, h: Handle)
    requires Inv(s) && Unbound(s, side, h)
    ensures h < s.core.nextHandle
  {
    var t :| t in s.threads && s.threads[t] == Registering(side, h);
    assert ThreadOk(s, t, s.threads[t]);
  }

  lemma {:induction false} RunPairs(actions: seq<Action>)
    requires Run(INIT, actions).Ok?
    ensures PairsOk(Run(INIT, actions).state, actions)
  {
    var s' := Run(INIT, actions).state;
    RunIsSafe(actions);
    if actions != [] {
      var n := |actions| - 1;
      var s := Run(INIT, actions[..n]).state;
      RunPairs(actions[..n]);
      RunIsSafe(actions[..n]);
      RunMatches(actions[..n]);
      ExecNumbers(s, actions[n]);
      forall c: Handle, p: Handle | CanBind(s'.core, c, p)
        ensures PairOk(s', Overlap(actions, c, p), c, p)
      {
        ExecPair(s, actions[n], Overlap(actions[..n], c, p), c, p);
      }
    }
    forall c: Handle, p: Handle | BothUnbound(s', c, p)
      ensures c < s'.core.nextHandle && p < s'.core.nextHandle
    {
      UnboundIsNumbered(s', Client, c);
      UnboundIsNumbered(s', Provider, p);
    }
  }

  // ----- the results

  /** The bindings of a pair, whatever has become of them. */
  function BindingsOf(s: State, c: Handle, p: Handle): set<BindingId> {
    set b | b in s.core.objects && s.core.objects[b].client == c && s.core.objects[b].provider == p
  }

  function MadeBy(s: State, side: Side, c: Handle, p: Handle): set<BindingId> {
    set b | b in BindingsOf(s, c, p) && Initiator(s, b) == side
  }

  lemma OneMade(s: State, side: Side, c: Handle, p: Handle)
    requires OnePerInitiator(s)
    ensures |MadeBy(s, side, c, p)| == if BoundBy(s, side, c, p) then 1 else 0
  {
    if BoundBy(s, side, c, p) {
      var b: BindingId :| Joins(s, b, c, p) && Initiator(s, b) == side;
      forall d: BindingId | d in MadeBy(s, side, c, p)
        ensures d == b
      {
        assert d != b ==> Initiator(s, b) != Initiator(s, d);
      }
      assert MadeBy(s, side, c, p) == {b};
    } else {
      assert forall b :: b in BindingsOf(s, c, p) ==> Joins(s, b, c, p);
      assert MadeBy(s, side, c, p) == {};
    }
  }

  lemma CountByInitiator(s: State, c: Handle, p: Handle)
    requires OnePerInitiator(s)
    ensures |BindingsOf(s, c, p)| == (if BoundBy(s, Client, c, p) then 1 else 0) + (if BoundBy(s, Provider, c, p) then 1 else 0)
  {
    OneMade(s, Client, c, p);
    OneMade(s, Provider, c, p);
    var byClient, byProvider := MadeBy(s, Client, c, p), MadeBy(s, Provider, c, p);
    assert BindingsOf(s, c, p) == byClient + byProvider && byClient !! byProvider;
  }

  /** In every run, once no registration is in progress, a pair that can be bound has been bound twice
      if its two registrations overlapped and once if they did not. */
  lemma BoundOnceUnlessOverlapping(actions: seq<Action>, c: Handle, p: Handle)
    requires Run(INIT, actions).Ok? && RegistrationsSettled(Run(INIT, actions).state)
    requires CanBind(Run(INIT, actions).state.core, c, p)
    ensures |BindingsOf(Run(INIT, actions).state, c, p)| == if Overlap(actions, c, p) then 2 else 1
  {
    RunMatches(actions);
    RunPairs(actions);
    var s := Run(INIT, actions).state;
    assert !Unbound(s, Client, c) && !Unbound(s, Provider, p);
    assert c in s.core.clients && p in s.core.providers && c != p;
    CountByInitiator(s, c, p);
    assert BoundBy(s, Client, c, p) <==> Due(Overlap(actions, c, p), Client, c, p);
    assert BoundBy(s, Provider, c, p) <==> Due(Overlap(actions, c, p), Provider, c, p);
  }

  /** A staying matching pair whose attaches succeeded has exactly one binding, and it is Ready, if and
      only if its two registrations did not overlap; otherwise it has two, both Ready. */
  lemma NonOverlappingPairsAreBoundOnce(actions: seq<Action>, c: Handle, p: Handle)
    requires Run(INIT, actions).Ok? && RegistrationsSettled(Run(INIT, actions).state)
    requires CanBind(Run(INIT, actions).state.core, c, p)
    requires forall b :: Joins(Run(INIT, actions).state, b, c, p) ==> NeverFailed(Run(INIT, actions).state, b)
    ensures var s := Run(INIT, actions).state;
      && (!Overlap(actions, c, p) <==> exists b :: BindingsOf(s, c, p) == {b} && ReadyPair(s, b, c, p))
      && (Overlap(actions, c, p) <==>
            exists b, d :: b != d && BindingsOf(s, c, p) == {b, d} && ReadyPair(s, b, c, p) && ReadyPair(s, d, c, p))
  {
    var s := Run(INIT, actions).state;
    BoundOnceUnlessOverlapping(actions, c, p);
    StayingPairsAreReady(actions, c, p);
    var all := BindingsOf(s, c, p);
    assert forall b :: b in all <==> Joins(s, b, c, p);
    var b :| ReadyPair(s, b, c, p);
    assert all == {b} + (all - {b});
    if Overlap(actions, c, p) {
      var d :| d in all - {b};
      assert all == {b, d} + (all - {b} - {d});
      assert all == {b, d} && ReadyPair(s, d, c, p);
      assert forall e :: all != {e};
    } else {
      assert all == {b};
      assert forall d, e :: d != e && all == {d, e} ==> |{d, e}| == 2;
    }
  }
}
