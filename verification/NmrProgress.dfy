/** When a deregistration comes to its end. A binding that was past its attach when it was collected
    is always unbound; one that was not can be left behind, and those are the only reason for a wait
    that does not end. */
module NmrProgress {
  import opened Options
  import opened NmrCore
  import opened NmrTrace
  import opened NmrProtocol
  import opened NmrInvariant
  import opened NmrBindingSteps
  import opened NmrRegistrationSteps
  import opened NmrQuiet
  import opened NmrSafety
  import opened NmrMatching
  import opened NmrLimits
  import opened NmrWork

  /** The attach is not over: both statuses are still Start. */
  predicate Early(ph: Phase) {
    ph.Queued? || ph.Attaching?
  }

  /** The unbind has begun, or the attach has failed. */
  predicate Late(ph: Phase) {
    ph.Detaching? || ph.Waiting? || ph.Finishing? || ph.Closed?
  }

  /** An Unbinding thread of registration `h` has `b` on its list. */
  ghost predicate Listed(s: State, side: Side, h: Handle, b: BindingId) {
    exists t :: t in s.threads && Lists(s.threads[t], side, h, b)
  }

  predicate Lists(th: Thread, side: Side, h: Handle, b: BindingId) {
    th.Unbinding? && th.side == side && th.handle == h && b in th.todo
  }

  /** The unbind of `b` has begun or is going to be begun by the deregistration of `h`. */
  ghost predicate Caught(s: State, side: Side, h: Handle, b: BindingId) {
    Late(Ph(s, b)) || (Ph(s, b).Linked? && Listed(s, side, h, b))
  }

  lemma {:induction false} LaterPhase(trace: seq<Event>, k: nat)
    requires k <= |trace| && PhaseOf(trace) != Bad
    ensures Late(PhaseOf(trace[..k])) ==> Late(PhaseOf(trace))
    ensures PhaseOf(trace[..k]).Linked? ==> PhaseOf(trace).Linked? || Late(PhaseOf(trace))
  {
    if k == |trace| {
      assert trace[..k] == trace;
    } else {
      var n := |trace| - 1;
      LegalPrefix(trace, n);
      LaterPhase(trace[..n], k);
      assert trace[..n][..k] == trace[..k];
    }
  }

  lemma ExecPhase(s: State, a: Action, b: BindingId)
    requires Inv(s) && b in s.core.objects && Exec(s, a).Ok?
    ensures var s' := Exec(s, a).state;
      && b in s'.core.objects && (Late(Ph(s, b)) ==> Late(Ph(s', b)))
      && (Ph(s, b).Linked? ==> Ph(s', b).Linked? || Late(Ph(s', b)))
  {
    var s' := Exec(s, a).state;
    ExecKeeps(s, a);
    ExecExtends(s, a);
    assert BindingOk(s'.core.objects[b], b in s'.core.live, Ph(s', b));
    LaterPhase(s'.traces[b], |s.traces[b]|);
    assert s'.traces[b][..|s.traces[b]|] == s.traces[b];
  }

  /** A binding that is still Ready stays on the list it is on. */
  lemma StaysListed(s: State, a: Action, t: Tid, side: Side, h: Handle, b: BindingId)
    requires Inv(s) && b in s.core.objects && Exec(s, a).Ok? && t in s.threads && Lists(s.threads[t], side, h, b)
    requires Ph(s, b).Linked? && Ph(Exec(s, a).state, b).Linked?
    ensures t in Exec(s, a).state.threads && Lists(Exec(s, a).state.threads[t], side, h, b)
  {
    assert ThreadOk(s, t, s.threads[t]);
    assert BindingOk(s.core.objects[b], b in s.core.live, Ph(s, b));
    if a.t == t {
      OwnStepLists(s, a, s.threads[t], side, h, b);
    } else {
      OtherStepLists(s, a, t);
    }
  }

  lemma OtherStepLists(s: State, a: Action, t: Tid)
    requires t in s.threads && a.t != t && Exec(s, a).Ok?
    ensures t in Exec(s, a).state.threads && Exec(s, a).state.threads[t] == s.threads[t]
  {
  }

  lemma OwnStepLists(s: State, a: Action, th: Thread, side: Side, h: Handle, b: BindingId)
    requires a.t in s.threads && th == s.threads[a.t] && Lists(th, side, h, b) && ThreadOk(s, a.t, th)
    requires Exec(s, a).Ok? && Ph(s, b).Linked? && b in s.core.objects && CanBeginUnbind(s.core.objects[b])
    ensures a.t in Exec(s, a).state.threads && Lists(Exec(s, a).state.threads[a.t], side, h, b)
  {
    assert th.todo[0] == b || b in th.todo[1..];
    if a.TryBeginUnbind? {
      TryBeginLists(s, a.t, th, side, h, b);
    } else if a.SettleDetach? {
      SettleLists(s, a.t, th, side, h, b);
    }
  }

  lemma TryBeginLists(s: State, t: Tid, th: Thread, side: Side, h: Handle, b: BindingId)
    requires t in s.threads && th == s.threads[t] && Lists(th, side, h, b) && DoTryBeginUnbind(s, t, th).Ok?
    requires th.todo[0] == b || b in th.todo[1..]
    requires b in s.core.objects && CanBeginUnbind(s.core.objects[b])
    ensures t in DoTryBeginUnbind(s, t, th).state.threads && Lists(DoTryBeginUnbind(s, t, th).state.threads[t], side, h, b)
  {
  }

  lemma SettleLists(s: State, t: Tid, th: Thread, side: Side, h: Handle, b: BindingId)
    requires t in s.threads && th == s.threads[t] && Lists(th, side, h, b) && ThreadOk(s, t, th) && DoSettle(s, t, th).Ok?
    requires (th.todo[0] == b || b in th.todo[1..]) && Ph(s, b).Linked?
    ensures t in DoSettle(s, t, th).state.threads && Lists(DoSettle(s, t, th).state.threads[t], side, h, b)
  {
  }

  lemma ExecCaught(s: State, a: Action, side: Side, h: Handle, b: BindingId)
    requires Inv(s) && b in s.core.objects && Caught(s, side, h, b) && Exec(s, a).Ok?
    ensures b in Exec(s, a).state.core.objects && Caught(Exec(s, a).state, side, h, b)
  {
    ExecPhase(s, a, b);
    if !Late(Ph(Exec(s, a).state, b)) {
      var t :| t in s.threads && Lists(s.threads[t], side, h, b);
      StaysListed(s, a, t, side, h, b);
    }
  }

  lemma {:induction false} CaughtForever(actions: seq<Action>, k: nat, side: Side, h: Handle, b: BindingId)
    requires k <= |actions| && Run(INIT, actions).Ok? && Run(INIT, actions[..k]).Ok?
    requires b in Run(INIT, actions[..k]).state.core.objects && Caught(Run(INIT, actions[..k]).state, side, h, b)
    ensures b in Run(INIT, actions).state.core.objects && Caught(Run(INIT, actions).state, side, h, b)
    ensures !LeftBehind(Run(INIT, actions).state, side, h, b)
  {
    if k == |actions| {
      assert actions[..k] == actions;
    } else {
      var n := |actions| - 1;
      assert actions[..n][..k] == actions[..k];
      CaughtForever(actions[..n], k, side, h, b);
      RunIsSafe(actions[..n]);
      ExecCaught(Run(INIT, actions[..n]).state, actions[n], side, h, b);
    }
  }

  // ----- deregistering when no attach is in progress

  lemma CollectCatches(s: State, t: Tid, order: seq<BindingId>, b: BindingId)
    requires Inv(s) && t in s.threads && s.threads[t].Deregistering? && DoCollect(s, t, s.threads[t], order).Ok?
    requires b in s.core.Refs(s.threads[t].side, s.threads[t].handle) && !Early(Ph(s, b))
    ensures Caught(DoCollect(s, t, s.threads[t], order).state, s.threads[t].side, s.threads[t].handle, b)
  {
    var s' := DoCollect(s, t, s.threads[t], order).state;
    assert BindingOk(s.core.objects[b], b in s.core.live, Ph(s, b));
    assert ThreadOk(s, t, s.threads[t]);
    assert Ph(s', b) == Ph(s, b);
    assert Lists(s'.threads[t], s.threads[t].side, s.threads[t].handle, b);
  }

  /** The deregistration of `h` collects its bindings, and none of them is still attaching. */
  ghost predicate CollectsCleanly(s: State, a: Action, side: Side, h: Handle) {
    && a.CollectBindings? && a.t in s.threads && s.threads[a.t] == Deregistering(side, h)
    && forall b :: b in a.order ==> !Early(Ph(s, b))
  }

  lemma CleanStepCatches(s: State, a: Action, side: Side, h: Handle, b: BindingId)
    requires Inv(s) && CollectsCleanly(s, a, side, h) && Exec(s, a).Ok? && b in s.core.Refs(side, h)
    ensures b in Exec(s, a).state.core.objects && Caught(Exec(s, a).state, side, h, b)
  {
    assert ThreadOk(s, a.t, s.threads[a.t]);
    assert b in a.order;
    CollectCatches(s, a.t, a.order, b);
  }

  lemma RunOneMore(actions: seq<Action>, k: nat)
    requires k < |actions| && Run(INIT, actions).Ok?
    ensures Run(INIT, actions[..k]).Ok? && Run(INIT, actions[..k + 1]).Ok?
    ensures Run(INIT, actions[..k + 1]) == Exec(Run(INIT, actions[..k]).state, actions[k])
  {
    RunExtends(actions, k + 1);
    assert actions[..k + 1][..k] == actions[..k];
  }

  lemma CleanCollectCatches(actions: seq<Action>, k: nat, side: Side, h: Handle, b: BindingId)
    requires k < |actions| && Run(INIT, actions).Ok? && Run(INIT, actions[..k]).Ok?
    requires CollectsCleanly(Run(INIT, actions[..k]).state, actions[k], side, h)
    requires b in Run(INIT, actions[..k]).state.core.Refs(side, h)
    ensures Caught(Run(INIT, actions).state, side, h, b) && !LeftBehind(Run(INIT, actions).state, side, h, b)
  {
    RunIsSafe(actions[..k]);
    RunOneMore(actions, k);
    CleanStepCatches(Run(INIT, actions[..k]).state, actions[k], side, h, b);
    CaughtForever(actions, k + 1, side, h, b);
  }

  lemma CollectorLeaves(s: State, a: Action, side: Side, h: Handle)
    requires Inv(s) && CollectsCleanly(s, a, side, h)
    ensures s.core.Deregistering(side, h)
  {
    assert ThreadOk(s, a.t, s.threads[a.t]);
  }

  /** If no binding that a deregistration collects is still attaching, then at every later point every
      binding the registration still has is on the deregistration's list or is being unbound, and
      none is left behind. */
  lemma CleanCollectCatchesAll(actions: seq<Action>, k: nat, side: Side, h: Handle)
    requires k < |actions| && Run(INIT, actions).Ok? && Run(INIT, actions[..k]).Ok?
    requires CollectsCleanly(Run(INIT, actions[..k]).state, actions[k], side, h)
    ensures var s' := Run(INIT, actions).state;
      forall b :: b in s'.core.Refs(side, h) ==> Caught(s', side, h, b) && !LeftBehind(s', side, h, b)
  {
    RunIsSafe(actions[..k]);
    CollectorLeaves(Run(INIT, actions[..k]).state, actions[k], side, h);
    DeactivatedNeverGains(actions, k, side, h);
    forall b | b in Run(INIT, actions).state.core.Refs(side, h)
      ensures Caught(Run(INIT, actions).state, side, h, b) && !LeftBehind(Run(INIT, actions).state, side, h, b)
    {
      CleanCollectCatches(actions, k, side, h, b);
    }
  }

  // ----- when there is nothing left to do

  /** Nobody has anything to do but to wait in `remove`, and no pending detach is owed. */
  ghost predicate Idle(s: State) {
    && (forall t :: t in s.threads ==> s.threads[t].Removing?)
    && (forall b :: b in s.core.live ==> !Ph(s, b).Waiting?)
  }

  lemma IdleBindingIsLeftBehind(s: State, side: Side, h: Handle, b: BindingId)
    requires Inv(s) && Workers(s) && Idle(s) && s.core.Deregistering(side, h) && b in s.core.Refs(side, h)
    ensures LeftBehind(s, side, h, b)
  {
    assert BindingOk(s.core.objects[b], b in s.core.live, Ph(s, b));
    NobodyAtWork(s, b);
  }

  lemma NobodyAtWork(s: State, b: BindingId)
    requires AttachersOk(s) && Workers(s) && Idle(s) && b in s.core.objects
    ensures !Early(Ph(s, b)) && !Busy(Ph(s, b))
  {
    assert forall t :: t in s.threads ==> !Attends(s, t, b) && !WorkedOn(s, t, b);
  }

  /** Then a thread in `remove` can go on if and only if no binding of its registration has been left
      behind. */
  lemma RemoveEndsIffNoneLeftBehind(actions: seq<Action>, t: Tid)
    requires Run(INIT, actions).Ok? && Idle(Run(INIT, actions).state) && t in Run(INIT, actions).state.threads
    ensures var s := Run(INIT, actions).state;
      Exec(s, FinishRemove(t)).Ok? <==> forall b :: !LeftBehind(s, s.threads[t].side, s.threads[t].handle, b)
  {
    RunIsSafe(actions);
    RunLedger(actions);
    var s := Run(INIT, actions).state;
    var side, h := s.threads[t].side, s.threads[t].handle;
    assert ThreadOk(s, t, s.threads[t]);
    assert s.core.Regs(side)[h].bindingCount == |s.core.Refs(side, h)|;
    if b :| b in s.core.Refs(side, h) {
      IdleBindingIsLeftBehind(s, side, h, b);
      assert s.core.Refs(side, h) != {};
    } else {
      assert s.core.Refs(side, h) == {};
      forall b
        ensures !LeftBehind(s, side, h, b)
      {
        assert b !in s.core.Refs(side, h);
      }
    }
  }

  /** A deregistration that collected no attaching binding does not get stuck. */
  lemma CleanDeregisterEnds(actions: seq<Action>, k: nat, u: Tid, side: Side, h: Handle)
    requires k < |actions| && Run(INIT, actions).Ok? && Run(INIT, actions[..k]).Ok?
    requires CollectsCleanly(Run(INIT, actions[..k]).state, actions[k], side, h)
    requires var s' := Run(INIT, actions).state;
      Idle(s') && u in s'.threads && s'.threads[u].side == side && s'.threads[u].handle == h
    ensures Exec(Run(INIT, actions).state, FinishRemove(u)).Ok?
  {
    CleanCollectCatchesAll(actions, k, side, h);
    RemoveEndsIffNoneLeftBehind(actions, u);
    var s' := Run(INIT, actions).state;
    forall b
      ensures !LeftBehind(s', side, h, b)
    {
      assert LeftBehind(s', side, h, b) ==> b in s'.core.Refs(side, h);
    }
  }

  // ----- at rest

  /** No call is in progress, and no deregistration is still to be waited for. */
  predicate AtRest(s: State) {
    s.threads == map[] && s.awaiting == {}
  }

  function ReadyPairs(s: State): set<(Handle, Handle)> {
    set b | b in s.core.live && b in s.core.objects && CanBeginUnbind(s.core.objects[b]) ::
      (s.core.objects[b].client, s.core.objects[b].provider)
  }

  function MatchingPairs(core: Core): set<(Handle, Handle)> {
    set c, p | c in core.clients && p in core.providers && core.clients[c].npi.Some? && core.clients[c].npi == core.providers[p].npi ::
      (c, p)
  }

  lemma AtRestNobodyLeaves(s: State, side: Side, h: Handle)
    requires Holders(s) && AtRest(s)
    ensures !s.core.Deregistering(side, h)
  {
    assert !HeldBy(s, side, h);
  }

  lemma AtRestCanBind(s: State, c: Handle, p: Handle)
    requires Holders(s) && AtRest(s)
    ensures (c, p) in MatchingPairs(s.core) <==> CanBind(s.core, c, p)
  {
    AtRestNobodyLeaves(s, Client, c);
    AtRestNobodyLeaves(s, Provider, p);
  }

  /** Whenever the registrar is at rest and no attach has failed, the Ready bindings join exactly the
      registered clients and providers with equal ids, and every binding in the map is Ready. */
  lemma ReadyAreTheMatchingPairs(actions: seq<Action>)
    requires Run(INIT, actions).Ok? && AtRest(Run(INIT, actions).state)
    requires forall b :: b in Run(INIT, actions).state.core.objects ==> NeverFailed(Run(INIT, actions).state, b)
    ensures ReadyPairs(Run(INIT, actions).state) == MatchingPairs(Run(INIT, actions).state.core)
    ensures var core := Run(INIT, actions).state.core;
      forall b :: b in core.live ==> b in core.objects && CanBeginUnbind(core.objects[b])
  {
    var s := Run(INIT, actions).state;
    RunIsSafe(actions);
    RunLedger(actions);
    forall b | b in s.core.live
      ensures CanBeginUnbind(s.core.objects[b])
      ensures (s.core.objects[b].client, s.core.objects[b].provider) in MatchingPairs(s.core)
    {
      BoundPairsMatch(actions, b);
      AtRestCanBind(s, s.core.objects[b].client, s.core.objects[b].provider);
      JoinedIsReady(s, b, s.core.objects[b].client, s.core.objects[b].provider);
    }
    forall c: Handle, p: Handle | (c, p) in MatchingPairs(s.core)
      ensures (c, p) in ReadyPairs(s)
    {
      AtRestCanBind(s, c, p);
      StayingPairsAreReady(actions, c, p);
      var b :| ReadyPair(s, b, c, p);
      assert CanBeginUnbind(s.core.objects[b]) && (s.core.objects[b].client, s.core.objects[b].provider) == (c, p);
    }
  }

  // ----- deregistering during an attach

  /** Only thread `u` has moved, it is still at its pending actions, and `b` has kept its parties. */
  ghost predicate OnlyAttaches(s: State, u: Tid, s': State, b: BindingId) {
    && OthersSame(s, u, s') && u in s'.threads && s'.threads[u].RunningActions?
    && b in s.core.objects && b in s'.core.objects
    && s'.core.objects[b].client == s.core.objects[b].client && s'.core.objects[b].provider == s.core.objects[b].provider
    && forall side: Side, h: Handle :: s'.core.Deregistering(side, h) == s.core.Deregistering(side, h)
  }

  function ActionsLeft(th: Thread): nat
    requires th.RunningActions?
  {
    2 * |th.todo| + if th.apc.NextAction? then 1 else 0
  }

  /** What a thread with pending actions does next, when attaches succeed. */
  function NextStep(u: Tid, th: Thread): Action
    requires th.RunningActions?
  {
    match th.apc
    case NextAction => CallAttach(u)
    case InAttach => AttachReturns(u, true)
    case AttachBroken => FinishUnbind(u)
  }

  /** One of its steps: nobody else moves, and the attach of `b` comes nearer or is over. */
  ghost predicate Advances(s: State, u: Tid, s': State, b: BindingId) {
    && OnlyAttaches(s, u, s', b) && u in s.threads && s.threads[u].RunningActions?
    && ActionsLeft(s'.threads[u]) < ActionsLeft(s.threads[u])
    && (Ph(s', b).Linked? || (Early(Ph(s', b)) && Attends(s', u, b)))
  }

  lemma CommitAdvances(s: State, u: Tid, th: Thread, eff: Effect, b: BindingId)
    requires u in s.threads && th == s.threads[u] && ActionsReady(s, u, th, b)
    requires eff.binding == th.todo[0] && |eff.events| == 1 && eff.thread.Some?
    requires eff.record.client == s.core.objects[th.todo[0]].client && eff.record.provider == s.core.objects[th.todo[0]].provider
    requires if th.apc.NextAction?
      then eff.thread.value == th.(apc := InAttach) && PhaseNext(Queued(u), eff.events[0]) == Attaching(u)
      else
        && th.apc.InAttach? && eff.thread.value == RunningActions(th.todo[1..], NextAction)
        && PhaseNext(Attaching(u), eff.events[0]).Linked?
    ensures Commit(s, u, eff).Ok? && Advances(s, u, Commit(s, u, eff).state, b)
  {
    var s' := Commit(s, u, eff).state;
    assert eff.events == [eff.events[0]];
    PhaseAppend(s.traces[th.todo[0]], eff.events[0]);
    assert b == th.todo[0] || b in th.todo[1..];
    assert b != th.todo[0] ==> Ph(s', b) == Ph(s, b);
  }

  /** What is known of a thread with pending actions. */
  ghost predicate ActionsReady(s: State, u: Tid, th: Thread, b: BindingId) {
    && th.RunningActions? && ActionsOk(s, u, th.todo, th.apc) && b in th.todo && Early(Ph(s, b)) && b in s.core.objects
    && AtHand(s, th.todo[0]) && s.core.PartiesRegistered(th.todo[0])
  }

  lemma CallAdvances(s: State, u: Tid, th: Thread, b: BindingId)
    requires u in s.threads && th == s.threads[u] && ActionsReady(s, u, th, b) && th.apc.NextAction?
    ensures DoCallAttach(s, u, th).Ok? && Advances(s, u, DoCallAttach(s, u, th).state, b)
  {
    CommitAdvances(s, u, th, Effect(th.todo[0], s.core.objects[th.todo[0]], [AttachCalled], Some(th.(apc := InAttach))), b);
  }

  lemma ReturnAdvances(s: State, u: Tid, th: Thread, b: BindingId)
    requires u in s.threads && th == s.threads[u] && ActionsReady(s, u, th, b) && th.apc.InAttach?
    ensures DoAttachReturns(s, u, th, true).Ok? && Advances(s, u, DoAttachReturns(s, u, th, true).state, b)
  {
    CommitAdvances(s, u, th, AttachEffect(s.core.objects[th.todo[0]], th, true), b);
  }

  lemma FinishAdvances(s: State, u: Tid, th: Thread, b: BindingId)
    requires u in s.threads && th == s.threads[u] && ActionsReady(s, u, th, b) && th.apc.AttachBroken?
    ensures DoFinishUnbind(s, u, th).Ok? && Advances(s, u, DoFinishUnbind(s, u, th).state, b)
  {
    var s' := DoFinishUnbind(s, u, th).state;
    forall side: Side, h: Handle
      ensures s'.core.Deregistering(side, h) == s.core.Deregistering(side, h)
    {
      FinishKeepsFlags(s, u, th, side, h);
    }
    assert b != th.todo[0] && b in th.todo[1..];
    assert Ph(s', b) == Ph(s, b);
  }

  lemma ReadyToAct(s: State, u: Tid, b: BindingId)
    requires Inv(s) && Attends(s, u, b) && Early(Ph(s, b)) && b in s.core.objects
    ensures ActionsReady(s, u, s.threads[u], b)
  {
    assert ThreadOk(s, u, s.threads[u]);
    OwnFacts(s, u, s.threads[u].todo[0]);
  }

  lemma NextStepAdvances(s: State, u: Tid, b: BindingId)
    requires u in s.threads && ActionsReady(s, u, s.threads[u], b)
    ensures Exec(s, NextStep(u, s.threads[u])).Ok?
    ensures Advances(s, u, Exec(s, NextStep(u, s.threads[u])).state, b)
  {
    var th := s.threads[u];
    if th.apc.NextAction? {
      CallAdvances(s, u, th, b);
    } else if th.apc.InAttach? {
      ReturnAdvances(s, u, th, b);
    } else {
      FinishAdvances(s, u, th, b);
    }
  }

  lemma OnlyAttachesOn(s: State, u: Tid, s1: State, s2: State, b: BindingId)
    requires OnlyAttaches(s, u, s1, b) && OnlyAttaches(s1, u, s2, b)
    ensures OnlyAttaches(s, u, s2, b)
  {
  }

  /** A pending attach can always go on to its end and succeed. */
  lemma {:induction false} AttachGoesOn(s: State, actions: seq<Action>, u: Tid, b: BindingId) returns (s': State, longer: seq<Action>)
    requires Run(INIT, actions) == Ok(s) && Attends(s, u, b) && Early(Ph(s, b)) && b in s.core.objects
    ensures actions <= longer && Run(INIT, longer) == Ok(s')
    ensures Ph(s', b).Linked? && OnlyAttaches(s, u, s', b)
    decreases ActionsLeft(s.threads[u])
  {
    RunIsSafe(actions);
    ReadyToAct(s, u, b);
    NextStepAdvances(s, u, b);
    var s1, actions1 := StepTo(s, actions, NextStep(u, s.threads[u]));
    if Ph(s1, b).Linked? {
      s', longer := s1, actions1;
    } else {
      s', longer := AttachGoesOn(s1, actions1, u, b);
      OnlyAttachesOn(s, u, s1, s', b);
    }
  }

  /** The deregistration of `h` is about to call `begin_unbind` for `b`. */
  ghost predicate Reaches(s: State, t: Tid, side: Side, h: Handle, b: BindingId) {
    && t in s.threads && Lists(s.threads[t], side, h, b)
    && s.threads[t].pc.NextBinding? && s.threads[t].todo[0] == b
  }

  /** Nobody else is going to unbind `b`. */
  ghost predicate Abandoned(s: State, side: Side, h: Handle, b: BindingId) {
    && b in s.core.objects && s.core.objects[b].Party(side) == h && s.core.Deregistering(side, h)
    && NobodyCollects(s, side, h) && NobodyUnbinds(s, b)
    && NobodyCollects(s, side.Other(), s.core.objects[b].Party(side.Other()))
  }

  lemma AttachesAbandoned(s: State, u: Tid, s': State, side: Side, h: Handle, b: BindingId)
    requires OnlyAttaches(s, u, s', b) && Abandoned(s, side, h, b)
    ensures Abandoned(s', side, h, b)
  {
  }

  lemma SkipAbandons(s: State, t: Tid, side: Side, h: Handle, b: BindingId)
    requires ThreadsOk(s) && CustodyOk(s) && Todos(s) && Reaches(s, t, side, h, b) && b in s.core.objects
    requires !CanBeginUnbind(s.core.objects[b])
    requires !s.core.Deregistering(side.Other(), s.core.objects[b].Party(side.Other()))
    ensures DoTryBeginUnbind(s, t, s.threads[t]).Ok?
    ensures Abandoned(DoTryBeginUnbind(s, t, s.threads[t]).state, side, h, b)
  {
    var th := s.threads[t];
    var s' := DoTryBeginUnbind(s, t, th).state;
    assert ThreadOk(s, t, th) && Apart(th);
    forall v | v in s'.threads && s'.threads[v].Unbinding?
      ensures b !in s'.threads[v].todo
    {
      if v != t {
        assert ThreadOk(s, v, s.threads[v]);
        assert Custody(s.threads[v]) != Custody(th);
      }
    }
    forall v | v in s'.threads
      ensures s'.threads[v] != Deregistering(side, h)
      ensures s'.threads[v] != Deregistering(side.Other(), s.core.objects[b].Party(side.Other()))
    {
      if v != t {
        assert ThreadOk(s, v, s.threads[v]);
        assert Custody(s.threads[v]) != Custody(th);
      }
    }
  }

  lemma SkipKeepsAttach(s: State, t: Tid, b: BindingId)
    requires AttachersOk(s) && t in s.threads && s.threads[t].Unbinding? && b in s.core.objects && Early(Ph(s, b))
    requires DoTryBeginUnbind(s, t, s.threads[t]).Ok? && s.threads[t].todo[0] == b && !CanBeginUnbind(s.core.objects[b])
    ensures var s' := DoTryBeginUnbind(s, t, s.threads[t]).state;
      Ph(s', b) == Ph(s, b) && Attends(s', Ph(s, b).thread, b)
  {
    assert Attends(s, Ph(s, b).thread, b);
  }

  /** `begin_unbind` skips `b`, and from then on only the attach is at work on it. */
  lemma SkipStep(s: State, t: Tid, side: Side, h: Handle, b: BindingId)
    requires TracesOk(s) && ThreadsOk(s) && CustodyOk(s) && AttachersOk(s) && Todos(s)
    requires Reaches(s, t, side, h, b) && b in s.core.objects && Early(Ph(s, b))
    requires !s.core.Deregistering(side.Other(), s.core.objects[b].Party(side.Other()))
    ensures Exec(s, TryBeginUnbind(t)).Ok?
    ensures var s' := Exec(s, TryBeginUnbind(t)).state;
      Abandoned(s', side, h, b) && Ph(s', b) == Ph(s, b) && Attends(s', Ph(s, b).thread, b)
  {
    EarlyIsNotReady(s, b);
    SkipAbandons(s, t, side, h, b);
    SkipKeepsAttach(s, t, b);
    assert Exec(s, TryBeginUnbind(t)) == DoTryBeginUnbind(s, t, s.threads[t]);
  }

  lemma EarlyIsNotReady(s: State, b: BindingId)
    requires TracesOk(s) && b in s.core.objects && Early(Ph(s, b))
    ensures !CanBeginUnbind(s.core.objects[b])
  {
    assert BindingOk(s.core.objects[b], b in s.core.live, Ph(s, b));
  }

  lemma LinkedIsLeftBehind(s: State, side: Side, h: Handle, b: BindingId)
    requires TracesOk(s) && Abandoned(s, side, h, b) && Ph(s, b).Linked?
    ensures LeftBehind(s, side, h, b)
  {
    assert BindingOk(s.core.objects[b], b in s.core.live, Ph(s, b));
  }

  /** If `begin_unbind` finds the attach still in progress, and the other party is staying, then the
      binding can be left behind: the attach only has to succeed. */
  lemma SkippedIsLeftBehind(actions: seq<Action>, t: Tid, side: Side, h: Handle, b: BindingId) returns (longer: seq<Action>)
    requires Run(INIT, actions).Ok? && Reaches(Run(INIT, actions).state, t, side, h, b)
    requires var s := Run(INIT, actions).state;
      && b in s.core.objects && Early(Ph(s, b))
      && !s.core.Deregistering(side.Other(), s.core.objects[b].Party(side.Other()))
    ensures actions <= longer && Run(INIT, longer).Ok? && LeftBehind(Run(INIT, longer).state, side, h, b)
  {
    RunIsSafe(actions);
    RunLedger(actions);
    var s := Run(INIT, actions).state;
    SkipStep(s, t, side, h, b);
    var s1, actions1 := StepTo(s, actions, TryBeginUnbind(t));
    longer := AttachLeavesBehind(s1, actions1, Ph(s, b).thread, side, h, b);
  }

  lemma AttachLeavesBehind(s: State, actions: seq<Action>, u: Tid, side: Side, h: Handle, b: BindingId) returns (longer: seq<Action>)
    requires Run(INIT, actions) == Ok(s) && Attends(s, u, b) && Early(Ph(s, b)) && Abandoned(s, side, h, b)
    ensures actions <= longer && Run(INIT, longer).Ok? && LeftBehind(Run(INIT, longer).state, side, h, b)
  {
    var s';
    s', longer := AttachGoesOn(s, actions, u, b);
    AttachesAbandoned(s, u, s', side, h, b);
    RunIsSafe(longer);
    LinkedIsLeftBehind(s', side, h, b);
  }

  /** When a deregistration whose other party stays gets to a binding, that binding can ever be left
      behind if and only if its attach is still in progress. */
  lemma LeftBehindIffSkipped(actions: seq<Action>, t: Tid, side: Side, h: Handle, b: BindingId)
    requires Run(INIT, actions).Ok? && Reaches(Run(INIT, actions).state, t, side, h, b)
    requires var s := Run(INIT, actions).state;
      b in s.core.objects && !s.core.Deregistering(side.Other(), s.core.objects[b].Party(side.Other()))
    ensures (exists longer :: actions <= longer && Run(INIT, longer).Ok? && LeftBehind(Run(INIT, longer).state, side, h, b))
        <==> Early(Ph(Run(INIT, actions).state, b))
  {
    var s := Run(INIT, actions).state;
    if Early(Ph(s, b)) {
      var longer := SkippedIsLeftBehind(actions, t, side, h, b);
      assert actions <= longer;
    } else {
      RunIsSafe(actions);
      assert BindingOk(s.core.objects[b], b in s.core.live, Ph(s, b));
      assert Caught(s, side, h, b);
      forall longer | actions <= longer && Run(INIT, longer).Ok?
        ensures !LeftBehind(Run(INIT, longer).state, side, h, b)
      {
        assert longer[..|actions|] == actions;
        CaughtForever(longer, |actions|, side, h, b);
      }
    }
  }

  // ----- nobody is stuck

  lemma {:induction false} EnumerationExists<T(!new)>(elements: set<T>) returns (order: seq<T>)
    ensures Enumerates(order, elements)
    decreases |elements|
  {
    if elements == {} {
      order := [];
    } else {
      var x :| x in elements;
      var rest := EnumerationExists(elements - {x});
      order := rest + [x];
      assert x !in elements - {x};
      forall y
        ensures y in order <==> y in elements
      {
        assert y in order <==> y in rest || y == x;
      }
    }
  }

  /** A thread in `remove` whose registration still has bindings: the one wait of the protocol. */
  ghost predicate WaitsInRemove(s: State, t: Tid) {
    && t in s.threads && s.threads[t].Removing? && s.core.Has(s.threads[t].side, s.threads[t].handle)
    && s.core.Regs(s.threads[t].side)[s.threads[t].handle].bindingCount != 0
  }

  lemma RegisteringGoesOn(s: State, t: Tid) returns (a: Action)
    requires t in s.threads && (s.threads[t].Registering? || s.threads[t].Deregistering?)
    ensures a.t == t && Exec(s, a).Ok?
  {
    var th := s.threads[t];
    if th.Registering? {
      var order := EnumerationExists(s.core.Regs(th.side.Other()).Keys);
      a := Bind(t, order);
    } else {
      var order := EnumerationExists(s.core.Refs(th.side, th.handle));
      a := CollectBindings(t, order);
    }
  }

  lemma ActionsGoOn(s: State, t: Tid) returns (a: Action)
    requires Inv(s) && t in s.threads && s.threads[t].RunningActions?
    ensures a.t == t && Exec(s, a).Ok?
  {
    var th := s.threads[t];
    assert ThreadOk(s, t, th);
    if th.todo == [] {
      a := EndLoop(t);
    } else {
      OwnFacts(s, t, th.todo[0]);
      NextStepRuns(s, t);
      a := NextStep(t, th);
    }
  }

  lemma NextStepRuns(s: State, t: Tid)
    requires t in s.threads && s.threads[t].RunningActions? && s.threads[t].todo != []
    requires s.threads[t].todo[0] in s.traces && s.core.PartiesRegistered(s.threads[t].todo[0])
    ensures NextStep(t, s.threads[t]).t == t && Exec(s, NextStep(t, s.threads[t])).Ok?
  {
  }

  function NextUnbindStep(t: Tid, th: Thread): Action
    requires th.Unbinding?
  {
    if th.todo == [] then EndLoop(t)
    else
      match th.pc
      case NextBinding => TryBeginUnbind(t)
      case LastStep => FinishUnbind(t)
      case InDetach(step) =>
        (match step
         case CallClient => CallDetach(t)
         case InClient => DetachReturns(t, false)
         case CallProvider(_) => CallDetach(t)
         case InProvider(_) => DetachReturns(t, false)
         case Settle(_, _) => SettleDetach(t))
  }

  lemma UnbindingGoesOn(s: State, t: Tid)
    requires t in s.threads && s.threads[t].Unbinding? && s.core.Has(s.threads[t].side, s.threads[t].handle)
    requires s.threads[t].todo != [] ==>
      s.threads[t].todo[0] in s.core.objects && s.threads[t].todo[0] in s.traces
      && (!s.threads[t].pc.NextBinding? ==> s.core.PartiesRegistered(s.threads[t].todo[0]))
    ensures NextUnbindStep(t, s.threads[t]).t == t && Exec(s, NextUnbindStep(t, s.threads[t])).Ok?
  {
  }

  lemma UnbindingIsReady(s: State, t: Tid)
    requires Inv(s) && t in s.threads && s.threads[t].Unbinding?
    ensures s.core.Has(s.threads[t].side, s.threads[t].handle)
    ensures s.threads[t].todo != [] ==>
      s.threads[t].todo[0] in s.core.objects && s.threads[t].todo[0] in s.traces
      && (!s.threads[t].pc.NextBinding? ==> s.core.PartiesRegistered(s.threads[t].todo[0]))
  {
    var th := s.threads[t];
    assert ThreadOk(s, t, th);
    if th.todo != [] {
      assert th.todo[0] in th.todo;
      if !th.pc.NextBinding? {
        OwnFacts(s, t, th.todo[0]);
      }
    }
  }

  lemma OthersGoOn(s: State, t: Tid) returns (a: Action)
    requires Inv(s) && t in s.threads && (s.threads[t].Removing? || s.threads[t].CompletingDetach?) && !WaitsInRemove(s, t)
    ensures a.t == t && Exec(s, a).Ok?
  {
    var th := s.threads[t];
    assert ThreadOk(s, t, th);
    if th.Removing? {
      a := FinishRemove(t);
    } else {
      OwnFacts(s, t, th.binding);
      a := FinishUnbind(t);
    }
  }

  /** In every state of every run, every thread has a next step, except one that waits in `remove` for a binding
      count that is not zero. */
  lemma NoThreadIsStuck(actions: seq<Action>, t: Tid)
    requires Run(INIT, actions).Ok? && t in Run(INIT, actions).state.threads
    ensures (exists a: Action :: a.t == t && Exec(Run(INIT, actions).state, a).Ok?) || WaitsInRemove(Run(INIT, actions).state, t)
  {
    RunIsSafe(actions);
    var s := Run(INIT, actions).state;
    if !WaitsInRemove(s, t) {
      var a: Action;
      if s.threads[t].Registering? || s.threads[t].Deregistering? {
        a := RegisteringGoesOn(s, t);
      } else if s.threads[t].RunningActions? {
        a := ActionsGoOn(s, t);
      } else if s.threads[t].Unbinding? {
        UnbindingIsReady(s, t);
        UnbindingGoesOn(s, t);
        a := NextUnbindStep(t, s.threads[t]);
      } else {
        a := OthersGoOn(s, t);
      }
      assert a.t == t && Exec(s, a).Ok?;
    }
  }
}
