/** Registration, `unbind_complete` and deregistration keep the invariant. */
module NmrRegistrationSteps {
  import opened Options
  import opened NmrCore
  import opened NmrTrace
  import opened NmrProtocol
  import opened NmrInvariant
  import opened NmrLocalSteps
  import opened NmrBindingSteps

  // ----- what a change to the maps leaves alone

  /** The same registrations, apart from their binding counts. */
  ghost predicate SameRegistrations(c: Core, d: Core) {
    && c.nextHandle == d.nextHandle
    && forall side: Side ::
         && c.Regs(side).Keys == d.Regs(side).Keys
         && forall h :: h in c.Regs(side) ==>
              c.Regs(side)[h] == d.Regs(side)[h].(bindingCount := c.Regs(side)[h].bindingCount)
  }

  lemma SameLeaving(c: Core, d: Core)
    requires SameRegistrations(c, d)
    ensures forall side: Side, h: Handle ::
      && c.Has(side, h) == d.Has(side, h)
      && c.Deregistering(side, h) == d.Deregistering(side, h)
      && Leaving(c, side, h) == Leaving(d, side, h)
  {
  }

  /** A thread's assertion survives if the phases it speaks of, and what it knows about
      registrations that are going away, survive. */
  lemma ThreadSurvives(s: State, s': State, u: Tid, th: Thread)
    requires ThreadOk(s, u, th) && s.core.nextHandle <= s'.core.nextHandle
    requires forall b :: Owner(Ph(s, b)) == Some(u) ==> Ph(s', b) == Ph(s, b)
    requires forall b :: b in s.core.objects ==>
      b in s'.core.objects && s'.core.objects[b].client == s.core.objects[b].client
      && s'.core.objects[b].provider == s.core.objects[b].provider
    requires Custody(th).Some? ==>
      var (side, h) := Custody(th).value;
      && (s.core.Deregistering(side, h) ==> s'.core.Deregistering(side, h))
      && (s.core.Deregistering(side, h) ==> s'.core.Refs(side, h) <= s.core.Refs(side, h))
    ensures ThreadOk(s', u, th)
  {
  }

  // ----- unbind_complete

  /** One optional cleanup callback. */
  lemma CleanOne(trace: seq<Event>, t: Tid, attached: bool, side: Side, called: bool) returns (r: seq<Event>)
    requires PhaseOf(trace).Finishing? && PhaseOf(trace).thread == t && PhaseOf(trace).attached == attached
    requires PhaseOf(trace).cleaned <= (if side.Client? then 0 else 1)
    ensures r == trace + (if called then [CleanedUp(side)] else [])
    ensures PhaseOf(r).Finishing? && PhaseOf(r).thread == t && PhaseOf(r).attached == attached
    ensures PhaseOf(r).cleaned <= (if side.Client? then 1 else 2)
  {
    if called {
      r := trace + [CleanedUp(side)];
      PhaseAppend(trace, CleanedUp(side));
    } else {
      r := trace;
      assert trace + [] == trace;
    }
  }

  lemma FinishPhase(core: Core, b: BindingId, trace: seq<Event>, t: Tid, attached: bool)
    requires core.PartiesRegistered(b) && PhaseOf(trace) == Finishing(t, attached, 0)
    ensures PhaseOf(trace + CleanupEvents(core, b)) == Closed(attached)
  {
    var t1 := CleanOne(trace, t, attached, Client, CallsCleanup(core, b, Client));
    var t2 := CleanOne(t1, t, attached, Provider, CallsCleanup(core, b, Provider));
    PhaseAppend(t2, Erased);
    assert trace + CleanupEvents(core, b) == t2 + [Erased];
  }

  lemma EraseSets(core: Core, b: BindingId)
    requires core.PartiesRegistered(b)
    ensures SameRegistrations(core, Erase(core, b))
    ensures forall side: Side, h: Handle :: Erase(core, b).Refs(side, h) == core.Refs(side, h) - {b}
  {
    var d := Erase(core, b);
    forall side: Side, h: Handle
      ensures d.Refs(side, h) == core.Refs(side, h) - {b}
    {
    }
  }

  lemma EraseCounts(core: Core, b: BindingId, side: Side, h: Handle)
    requires core.PartiesRegistered(b) && b in core.live && core.Has(side, h)
    requires core.Regs(side)[h].bindingCount == |core.Refs(side, h)|
    ensures Erase(core, b).Has(side, h)
    ensures Erase(core, b).Regs(side)[h].bindingCount == |core.Refs(side, h) - {b}|
  {
  }

  lemma EraseRefs(core: Core, b: BindingId)
    requires RefsOk(core) && b in core.live
    ensures RefsOk(Erase(core, b)) && SameRegistrations(core, Erase(core, b))
    ensures forall side: Side, h: Handle :: Erase(core, b).Refs(side, h) == core.Refs(side, h) - {b}
  {
    var d := Erase(core, b);
    EraseSets(core, b);
    forall side: Side, h: Handle | d.Has(side, h)
      ensures core.Has(side, h) && d.Regs(side)[h].bindingCount == |d.Refs(side, h)|
    {
      EraseCounts(core, b, side, h);
    }
    forall x | x in d.live
      ensures d.PartiesRegistered(x)
    {
      assert core.PartiesRegistered(x);
    }
  }

  /** The thread that runs `unbind_complete` owns the binding. */
  lemma FinishOwned(s: State, t: Tid, th: Thread)
    requires Finishes(th).Some? && ThreadOk(s, t, th)
    ensures Ph(s, Finishes(th).value).Finishing?
    ensures Ph(s, Finishes(th).value).thread == t && Ph(s, Finishes(th).value).cleaned == 0
  {
  }

  lemma FinishOwnThread(s: State, t: Tid, th: Thread, s': State)
    requires Finishes(th).Some? && ThreadOk(s, t, th) && DoFinishUnbind(s, t, th) == Ok(s')
    requires forall b :: b != Finishes(th).value ==> Ph(s', b) == Ph(s, b)
    requires forall side: Side, h: Handle :: s'.core.Refs(side, h) == s.core.Refs(side, h) - {Finishes(th).value}
    requires forall side: Side, h: Handle :: s'.core.Deregistering(side, h) == s.core.Deregistering(side, h)
    ensures AfterFinish(th).Some? ==> ThreadOk(s', t, AfterFinish(th).value)
  {
  }

  lemma FinishOther(s: State, t: Tid, b: BindingId, s': State, u: Tid, th: Thread)
    requires Owner(Ph(s, b)) == Some(t) && u != t && ThreadOk(s, u, th)
    requires s'.core.objects == s.core.objects && s'.core.nextHandle == s.core.nextHandle
    requires forall x :: x != b ==> Ph(s', x) == Ph(s, x)
    requires forall side: Side, h: Handle :: s'.core.Refs(side, h) == s.core.Refs(side, h) - {b}
    requires forall side: Side, h: Handle :: s'.core.Deregistering(side, h) == s.core.Deregistering(side, h)
    ensures ThreadOk(s', u, th)
  {
  }

  lemma FinishThreads(s: State, t: Tid, th: Thread, s': State)
    requires ThreadsOk(s) && t in s.threads && th == s.threads[t]
    requires Finishes(th).Some? && DoFinishUnbind(s, t, th) == Ok(s')
    requires forall b :: b != Finishes(th).value ==> Ph(s', b) == Ph(s, b)
    requires forall side: Side, h: Handle :: s'.core.Refs(side, h) == s.core.Refs(side, h) - {Finishes(th).value}
    requires forall side: Side, h: Handle :: s'.core.Deregistering(side, h) == s.core.Deregistering(side, h)
    ensures ThreadsOk(s')
  {
    var b := Finishes(th).value;
    FinishOwned(s, t, th);
    FinishOwnThread(s, t, th, s');
    forall u | u in s'.threads
      ensures ThreadOk(s', u, s'.threads[u])
    {
      if u != t {
        FinishOther(s, t, b, s', u, s.threads[u]);
      }
    }
  }

  lemma FinishAttachers(s: State, t: Tid, th: Thread, s': State)
    requires AttachersOk(s) && t in s.threads && th == s.threads[t]
    requires Finishes(th).Some? && DoFinishUnbind(s, t, th) == Ok(s') && Ph(s', Finishes(th).value).Closed?
    requires forall b :: b != Finishes(th).value ==> Ph(s', b) == Ph(s, b)
    ensures AttachersOk(s')
  {
  }

  lemma FinishTraces(s: State, t: Tid, th: Thread, s': State, attached: bool)
    requires TracesOk(s) && Finishes(th).Some? && DoFinishUnbind(s, t, th) == Ok(s')
    requires Ph(s, Finishes(th).value) == Finishing(t, attached, 0)
    requires Ph(s', Finishes(th).value) == Closed(attached)
    requires forall b :: b != Finishes(th).value ==> Ph(s', b) == Ph(s, b)
    ensures TracesOk(s')
  {
    assert s'.core.objects == s.core.objects;
  }

  lemma FinishUnbindParts(s: State, t: Tid, th: Thread, s': State)
    requires Inv(s) && t in s.threads && th == s.threads[t] && Finishes(th).Some?
    requires DoFinishUnbind(s, t, th) == Ok(s')
    ensures Inv(s')
  {
    var b := Finishes(th).value;
    assert ThreadOk(s, t, th);
    FinishOwned(s, t, th);
    OwnFacts(s, t, b);
    var attached := Ph(s, b).attached;
    FinishPhase(s.core, b, s.traces[b], t, attached);
    FinishTraces(s, t, th, s', attached);
    EraseRefs(s.core, b);
    SameLeaving(s.core, s'.core);
    FinishThreads(s, t, th, s');
    FinishAttachers(s, t, th, s');
    FinishCustody(s, t, th, s');
    FinishUnbinds(s, t, th, s', attached);
  }

  lemma FinishUnbinds(s: State, t: Tid, th: Thread, s': State, attached: bool)
    requires UnbindsOk(s) && Finishes(th).Some? && DoFinishUnbind(s, t, th) == Ok(s')
    requires Ph(s, Finishes(th).value) == Finishing(t, attached, 0)
    requires Ph(s', Finishes(th).value) == Closed(attached)
    requires forall b :: b != Finishes(th).value ==> Ph(s', b) == Ph(s, b)
    requires forall side: Side, h: Handle :: Leaving(s'.core, side, h) == Leaving(s.core, side, h)
    ensures UnbindsOk(s')
  {
  }

  lemma FinishUnbindKeeps(s: State, t: Tid, th: Thread)
    requires Inv(s) && t in s.threads && th == s.threads[t]
    ensures Safe(DoFinishUnbind(s, t, th))
  {
    if Finishes(th).Some? {
      assert ThreadOk(s, t, th);
      FinishOwned(s, t, th);
      OwnFacts(s, t, Finishes(th).value);
      FinishUnbindParts(s, t, th, DoFinishUnbind(s, t, th).state);
    }
  }

  lemma FinishCustody(s: State, t: Tid, th: Thread, s': State)
    requires CustodyOk(s) && t in s.threads && th == s.threads[t]
    requires Finishes(th).Some? && DoFinishUnbind(s, t, th) == Ok(s')
    requires forall side: Side, h: Handle :: s'.core.Deregistering(side, h) == s.core.Deregistering(side, h)
    ensures CustodyOk(s')
  {
  }

  // ----- perform_bind

  /** What the locked loop of `perform_bind` adds: a fresh binding of `h` with each target that
      matches and is staying, and nothing else. */
  ghost predicate BindAllSpec(core: Core, side: Side, h: Handle, targets: seq<Handle>, d: Core, ids: seq<BindingId>) {
    RefsOk(d) && SameRegistrations(core, d) && Adds(core, side, h, targets, d, ids)
  }

  ghost predicate Adds(core: Core, side: Side, h: Handle, targets: seq<Handle>, d: Core, ids: seq<BindingId>) {
    && (forall i, j :: 0 <= i < j < |ids| ==> ids[i] != ids[j])
    && (forall b :: b in ids ==> b !in core.objects && core.nextBinding <= b < d.nextBinding)
    && core.nextBinding <= d.nextBinding
    && (forall b :: b in d.objects <==> b in core.objects || b in ids)
    && (forall b :: b in core.objects ==> b in d.objects && d.objects[b] == core.objects[b])
    && (forall b :: b in d.live <==> b in core.live || b in ids)
    && (forall b :: b in ids ==> NewBinding(core, side, h, targets, d, b))
  }

  ghost predicate NewBinding(core: Core, side: Side, h: Handle, targets: seq<Handle>, d: Core, b: BindingId) {
    && b in d.objects
    && d.objects[b] == Binding(d.objects[b].client, d.objects[b].provider, Start, Start, false, false)
    && d.objects[b].Party(side) == h && d.objects[b].Party(side.Other()) in targets
    && CanBind(core, d.objects[b].client, d.objects[b].provider)
  }

  lemma BindOneCounts(core: Core, c: Handle, p: Handle, side: Side, h: Handle)
    requires core.nextBinding !in core.live && CanBind(core, c, p) && core.Has(side, h)
    requires core.Regs(side)[h].bindingCount == |core.Refs(side, h)| && core.nextBinding !in core.objects
    ensures BindOne(core, c, p).Regs(side)[h].bindingCount == |BindOne(core, c, p).Refs(side, h)|
  {
    var d := BindOne(core, c, p);
    var n := core.nextBinding;
    assert n !in core.Refs(side, h);
    if d.objects[n].Party(side) == h {
      assert d.Refs(side, h) == core.Refs(side, h) + {n};
    } else {
      assert d.Refs(side, h) == core.Refs(side, h);
    }
  }

  lemma BindOneSame(core: Core, c: Handle, p: Handle)
    requires CanBind(core, c, p)
    ensures SameRegistrations(core, BindOne(core, c, p))
    ensures forall side: Side, h: Handle :: BindOne(core, c, p).Has(side, h) == core.Has(side, h)
  {
  }

  lemma BindOneBounded(core: Core, c: Handle, p: Handle)
    requires Bounded(core) && CanBind(core, c, p)
    ensures Bounded(BindOne(core, c, p))
  {
    BindOneSame(core, c, p);
    assert core.Has(Client, c) && core.Has(Provider, p);
  }

  lemma BindOneRefs(core: Core, c: Handle, p: Handle)
    requires RefsOk(core) && CanBind(core, c, p)
    ensures RefsOk(BindOne(core, c, p)) && SameRegistrations(core, BindOne(core, c, p))
  {
    var d := BindOne(core, c, p);
    BindOneSame(core, c, p);
    BindOneBounded(core, c, p);
    forall side: Side, h: Handle | d.Has(side, h)
      ensures d.Regs(side)[h].bindingCount == |d.Refs(side, h)|
    {
      BindOneCounts(core, c, p, side, h);
    }
    forall b | b in d.live
      ensures d.PartiesRegistered(b)
    {
      if b != core.nextBinding {
        assert core.PartiesRegistered(b);
      }
    }
  }

  lemma SameRegistrationsCompose(c: Core, d: Core, e: Core)
    requires SameRegistrations(c, d) && SameRegistrations(d, e)
    ensures SameRegistrations(c, e)
  {
  }

  lemma SameCanBind(c: Core, d: Core, x: Handle, y: Handle)
    requires SameRegistrations(c, d)
    ensures CanBind(c, x, y) == CanBind(d, x, y)
  {
    assert c.Regs(Client).Keys == d.Regs(Client).Keys;
    assert c.Regs(Provider).Keys == d.Regs(Provider).Keys;
  }

  lemma NewBindingStays(core: Core, side: Side, h: Handle, targets: seq<Handle>, target: Handle, c1: Core, d: Core,
                        b: BindingId)
    requires NewBinding(core, side, h, targets, c1, b) && b in d.objects && d.objects[b] == c1.objects[b]
    ensures NewBinding(core, side, h, targets + [target], d, b)
  {
  }

  lemma AddsStep(core: Core, side: Side, h: Handle, targets: seq<Handle>, target: Handle, c1: Core, ids: seq<BindingId>)
    requires Adds(core, side, h, targets, c1, ids) && c1.nextBinding !in c1.objects
    requires CanBind(c1, ClientOf(side, h, target), ProviderOf(side, h, target))
    requires CanBind(core, ClientOf(side, h, target), ProviderOf(side, h, target))
    ensures var d := BindOne(c1, ClientOf(side, h, target), ProviderOf(side, h, target));
      Adds(core, side, h, targets + [target], d, ids + [c1.nextBinding])
  {
    var d := BindOne(c1, ClientOf(side, h, target), ProviderOf(side, h, target));
    var n := c1.nextBinding;
    forall b | b in ids + [n]
      ensures NewBinding(core, side, h, targets + [target], d, b)
      ensures b !in core.objects && core.nextBinding <= b < d.nextBinding
    {
      if b in ids {
        NewBindingStays(core, side, h, targets, target, c1, d, b);
      }
    }
  }

  /** One turn of the loop. */
  lemma BindAllStep(core: Core, side: Side, h: Handle, targets: seq<Handle>, target: Handle, c1: Core, ids: seq<BindingId>)
    requires BindAllSpec(core, side, h, targets, c1, ids)
    requires CanBind(c1, ClientOf(side, h, target), ProviderOf(side, h, target))
    ensures var d := BindOne(c1, ClientOf(side, h, target), ProviderOf(side, h, target));
      BindAllSpec(core, side, h, targets + [target], d, ids + [c1.nextBinding])
  {
    var c, p := ClientOf(side, h, target), ProviderOf(side, h, target);
    BindOneRefs(c1, c, p);
    SameRegistrationsCompose(core, c1, BindOne(c1, c, p));
    SameCanBind(core, c1, c, p);
    AddsStep(core, side, h, targets, target, c1, ids);
  }

  lemma {:induction false} BindAllFacts(core: Core, side: Side, h: Handle, targets: seq<Handle>)
    requires RefsOk(core)
    ensures var (d, ids) := BindAll(core, side, h, targets);
      BindAllSpec(core, side, h, targets, d, ids)
  {
    if targets != [] {
      var n := |targets| - 1;
      BindAllFacts(core, side, h, targets[..n]);
      var (c1, ids) := BindAll(core, side, h, targets[..n]);
      assert targets[..n] + [targets[n]] == targets;
      if CanBind(c1, ClientOf(side, h, targets[n]), ProviderOf(side, h, targets[n])) {
        BindAllStep(core, side, h, targets[..n], targets[n], c1, ids);
      } else {
        forall b | b in ids
          ensures NewBinding(core, side, h, targets, c1, b)
        {
          assert NewBinding(core, side, h, targets[..n], c1, b);
        }
      }
    }
  }

  /** No binding is ever added to a registration that is going away. */
  lemma BindAllSparesLeaving(core: Core, side: Side, h: Handle, targets: seq<Handle>, d: Core, ids: seq<BindingId>,
                             side2: Side, h2: Handle)
    requires RefsOk(core) && BindAllSpec(core, side, h, targets, d, ids) && Leaving(core, side2, h2)
    ensures d.Refs(side2, h2) == core.Refs(side2, h2)
  {
  }

  lemma BindThreads(s: State, t: Tid, th: Thread, targets: seq<Handle>, s': State, ids: seq<BindingId>)
    requires RefsOk(s.core) && ThreadsOk(s) && t in s.threads && th == s.threads[t] && th.Registering?
    requires BindAllSpec(s.core, th.side, th.handle, targets, s'.core, ids)
    requires s'.threads == s.threads[t := RunningActions(ids, NextAction)]
    requires forall b :: b in ids ==> Ph(s', b) == Queued(t)
    requires forall b :: b !in ids ==> Ph(s', b) == Ph(s, b)
    requires s.traces.Keys == s.core.objects.Keys
    ensures ThreadsOk(s')
  {
    SameLeaving(s.core, s'.core);
    forall u | u in s'.threads
      ensures ThreadOk(s', u, s'.threads[u])
    {
      if u != t {
        var other := s.threads[u];
        if Custody(other).Some? {
          var (side2, h2) := Custody(other).value;
          BindAllSparesLeaving(s.core, th.side, th.handle, targets, s'.core, ids, side2, h2);
        }
        ThreadSurvives(s, s', u, other);
      }
    }
  }

  lemma FirstPhase(t: Tid, side: Side)
    ensures PhaseOf([Created(t, side)]) == Queued(t)
  {
  }

  lemma BindPhases(s: State, t: Tid, side: Side, s': State, ids: seq<BindingId>)
    requires s'.traces == s.traces + map b | b in ids :: [Created(t, side)]
    ensures forall b :: b in ids ==> Ph(s', b) == Queued(t)
    ensures forall b :: b !in ids ==> Ph(s', b) == Ph(s, b)
  {
    FirstPhase(t, side);
  }

  lemma BindTraces(s: State, t: Tid, th: Thread, targets: seq<Handle>, s': State, ids: seq<BindingId>)
    requires TracesOk(s) && th.Registering?
    requires Adds(s.core, th.side, th.handle, targets, s'.core, ids)
    requires s'.traces.Keys == s.traces.Keys + (set b | b in ids)
    requires forall b :: b in ids ==> Ph(s', b) == Queued(t)
    requires forall b :: b !in ids ==> Ph(s', b) == Ph(s, b)
    requires s.core.live <= s.core.objects.Keys
    ensures TracesOk(s')
  {
  }

  lemma BindRest(s: State, t: Tid, th: Thread, targets: seq<Handle>, s': State, ids: seq<BindingId>)
    requires RefsOk(s.core) && CustodyOk(s) && AttachersOk(s) && UnbindsOk(s)
    requires t in s.threads && th == s.threads[t] && th.Registering?
    requires BindAllSpec(s.core, th.side, th.handle, targets, s'.core, ids) && s'.awaiting == s.awaiting
    requires s'.threads == s.threads[t := RunningActions(ids, NextAction)]
    requires forall b :: b in ids ==> Ph(s', b) == Queued(t)
    requires forall b :: b !in ids ==> Ph(s', b) == Ph(s, b)
    ensures CustodyOk(s') && AttachersOk(s') && UnbindsOk(s')
  {
    SameLeaving(s.core, s'.core);
    forall b | b in s'.core.objects && (Ph(s', b).Queued? || Ph(s', b).Attaching?)
      ensures Attends(s', Ph(s', b).thread, b)
    {
      if b !in ids {
        assert Attends(s, Ph(s, b).thread, b);
      }
    }
  }

  lemma BindKeeps(s: State, t: Tid, th: Thread, targets: seq<Handle>)
    requires Inv(s) && t in s.threads && th == s.threads[t]
    ensures Safe(DoBind(s, t, th, targets))
  {
    if th.Registering? {
      if !s.core.Has(th.side, th.handle) {
        ThreadEnds(s, t, s.(threads := s.threads - {t}));
      } else if Enumerates(targets, s.core.Regs(th.side.Other()).Keys) {
        var (core, ids) := BindAll(s.core, th.side, th.handle, targets);
        var s' := s.(core := core,
                     threads := s.threads[t := RunningActions(ids, NextAction)],
                     traces := s.traces + map b | b in ids :: [Created(t, th.side)]);
        BindAllFacts(s.core, th.side, th.handle, targets);
        BindPhases(s, t, th.side, s', ids);
        BindTraces(s, t, th, targets, s', ids);
        BindThreads(s, t, th, targets, s', ids);
        BindRest(s, t, th, targets, s', ids);
        assert DoBind(s, t, th, targets) == Ok(s');
      }
    }
  }

  // ----- the rest

  /** A thread with no binding in hand ends; it may leave its registration to be waited for. */
  lemma ThreadEnds(s: State, t: Tid, s': State)
    requires Inv(s) && t in s.threads
    requires s.threads[t].RunningActions? ==> s.threads[t].todo == []
    requires s'.core == s.core && s'.traces == s.traces && s'.threads == s.threads - {t}
    requires s'.awaiting == s.awaiting
      || (s.threads[t].Unbinding? && s'.awaiting == s.awaiting + {(s.threads[t].side, s.threads[t].handle)})
    ensures Inv(s')
  {
    assert ThreadOk(s, t, s.threads[t]);
    assert forall b :: Ph(s', b) == Ph(s, b);
    ThreadsFrame(s, t, s');
    AttachersFrame(s, t, s');
    assert CustodyOk(s');
  }

  lemma CollectKeeps(s: State, t: Tid, th: Thread, order: seq<BindingId>)
    requires Inv(s) && t in s.threads && th == s.threads[t]
    ensures Safe(DoCollect(s, t, th, order))
  {
    if th.Deregistering? {
      assert ThreadOk(s, t, th);
      if Enumerates(order, s.core.Refs(th.side, th.handle)) {
        var next := Unbinding(th.side, th.handle, order, false, NextBinding);
        assert ThreadOk(s, t, next);
        ThreadMoves(s, t, s.(threads := s.threads[t := next]));
      }
    }
  }

  lemma EndLoopKeeps(s: State, t: Tid, th: Thread)
    requires Inv(s) && t in s.threads && th == s.threads[t]
    ensures Safe(DoEndLoop(s, t, th))
  {
    if (th.RunningActions? || th.Unbinding?) && th.todo == [] {
      assert ThreadOk(s, t, th);
      if th.RunningActions? || th.pending {
        ThreadEnds(s, t, DoEndLoop(s, t, th).state);
      } else {
        var next := Removing(th.side, th.handle, false);
        assert s.core.Refs(th.side, th.handle) == {};
        assert ThreadOk(s, t, next);
        ThreadMoves(s, t, s.(threads := s.threads[t := next]));
      }
    }
  }

  /** A new thread starts; the bindings are not touched. */
  lemma ThreadStarts(s: State, t: Tid, th: Thread, s': State)
    requires ThreadsOk(s) && AttachersOk(s) && UnbindsOk(s) && RefsOk(s.core) && TracesOk(s)
    requires t !in s.threads && s'.threads == s.threads[t := th] && s'.traces == s.traces
    requires s'.core.objects == s.core.objects && s'.core.live == s.core.live
    requires s.core.nextHandle <= s'.core.nextHandle && ThreadOk(s', t, th)
    requires forall side: Side, h: Handle | h < s.core.nextHandle ::
      && (s.core.Deregistering(side, h) ==> s'.core.Deregistering(side, h))
      && (Leaving(s.core, side, h) ==> Leaving(s'.core, side, h))
    ensures ThreadsOk(s') && AttachersOk(s') && UnbindsOk(s') && TracesOk(s')
  {
    assert forall b :: Ph(s', b) == Ph(s, b);
    forall side: Side, h: Handle
      ensures s'.core.Refs(side, h) == s.core.Refs(side, h)
    {
      SameRefs(s.core, s'.core, side, h);
    }
    forall u | u in s'.threads
      ensures ThreadOk(s', u, s'.threads[u])
    {
      if u != t {
        ThreadSurvives(s, s', u, s.threads[u]);
      }
    }
    forall b | b in s'.core.objects && (Ph(s', b).Queued? || Ph(s', b).Attaching?)
      ensures Attends(s', Ph(s', b).thread, b)
    {
      assert Attends(s, Ph(s, b).thread, b);
    }
  }

  lemma AddRefs(core: Core, side: Side, npi: Option<int>, hasCleanup: bool)
    requires RefsOk(core)
    ensures RefsOk(Add(core, side, npi, hasCleanup))
    ensures forall s2: Side, h: Handle | h < core.nextHandle ::
      core.Has(s2, h) == Add(core, side, npi, hasCleanup).Has(s2, h)
      && core.Deregistering(s2, h) == Add(core, side, npi, hasCleanup).Deregistering(s2, h)
  {
    var d := Add(core, side, npi, hasCleanup);
    forall s2: Side, h: Handle
      ensures d.Refs(s2, h) == core.Refs(s2, h)
      ensures h >= core.nextHandle ==> d.Refs(s2, h) == {}
    {
      SameRefs(core, d, s2, h);
    }
    forall b | b in d.live
      ensures d.PartiesRegistered(b)
    {
      assert core.PartiesRegistered(b);
    }
    forall s2: Side, h: Handle | d.Has(s2, h)
      ensures h < d.nextHandle && d.Regs(s2)[h].bindingCount == |d.Refs(s2, h)|
    {
      if h != core.nextHandle {
        assert core.Has(s2, h);
      }
    }
  }

  lemma RegisterKeeps(s: State, t: Tid, side: Side, npi: Option<int>, hasCleanup: bool)
    requires Inv(s)
    ensures Safe(DoRegister(s, t, side, npi, hasCleanup))
  {
    if t !in s.threads {
      var s' := DoRegister(s, t, side, npi, hasCleanup).state;
      AddRefs(s.core, side, npi, hasCleanup);
      ThreadStarts(s, t, Registering(side, s.core.nextHandle), s');
      NewCustody(s, t, Registering(side, s.core.nextHandle), s');
    }
  }

  lemma NewCustody(s: State, t: Tid, th: Thread, s': State)
    requires CustodyOk(s) && t !in s.threads && s'.threads == s.threads[t := th] && s'.awaiting <= s.awaiting
    requires forall side: Side, h: Handle :: (side, h) in s'.awaiting ==> s'.core.Deregistering(side, h)
    requires Custody(th).Some? ==>
      Custody(th).value !in s'.awaiting
      && forall u :: u in s.threads ==> Custody(s.threads[u]) != Custody(th)
    ensures CustodyOk(s')
  {
  }

  lemma DeactivateRefs(core: Core, side: Side, h: Handle)
    requires RefsOk(core) && core.Has(side, h)
    ensures RefsOk(Deactivate(core, side, h))
    ensures forall s2: Side, h2: Handle ::
      && core.Has(s2, h2) == Deactivate(core, side, h).Has(s2, h2)
      && (core.Deregistering(s2, h2) ==> Deactivate(core, side, h).Deregistering(s2, h2))
  {
    var d := Deactivate(core, side, h);
    forall s2: Side, h2: Handle
      ensures d.Refs(s2, h2) == core.Refs(s2, h2)
    {
      SameRefs(core, d, s2, h2);
    }
    forall b | b in d.live
      ensures d.PartiesRegistered(b)
    {
      assert core.PartiesRegistered(b);
    }
    forall s2: Side, h2: Handle | d.Has(s2, h2)
      ensures h2 < d.nextHandle && d.Regs(s2)[h2].bindingCount == |d.Refs(s2, h2)|
    {
      assert core.Has(s2, h2);
    }
  }

  lemma DeregisterKeeps(s: State, t: Tid, side: Side, h: Handle)
    requires Inv(s)
    ensures Safe(DoDeregister(s, t, side, h))
  {
    if t !in s.threads && s.core.Has(side, h) && !s.core.Deregistering(side, h) {
      var s' := DoDeregister(s, t, side, h).state;
      DeactivateRefs(s.core, side, h);
      ThreadStarts(s, t, Deregistering(side, h), s');
      forall u | u in s.threads
        ensures Custody(s.threads[u]) != Some((side, h))
      {
        assert ThreadOk(s, u, s.threads[u]);
      }
      NewCustody(s, t, Deregistering(side, h), s');
    }
  }

  lemma WaitKeeps(s: State, t: Tid, side: Side, h: Handle)
    requires Inv(s)
    ensures Safe(DoWait(s, t, side, h))
  {
    if t !in s.threads && s.core.Has(side, h) && (side, h) in s.awaiting {
      var s' := DoWait(s, t, side, h).state;
      ThreadStarts(s, t, Removing(side, h, true), s');
      NewCustody(s, t, Removing(side, h, true), s');
    }
  }

  // ----- remove

  lemma RemoveRefs(core: Core, side: Side, h: Handle)
    requires RefsOk(core) && core.Has(side, h) && core.Regs(side)[h].bindingCount == 0
    ensures RefsOk(Remove(core, side, h))
    ensures forall s2: Side, h2: Handle :: Remove(core, side, h).Refs(s2, h2) == core.Refs(s2, h2)
    ensures forall s2: Side, h2: Handle | (s2, h2) != (side, h) ::
      Remove(core, side, h).Deregistering(s2, h2) == core.Deregistering(s2, h2)
    ensures forall s2: Side, h2: Handle :: Leaving(core, s2, h2) ==> Leaving(Remove(core, side, h), s2, h2)
  {
    var d := Remove(core, side, h);
    assert core.Refs(side, h) == {};
    forall s2: Side, h2: Handle
      ensures d.Refs(s2, h2) == core.Refs(s2, h2)
    {
      SameRefs(core, d, s2, h2);
    }
    forall b | b in d.live
      ensures d.PartiesRegistered(b)
    {
      assert core.PartiesRegistered(b);
      assert b !in core.Refs(side, h);
    }
    forall s2: Side, h2: Handle | d.Has(s2, h2)
      ensures h2 < d.nextHandle && d.Regs(s2)[h2].bindingCount == |d.Refs(s2, h2)|
    {
      assert core.Has(s2, h2);
    }
  }

  lemma RemoveThreads(s: State, t: Tid, th: Thread, s': State)
    requires ThreadsOk(s) && CustodyOk(s) && t in s.threads && th == s.threads[t] && th.Removing?
    requires s'.threads == s.threads - {t} && s'.traces == s.traces && s'.awaiting == s.awaiting
    requires s'.core == Remove(s.core, th.side, th.handle)
    requires forall s2: Side, h2: Handle :: s'.core.Refs(s2, h2) == s.core.Refs(s2, h2)
    requires forall s2: Side, h2: Handle | (s2, h2) != (th.side, th.handle) ::
      s'.core.Deregistering(s2, h2) == s.core.Deregistering(s2, h2)
    ensures ThreadsOk(s') && CustodyOk(s')
  {
    assert forall b :: Ph(s', b) == Ph(s, b);
    assert Custody(th) == Some((th.side, th.handle));
    forall u | u in s'.threads
      ensures ThreadOk(s', u, s'.threads[u])
    {
      assert Custody(s.threads[u]) != Custody(th);
      ThreadSurvives(s, s', u, s.threads[u]);
    }
  }

  lemma FinishRemoveKeeps(s: State, t: Tid, th: Thread)
    requires Inv(s) && t in s.threads && th == s.threads[t]
    ensures Safe(DoFinishRemove(s, t, th))
  {
    if th.Removing? {
      assert ThreadOk(s, t, th);
      if s.core.Regs(th.side)[th.handle].bindingCount == 0 {
        var s' := DoFinishRemove(s, t, th).state;
        RemoveRefs(s.core, th.side, th.handle);
        RemoveThreads(s, t, th, s');
        assert forall b :: Ph(s', b) == Ph(s, b);
        forall b | b in s'.core.objects && (Ph(s', b).Queued? || Ph(s', b).Attaching?)
          ensures Attends(s', Ph(s', b).thread, b)
        {
          assert Attends(s, Ph(s, b).thread, b);
        }
        assert UnbindsOk(s');
      }
    }
  }
}
