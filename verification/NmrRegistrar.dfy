/** The registrar object. Each method is what `nmr_t` does while it holds its lock, written as the
    program writes it, and is proved to be the corresponding function on NmrCore. */
module NmrRegistrar {
  import opened Options
  import opened NmrCore

  lemma BindAllSnoc(core: Core, side: Side, h: Handle, order: seq<Handle>, target: Handle, c1: Core, ids: seq<BindingId>)
    requires (c1, ids) == BindAll(core, side, h, order)
    ensures var c, p := ClientOf(side, h, target), ProviderOf(side, h, target);
      BindAll(core, side, h, order + [target])
      == if CanBind(c1, c, p) then (BindOne(c1, c, p), ids + [c1.nextBinding]) else (c1, ids)
  {
  }

  class Registrar {
    var clients: map<Handle, Registration>
    var providers: map<Handle, Registration>
    var objects: map<BindingId, Binding>
    var bindings: set<BindingId>
    var nextHandle: Handle
    var nextBinding: BindingId

    ghost function View(): Core
      reads this
    {
      Core(clients, providers, objects, bindings, nextHandle, nextBinding)
    }

    constructor ()
      ensures View() == EMPTY
    {
      clients, providers, objects, bindings := map[], map[], map[], {};
      nextHandle, nextBinding := 1, 0;
    }

    method Register(side: Side, npi: Option<int>, hasCleanup: bool) returns (h: Handle)
      modifies this
      ensures h == old(nextHandle) && View() == Add(old(View()), side, npi, hasCleanup)
    {
      h := nextHandle;
      nextHandle := nextHandle + 1;
      var registration := Registration(npi, hasCleanup, 0, false);
      if side.Client? {
        clients := clients[h := registration];
      } else {
        providers := providers[h := registration];
      }
    }

    /** False stands for the "invalid handle" exception, which leaves everything as it was. */
    method Deactivate(side: Side, h: Handle) returns (found: bool)
      modifies this
      ensures found == old(View()).Has(side, h)
      ensures View() == if found then NmrCore.Deactivate(old(View()), side, h) else old(View())
    {
      if side.Client? {
        found := h in clients;
        if found {
          clients := clients[h := clients[h].(deregistering := true)];
        }
      } else {
        found := h in providers;
        if found {
          providers := providers[h := providers[h].(deregistering := true)];
        }
      }
    }

    /** `bind`. */
    method TryBind(c: Handle, p: Handle) returns (made: Option<BindingId>)
      requires c in clients && p in providers
      modifies this
      ensures made.Some? == CanBind(old(View()), c, p)
      ensures made.Some? ==> made.value == old(nextBinding) && View() == BindOne(old(View()), c, p)
      ensures made.None? ==> View() == old(View())
    {
      var client, provider := clients[c], providers[p];
      if client.npi.None? || provider.npi.None? || client.npi != provider.npi {
        return None;
      }
      if client.deregistering || provider.deregistering {
        return None;
      }
      clients := clients[c := client.(bindingCount := client.bindingCount + 1)];
      providers := providers[p := provider.(bindingCount := provider.bindingCount + 1)];
      made := Some(nextBinding);
      objects := objects[nextBinding := Binding(c, p, Start, Start, false, false)];
      bindings := bindings + {nextBinding};
      nextBinding := nextBinding + 1;
    }

    /** One turn of the loop in `perform_bind`. */
    method OfferTarget(side: Side, h: Handle, target: Handle, actions: seq<BindingId>, ghost start: Core,
                       ghost order: seq<Handle>) returns (more: seq<BindingId>)
      requires ClientOf(side, h, target) in clients && ProviderOf(side, h, target) in providers
      requires (View(), actions) == BindAll(start, side, h, order)
      modifies this
      ensures (View(), more) == BindAll(start, side, h, order + [target])
      ensures clients.Keys == old(clients).Keys && providers.Keys == old(providers).Keys
    {
      BindAllSnoc(start, side, h, order, target, View(), actions);
      var made := TryBind(ClientOf(side, h, target), ProviderOf(side, h, target));
      more := if made.Some? then actions + [made.value] else actions;
    }

    /** The locked part of `perform_bind`: offers every registration of the other side to `bind`. */
    method PerformBind(side: Side, h: Handle) returns (found: bool, actions: seq<BindingId>, ghost order: seq<Handle>)
      modifies this
      ensures found == old(View()).Has(side, h)
      ensures !found ==> View() == old(View())
      ensures found ==>
        && Enumerates(order, old(View()).Regs(side.Other()).Keys)
        && (View(), actions) == BindAll(old(View()), side, h, order)
    {
      found := if side.Client? then h in clients else h in providers;
      actions, order := [], [];
      if !found {
        return;
      }
      ghost var start := View();
      var targets := if side.Client? then providers.Keys else clients.Keys;
      ghost var all := targets;
      while targets != {}
        invariant targets <= all && all == start.Regs(side.Other()).Keys
        invariant forall x :: x in order <==> x in all && x !in targets
        invariant forall i, j :: 0 <= i < j < |order| ==> order[i] != order[j]
        invariant clients.Keys == start.clients.Keys && providers.Keys == start.providers.Keys
        invariant (View(), actions) == BindAll(start, side, h, order)
        decreases |targets|
      {
        var target :| target in targets;
        targets := targets - {target};
        actions := OfferTarget(side, h, target, actions, start, order);
        order := order + [target];
      }
    }

    /** The locked part of `perform_unbind`. */
    method CollectBindings(side: Side, h: Handle) returns (found: bool, toUnbind: seq<BindingId>)
      requires bindings <= objects.Keys
      ensures found == View().Has(side, h)
      ensures found ==> Enumerates(toUnbind, View().Refs(side, h))
    {
      found := if side.Client? then h in clients else h in providers;
      toUnbind := [];
      if !found {
        return;
      }
      var rest := bindings;
      while rest != {}
        invariant rest <= bindings
        invariant forall b :: b in toUnbind <==> b in View().Refs(side, h) && b !in rest
        invariant forall i, j :: 0 <= i < j < |toUnbind| ==> toUnbind[i] != toUnbind[j]
        decreases |rest|
      {
        var b :| b in rest;
        rest := rest - {b};
        if objects[b].Party(side) == h {
          toUnbind := toUnbind + [b];
        }
      }
    }

    /** First critical section of `begin_unbind`. */
    method TryBeginUnbind(b: BindingId) returns (started: bool)
      requires b in objects
      modifies this`objects
      ensures started == CanBeginUnbind(old(objects[b]))
      ensures objects == if started then old(objects)[b := MarkBeginUnbind(old(objects[b]))] else old(objects)
    {
      var o := objects[b];
      if !o.clientStatus.Ready? || !o.providerStatus.Ready? {
        return false;
      }
      objects := objects[b := o.(clientStatus := BeginUnbind, providerStatus := BeginUnbind)];
      started := true;
    }

    /** Second critical section of `begin_unbind`. */
    method FinishBeginUnbind(b: BindingId, clientPending: bool, providerPending: bool) returns (complete: bool)
      requires b in objects
      modifies this`objects
      ensures objects == old(objects)[b := SettleUnbind(old(objects[b]), clientPending, providerPending)]
      ensures complete == UnbindFinished(objects[b])
    {
      var o := objects[b];
      if clientPending && !o.providerStatus.UnbindComplete? {
        o := o.(providerStatus := UnbindPending);
      } else {
        o := o.(providerStatus := UnbindComplete);
      }
      if providerPending && !o.clientStatus.UnbindComplete? {
        o := o.(clientStatus := UnbindPending);
      } else {
        o := o.(clientStatus := UnbindComplete);
      }
      objects := objects[b := o];
      complete := o.clientStatus.UnbindComplete? && o.providerStatus.UnbindComplete?;
    }

    /** `binding_detach_client_complete` for Client, `binding_detach_provider_complete` for Provider.
        `asserts` is the failure of the assertion, which need not be compiled in. */
    method BindingDetachComplete(b: BindingId, side: Side) returns (found: bool, asserts: bool, complete: bool)
      requires bindings <= objects.Keys
      modifies this`objects
      ensures found == (b in bindings)
      ensures asserts == (found && !old(objects[b]).StatusOf(side).UnbindPending?)
      ensures objects == if found then old(objects)[b := MarkDetachComplete(old(objects[b]), side)] else old(objects)
      ensures complete == (found && UnbindFinished(objects[b]))
    {
      found, asserts, complete := b in bindings, false, false;
      if found {
        asserts := objects[b].StatusOf(side) != UnbindPending;
        var o := objects[b].WithStatus(side, UnbindComplete);
        objects := objects[b := o];
        complete := o.StatusOf(side.Other()).UnbindComplete?;
      }
    }

    /** `unbind_complete`; the results say which cleanup callbacks it makes. */
    method CompleteUnbind(b: BindingId) returns (clientCleanup: bool, providerCleanup: bool)
      requires View().PartiesRegistered(b)
      modifies this
      ensures View() == Erase(old(View()), b)
      ensures clientCleanup == CallsCleanup(old(View()), b, Client)
      ensures providerCleanup == CallsCleanup(old(View()), b, Provider)
    {
      var o := objects[b];
      var client, provider := clients[o.client], providers[o.provider];
      clientCleanup := client.hasCleanup && o.clientContext;
      providerCleanup := provider.hasCleanup && o.providerContext;
      providers := providers[o.provider := provider.(bindingCount := provider.bindingCount - 1)];
      clients := clients[o.client := client.(bindingCount := client.bindingCount - 1)];
      bindings := bindings - {b};
    }

    /** `remove`, when it gets to look at the count: nothing happens while it is not zero. */
    method TryRemove(side: Side, h: Handle) returns (found: bool, removed: bool)
      modifies this
      ensures found == old(View()).Has(side, h)
      ensures removed == (found && old(View()).Regs(side)[h].bindingCount == 0)
      ensures View() == if removed then Remove(old(View()), side, h) else old(View())
    {
      removed := false;
      if side.Client? {
        found := h in clients;
        if found && clients[h].bindingCount == 0 {
          clients := clients - {h};
          removed := true;
        }
      } else {
        found := h in providers;
        if found && providers[h].bindingCount == 0 {
          providers := providers - {h};
          removed := true;
        }
      }
    }
  }
}
