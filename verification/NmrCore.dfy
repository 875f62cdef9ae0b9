/**
 The state that the Network Module Registrar's lock protects, and what each of its critical
 sections does to that state (`src/nmr_impl.h`, `src/nmr_impl.cpp`).

 Binding objects are reference counted in the program, so a thread may still look at one after it
 has left the `bindings` map. `objects` holds every binding object ever made, `live` the ones in
 the map. A binding's identity is a number that is never used twice.
 */
module NmrCore {
  import opened Options

  type Handle = nat
  type BindingId = nat

  datatype Side = Client | Provider {
    function Other(): Side {
      if Client? then Provider else Client
    }
  }

  datatype Status = Start | Ready | BeginUnbind | UnbindPending | UnbindComplete {
    function Rank(): nat {
      match this
      case Start => 0
      case Ready => 1
      case BeginUnbind => 2
      case UnbindPending => 3
      case UnbindComplete => 4
    }
  }

  /** A client or provider registration. `npi` is None when the NpiId pointer is null, and
      `hasCleanup` says whether a cleanup callback was supplied. */
  datatype Registration = Registration(npi: Option<int>, hasCleanup: bool, bindingCount: int, deregistering: bool)

  /** A binding. A context flag says whether that side's binding context is non-null. */
  datatype Binding = Binding(
    client: Handle, provider: Handle,
    clientStatus: Status, providerStatus: Status,
    clientContext: bool, providerContext: bool)
  {
    function Party(side: Side): Handle {
      if side.Client? then client else provider
    }

    function StatusOf(side: Side): Status {
      if side.Client? then clientStatus else providerStatus
    }

    function Context(side: Side): bool {
      if side.Client? then clientContext else providerContext
    }

    function WithStatus(side: Side, status: Status): Binding {
      if side.Client? then this.(clientStatus := status) else this.(providerStatus := status)
    }
  }

  datatype Core = Core(
    clients: map<Handle, Registration>,
    providers: map<Handle, Registration>,
    objects: map<BindingId, Binding>,
    live: set<BindingId>,
    nextHandle: Handle,
    nextBinding: BindingId)
  {
    function Regs(side: Side): map<Handle, Registration> {
      if side.Client? then clients else providers
    }

    function WithRegs(side: Side, regs: map<Handle, Registration>): Core {
      if side.Client? then this.(clients := regs) else this.(providers := regs)
    }

    predicate Has(side: Side, h: Handle) {
      h in Regs(side)
    }

    predicate Deregistering(side: Side, h: Handle) {
      Has(side, h) && Regs(side)[h].deregistering
    }

    /** The bindings in the map that refer to registration `h`. */
    function Refs(side: Side, h: Handle): set<BindingId> {
      set b | b in live && b in objects && objects[b].Party(side) == h
    }

    predicate PartiesRegistered(b: BindingId) {
      b in objects && Has(Client, objects[b].client) && Has(Provider, objects[b].provider)
    }
  }

  const EMPTY := Core(map[], map[], map[], {}, 1, 0)

  // ----- the critical sections

  function AdjustCount(regs: map<Handle, Registration>, h: Handle, delta: int): map<Handle, Registration>
    requires h in regs
  {
    regs[h := regs[h].(bindingCount := regs[h].bindingCount + delta)]
  }

  function Add(core: Core, side: Side, npi: Option<int>, hasCleanup: bool): Core {
    core.WithRegs(side, core.Regs(side)[core.nextHandle := Registration(npi, hasCleanup, 0, false)])
    .(nextHandle := core.nextHandle + 1)
  }

  function Deactivate(core: Core, side: Side, h: Handle): Core
    requires core.Has(side, h)
  {
    core.WithRegs(side, core.Regs(side)[h := core.Regs(side)[h].(deregistering := true)])
  }

  function Remove(core: Core, side: Side, h: Handle): Core {
    core.WithRegs(side, core.Regs(side) - {h})
  }

  predicate CanBind(core: Core, c: Handle, p: Handle) {
    && c in core.clients
    && p in core.providers
    && core.clients[c].npi.Some?
    && core.clients[c].npi == core.providers[p].npi
    && !core.clients[c].deregistering
    && !core.providers[p].deregistering
  }

  /** `bind`: takes a reference on both registrations and puts a fresh binding in the map. */
  function BindOne(core: Core, c: Handle, p: Handle): Core
    requires CanBind(core, c, p)
  {
    core.(clients := AdjustCount(core.clients, c, 1),
          providers := AdjustCount(core.providers, p, 1),
          objects := core.objects[core.nextBinding := Binding(c, p, Start, Start, false, false)],
          live := core.live + {core.nextBinding},
          nextBinding := core.nextBinding + 1)
  }

  function ClientOf(side: Side, h: Handle, target: Handle): Handle {
    if side.Client? then h else target
  }

  function ProviderOf(side: Side, h: Handle, target: Handle): Handle {
    if side.Client? then target else h
  }

  /** The locked loop of `perform_bind` for initiator `h`: the new state and the bindings made. */
  function BindAll(core: Core, side: Side, h: Handle, targets: seq<Handle>): (Core, seq<BindingId>) {
    if targets == [] then (core, [])
    else
      var (c1, ids) := BindAll(core, side, h, targets[..|targets| - 1]);
      var target := targets[|targets| - 1];
      var c, p := ClientOf(side, h, target), ProviderOf(side, h, target);
      if CanBind(c1, c, p) then (BindOne(c1, c, p), ids + [c1.nextBinding]) else (c1, ids)
  }

  /** `unbind_complete`, apart from the cleanup callbacks it makes. */
  function Erase(core: Core, b: BindingId): Core
    requires core.PartiesRegistered(b)
  {
    core.(clients := AdjustCount(core.clients, core.objects[b].client, -1),
          providers := AdjustCount(core.providers, core.objects[b].provider, -1),
          live := core.live - {b})
  }

  /** Whether `unbind_complete` calls this side's cleanup callback. */
  predicate CallsCleanup(core: Core, b: BindingId, side: Side)
    requires core.PartiesRegistered(b)
  {
    core.Regs(side)[core.objects[b].Party(side)].hasCleanup && core.objects[b].Context(side)
  }

  // ----- the critical sections that touch one binding only

  function MarkReady(o: Binding): Binding {
    o.(clientStatus := Ready, providerStatus := Ready)
  }

  /** First critical section of `begin_unbind`. */
  predicate CanBeginUnbind(o: Binding) {
    o.clientStatus.Ready? && o.providerStatus.Ready?
  }

  function MarkBeginUnbind(o: Binding): Binding {
    o.(clientStatus := BeginUnbind, providerStatus := BeginUnbind)
  }

  /** Second critical section of `begin_unbind`: the outcome of the client's detach goes to the
      provider status and the other way round, and a completion that came early is kept. */
  function SettleUnbind(o: Binding, clientPending: bool, providerPending: bool): Binding {
    o.(providerStatus :=
         if clientPending && !o.providerStatus.UnbindComplete? then UnbindPending else UnbindComplete,
       clientStatus :=
         if providerPending && !o.clientStatus.UnbindComplete? then UnbindPending else UnbindComplete)
  }

  predicate UnbindFinished(o: Binding) {
    o.clientStatus.UnbindComplete? && o.providerStatus.UnbindComplete?
  }

  /** `binding_detach_client_complete` and `binding_detach_provider_complete`. */
  function MarkDetachComplete(o: Binding, side: Side): Binding {
    o.WithStatus(side, UnbindComplete)
  }

  ghost predicate Enumerates<T(!new)>(order: seq<T>, elements: set<T>) {
    && (forall i, j :: 0 <= i < j < |order| ==> order[i] != order[j])
    && (forall x :: x in order <==> x in elements)
  }
}
