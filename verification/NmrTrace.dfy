/**
 What can happen to one binding, as the sequence of callbacks and critical sections that touch it.
 `PhaseOf` is the automaton these sequences must follow. `WellOrdered` says in terms of positions
 alone what that means for the client and the provider: nothing happens twice, and nothing is
 cleaned up before everything that may still use it has ended.
 */
module NmrTrace {
  import opened Options
  import opened NmrCore

  type Tid = nat

  datatype Event =
    | Created(thread: Tid, initiator: Side)
    | AttachCalled
    | AttachFailed
    | AttachReady(clientContext: bool, providerContext: bool)
    | UnbindBegun(thread: Tid)
    | DetachCalled(side: Side)
    | DetachSkipped(side: Side)
    | DetachReturned(side: Side, pending: bool)
    | Settled
    | DetachCompleted(side: Side, thread: Tid)
    | CleanedUp(side: Side)
    | Erased

  /** How far a thread is inside `begin_unbind`, between its two critical sections. */
  datatype DetachStep =
    | CallClient
    | InClient
    | CallProvider(clientPending: bool)
    | InProvider(clientPending: bool)
    | Settle(clientPending: bool, providerPending: bool)

  datatype Phase =
    | Nil
    | Queued(thread: Tid)
    | Attaching(thread: Tid)
    | Linked(clientContext: bool, providerContext: bool)
    | Detaching(thread: Tid, clientContext: bool, providerContext: bool, step: DetachStep)
    | Waiting(clientOpen: bool, providerOpen: bool)
    | Finishing(thread: Tid, attached: bool, cleaned: nat)
    | Closed(attached: bool)
    | Bad

  function DetachNext(ph: Phase, e: Event): Phase
    requires ph.Detaching?
  {
    match (ph.step, e)
    case (CallClient, DetachCalled(Client)) =>
      if ph.clientContext then ph.(step := InClient) else Bad
    case (CallClient, DetachSkipped(Client)) =>
      if ph.clientContext then Bad else ph.(step := CallProvider(false))
    case (InClient, DetachReturned(Client, pending)) => ph.(step := CallProvider(pending))
    case (CallProvider(c), DetachCalled(Provider)) =>
      if ph.providerContext then ph.(step := InProvider(c)) else Bad
    case (CallProvider(c), DetachSkipped(Provider)) =>
      if ph.providerContext then Bad else ph.(step := Settle(c, false))
    case (InProvider(c), DetachReturned(Provider, pending)) => ph.(step := Settle(c, pending))
    case (Settle(c, p), Settled) => if c || p then Waiting(c, p) else Finishing(ph.thread, true, 0)
    case _ => Bad
  }

  function PhaseNext(ph: Phase, e: Event): Phase {
    match (ph, e)
    case (Nil, Created(t, _)) => Queued(t)
    case (Queued(t), AttachCalled) => Attaching(t)
    case (Attaching(t), AttachFailed) => Finishing(t, false, 0)
    case (Attaching(t), AttachReady(c, p)) => Linked(c, p)
    case (Linked(c, p), UnbindBegun(t)) => Detaching(t, c, p, CallClient)
    case (Detaching(_, _, _, _), _) => DetachNext(ph, e)
    case (Waiting(c, p), DetachCompleted(Client, t)) =>
      if !c then Bad else if p then Waiting(false, true) else Finishing(t, true, 0)
    case (Waiting(c, p), DetachCompleted(Provider, t)) =>
      if !p then Bad else if c then Waiting(true, false) else Finishing(t, true, 0)
    case (Finishing(t, a, k), CleanedUp(Client)) => if k == 0 then Finishing(t, a, 1) else Bad
    case (Finishing(t, a, k), CleanedUp(Provider)) => if k <= 1 then Finishing(t, a, 2) else Bad
    case (Finishing(t, a, k), Erased) => Closed(a)
    case _ => Bad
  }

  function PhaseOf(trace: seq<Event>): Phase {
    if trace == [] then Nil else PhaseNext(PhaseOf(trace[..|trace| - 1]), trace[|trace| - 1])
  }

  lemma PhaseAppend(trace: seq<Event>, e: Event)
    ensures PhaseOf(trace + [e]) == PhaseNext(PhaseOf(trace), e)
  {
  }

  /** A legal sequence has only legal beginnings. */
  lemma {:induction false} LegalPrefix(trace: seq<Event>, k: nat)
    requires PhaseOf(trace) != Bad && k <= |trace|
    ensures PhaseOf(trace[..k]) != Bad
  {
    if k == |trace| {
      assert trace[..k] == trace;
    } else {
      LegalPrefix(trace[..|trace| - 1], k);
      assert trace[..|trace| - 1][..k] == trace[..k];
    }
  }

  // ----- what the automaton means

  /** The thread that is working on the binding, if any. */
  function Owner(ph: Phase): Option<Tid> {
    match ph
    case Queued(t) => Some(t)
    case Attaching(t) => Some(t)
    case Detaching(t, _, _, _) => Some(t)
    case Finishing(t, _, _) => Some(t)
    case _ => None
  }

  function StatusIn(ph: Phase, side: Side): Status {
    match ph
    case Linked(_, _) => Ready
    case Detaching(_, _, _, _) => BeginUnbind
    case Waiting(c, p) =>
      if (if side.Provider? then c else p) then UnbindPending else UnbindComplete
    case Finishing(_, a, _) => if a then UnbindComplete else Start
    case Closed(a) => if a then UnbindComplete else Start
    case _ => Start
  }

  /** Kinds of event: each may happen once to a binding. */
  function Kind(e: Event): nat {
    match e
    case Created(_, _) => 0
    case AttachCalled => 1
    case AttachFailed => 2
    case AttachReady(_, _) => 2
    case UnbindBegun(_) => 3
    case DetachCalled(s) => if s.Client? then 4 else 6
    case DetachSkipped(s) => if s.Client? then 4 else 6
    case DetachReturned(s, _) => if s.Client? then 5 else 7
    case Settled => 8
    case DetachCompleted(s, _) => if s.Client? then 9 else 10
    case CleanedUp(s) => if s.Client? then 11 else 12
    case Erased => 13
  }

  ghost predicate AtMostOnce(trace: seq<Event>) {
    forall i, j :: 0 <= i < j < |trace| ==> Kind(trace[i]) != Kind(trace[j])
  }

  /** `side`'s detach callback, if it was due, has returned, and if it returned pending then the
      completion routine has been called. */
  ghost predicate DetachOver(trace: seq<Event>, side: Side) {
    || DetachSkipped(side) in trace
    || DetachReturned(side, false) in trace
    || (DetachReturned(side, true) in trace && exists t :: DetachCompleted(side, t) in trace)
  }

  ghost predicate NothingOutstanding(trace: seq<Event>) {
    || AttachFailed in trace
    || (DetachOver(trace, Client) && DetachOver(trace, Provider))
  }

  ghost predicate Attached(trace: seq<Event>) {
    exists c, p :: AttachReady(c, p) in trace
  }

  /** Why event `e` may follow what has happened so far. */
  ghost predicate Justified(before: seq<Event>, e: Event) {
    match e
    case AttachCalled => exists t, s :: Created(t, s) in before
    case UnbindBegun(_) => Attached(before)
    case DetachCalled(_) => exists t :: UnbindBegun(t) in before
    case DetachReturned(s, _) => DetachCalled(s) in before
    case DetachCompleted(s, _) => DetachReturned(s, true) in before
    case CleanedUp(_) => NothingOutstanding(before)
    case Erased => NothingOutstanding(before)
    case _ => true
  }

  ghost predicate WellOrdered(trace: seq<Event>) {
    && AtMostOnce(trace)
    && forall k :: 0 <= k < |trace| ==> Justified(trace[..k], trace[k])
  }

  /** The kinds of event that may already have happened in a phase. */
  function Past(ph: Phase): set<nat> {
    match ph
    case Nil => {}
    case Queued(_) => {0}
    case Attaching(_) => {0, 1}
    case Linked(_, _) => {0, 1, 2}
    case Detaching(_, _, _, step) =>
      (match step
       case CallClient => {0, 1, 2, 3}
       case InClient => {0, 1, 2, 3, 4}
       case CallProvider(_) => {0, 1, 2, 3, 4, 5}
       case InProvider(_) => {0, 1, 2, 3, 4, 5, 6}
       case Settle(_, _) => {0, 1, 2, 3, 4, 5, 6, 7})
    case Waiting(c, p) =>
      {0, 1, 2, 3, 4, 5, 6, 7, 8} + (if c then {} else {9}) + (if p then {} else {10})
    case Finishing(_, _, k) =>
      {0, 1, 2, 3, 4, 5, 6, 7, 8, 9, 10} + (if k >= 1 then {11} else {}) + (if k >= 2 then {12} else {})
    case Closed(_) => {0, 1, 2, 3, 4, 5, 6, 7, 8, 9, 10, 11, 12, 13}
    case Bad => {}
  }

  lemma PastGrows(ph: Phase, e: Event)
    requires PhaseNext(ph, e) != Bad
    ensures Kind(e) !in Past(ph)
    ensures Kind(e) in Past(PhaseNext(ph, e))
    ensures Past(ph) <= Past(PhaseNext(ph, e))
  {
  }

  ghost predicate Covered(kinds: set<nat>, trace: seq<Event>) {
    forall i :: 0 <= i < |trace| ==> Kind(trace[i]) in kinds
  }

  lemma CoveredGrows(kinds: set<nat>, more: set<nat>, trace: seq<Event>, e: Event)
    requires Covered(kinds, trace) && AtMostOnce(trace)
    requires Kind(e) !in kinds && Kind(e) in more && kinds <= more
    ensures Covered(more, trace + [e]) && AtMostOnce(trace + [e])
  {
  }

  lemma {:induction false} PastCoversTrace(trace: seq<Event>)
    requires PhaseOf(trace) != Bad
    ensures Covered(Past(PhaseOf(trace)), trace) && AtMostOnce(trace)
  {
    if trace != [] {
      var n := |trace| - 1;
      var ph := PhaseOf(trace[..n]);
      PastCoversTrace(trace[..n]);
      PastGrows(ph, trace[n]);
      CoveredGrows(Past(ph), Past(PhaseNext(ph, trace[n])), trace[..n], trace[n]);
      assert trace[..n] + [trace[n]] == trace;
    }
  }

  /** What must have happened by the time a phase is reached. */
  ghost predicate Must(ph: Phase, trace: seq<Event>) {
    match ph
    case Queued(_) => exists t, s :: Created(t, s) in trace
    case Linked(_, _) => Attached(trace)
    case Detaching(_, _, _, step) =>
      && (exists t :: UnbindBegun(t) in trace)
      && (step.InClient? ==> DetachCalled(Client) in trace)
      && ((step.CallProvider? || step.InProvider? || step.Settle?) ==> Returned(trace, Client, step.clientPending))
      && (step.InProvider? ==> DetachCalled(Provider) in trace)
      && (step.Settle? ==> Returned(trace, Provider, step.providerPending))
    case Waiting(c, p) =>
      && (if c then DetachReturned(Client, true) in trace else DetachOver(trace, Client))
      && (if p then DetachReturned(Provider, true) in trace else DetachOver(trace, Provider))
    case Finishing(_, _, _) => NothingOutstanding(trace)
    case _ => true
  }

  ghost predicate Returned(trace: seq<Event>, side: Side, pending: bool) {
    DetachReturned(side, pending) in trace || (!pending && DetachSkipped(side) in trace)
  }

  lemma MustStep(ph: Phase, trace: seq<Event>, e: Event)
    requires Must(ph, trace) && PhaseNext(ph, e) != Bad
    ensures Justified(trace, e) && Must(PhaseNext(ph, e), trace + [e])
  {
  }

  /** Every legal sequence is well ordered: the reading of the automaton for the two parties. */
  lemma {:induction false} LegalIsWellOrdered(trace: seq<Event>)
    requires PhaseOf(trace) != Bad
    ensures WellOrdered(trace) && Must(PhaseOf(trace), trace)
  {
    PastCoversTrace(trace);
    if trace != [] {
      var n := |trace| - 1;
      LegalIsWellOrdered(trace[..n]);
      MustStep(PhaseOf(trace[..n]), trace[..n], trace[n]);
      assert trace[..n] + [trace[n]] == trace;
      forall k | 0 <= k < n
        ensures Justified(trace[..k], trace[k])
      {
        assert trace[..n][..k] == trace[..k] && trace[..n][k] == trace[k];
      }
    }
  }
}
