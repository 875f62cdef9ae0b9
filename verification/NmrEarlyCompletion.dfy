/**
 One binding's unbind with the assertions of `binding_detach_client_complete` and
 `binding_detach_provider_complete` compiled out: a pending detach may be completed as soon as its
 callback has been called, before `begin_unbind` takes the lock again. The critical sections are
 those of NmrCore. The second critical section keeps one early completion; two of them make
 `unbind_complete` run twice.
 */
module NmrEarlyCompletion {
  import opened Options
  import opened NmrCore

  /** Where the thread in `begin_unbind` is. */
  datatype Pc = BeforeClient | InClient | BeforeProvider | InProvider | BeforeSettle | Past

  /** `clientPending` and `providerPending` say whether that side's detach callback returns pending.
      `finishing` counts the threads that have decided to run `unbind_complete`, `erased` the times
      it has run, `early` the completions that came before the second critical section. */
  datatype Race = Race(
    o: Binding, pc: Pc,
    clientPending: bool, providerPending: bool,
    clientDone: bool, providerDone: bool,
    finishing: nat, erased: nat, early: nat)

  datatype Step = Advance | CompleteDetach(side: Side) | RunUnbindComplete

  function Begin(o: Binding, clientPending: bool, providerPending: bool): Race {
    Race(MarkBeginUnbind(o), BeforeClient, clientPending, providerPending, false, false, 0, 0, 0)
  }

  function Advanced(r: Race): Race {
    match r.pc
    case BeforeClient => r.(pc := InClient)
    case InClient => r.(pc := BeforeProvider)
    case BeforeProvider => r.(pc := InProvider)
    case InProvider => r.(pc := BeforeSettle)
    case BeforeSettle =>
      var o := SettleUnbind(r.o, r.clientPending, r.providerPending);
      r.(o := o, pc := Past, finishing := r.finishing + (if UnbindFinished(o) then 1 else 0))
    case Past => r
  }

  predicate Called(r: Race, side: Side) {
    !r.pc.BeforeClient? && (side.Provider? ==> !r.pc.InClient? && !r.pc.BeforeProvider?)
  }

  predicate Owes(r: Race, side: Side) {
    if side.Client? then r.clientPending && !r.clientDone else r.providerPending && !r.providerDone
  }

  function Completed(r: Race, side: Side): Race {
    var o := MarkDetachComplete(r.o, side.Other());
    r.(o := o,
       clientDone := r.clientDone || side.Client?,
       providerDone := r.providerDone || side.Provider?,
       finishing := r.finishing + (if UnbindFinished(o) then 1 else 0),
       early := r.early + (if r.pc.Past? then 0 else 1))
  }

  /** The parties' contract: each pending detach is completed once, after its callback was called. */
  function Next(r: Race, step: Step): Option<Race> {
    match step
    case Advance => if r.pc.Past? then None else Some(Advanced(r))
    case CompleteDetach(side) => if Called(r, side) && Owes(r, side) then Some(Completed(r, side)) else None
    case RunUnbindComplete =>
      if r.finishing == 0 then None else Some(r.(finishing := r.finishing - 1, erased := r.erased + 1))
  }

  function RunSteps(r: Race, steps: seq<Step>): Option<Race> {
    if steps == [] then Some(r)
    else
      var before := RunSteps(r, steps[..|steps| - 1]);
      if before.Some? then Next(before.value, steps[|steps| - 1]) else None
  }

  /** Both sides have finished and no thread has anything left to do. */
  predicate Over(r: Race) {
    r.pc.Past? && r.finishing == 0 && !Owes(r, Client) && !Owes(r, Provider)
  }

  predicate EarlyStatus(r: Race, side: Side, done: bool) {
    r.o.StatusOf(side.Other()) == if done then UnbindComplete else BeginUnbind
  }

  predicate LateStatus(r: Race, side: Side) {
    r.o.StatusOf(side.Other()) == if Owes(r, side) then UnbindPending else UnbindComplete
  }

  predicate RaceOk(r: Race) {
    && (r.clientDone ==> r.clientPending && Called(r, Client))
    && (r.providerDone ==> r.providerPending && Called(r, Provider))
    && r.early <= (if r.clientDone then 1 else 0) + (if r.providerDone then 1 else 0)
    && (if r.pc.Past? then
          && LateStatus(r, Client) && LateStatus(r, Provider)
          && r.finishing + r.erased ==
             (if Owes(r, Client) || Owes(r, Provider) then 0 else 1) + (if r.early == 2 then 1 else 0)
        else
          && EarlyStatus(r, Client, r.clientDone) && EarlyStatus(r, Provider, r.providerDone)
          && r.early == (if r.clientDone then 1 else 0) + (if r.providerDone then 1 else 0)
          && r.finishing + r.erased == (if r.early == 2 then 1 else 0))
  }

  lemma NextKeeps(r: Race, step: Step)
    requires RaceOk(r) && Next(r, step).Some?
    ensures RaceOk(Next(r, step).value)
  {
  }

  lemma {:induction false} RaceRuns(o: Binding, clientPending: bool, providerPending: bool, steps: seq<Step>)
    requires RunSteps(Begin(o, clientPending, providerPending), steps).Some?
    ensures RaceOk(RunSteps(Begin(o, clientPending, providerPending), steps).value)
  {
    if steps != [] {
      var n := |steps| - 1;
      RaceRuns(o, clientPending, providerPending, steps[..n]);
      NextKeeps(RunSteps(Begin(o, clientPending, providerPending), steps[..n]).value, steps[n]);
    }
  }

  /** When an unbind is over, `unbind_complete` has run exactly once if and only if at most one
      completion came before the second critical section; if both did, it has run twice. */
  lemma EarlyCompletionIsNeverLost(o: Binding, clientPending: bool, providerPending: bool, steps: seq<Step>)
    requires RunSteps(Begin(o, clientPending, providerPending), steps).Some?
    requires Over(RunSteps(Begin(o, clientPending, providerPending), steps).value)
    ensures var r := RunSteps(Begin(o, clientPending, providerPending), steps).value;
      && (r.erased == 1 <==> r.early <= 1)
      && (r.erased == 2 <==> r.early == 2)
  {
    RaceRuns(o, clientPending, providerPending, steps);
  }

  /** The double run is real: both sides answer pending and complete before the lock is retaken. */
  lemma BothEarlyErasesTwice(o: Binding)
    ensures var steps := [Advance, CompleteDetach(Client), Advance, Advance, CompleteDetach(Provider),
                          RunUnbindComplete, Advance, Advance, RunUnbindComplete];
      var r := RunSteps(Begin(o, true, true), steps);
      r.Some? && Over(r.value) && r.value.erased == 2
  {
    var r5, s5 := BothComplete(o);
    var r6, s6 := StepTo(o, r5, s5, RunUnbindComplete);
    var r7, s7 := StepTo(o, r6, s6, Advance);
    var r8, s8 := StepTo(o, r7, s7, Advance);
    var r9, s9 := StepTo(o, r8, s8, RunUnbindComplete);
    assert s9 == [Advance, CompleteDetach(Client), Advance, Advance, CompleteDetach(Provider),
                  RunUnbindComplete, Advance, Advance, RunUnbindComplete];
  }

  lemma BothComplete(o: Binding) returns (r: Race, steps: seq<Step>)
    ensures steps == [Advance, CompleteDetach(Client), Advance, Advance, CompleteDetach(Provider)]
    ensures RunSteps(Begin(o, true, true), steps) == Some(r)
    ensures r == Race(MarkDetachComplete(MarkDetachComplete(MarkBeginUnbind(o), Provider), Client), InProvider,
                      true, true, true, true, 1, 0, 2)
  {
    var r1, s1 := StepTo(o, Begin(o, true, true), [], Advance);
    var r2, s2 := StepTo(o, r1, s1, CompleteDetach(Client));
    var r3, s3 := StepTo(o, r2, s2, Advance);
    var r4, s4 := StepTo(o, r3, s3, Advance);
    r, steps := StepTo(o, r4, s4, CompleteDetach(Provider));
  }

  lemma StepTo(o: Binding, r: Race, steps: seq<Step>, step: Step) returns (q: Race, longer: seq<Step>)
    requires RunSteps(Begin(o, true, true), steps) == Some(r) && Next(r, step).Some?
    ensures longer == steps + [step] && RunSteps(Begin(o, true, true), longer) == Some(q) && q == Next(r, step).value
  {
    q, longer := Next(r, step).value, steps + [step];
    assert longer[..|steps|] == steps;
  }
}
