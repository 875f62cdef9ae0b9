/** Rundown protection (`rundown_winuser.cpp`): a table from context addresses to a rundown flag and
    a reference count, used by any number of threads. */
module Rundown {
  import opened Options

  type Context = nat
  type Tid = nat

  datatype Entry = Entry(rundown: bool, refCount: nat)

  type Table = map<Context, Entry>

  datatype Error = NotInitialized | NotRunDown | Corrupted | AlreadyReleased

  datatype Result<+T> = Success(value: T) | Failure(error: Error)

  function Initialize(table: Table, c: Context): Table {
    table[c := Entry(false, 0)]
  }

  function Reinitialize(table: Table, c: Context): Result<Table> {
    if c !in table then Failure(NotInitialized)
    else if !table[c].rundown then Failure(NotRunDown)
    else if table[c].refCount != 0 then Failure(Corrupted)
    else Success(table[c := Entry(false, 0)])
  }

  /** The boolean is the result of the call. */
  function Acquire(table: Table, c: Context): Result<(Table, bool)> {
    if c !in table then Failure(NotInitialized)
    else if table[c].rundown then Success((table, false))
    else Success((table[c := table[c].(refCount := table[c].refCount + 1)], true))
  }

  function Release(table: Table, c: Context): Result<Table> {
    if c !in table then Failure(NotInitialized)
    else if table[c].refCount == 0 then Failure(AlreadyReleased)
    else Success(table[c := table[c].(refCount := table[c].refCount - 1)])
  }

  /** The first half of the wait; the second half waits for the count to be zero. */
  function BeginWait(table: Table, c: Context): Result<Table> {
    if c !in table then Failure(NotInitialized)
    else Success(table[c := table[c].(rundown := true)])
  }

  /** `_rundown_ref_table`. A failure is the exception that the method throws. */
  class RundownRefTable {
    var counts: map<Context, Entry>

    constructor ()
      ensures counts == map[]
    {
      counts := map[];
    }

    method InitializeRundownRef(c: Context)
      modifies this
      ensures counts == Initialize(old(counts), c)
    {
      if c in counts {
        counts := counts - {c};
      }
      counts := counts[c := Entry(false, 0)];
    }

    method ReinitializeRundownRef(c: Context) returns (r: Result<bool>)
      modifies this
      ensures match Reinitialize(old(counts), c)
              case Success(table) => r == Success(true) && counts == table
              case Failure(e) => r == Failure(e) && counts == old(counts)
    {
      if c !in counts {
        return Failure(NotInitialized);
      }
      var entry := counts[c];
      if !entry.rundown {
        return Failure(NotRunDown);
      }
      if entry.refCount != 0 {
        return Failure(Corrupted);
      }
      counts := counts[c := entry.(rundown := false)];
      r := Success(true);
    }

    method AcquireRundownRef(c: Context) returns (r: Result<bool>)
      modifies this
      ensures match Acquire(old(counts), c)
              case Success((table, acquired)) => r == Success(acquired) && counts == table
              case Failure(e) => r == Failure(e) && counts == old(counts)
    {
      if c !in counts {
        return Failure(NotInitialized);
      }
      if counts[c].rundown {
        return Success(false);
      }
      counts := counts[c := counts[c].(refCount := counts[c].refCount + 1)];
      r := Success(true);
    }

    /** True: the count has reached zero and the waiters are notified. */
    method ReleaseRundownRef(c: Context) returns (r: Result<bool>)
      modifies this
      ensures match Release(old(counts), c)
              case Success(table) => counts == table && r == Success(table[c].refCount == 0)
              case Failure(e) => r == Failure(e) && counts == old(counts)
    {
      if c !in counts {
        return Failure(NotInitialized);
      }
      if counts[c].refCount == 0 {
        return Failure(AlreadyReleased);
      }
      counts := counts[c := counts[c].(refCount := counts[c].refCount - 1)];
      r := Success(counts[c].refCount == 0);
    }

    method BeginWaitForRundownRef(c: Context) returns (r: Result<bool>)
      modifies this
      ensures match BeginWait(old(counts), c)
              case Success(table) => counts == table && r == Success(table[c].refCount == 0)
              case Failure(e) => r == Failure(e) && counts == old(counts)
    {
      if c !in counts {
        return Failure(NotInitialized);
      }
      counts := counts[c := counts[c].(rundown := true)];
      r := Success(counts[c].refCount == 0);
    }
  }

  // ----- runs

  /** `waiting` says which context each waiting thread waits for, `overtaken` which of these threads were
      still waiting when their context was re-initialized. `acquired` and `released` count the
      successful calls on each context since it was initialized. */
  datatype State = State(
    table: Table, waiting: map<Tid, Context>, overtaken: set<Tid>, acquired: map<Context, nat>, released: map<Context, nat>)

  const INIT := State(map[], map[], {}, map[], map[])

  datatype Action =
    | DoInitialize(c: Context)
    | DoReinitialize(c: Context)
    | DoAcquire(c: Context)
    | DoRelease(c: Context)
    | WaitBegins(t: Tid, c: Context)
    | WaitReturns(t: Tid)

  function Waiters(s: State, c: Context): set<Tid> {
    set t | t in s.waiting && s.waiting[t] == c
  }

  /** A call that throws changes nothing. Initializing a context erases the entry that its waiters still
      refer to, so it is not done while there are any; re-initializing it keeps the entry. */
  function Exec(s: State, a: Action): Option<State> {
    match a
    case DoInitialize(c) =>
      if Waiters(s, c) != {} then None
      else Some(s.(table := Initialize(s.table, c), acquired := s.acquired[c := 0], released := s.released[c := 0]))
    case DoReinitialize(c) =>
      (match Reinitialize(s.table, c)
       case Success(table) =>
         Some(s.(table := table, overtaken := s.overtaken + Waiters(s, c),
                 acquired := s.acquired[c := 0], released := s.released[c := 0]))
       case Failure(_) => Some(s))
    case DoAcquire(c) =>
      (match Acquire(s.table, c)
       case Success((table, acquired)) =>
         Some(s.(table := table, acquired := if acquired then Bump(s.acquired, c) else s.acquired))
       case Failure(_) => Some(s))
    case DoRelease(c) =>
      (match Release(s.table, c)
       case Success(table) => Some(s.(table := table, released := Bump(s.released, c)))
       case Failure(_) => Some(s))
    case WaitBegins(t, c) =>
      if t in s.waiting then None
      else
        (match BeginWait(s.table, c)
         case Success(table) => Some(s.(table := table, waiting := s.waiting[t := c], overtaken := s.overtaken - {t}))
         case Failure(_) => Some(s))
    case WaitReturns(t) =>
      if t in s.waiting && s.waiting[t] in s.table && s.table[s.waiting[t]].refCount == 0
      then Some(s.(waiting := s.waiting - {t}, overtaken := s.overtaken - {t}))
      else None
  }

  function Bump(counts: map<Context, nat>, c: Context): map<Context, nat> {
    counts[c := (if c in counts then counts[c] else 0) + 1]
  }

  function Run(s: State, actions: seq<Action>): Option<State> {
    if actions == [] then Some(s)
    else
      var before := Run(s, actions[..|actions| - 1]);
      if before.Some? then Exec(before.value, actions[|actions| - 1]) else None
  }

  ghost predicate Inv(s: State) {
    && s.acquired.Keys == s.table.Keys && s.released.Keys == s.table.Keys
    && (forall c :: c in s.table ==> s.acquired[c] == s.released[c] + s.table[c].refCount)
    && (forall t :: t in s.waiting ==> s.waiting[t] in s.table)
    && (forall t :: t in s.waiting && t !in s.overtaken ==> s.table[s.waiting[t]].rundown)
  }

  lemma ExecKeeps(s: State, a: Action)
    requires Inv(s) && Exec(s, a).Some?
    ensures Inv(Exec(s, a).value)
  {
    if a.DoInitialize? || a.DoReinitialize? {
      assert forall t :: t in s.waiting && s.waiting[t] == a.c ==> t in Waiters(s, a.c);
    }
  }

  lemma {:induction false} RunKeeps(actions: seq<Action>)
    requires Run(INIT, actions).Some?
    ensures Inv(Run(INIT, actions).value)
  {
    if actions != [] {
      RunKeeps(actions[..|actions| - 1]);
      ExecKeeps(Run(INIT, actions[..|actions| - 1]).value, actions[|actions| - 1]);
    }
  }

  /** In every run the count of a context is its successful acquires minus its releases since it was
      initialized; when a wait returns nobody holds the context, and it is run down unless it was
      re-initialized before the waiter woke. */
  lemma CountIsHolders(actions: seq<Action>, c: Context)
    requires Run(INIT, actions).Some? && c in Run(INIT, actions).value.table
    ensures var s := Run(INIT, actions).value;
      c in s.acquired && c in s.released && s.table[c].refCount + s.released[c] == s.acquired[c]
    ensures var s := Run(INIT, actions).value;
      forall t :: t in s.waiting && s.waiting[t] == c ==>
        && (Exec(s, WaitReturns(t)).Some? <==> s.acquired[c] == s.released[c])
        && (t !in s.overtaken ==> s.table[c].rundown)
  {
    RunKeeps(actions);
  }

  // ----- what the calls so far say

  /** Action `a` opens the context for acquires: it initializes it, or re-initializes it after a finished
      rundown. */
  predicate Opens(s: State, a: Action, c: Context) {
    || a == DoInitialize(c)
    || (a == DoReinitialize(c) && c in s.table && s.table[c].rundown && s.table[c].refCount == 0)
  }

  /** No wait on the context has begun since it was last opened. */
  predicate OpenNow(actions: seq<Action>, c: Context) {
    actions != [] &&
    var n := |actions| - 1;
    if Run(INIT, actions[..n]).Some? && Opens(Run(INIT, actions[..n]).value, actions[n], c) then true
    else if actions[n].WaitBegins? && actions[n].c == c then false
    else OpenNow(actions[..n], c)
  }

  lemma {:induction false} KnownIsInitialized(actions: seq<Action>, c: Context)
    requires Run(INIT, actions).Some?
    ensures c in Run(INIT, actions).value.table <==> DoInitialize(c) in actions
  {
    if actions != [] {
      var n := |actions| - 1;
      KnownIsInitialized(actions[..n], c);
      KnownStep(Run(INIT, actions[..n]).value, actions[n], c);
      assert actions == actions[..n] + [actions[n]];
    }
  }

  lemma KnownStep(s: State, a: Action, c: Context)
    requires Exec(s, a).Some?
    ensures c in Exec(s, a).value.table <==> c in s.table || a == DoInitialize(c)
  {
  }

  lemma OpenStep(s: State, a: Action, c: Context)
    requires Exec(s, a).Some? && c in s.table
    ensures var s' := Exec(s, a).value;
      && c in s'.table
      && (!s'.table[c].rundown <==>
            Opens(s, a, c) || (!(a.WaitBegins? && a.c == c) && !s.table[c].rundown))
  {
  }

  /** The references taken and not given back since the context was last opened. */
  function HeldNow(actions: seq<Action>, c: Context): nat {
    if actions == [] then 0
    else
      var n := |actions| - 1;
      var before := HeldNow(actions[..n], c);
      if Run(INIT, actions[..n]).Some? && Opens(Run(INIT, actions[..n]).value, actions[n], c) then 0
      else if actions[n] == DoAcquire(c) && OpenNow(actions[..n], c) then before + 1
      else if actions[n] == DoRelease(c) && before > 0 then before - 1
      else before
  }

  /** In every run the count is the number of references held, as the calls tell it. */
  lemma {:induction false} CountIsHeld(actions: seq<Action>, c: Context)
    requires Run(INIT, actions).Some?
    ensures var s := Run(INIT, actions).value;
      HeldNow(actions, c) == if c in s.table then s.table[c].refCount else 0
  {
    if actions != [] {
      var n := |actions| - 1;
      var s := Run(INIT, actions[..n]).value;
      CountIsHeld(actions[..n], c);
      KnownStep(s, actions[n], c);
      if c in s.table {
        OpenIsNotRunDown(actions[..n], c);
        HeldStep(s, actions[n], c);
      } else {
        NothingOpen(actions[..n], c);
      }
    }
  }

  lemma {:induction false} NothingOpen(actions: seq<Action>, c: Context)
    requires Run(INIT, actions).Some? && c !in Run(INIT, actions).value.table
    ensures !OpenNow(actions, c)
  {
    if actions != [] {
      var n := |actions| - 1;
      KnownStep(Run(INIT, actions[..n]).value, actions[n], c);
      NothingOpen(actions[..n], c);
    }
  }

  lemma HeldStep(s: State, a: Action, c: Context)
    requires Exec(s, a).Some? && c in s.table
    ensures var s' := Exec(s, a).value;
      && c in s'.table
      && s'.table[c].refCount ==
           if Opens(s, a, c) then 0
           else if a == DoAcquire(c) && !s.table[c].rundown then s.table[c].refCount + 1
           else if a == DoRelease(c) && s.table[c].refCount > 0 then s.table[c].refCount - 1
           else s.table[c].refCount
  {
  }

  lemma {:induction false} OpenIsNotRunDown(actions: seq<Action>, c: Context)
    requires Run(INIT, actions).Some? && c in Run(INIT, actions).value.table
    ensures OpenNow(actions, c) <==> !Run(INIT, actions).value.table[c].rundown
  {
    var n := |actions| - 1;
    var s := Run(INIT, actions[..n]).value;
    KnownStep(s, actions[n], c);
    if c in s.table {
      OpenIsNotRunDown(actions[..n], c);
      OpenStep(s, actions[n], c);
    }
  }

  /** In every run an acquire succeeds exactly when no wait on the context has begun since it was last
      initialized, or re-initialized after a finished rundown; it then adds one reference. */
  lemma AcquireSucceedsWhileOpen(actions: seq<Action>, c: Context)
    requires Run(INIT, actions).Some? && DoInitialize(c) in actions
    ensures var s := Run(INIT, actions).value;
      && c in s.table && Acquire(s.table, c).Success? && (Acquire(s.table, c).value.1 <==> OpenNow(actions, c))
      && var s' := Exec(s, DoAcquire(c)).value;
         c in s'.table && s'.table[c].refCount == s.table[c].refCount + if OpenNow(actions, c) then 1 else 0
  {
    KnownIsInitialized(actions, c);
    OpenIsNotRunDown(actions, c);
  }

  /** Opening a context, either way, leaves it with no holder, and the next acquire gets the first
      reference. */
  lemma OpeningStartsAfresh(actions: seq<Action>, a: Action, c: Context)
    requires Run(INIT, actions + [a]).Some? && Run(INIT, actions).Some? && Opens(Run(INIT, actions).value, a, c)
    ensures var s' := Run(INIT, actions + [a]).value;
      && c in s'.table && s'.table[c].refCount == 0 && s'.acquired[c] == 0 && s'.released[c] == 0
      && Exec(s', DoAcquire(c)).Some? && Exec(s', DoAcquire(c)).value.table[c].refCount == 1
  {
    assert (actions + [a])[..|actions|] == actions;
    RunKeeps(actions + [a]);
  }

  /** Exactly when each call throws, and why. */
  lemma CallsThrowExactly(actions: seq<Action>, c: Context)
    requires Run(INIT, actions).Some?
    ensures var s := Run(INIT, actions).value;
      var known := DoInitialize(c) in actions;
      && (Acquire(s.table, c).Failure? <==> !known) && (BeginWait(s.table, c).Failure? <==> !known)
      && (!known ==> Acquire(s.table, c) == Failure(NotInitialized) && BeginWait(s.table, c) == Failure(NotInitialized)
                     && Release(s.table, c) == Failure(NotInitialized) && Reinitialize(s.table, c) == Failure(NotInitialized))
      && (known ==>
            && c in s.acquired && c in s.released
            && (Release(s.table, c).Failure? <==> s.acquired[c] == s.released[c])
            && (Release(s.table, c).Failure? ==> Release(s.table, c).error == AlreadyReleased)
            && (Reinitialize(s.table, c) == Failure(NotRunDown) <==> OpenNow(actions, c))
            && (Reinitialize(s.table, c) == Failure(Corrupted) <==> !OpenNow(actions, c) && s.acquired[c] != s.released[c])
            && (Reinitialize(s.table, c).Success? <==> !OpenNow(actions, c) && s.acquired[c] == s.released[c]))
  {
    RunKeeps(actions);
    KnownIsInitialized(actions, c);
    if DoInitialize(c) in actions {
      OpenIsNotRunDown(actions, c);
    }
  }

  predicate Restarts(a: Action, c: Context) {
    (a.DoInitialize? || a.DoReinitialize?) && a.c == c
  }

  lemma RunDownStep(s: State, a: Action, c: Context)
    requires c in s.table && s.table[c].rundown && !Restarts(a, c) && Exec(s, a).Some?
    ensures var s' := Exec(s, a).value;
      c in s'.table && s'.table[c].rundown && s'.table[c].refCount <= s.table[c].refCount
  {
  }

  /** From the start of a rundown until the context is initialized again the flag stays set and the
      count never grows. In particular once a wait has returned the count stays zero. */
  lemma {:induction false} RunDownNeverGrows(actions: seq<Action>, k: nat, c: Context)
    requires k <= |actions| && Run(INIT, actions).Some? && Run(INIT, actions[..k]).Some?
    requires c in Run(INIT, actions[..k]).value.table && Run(INIT, actions[..k]).value.table[c].rundown
    requires forall i :: k <= i < |actions| ==> !Restarts(actions[i], c)
    ensures c in Run(INIT, actions).value.table && Run(INIT, actions).value.table[c].rundown
    ensures Run(INIT, actions).value.table[c].refCount <= Run(INIT, actions[..k]).value.table[c].refCount
    ensures Acquire(Run(INIT, actions).value.table, c) == Success((Run(INIT, actions).value.table, false))
  {
    if k == |actions| {
      assert actions[..k] == actions;
    } else {
      var n := |actions| - 1;
      assert actions[..n][..k] == actions[..k];
      RunDownNeverGrows(actions[..n], k, c);
      RunDownStep(Run(INIT, actions[..n]).value, actions[n], c);
    }
  }

  /** Which context an action is about. */
  predicate Touches(s: State, a: Action, c: Context) {
    if a.WaitReturns? then a.t in s.waiting && s.waiting[a.t] == c else a.c == c
  }

  ghost predicate SameFor(s: State, s': State, c: Context) {
    && (c in s.table <==> c in s'.table) && (c in s.table ==> s'.table[c] == s.table[c])
    && (c in s.acquired ==> c in s'.acquired && s'.acquired[c] == s.acquired[c])
    && (c in s.released ==> c in s'.released && s'.released[c] == s.released[c])
  }

  lemma UntouchedStep(s: State, a: Action, c: Context)
    requires Exec(s, a).Some? && !Touches(s, a, c)
    ensures SameFor(s, Exec(s, a).value, c)
  {
  }

  /** Contexts do not interfere: what happens to one depends only on the actions about it. */
  lemma {:induction false} OtherContextsUntouched(actions: seq<Action>, k: nat, c: Context)
    requires k <= |actions| && Run(INIT, actions).Some? && Run(INIT, actions[..k]).Some?
    requires forall i :: k <= i < |actions| ==> Run(INIT, actions[..i]).Some? && !Touches(Run(INIT, actions[..i]).value, actions[i], c)
    ensures SameFor(Run(INIT, actions[..k]).value, Run(INIT, actions).value, c)
  {
    if k == |actions| {
      assert actions[..k] == actions;
    } else {
      var n := |actions| - 1;
      forall i | k <= i < n
        ensures Run(INIT, actions[..n][..i]).Some? && !Touches(Run(INIT, actions[..n][..i]).value, actions[..n][i], c)
      {
        assert actions[..n][..i] == actions[..i];
      }
      assert actions[..n][..k] == actions[..k];
      OtherContextsUntouched(actions[..n], k, c);
      UntouchedStep(Run(INIT, actions[..n]).value, actions[n], c);
    }
  }
}

/** Preemptible work items (`workitem_winuser.cpp`): each queue call takes a rundown reference that
    the pool thread gives back after the routine has returned. */
module WorkItems {
  import R = Rundown

  const CONTEXT: R.Context := 0

  /** `referenced` counts queue calls that have their reference but have not submitted the work yet;
      `submitted`, `running` and `returned` count routine calls that are waiting for a pool thread,
      executing, and about to release their reference. `queued` and `completed` count queue calls and
      routine calls that have ended. */
  datatype State = State(
    table: R.Table, referenced: nat, submitted: nat, running: nat, returned: nat, queued: nat, completed: nat, waiters: nat)

  datatype Action = Queue | Submit | RoutineStarts | RoutineEnds | RoutineReleases | WaitBegins | WaitReturns

  /** Asserted: the runtime assertion of a queue call after the wait has begun. */
  datatype Outcome = Ok(state: State) | Blocked | Asserted

  const START := State(R.Initialize(map[], CONTEXT), 0, 0, 0, 0, 0, 0, 0)

  function Exec(s: State, a: Action): Outcome {
    match a
    case Queue =>
      (match R.Acquire(s.table, CONTEXT)
       case Success((table, acquired)) =>
         if acquired then Ok(s.(table := table, referenced := s.referenced + 1, queued := s.queued + 1)) else Asserted
       case Failure(_) => Asserted)
    case Submit =>
      if s.referenced == 0 then Blocked else Ok(s.(referenced := s.referenced - 1, submitted := s.submitted + 1))
    case RoutineStarts =>
      if s.submitted == 0 then Blocked else Ok(s.(submitted := s.submitted - 1, running := s.running + 1))
    case RoutineEnds =>
      if s.running == 0 then Blocked
      else Ok(s.(running := s.running - 1, returned := s.returned + 1, completed := s.completed + 1))
    case RoutineReleases =>
      if s.returned == 0 then Blocked
      else
        (match R.Release(s.table, CONTEXT)
         case Success(table) => Ok(s.(table := table, returned := s.returned - 1))
         case Failure(_) => Asserted)
    case WaitBegins =>
      (match R.BeginWait(s.table, CONTEXT)
       case Success(table) => Ok(s.(table := table, waiters := s.waiters + 1))
       case Failure(_) => Asserted)
    case WaitReturns =>
      if s.waiters > 0 && CONTEXT in s.table && s.table[CONTEXT].refCount == 0
      then Ok(s.(waiters := s.waiters - 1)) else Blocked
  }

  function Run(actions: seq<Action>): Outcome {
    if actions == [] then Ok(START)
    else
      var before := Run(actions[..|actions| - 1]);
      if before.Ok? then Exec(before.state, actions[|actions| - 1]) else before
  }

  predicate Inv(s: State) {
    && CONTEXT in s.table
    && s.table[CONTEXT].refCount == s.referenced + s.submitted + s.running + s.returned
    && s.queued == s.referenced + s.submitted + s.running + s.completed
    && (s.waiters > 0 ==> s.table[CONTEXT].rundown)
  }

  lemma ExecKeeps(s: State, a: Action)
    requires Inv(s)
    ensures Exec(s, a).Ok? ==> Inv(Exec(s, a).state)
    ensures Exec(s, a).Asserted? <==> a.Queue? && s.table[CONTEXT].rundown
  {
  }

  lemma {:induction false} RunKeeps(actions: seq<Action>)
    ensures Run(actions).Ok? ==> Inv(Run(actions).state)
  {
    if actions != [] {
      var n := |actions| - 1;
      RunKeeps(actions[..n]);
      if Run(actions[..n]).Ok? {
        ExecKeeps(Run(actions[..n]).state, actions[n]);
      }
    }
  }

  function Times(actions: seq<Action>, a: Action): nat {
    if actions == [] then 0
    else Times(actions[..|actions| - 1], a) + if actions[|actions| - 1] == a then 1 else 0
  }

  lemma {:induction false} CountersAreTheCalls(actions: seq<Action>)
    requires Run(actions).Ok?
    ensures var s := Run(actions).state;
      && s.queued == Times(actions, Queue) && s.completed == Times(actions, RoutineEnds)
      && s.waiters + Times(actions, WaitReturns) == Times(actions, WaitBegins)
  {
    if actions != [] {
      var n := |actions| - 1;
      CountersAreTheCalls(actions[..n]);
      RunKeeps(actions[..n]);
      ExecKeeps(Run(actions[..n]).state, actions[n]);
    }
  }

  /** In every run, the wait can return exactly when one has begun and every reference is back; then as
      many routine calls have ended as queue calls were made, and none is outstanding. */
  lemma WaitMeansAllDone(actions: seq<Action>)
    requires Run(actions).Ok?
    ensures var s := Run(actions).state;
      && (Exec(s, WaitReturns).Ok? <==>
            s.waiters > 0 && s.referenced == 0 && s.submitted == 0 && s.running == 0 && s.returned == 0)
      && (Exec(s, WaitReturns).Ok? ==> Times(actions, RoutineEnds) == Times(actions, Queue))
  {
    RunKeeps(actions);
    CountersAreTheCalls(actions);
  }

  /** The flag of the one context is set exactly when a wait has begun. */
  lemma {:induction false} RundownIsWaiting(actions: seq<Action>)
    requires Run(actions).Ok?
    ensures CONTEXT in Run(actions).state.table
    ensures Run(actions).state.table[CONTEXT].rundown <==> WaitBegins in actions
  {
    if actions != [] {
      var n := |actions| - 1;
      RundownIsWaiting(actions[..n]);
      RunKeeps(actions[..n]);
      assert actions == actions[..n] + [actions[n]];
    }
  }

  ghost predicate LateQueue(actions: seq<Action>) {
    exists j :: 0 <= j < |actions| && actions[j].Queue? && WaitBegins in actions[..j]
  }

  lemma LateQueueGrows(actions: seq<Action>)
    requires actions != []
    ensures var n := |actions| - 1;
      LateQueue(actions) <==> LateQueue(actions[..n]) || (actions[n].Queue? && WaitBegins in actions[..n])
  {
  }

  /** A run hits the runtime assertion if and only if an item is queued after a wait has begun. */
  lemma {:induction false} AssertsIffQueuedLate(actions: seq<Action>)
    requires !Run(actions).Blocked?
    ensures Run(actions).Asserted? <==> LateQueue(actions)
  {
    if actions != [] {
      var n := |actions| - 1;
      AssertsIffQueuedLate(actions[..n]);
      LateQueueGrows(actions);
      if Run(actions[..n]).Ok? {
        RunKeeps(actions[..n]);
        RundownIsWaiting(actions[..n]);
        ExecKeeps(Run(actions[..n]).state, actions[n]);
      }
    }
  }
}
