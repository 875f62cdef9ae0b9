/**
 Two short runs of the allocator in which something goes wrong: a failed reallocation drops a live
 block from the leak table, and a block that has been resized once cannot be resized again.
 */
module PoolWitnesses {
  import opened Options
  import opened PoolMemory
  import opened PoolHeap
  import opened PoolRuns

  const FLAGS: nat := NON_PAGED
  const TAG: nat := 1
  const FIRST: nat := 0x1000
  const SECOND: nat := 0x2000

  const ALLOCATE := Allocating(Lower(FLAGS, 8, TAG, false, FIRST))

  lemma StepTo(s: State, actions: seq<Action>, a: Action) returns (s': State, longer: seq<Action>)
    requires Run(actions) == Some(s) && Exec(s, a).Some?
    ensures longer == actions + [a] && Run(longer) == Some(s') && s' == Exec(s, a).value
  {
    s', longer := Exec(s, a).value, actions + [a];
    assert longer[..|actions|] == actions;
  }

  /** Eight bytes, in a block at FIRST. */
  function Eight(): Allocation {
    Made(Lower(FLAGS, 8, TAG, false, FIRST))
  }

  lemma AllocateEight()
    ensures Exec(INIT, ALLOCATE) == Some(Added(INIT, Eight())) && Eight().kind == Plain && !Eight().pool
    ensures Eight().size == 8 && Eight().recorded == 8 && Eight().base == FIRST && Eight().flags == FLAGS && Eight().tag == TAG
  {
    var request := ALLOCATE.request;
    assert Placeable(INIT.heap.blocks, FIRST, BlockFor(Plain, 8));
    assert Allowed(INIT, ALLOCATE);
    ServeReaches(INIT.heap, request);
    MadeShape(INIT, request);
    ReachResult(INIT.heap, Eight(), false);
  }

  /** The state after that allocation. */
  lemma OneBlock() returns (s: State, actions: seq<Action>)
    ensures Run(actions) == Some(s) && Inv(s) && s.lost == {}
    ensures s.live == map[FIRST + HEADER := Eight()] && s.heap.blocks == map[FIRST := BlockFor(Plain, 8)]
    ensures s.heap.leaks == map[FIRST + HEADER := 8]
    ensures !Eight().pool && Eight().kind == Plain && Eight().size == 8 && Eight().recorded == 8
    ensures Eight().base == FIRST && Eight().flags == FLAGS && Eight().tag == TAG
  {
    AllocateEight();
    assert Run([]) == Some(INIT);
    s, actions := StepTo(INIT, [], ALLOCATE);
    RunKeeps(actions);
  }

  /** A reallocation for which there is no memory: the block lives on, and the leak table has forgotten
      it, so that its owner's free asserts. */
  lemma FailedReallocationLosesBlock() returns (actions: seq<Action>, q: nat)
    ensures Run(actions).Some?
    ensures var s := Run(actions).value;
      && q in s.live && q !in s.heap.leaks && s.heap.leaks == map[] && s.heap.blocks != map[]
      && Allowed(s, Freeing(q, FLAGS, TAG)) && Call(s, Freeing(q, FLAGS, TAG)).stop == Asserted
  {
    var s, l := OneBlock();
    q := FIRST + HEADER;
    LiveIsOwned(s, q);
    ReallocatingResult(s, q, FLAGS, 8, 16, TAG, false, 0);
    var s', l' := StepTo(s, l, Reallocating(q, FLAGS, 8, 16, TAG, false, 0));
    RunKeeps(l');
    LiveIsOwned(s', q);
    FreeResult(s', q, FLAGS, TAG);
    actions := l';
  }

  /** A block that has grown: the header still records the first size, so a second reallocation with
      the true size asserts. */
  lemma SecondReallocationAsserts() returns (actions: seq<Action>, a: Action)
    ensures Run(actions).Some? && a.Reallocating?
    ensures var s := Run(actions).value;
      && Allowed(s, a) && a.oldSize == s.live[a.q].size && Agrees(s.live[a.q], a.flags, a.tag)
      && Call(s, a).stop == Asserted
  {
    var s, l := OneBlock();
    var q := FIRST + HEADER;
    LiveIsOwned(s, q);
    assert Placeable(s.heap.blocks - {FIRST}, SECOND, BlockFor(Plain, 16));
    ReallocatingResult(s, q, FLAGS, 8, 16, TAG, false, SECOND);
    var s', l' := StepTo(s, l, Reallocating(q, FLAGS, 8, 16, TAG, false, SECOND));
    RunKeeps(l');
    actions := l';
    a := GrowAgain(s', SECOND + HEADER);
  }

  lemma GrowAgain(s: State, q: nat) returns (a: Action)
    requires Inv(s) && q in s.live && !s.live[q].pool && s.live[q].size == 16 && s.live[q].recorded == 8
    ensures a.Reallocating? && a.q == q && Allowed(s, a)
    ensures a.oldSize == s.live[q].size && Agrees(s.live[q], a.flags, a.tag) && Call(s, a).stop == Asserted
  {
    a := Reallocating(q, s.live[q].flags, 16, 32, s.live[q].tag, false, 0);
    LiveIsOwned(s, q);
    ReallocateAsserts(s, q, s.live[q].flags, 32, s.live[q].tag, 0);
  }
}
