/**
 What holds in every run of the layered allocator.
 */
module PoolTheorems {
  import opened Options
  import opened PoolMemory
  import opened PoolHeap
  import opened PoolRuns

  /** Where an allocation's owner may read and write. */
  ghost function User(q: nat, al: Allocation): nat {
    q + Lead(al.pool)
  }

  ghost predicate Isolated(s: State, q: nat, r: nat)
    requires q in s.live && r in s.live
  {
    && Load(s.heap.mem, User(q, s.live[q]), |s.live[q].data|) == s.live[q].data
    && (q != r ==> Apart(User(q, s.live[q]), |s.live[q].data|, User(r, s.live[r]), |s.live[r].data|))
  }

  lemma InvIsolates(s: State, q: nat, r: nat)
    requires Inv(s) && q in s.live && r in s.live
    ensures Isolated(s, q, r)
  {
    StoredData(s.heap.mem, s.live, q);
    if q != r {
      OwnedApart(s, q, r);
    }
  }

  lemma StoredData(mem: Memory, live: map<nat, Allocation>, q: nat)
    requires AllStored(mem, live) && q in live
    ensures Load(mem, User(q, live[q]), |live[q].data|) == live[q].data
  {
    assert Stored(mem, q, live[q]);
  }

  lemma OwnedApart(s: State, q: nat, r: nat)
    requires Table(s.live, s.heap.blocks) && Separate(s.heap.blocks) && q in s.live && r in s.live && q != r
    ensures Apart(User(q, s.live[q]), |s.live[q].data|, User(r, s.live[r]), |s.live[r].data|)
  {
  }

  /** The owners' ranges of any two live allocations do not meet, and each still holds what the
      simple form, in which the buffers are separate by construction, says it holds. */
  lemma OwnersAreIsolated(actions: seq<Action>, q: nat, r: nat)
    requires Run(actions).Some? && q in Run(actions).value.live && r in Run(actions).value.live
    ensures Isolated(Run(actions).value, q, r)
  {
    RunKeeps(actions);
    InvIsolates(Run(actions).value, q, r);
  }

  /** Cache-aligned requests get addresses divisible by 64, through one layer or both, also after
      reallocation. */
  lemma AlignedIsAligned(actions: seq<Action>, q: nat)
    requires Run(actions).Some? && q in Run(actions).value.live
    requires Has(Run(actions).value.live[q].flags, CACHE_ALIGNED)
    ensures User(q, Run(actions).value.live[q]) % LINE == 0
  {
    RunKeeps(actions);
    InvAligns(Run(actions).value, q);
  }

  lemma InvAligns(s: State, q: nat)
    requires Inv(s) && q in s.live && Has(s.live[q].flags, CACHE_ALIGNED)
    ensures User(q, s.live[q]) % LINE == 0
  {
    LiveIsOwned(s, q);
    OwnedAligns(s, q);
  }

  lemma OwnedAligns(s: State, q: nat)
    requires Owned(s, q) && Separate(s.heap.blocks) && Has(s.live[q].flags, CACHE_ALIGNED)
    ensures User(q, s.live[q]) % LINE == 0
  {
  }

  /** The C runtime's blocks are exactly those of the live allocations: a free through either layer
      gives back the base of the one block behind the pointer, to the function of its kind. */
  lemma BlocksAreThoseOfTheLive(actions: seq<Action>)
    requires Run(actions).Some?
    ensures var s := Run(actions).value; s.heap.blocks.Keys == set q | q in s.live :: s.live[q].base
  {
    RunKeeps(actions);
  }

  lemma PoolFreeGivesBack(actions: seq<Action>, q: nat, tag: nat)
    requires Run(actions).Some? && q in Run(actions).value.live && Run(actions).value.live[q].pool
    requires tag == 0 || tag == Run(actions).value.live[q].tag
    requires q !in Run(actions).value.lost
    ensures var s := Run(actions).value;
      var kind := KindOf(s.live[q].flags);
      var base := q - Offset(kind);
      && q >= HEADER && base in s.heap.blocks && s.heap.blocks[base].kind == kind
      && ExFree(s.heap, q + EX_HEADER, tag)
           == Result(Running, Heap(s.heap.blocks - {base}, s.heap.mem, s.heap.leaks - {q}), 0)
  {
    RunKeeps(actions);
    var s := Run(actions).value;
    LiveIsOwned(s, q);
    PoolFreeResult(s, q, tag);
    FreeResult(s, q, s.live[q].flags, tag);
  }

  lemma AllocatingStops(s: State, a: Request)
    ensures Serve(s.heap, a).stop != Corrupts
  {
  }

  lemma OwnedNeverCorrupts(s: State, a: Action)
    requires Allowed(s, a) && 0 !in s.live
    requires a.Reallocating? || a.Freeing? ==> a.q == 0 || Owned(s, a.q)
    requires a.PoolFreeing? ==> a.p == 0 || Owned(s, a.p - EX_HEADER)
    ensures Call(s, a).stop != Corrupts
  {
    match a
    case Allocating(request) => AllocatingStops(s, request);
    case Reallocating(q, flags, oldSize, n, tag, refused, base) =>
      if Agrees(s.live[q], flags, tag) && s.live[q].recorded == s.live[q].size && q !in s.lost {
        ReallocateResult(s, q, flags, n, tag, base);
      } else {
        ReallocateAsserts(s, q, flags, n, tag, base);
      }
    case Freeing(q, flags, tag) =>
      if q != 0 {
        FreeResult(s, q, flags, tag);
      }
    case PoolFreeing(p, tag) =>
      if p != 0 {
        PoolFreeResult(s, p - EX_HEADER, tag);
        FreeResult(s, p - EX_HEADER, s.live[p - EX_HEADER].flags, tag);
      }
    case Writing(q, at, bytes) =>
  }

  /** No call of any run gives the C runtime an address it did not hand out, or to the wrong
      function. */
  lemma NeverCorrupts(actions: seq<Action>, a: Action)
    requires Run(actions).Some? && Allowed(Run(actions).value, a)
    ensures Call(Run(actions).value, a).stop != Corrupts
  {
    RunKeeps(actions);
    var s := Run(actions).value;
    NullIsNotLive(s);
    if (a.Reallocating? || a.Freeing?) && a.q in s.live {
      LiveIsOwned(s, a.q);
    }
    if a.PoolFreeing? && a.p >= EX_HEADER && a.p - EX_HEADER in s.live {
      LiveIsOwned(s, a.p - EX_HEADER);
    }
    OwnedNeverCorrupts(s, a);
  }

  /** The leak table lists exactly the live pointers of the lower layer, with their current sizes,
      if and only if no reallocation has failed for want of memory; each that has is missing from it
      for good, so the final check then passes although those are never freed. */
  lemma LeakTableIsExact(actions: seq<Action>)
    requires Run(actions).Some?
    ensures var s := Run(actions).value;
      && (s.heap.leaks == Sizes(s.live) <==> s.lost == {})
      && s.heap.leaks.Keys == s.live.Keys - s.lost && s.lost <= s.live.Keys
      && (s.heap.leaks == map[] <==> s.live.Keys == s.lost)
  {
    RunKeeps(actions);
    var s := Run(actions).value;
    TableIsExact(s.heap.leaks, s.live, s.lost);
  }

  ghost function Sizes(live: map<nat, Allocation>): map<nat, nat> {
    map q | q in live :: live[q].size
  }

  lemma TableIsExact(leaks: map<nat, nat>, live: map<nat, Allocation>, lost: set<nat>)
    requires Leaks(leaks, live, lost)
    ensures leaks == Sizes(live) <==> lost == {}
    ensures leaks == map[] <==> live.Keys == lost
  {
  }

  /** Without reallocations nothing is ever lost. */
  lemma {:induction false} NothingLostWithoutReallocation(actions: seq<Action>)
    requires Run(actions).Some? && forall i | 0 <= i < |actions| :: !actions[i].Reallocating?
    ensures Run(actions).value.lost == {}
  {
    if actions != [] {
      NothingLostWithoutReallocation(actions[..|actions| - 1]);
    }
  }

  /** The additions of both layers wrap at 2^64: the block that a request of the second layer gets
      holds both headers and the bytes asked for exactly when their sum does not reach 2^64. */
  lemma BlockHoldsRequest(h: Heap, flags: nat, bytes: nat, tag: nat, base: nat)
    requires bytes < ADDRESS && base != 0
    ensures var r := Wrap(Allocate(h, flags, (EX_HEADER + bytes) % ADDRESS, tag, false, base), flags);
      r.stop == Running ==>
        && base in r.heap.blocks && r.pointer == base + Offset(KindOf(flags)) + EX_HEADER
        && (r.pointer + bytes <= base + r.heap.blocks[base].size <==> bytes + EX_HEADER + Offset(KindOf(flags)) < ADDRESS)
  {
    WrapsOnce(Offset(KindOf(flags)), bytes);
  }

  lemma WrapsOnce(offset: nat, bytes: nat)
    requires bytes < ADDRESS && offset <= LINE
    ensures offset + EX_HEADER + bytes <= (offset + (EX_HEADER + bytes) % ADDRESS) % ADDRESS
        <==> bytes + EX_HEADER + offset < ADDRESS
  {
  }

  /** The pool types the code knows select alignment and paging as their names say. */
  lemma PoolTypesAreFaithful(pool: PoolType, initialize: bool)
    requires pool != OtherPool
    ensures var flags := PoolFlags(pool, initialize);
      && (Has(flags, CACHE_ALIGNED) <==> pool == NonPagedPoolNxCacheAligned || pool == PagedPoolCacheAligned)
      && (Has(flags, NON_PAGED) <==> pool == NonPagedPoolNx || pool == NonPagedPoolNxCacheAligned)
      && (Has(flags, NON_PAGED) <==> !Has(flags, PAGED))
      && (Has(flags, UNINITIALIZED) <==> !initialize)
  {
  }

  // ----- what new memory holds

  /** How many bytes a request asks for, and whether it asks for them to be zero. */
  function BytesAsked(a: Request): nat {
    if a.Lower? then a.size else a.bytes
  }

  predicate AsksForZeros(a: Request) {
    match a
    case Lower(flags, _, _, _, _) => flags / 2 % 2 == 0
    case PoolUninitialized(_, _, _, _, _) => false
    case Pool2(flags, _, _, _, _, _) => flags / 2 % 2 == 0
    case PoolWithTag(_, _, _, _, _, _) => true
  }

  lemma MadeFill(a: Request)
    requires Asked(a).Some?
    ensures |Made(a).data| == BytesAsked(a)
    ensures forall i :: 0 <= i < BytesAsked(a) ==> Made(a).data[i] == if AsksForZeros(a) then 0 else 0xcc
  {
    if a.PoolUninitialized? {
      PoolTypesAreFaithful(a.pool, false);
    } else if a.PoolWithTag? {
      PoolTypesAreFaithful(a.pool, true);
    } else if a.Pool2? {
      LowBitStays(a.flags);
    }
  }

  lemma LowBitStays(flags: nat)
    ensures flags % ULONG / 2 % 2 == flags / 2 % 2
  {
    var high, low := flags / ULONG, flags % ULONG;
    assert flags == high * ULONG + low;
    assert flags / 2 == high * 0x8000_0000 + low / 2;
  }

  lemma StoredByte(mem: Memory, q: nat, al: Allocation, i: nat)
    requires Stored(mem, q, al) && i < |al.data|
    ensures Byte(mem, User(q, al) + i) == al.data[i]
  {
    assert Load(mem, User(q, al), |al.data|)[i] == al.data[i];
  }

  /** After any request that goes through, by any of the four entry points and in any state, every byte the
      caller gets is 0 if it asked for initialized memory and 0xcc if it did not. */
  lemma NewMemoryIsFilled(s: State, a: Request, i: nat)
    requires Allowed(s, Allocating(a)) && i < BytesAsked(a)
    requires Serve(s.heap, a).stop == Running && Serve(s.heap, a).pointer != 0
    ensures Byte(Serve(s.heap, a).heap.mem, Serve(s.heap, a).pointer + i) == if AsksForZeros(a) then 0 else 0xcc
  {
    if Asked(a).None? {
      UnaskedStops(s.heap, a);
    } else {
      var al := Made(a);
      var q := al.base + Offset(al.kind);
      MadeShape(s, a);
      ServeReaches(s.heap, a);
      ReachResult(s.heap, al, a.refused);
      WrittenStored(s.heap.mem, q, al);
      StoredByte(Written(s.heap.mem, q, al), q, al, i);
      MadeFill(a);
    }
  }

  /** A successful reallocation, in any state a run can reach, keeps the bytes up to the smaller of the two
      sizes; what comes after is 0 or 0xcc, as for new memory. */
  lemma ReallocationKeepsBytes(s: State, q: nat, flags: nat, n: nat, tag: nat, refused: bool, base: nat, i: nat)
    requires Inv(s) && q in s.live && !s.live[q].pool && q >= HEADER && n + LINE < ADDRESS && i < n
    requires var r := Reallocate(s.heap, q, flags, s.live[q].size, n, tag, refused, base);
      r.stop == Running && r.pointer != 0
    ensures var r := Reallocate(s.heap, q, flags, s.live[q].size, n, tag, refused, base);
      Byte(r.heap.mem, r.pointer + i) ==
        if i < s.live[q].size then Byte(s.heap.mem, q + i) else if flags / 2 % 2 == 0 then 0 else 0xcc
  {
    LiveIsOwned(s, q);
    ReallocateBytes(s, q, flags, n, tag, refused, base, i);
  }

  lemma ReallocateBytes(s: State, q: nat, flags: nat, n: nat, tag: nat, refused: bool, base: nat, i: nat)
    requires Owned(s, q) && !s.live[q].pool && n + LINE < ADDRESS && i < n
    requires var r := Reallocate(s.heap, q, flags, s.live[q].size, n, tag, refused, base);
      r.stop == Running && r.pointer != 0
    ensures var r := Reallocate(s.heap, q, flags, s.live[q].size, n, tag, refused, base);
      Byte(r.heap.mem, r.pointer + i) ==
        if i < s.live[q].size then Byte(s.heap.mem, q + i) else if flags / 2 % 2 == 0 then 0 else 0xcc
  {
    var al := s.live[q];
    if Agrees(al, flags, tag) && al.recorded == al.size && q !in s.lost {
      ReallocateResult(s, q, flags, n, tag, base);
      GrownBytes(s.heap.mem, q, al, base, n, i);
    } else {
      ReallocateAsserts(s, q, flags, n, tag, base);
    }
  }

  lemma GrownBytes(mem: Memory, q: nat, al: Allocation, base: nat, n: nat, i: nat)
    requires Stored(mem, q, al) && Shape(al) && q == al.base + Offset(al.kind) && !al.pool && n + LINE < ADDRESS && i < n
    ensures Byte(Grown(mem, al, base, n), base + Offset(al.kind) + i) ==
      if i < al.size then Byte(mem, q + i) else if al.flags / 2 % 2 == 0 then 0 else 0xcc
  {
    GrownStored(mem, q, al, base, n);
    StoredByte(Grown(mem, al, base, n), base + Offset(al.kind), Resize(al, base, n), i);
    if i < al.size {
      StoredByte(mem, q, al, i);
    }
  }
}
