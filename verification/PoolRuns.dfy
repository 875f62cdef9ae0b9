/**
 Runs of the layered allocator against a simple form of it: a table of separate byte buffers. The
 callers allocate, reallocate, free and write to what they own; the C runtime places blocks anywhere
 free, or has none.
 */
module PoolRuns {
  import opened Options
  import opened PoolMemory
  import opened PoolHeap

  /** A live allocation: `base` is where its block starts, `size` what was asked of the lower layer,
      `recorded` the size in its header, `pool` whether it was made through the second layer, `data` the
      bytes its owner sees; `head` and `lead` are the bytes of the two headers. */
  datatype Allocation = Allocation(
    base: nat, kind: Kind, flags: nat, tag: nat, size: nat, recorded: nat, pool: bool, data: Bytes,
    head: Bytes, lead: Bytes)

  /** `live` is keyed by the lower layer's pointers; `lost` holds those whose reallocation found no
      memory. */
  datatype State = State(heap: Heap, live: map<nat, Allocation>, lost: set<nat>)

  /** The four ways to allocate. */
  datatype Request =
    | Lower(flags: nat, size: nat, tag: nat, refused: bool, base: nat)
    | PoolUninitialized(pool: PoolType, bytes: nat, tag: nat, refused: bool, base: nat)
    | Pool2(flags: nat, bytes: nat, tag: nat, dispatch: bool, refused: bool, base: nat)
    | PoolWithTag(pool: PoolType, bytes: nat, tag: nat, dispatch: bool, refused: bool, base: nat)

  datatype Action =
    | Allocating(request: Request)
    | Reallocating(q: nat, flags: nat, oldSize: nat, newSize: nat, tag: nat, refused: bool, base: nat)
    | Freeing(q: nat, flags: nat, tag: nat)
    | PoolFreeing(p: nat, tag: nat)
    | Writing(q: nat, at: nat, written: Bytes)

  function Lead(pool: bool): nat {
    if pool then EX_HEADER else 0
  }

  /** What the C runtime promises of a block it hands out. */
  ghost predicate Placeable(blocks: map<nat, Block>, base: nat, block: Block) {
    && 0 < base && base + block.size <= ADDRESS
    && (block.kind == Aligned ==> base % LINE == 0)
    && forall b | b in blocks :: Apart(base, block.size, b, blocks[b].size)
  }

  function BlockFor(kind: Kind, size: nat): Block {
    Block(Offset(kind) + size, kind)
  }

  /** The flags, size and layer with which a request reaches the lower layer, if it does. */
  function Asked(a: Request): Option<(nat, nat, bool)> {
    match a
    case Lower(flags, size, _, _, _) => if size == 0 then None else Some((flags, size, false))
    case PoolUninitialized(pool, bytes, tag, _, _) =>
      if tag == 0 || pool == OtherPool then None else Some((PoolFlags(pool, false), EX_HEADER + bytes, true))
    case Pool2(flags, bytes, tag, _, _, _) =>
      if tag == 0 || bytes == 0 then None else Some((flags % ULONG, EX_HEADER + bytes, true))
    case PoolWithTag(pool, bytes, tag, _, _, _) =>
      if tag == 0 || bytes == 0 || pool == OtherPool then None else Some((PoolFlags(pool, true), EX_HEADER + bytes, true))
  }

  /** The allocation that a request makes. */
  function Made(a: Request): Allocation
    requires Asked(a).Some?
  {
    var (flags, size, pool) := Asked(a).value;
    Allocation(a.base, KindOf(flags), flags, a.tag, size, size, pool,
               Repeat(Filler(flags), if size < Lead(pool) then 0 else size - Lead(pool)),
               Header(flags, a.tag, size), Encode(flags, 4))
  }

  /** The allocator's own code for a request. */
  function Serve(h: Heap, a: Request): Result {
    match a
    case Lower(flags, size, tag, refused, base) => Allocate(h, flags, size, tag, refused, base)
    case PoolUninitialized(pool, bytes, tag, refused, base) => ExAllocateUninitialized(h, pool, bytes, tag, refused, base)
    case Pool2(flags, bytes, tag, dispatch, refused, base) => ExAllocate2(h, flags, bytes, tag, dispatch, refused, base)
    case PoolWithTag(pool, bytes, tag, dispatch, refused, base) =>
      ExAllocateWithTag(h, pool, bytes, tag, dispatch, refused, base)
  }

  /** The callers use what they own, sizes leave room for the headers below 2^64, and the C runtime
      keeps its promise. */
  ghost predicate Allowed(s: State, a: Action) {
    match a
    case Allocating(request) =>
      && request.tag < ULONG
      && (Asked(request).Some? ==>
            var al := Made(request);
            && al.flags < ULONG && al.size + LINE < ADDRESS
            && (al.base == 0 || Placeable(s.heap.blocks, al.base, BlockFor(al.kind, al.size))))
    case Reallocating(q, flags, oldSize, newSize, tag, refused, base) =>
      && q in s.live && !s.live[q].pool && oldSize == s.live[q].size && newSize + LINE < ADDRESS
      && (base == 0 || Placeable(s.heap.blocks - {s.live[q].base}, base, BlockFor(s.live[q].kind, newSize)))
    case Freeing(q, flags, tag) => q == 0 || (q in s.live && !s.live[q].pool)
    case PoolFreeing(p, tag) => p == 0 || (p >= EX_HEADER && p - EX_HEADER in s.live && s.live[p - EX_HEADER].pool)
    case Writing(q, at, bytes) => q in s.live && at + |bytes| <= |s.live[q].data|
  }

  /** The allocator's own code; a pointer too low to have headers in front of it would corrupt. */
  ghost function Call(s: State, a: Action): Result {
    var h := s.heap;
    match a
    case Allocating(request) => Serve(h, request)
    case Reallocating(q, flags, oldSize, newSize, tag, refused, base) =>
      if q < HEADER then Result(Corrupts, h, 0) else Reallocate(h, q, flags, oldSize, newSize, tag, refused, base)
    case Freeing(q, flags, tag) =>
      if 0 < q < HEADER then Result(Corrupts, h, 0) else Free(h, q, flags, tag)
    case PoolFreeing(p, tag) =>
      if 0 < p < EX_HEADER + HEADER then Result(Corrupts, h, 0) else ExFree(h, p, tag)
    case Writing(q, at, bytes) =>
      var lead := if q in s.live then Lead(s.live[q].pool) else 0;
      Result(Running, h.(mem := Store(h.mem, q + lead + at, bytes)), 0)
  }

  function Overwritten(data: Bytes, at: nat, bytes: Bytes): Bytes
    requires at + |bytes| <= |data|
  {
    data[..at] + bytes + data[at + |bytes|..]
  }

  /** What a buffer holds after its size changes. */
  function Resized(data: Bytes, n: nat, filler: nat): Bytes {
    if n <= |data| then data[..n] else data + Repeat(filler, n - |data|)
  }

  ghost function Resize(al: Allocation, base: nat, n: nat): Allocation {
    al.(base := base, size := n, data := Resized(al.data, n, Filler(al.flags)))
  }

  /** The simple form: what each call that went through does to the table of buffers. */
  ghost function Buffers(live: map<nat, Allocation>, a: Action, pointer: nat): map<nat, Allocation> {
    match a
    case Allocating(request) =>
      if Asked(request).None? || pointer == 0 then live
      else var al := Made(request); live[al.base + Offset(al.kind) := al]
    case Reallocating(q, flags, oldSize, newSize, _, _, _) =>
      if q !in live || pointer == 0 then live else (live - {q})[pointer := Resize(live[q], a.base, newSize)]
    case Freeing(q, _, _) => live - {q}
    case PoolFreeing(p, _) => if p < EX_HEADER then live else live - {p - EX_HEADER}
    case Writing(q, at, bytes) =>
      if q in live && at + |bytes| <= |live[q].data|
      then live[q := live[q].(data := Overwritten(live[q].data, at, bytes))] else live
  }

  ghost function Lost(s: State, a: Action, r: Result): set<nat> {
    if a.Reallocating? && r.stop == Running && !a.refused && r.pointer == 0 then s.lost + {a.q} else s.lost
  }

  /** One step: a bug check leaves the call without effect; a failed assertion ends the run. */
  ghost function Exec(s: State, a: Action): Option<State> {
    if !Allowed(s, a) then None
    else
      var r := Call(s, a);
      if r.stop == BugCheck then Some(s)
      else if r.stop == Running then Some(State(r.heap, Buffers(s.live, a, r.pointer), Lost(s, a, r)))
      else None
  }

  // ----- invariant

  ghost predicate Shape(al: Allocation) {
    && al.kind == KindOf(al.flags) && al.flags < ULONG && al.tag < ULONG && al.recorded < ADDRESS
    && al.size == Lead(al.pool) + |al.data| && al.size + LINE < ADDRESS
    && |al.head| == HEADER && |al.lead| == 4
  }

  ghost predicate Headed(al: Allocation) {
    al.head == Header(al.flags, al.tag, al.recorded) && al.lead == Encode(al.flags, 4)
  }

  ghost predicate AllHeaded(live: map<nat, Allocation>) {
    forall q | q in live :: Headed(live[q])
  }

  ghost predicate Backed(blocks: map<nat, Block>, q: nat, al: Allocation) {
    && q == al.base + Offset(al.kind)
    && al.base in blocks && blocks[al.base] == BlockFor(al.kind, al.size)
  }

  /** The memory holds both headers and the owner's bytes. */
  ghost predicate Stored(mem: Memory, q: nat, al: Allocation) {
    && q >= HEADER && Load(mem, q - HEADER, HEADER) == al.head
    && (al.pool ==> Load(mem, q, 4) == al.lead)
    && Load(mem, q + Lead(al.pool), |al.data|) == al.data
  }

  ghost function Bases(live: map<nat, Allocation>): set<nat> {
    set q | q in live :: live[q].base
  }

  ghost predicate Table(live: map<nat, Allocation>, blocks: map<nat, Block>) {
    forall q | q in live :: Shape(live[q]) && Backed(blocks, q, live[q])
  }

  ghost predicate Covered(live: map<nat, Allocation>, blocks: map<nat, Block>) {
    blocks.Keys == Bases(live)
  }

  ghost predicate Separate(blocks: map<nat, Block>) {
    && (forall b | b in blocks :: 0 < b && b + blocks[b].size <= ADDRESS)
    && (forall b | b in blocks && blocks[b].kind == Aligned :: b % LINE == 0)
    && (forall b, c | b in blocks && c in blocks && b != c :: Apart(b, blocks[b].size, c, blocks[c].size))
  }

  ghost predicate AllStored(mem: Memory, live: map<nat, Allocation>) {
    forall q | q in live :: Stored(mem, q, live[q])
  }

  /** The leak table lists the live pointers that no failed reallocation has dropped from it. */
  ghost predicate Leaks(leaks: map<nat, nat>, live: map<nat, Allocation>, lost: set<nat>) {
    && lost <= live.Keys && leaks.Keys == live.Keys - lost
    && forall q | q in leaks :: leaks[q] == live[q].size
  }

  ghost predicate Inv(s: State) {
    && Table(s.live, s.heap.blocks) && Covered(s.live, s.heap.blocks) && Separate(s.heap.blocks)
    && AllHeaded(s.live)
    && AllStored(s.heap.mem, s.live) && Leaks(s.heap.leaks, s.live, s.lost)
  }

  /** A step that does not go through keeps the invariant trivially. */
  ghost predicate Kept(s': Option<State>) {
    match s'
    case None => true
    case Some(s) => Inv(s)
  }

  // ----- blocks

  /** Distinct live pointers lie in distinct blocks. */
  lemma LiveApart(live: map<nat, Allocation>, blocks: map<nat, Block>, q: nat, r: nat)
    requires Table(live, blocks) && Separate(blocks) && q in live && r in live && q != r
    ensures q >= HEADER && r >= HEADER && Apart(q - HEADER, HEADER + live[q].size, r - HEADER, HEADER + live[r].size)
  {
  }

  /** A newly placed block gives a pointer that is not live, apart from all live ones. */
  lemma PlacedApart(live: map<nat, Allocation>, blocks: map<nat, Block>, base: nat, block: Block, r: nat)
    requires Table(live, blocks) && Placeable(blocks, base, block) && r in live && block.size >= Offset(block.kind)
    ensures r != base + Offset(block.kind)
    ensures r >= HEADER && Apart(base, block.size, r - HEADER, HEADER + live[r].size)
  {
  }

  lemma PlacedFresh(blocks: map<nat, Block>, base: nat, block: Block)
    requires Placeable(blocks, base, block) && block.size > 0 && forall b | b in blocks :: blocks[b].size > 0
    ensures base !in blocks
  {
  }

  lemma NoEmptyBlock(live: map<nat, Allocation>, blocks: map<nat, Block>)
    requires Table(live, blocks) && Covered(live, blocks)
    ensures forall b | b in blocks :: blocks[b].size > 0
  {
  }

  lemma PlaceKeeps(live: map<nat, Allocation>, blocks: map<nat, Block>, al: Allocation)
    requires Table(live, blocks) && Covered(live, blocks) && Separate(blocks) && Shape(al)
    requires Placeable(blocks, al.base, BlockFor(al.kind, al.size))
    ensures Table(live[al.base + Offset(al.kind) := al], blocks[al.base := BlockFor(al.kind, al.size)])
    ensures Covered(live[al.base + Offset(al.kind) := al], blocks[al.base := BlockFor(al.kind, al.size)])
    ensures Separate(blocks[al.base := BlockFor(al.kind, al.size)])
    ensures al.base + Offset(al.kind) !in live
  {
    var block := BlockFor(al.kind, al.size);
    NoEmptyBlock(live, blocks);
    PlacedFresh(blocks, al.base, block);
    forall r | r in live
      ensures r != al.base + Offset(al.kind)
    {
      PlacedApart(live, blocks, al.base, block, r);
    }
    TableAdds(live, blocks, al);
    BasesAdd(live, al.base + Offset(al.kind), al);
    SeparateAdds(blocks, al.base, block);
  }

  lemma TableAdds(live: map<nat, Allocation>, blocks: map<nat, Block>, al: Allocation)
    requires Table(live, blocks) && Shape(al) && al.base !in blocks && al.base + Offset(al.kind) !in live
    ensures Table(live[al.base + Offset(al.kind) := al], blocks[al.base := BlockFor(al.kind, al.size)])
  {
  }

  lemma BasesAdd(live: map<nat, Allocation>, q: nat, al: Allocation)
    requires q !in live
    ensures Bases(live[q := al]) == Bases(live) + {al.base}
  {
    var live' := live[q := al];
    assert live'[q].base == al.base;
    forall b | b in Bases(live)
      ensures b in Bases(live')
    {
      var r :| r in live && live[r].base == b;
      assert r in live' && live'[r].base == b;
    }
  }

  lemma BasesTake(live: map<nat, Allocation>, q: nat)
    requires q in live && forall r | r in live && r != q :: live[r].base != live[q].base
    ensures Bases(live - {q}) == Bases(live) - {live[q].base}
  {
    var live' := live - {q};
    forall b | b in Bases(live) && b != live[q].base
      ensures b in Bases(live')
    {
      var r :| r in live && live[r].base == b;
      assert r in live' && live'[r].base == b;
    }
  }

  lemma SeparateAdds(blocks: map<nat, Block>, base: nat, block: Block)
    requires Separate(blocks) && Placeable(blocks, base, block) && base !in blocks
    ensures Separate(blocks[base := block])
  {
  }

  lemma TakeKeeps(live: map<nat, Allocation>, blocks: map<nat, Block>, q: nat)
    requires Table(live, blocks) && Covered(live, blocks) && Separate(blocks) && q in live
    ensures Table(live - {q}, blocks - {live[q].base})
    ensures Covered(live - {q}, blocks - {live[q].base})
    ensures Separate(blocks - {live[q].base})
  {
    assert Backed(blocks, q, live[q]);
    forall r | r in live && r != q
      ensures live[r].base != live[q].base && Backed(blocks - {live[q].base}, r, live[r])
    {
      assert Backed(blocks, r, live[r]);
    }
    BasesTake(live, q);
  }

  // ----- memory

  lemma StoredApart(mem: Memory, a: nat, bytes: Bytes, q: nat, al: Allocation)
    requires Stored(mem, q, al) && Shape(al) && Apart(a, |bytes|, q - HEADER, HEADER + al.size)
    ensures Stored(Store(mem, a, bytes), q, al)
  {
    LoadApart(mem, a, bytes, q - HEADER, HEADER);
    if al.pool {
      LoadApart(mem, a, bytes, q, 4);
    }
    LoadApart(mem, a, bytes, q + Lead(al.pool), |al.data|);
  }

  lemma AllStoredApart(mem: Memory, live: map<nat, Allocation>, a: nat, bytes: Bytes)
    requires AllStored(mem, live)
    requires forall q | q in live :: Shape(live[q]) && Apart(a, |bytes|, q - HEADER, HEADER + live[q].size)
    ensures AllStored(Store(mem, a, bytes), live)
  {
    forall q | q in live
      ensures Stored(Store(mem, a, bytes), q, live[q])
    {
      assert Stored(mem, q, live[q]);
      StoredApart(mem, a, bytes, q, live[q]);
    }
  }

  /** The three writes of an allocation leave its headers and filled bytes. */
  ghost function Written(mem: Memory, q: nat, al: Allocation): Memory
    requires q >= HEADER
  {
    var filled := Store(mem, q, Repeat(Filler(al.flags), al.size));
    var headed := Store(filled, q - HEADER, al.head);
    if al.pool then Store(headed, q, al.lead) else headed
  }

  lemma WrittenStored(mem: Memory, q: nat, al: Allocation)
    requires q >= HEADER && Shape(al) && al.data == Repeat(Filler(al.flags), |al.data|)
    ensures Stored(Written(mem, q, al), q, al)
  {
    var fill, head, lead := Repeat(Filler(al.flags), al.size), al.head, al.lead;
    var filled := Store(mem, q, fill);
    var headed := Store(filled, q - HEADER, head);
    var user := q + Lead(al.pool);
    LoadWithin(mem, q, fill, Lead(al.pool), |al.data|);
    LoadApart(filled, q - HEADER, head, user, |al.data|);
    LoadWithin(filled, q - HEADER, head, 0, HEADER);
    assert head[0..HEADER] == head;
    assert fill[Lead(al.pool)..Lead(al.pool) + |al.data|] == al.data;
    if al.pool {
      LoadApart(headed, q, lead, user, |al.data|);
      LoadApart(headed, q, lead, q - HEADER, HEADER);
      LoadWithin(headed, q, lead, 0, 4);
      assert lead[0..4] == lead;
    }
  }

  lemma WrittenElsewhere(mem: Memory, live: map<nat, Allocation>, q: nat, al: Allocation)
    requires q >= HEADER && Shape(al) && AllStored(mem, live)
    requires forall r | r in live :: Shape(live[r]) && Apart(q - HEADER, HEADER + al.size, r - HEADER, HEADER + live[r].size)
    ensures AllStored(Written(mem, q, al), live)
  {
    var fill, head := Repeat(Filler(al.flags), al.size), al.head;
    var filled := Store(mem, q, fill);
    AllStoredApart(mem, live, q, fill);
    AllStoredApart(filled, live, q - HEADER, head);
    if al.pool {
      AllStoredApart(Store(filled, q - HEADER, head), live, q, al.lead);
    }
  }

  /** The headers read back as they were written. */
  lemma HeaderReads(mem: Memory, q: nat, al: Allocation)
    requires Stored(mem, q, al) && Shape(al) && Headed(al)
    ensures HeaderFlags(mem, q) == al.flags && HeaderTag(mem, q) == al.tag && HeaderSize(mem, q) == al.recorded
    ensures al.pool ==> Decode(Load(mem, q, 4)) == al.flags
  {
    HeaderParts(al.flags, al.tag, al.recorded);
    LoadPart(mem, q - HEADER, HEADER, 0, 4);
    LoadPart(mem, q - HEADER, HEADER, 4, 4);
    LoadPart(mem, q - HEADER, HEADER, 8, 8);
    Round4(al.flags);
    Round4(al.tag);
    Round8(al.recorded);
  }

  lemma HeaderParts(flags: nat, tag: nat, size: nat)
    ensures var head := Header(flags, tag, size);
      head[0..4] == Encode(flags, 4) && head[4..8] == Encode(tag, 4) && head[8..16] == Encode(size, 8)
  {
  }

  // ----- allocation

  lemma AllocationKeeps(s: State, al: Allocation)
    requires Inv(s) && Shape(al) && Headed(al) && al.data == Repeat(Filler(al.flags), |al.data|)
    requires Placeable(s.heap.blocks, al.base, BlockFor(al.kind, al.size))
    ensures al.base + Offset(al.kind) !in s.live && Inv(Added(s, al))
  {
    var q := al.base + Offset(al.kind);
    PlaceKeeps(s.live, s.heap.blocks, al);
    WrittenKeeps(s, al);
    HeadedAdds(s.live, q, al);
    LeaksAdd(s.heap.leaks, s.live, s.lost, q, al);
  }

  lemma WrittenKeeps(s: State, al: Allocation)
    requires Table(s.live, s.heap.blocks) && AllStored(s.heap.mem, s.live)
    requires Shape(al) && al.data == Repeat(Filler(al.flags), |al.data|)
    requires Placeable(s.heap.blocks, al.base, BlockFor(al.kind, al.size))
    ensures AllStored(Added(s, al).heap.mem, Added(s, al).live)
  {
    var q := al.base + Offset(al.kind);
    forall r | r in s.live
      ensures Shape(s.live[r]) && Apart(q - HEADER, HEADER + al.size, r - HEADER, HEADER + s.live[r].size)
    {
      PlacedApart(s.live, s.heap.blocks, al.base, BlockFor(al.kind, al.size), r);
    }
    WrittenElsewhere(s.heap.mem, s.live, q, al);
    WrittenStored(s.heap.mem, q, al);
  }

  lemma HeadedAdds(live: map<nat, Allocation>, q: nat, al: Allocation)
    requires AllHeaded(live) && Headed(al)
    ensures AllHeaded(live[q := al])
  {
  }

  lemma LeaksAdd(leaks: map<nat, nat>, live: map<nat, Allocation>, lost: set<nat>, q: nat, al: Allocation)
    requires Leaks(leaks, live, lost) && q !in live
    ensures Leaks(leaks[q := al.size], live[q := al], lost)
  {
  }

  /** What the layers do together when a request goes through. */
  ghost function Served(h: Heap, al: Allocation): Heap {
    var q := al.base + Offset(al.kind);
    Heap(h.blocks[al.base := BlockFor(al.kind, al.size)], Written(h.mem, q, al), h.leaks[q := al.size])
  }

  lemma PoolFlagsFit(pool: PoolType, initialize: bool)
    requires pool != OtherPool
    ensures PoolFlags(pool, initialize) < ULONG && PoolFlags(pool, initialize) % ULONG == PoolFlags(pool, initialize)
    ensures Has(PoolFlags(pool, initialize), NON_PAGED) <==> !pool.PagedPool? && !pool.PagedPoolCacheAligned?
  {
  }

  /** The lower layer's part and the header that the second layer adds. */
  ghost function Reach(h: Heap, al: Allocation, refused: bool): Result {
    var r := Allocate(h, al.flags, al.size, al.tag, refused, al.base);
    if al.pool then Wrap(r, al.flags) else r
  }

  lemma ReachResult(h: Heap, al: Allocation, refused: bool)
    requires 0 < al.size && al.size + LINE < ADDRESS && al.kind == KindOf(al.flags)
    requires al.recorded == al.size && Headed(al)
    ensures refused || al.base == 0 ==> Reach(h, al, refused) == Result(Running, h, 0)
    ensures !refused && al.base != 0 ==>
      Reach(h, al, refused) == Result(Running, Served(h, al), al.base + Offset(al.kind) + Lead(al.pool))
  {
    if !refused && al.base != 0 {
      LowerResult(h, al);
    }
  }

  lemma LowerResult(h: Heap, al: Allocation)
    requires 0 < al.size && al.size + LINE < ADDRESS && al.kind == KindOf(al.flags) && al.base != 0
    requires al.head == Header(al.flags, al.tag, al.size)
    ensures Allocate(h, al.flags, al.size, al.tag, false, al.base)
         == Result(Running, Served(h, al.(pool := false)), al.base + Offset(al.kind))
  {
    assert (Offset(al.kind) + al.size) % ADDRESS == Offset(al.kind) + al.size;
  }

  /** Paged memory is not to be allocated at DISPATCH_LEVEL. */
  predicate TooHigh(a: Request) {
    || (a.Pool2? && a.dispatch && !Has(a.flags, NON_PAGED))
    || (a.PoolWithTag? && a.dispatch && (a.pool.PagedPool? || a.pool.PagedPoolCacheAligned?))
  }

  /** Whatever the entry point, a well-formed request asserts exactly when it asks for paged memory at
      DISPATCH_LEVEL; otherwise it reaches the lower layer with the flags, size and tag of the allocation
      it makes. */
  lemma ServeReaches(h: Heap, a: Request)
    requires Asked(a).Some? && Asked(a).value.1 + LINE < ADDRESS
    ensures Serve(h, a) == if TooHigh(a) then Result(Asserted, h, 0) else Reach(h, Made(a), a.refused)
  {
    var size := Asked(a).value.1;
    assert size % ADDRESS == size;
    if a.PoolWithTag? {
      PoolFlagsFit(a.pool, true);
      Pool2Reaches(h, Pool2(PoolFlags(a.pool, true), a.bytes, a.tag, a.dispatch, a.refused, a.base));
    } else if a.Pool2? {
      Pool2Reaches(h, a);
    }
  }

  lemma Pool2Reaches(h: Heap, a: Request)
    requires a.Pool2? && Asked(a).Some? && Asked(a).value.1 + LINE < ADDRESS
    ensures Serve(h, a) == if TooHigh(a) then Result(Asserted, h, 0) else Reach(h, Made(a), a.refused)
  {
    var flags, size := a.flags % ULONG, EX_HEADER + a.bytes;
    assert size % ADDRESS == size;
    assert Reach(h, Made(a), a.refused) == Wrap(Allocate(h, flags, size, a.tag, a.refused, a.base), flags);
  }

  lemma UnaskedStops(h: Heap, a: Request)
    requires Asked(a).None?
    ensures Serve(h, a) == Result(if a.Lower? then Asserted else BugCheck, h, 0)
  {
  }

  lemma MadeShape(s: State, a: Request)
    requires Allowed(s, Allocating(a)) && Asked(a).Some?
    ensures Shape(Made(a)) && Headed(Made(a)) && 0 < Made(a).size
  {
  }

  /** A request leaves the state alone or adds the allocation it makes. */
  lemma AllocatingResult(s: State, a: Request)
    requires Exec(s, Allocating(a)).Some?
    ensures Exec(s, Allocating(a)) == Some(s)
         || (Asked(a).Some? && Made(a).base != 0 && Exec(s, Allocating(a)) == Some(Added(s, Made(a))))
  {
    if Asked(a).None? {
      UnaskedStops(s.heap, a);
    } else {
      MadeShape(s, a);
      ServeReaches(s.heap, a);
      ReachResult(s.heap, Made(a), a.refused);
    }
  }

  ghost function Added(s: State, al: Allocation): State {
    State(Served(s.heap, al), s.live[al.base + Offset(al.kind) := al], s.lost)
  }

  lemma AllocatingKeeps(s: State, a: Request)
    requires Inv(s)
    ensures Kept(Exec(s, Allocating(a)))
  {
    var s' := Exec(s, Allocating(a));
    if s'.Some? {
      AllocatingResult(s, a);
      if s' != Some(s) {
        MadeShape(s, a);
        AllocationKeeps(s, Made(a));
      }
    }
  }

  // ----- freeing

  ghost predicate Agrees(al: Allocation, flags: nat, tag: nat) {
    flags == al.flags && (tag == 0 || tag == al.tag)
  }

  ghost function Taken(s: State, q: nat): State
    requires q in s.live
  {
    State(Heap(s.heap.blocks - {s.live[q].base}, s.heap.mem, s.heap.leaks - {q}), s.live - {q}, s.lost)
  }

  /** What holds of one live pointer. */
  ghost predicate Owned(s: State, q: nat) {
    && q in s.live && Stored(s.heap.mem, q, s.live[q]) && Shape(s.live[q]) && Headed(s.live[q])
    && Backed(s.heap.blocks, q, s.live[q]) && (q in s.heap.leaks <==> q !in s.lost)
  }

  lemma LiveIsOwned(s: State, q: nat)
    requires Inv(s) && q in s.live
    ensures Owned(s, q)
  {
  }

  /** Freeing a live pointer asserts exactly when the flags or tag do not agree or a failed
      reallocation dropped it; otherwise the block's own base goes back to the function that matches
      how it was obtained. */
  lemma FreeResult(s: State, q: nat, flags: nat, tag: nat)
    requires Owned(s, q)
    ensures Free(s.heap, q, flags, tag)
         == if Agrees(s.live[q], flags, tag) && q !in s.lost then Result(Running, Taken(s, q).heap, 0)
            else Result(Asserted, s.heap, 0)
  {
    HeaderReads(s.heap.mem, q, s.live[q]);
  }

  /** The second layer finds the flags the block was allocated with. */
  lemma PoolFreeResult(s: State, q: nat, tag: nat)
    requires Owned(s, q) && s.live[q].pool
    ensures ExFree(s.heap, q + EX_HEADER, tag) == Free(s.heap, q, s.live[q].flags, tag)
  {
    HeaderReads(s.heap.mem, q, s.live[q]);
  }

  lemma FreeingResult(s: State, q: nat, flags: nat, tag: nat)
    requires Owned(s, q) && !s.live[q].pool
    ensures Exec(s, Freeing(q, flags, tag))
         == if Agrees(s.live[q], flags, tag) && q !in s.lost then Some(Taken(s, q)) else None
  {
    FreeResult(s, q, flags, tag);
  }

  lemma PoolFreeingResult(s: State, q: nat, tag: nat)
    requires Owned(s, q) && s.live[q].pool
    ensures Exec(s, PoolFreeing(q + EX_HEADER, tag))
         == if Agrees(s.live[q], s.live[q].flags, tag) && q !in s.lost then Some(Taken(s, q)) else None
  {
    PoolFreeResult(s, q, tag);
    FreeResult(s, q, s.live[q].flags, tag);
  }

  lemma LeaksTake(leaks: map<nat, nat>, live: map<nat, Allocation>, lost: set<nat>, q: nat)
    requires Leaks(leaks, live, lost) && q in live && q !in lost
    ensures Leaks(leaks - {q}, live - {q}, lost)
  {
  }

  lemma AllStoredTake(mem: Memory, live: map<nat, Allocation>, q: nat)
    requires AllStored(mem, live)
    ensures AllStored(mem, live - {q})
  {
  }

  lemma TakenKeeps(s: State, q: nat)
    requires Inv(s) && q in s.live && q !in s.lost
    ensures Inv(Taken(s, q))
  {
    TakeKeeps(s.live, s.heap.blocks, q);
    AllStoredTake(s.heap.mem, s.live, q);
    LeaksTake(s.heap.leaks, s.live, s.lost, q);
  }

  lemma FreeingNothing(s: State, flags: nat, tag: nat)
    requires 0 !in s.live
    ensures Exec(s, Freeing(0, flags, tag)) == Some(s) && Exec(s, PoolFreeing(0, tag)) == Some(s)
    ensures Free(s.heap, 0, flags, tag) == Result(Running, s.heap, 0) && ExFree(s.heap, 0, tag) == Result(BugCheck, s.heap, 0)
  {
    assert s.live - {0} == s.live;
  }

  lemma NullIsNotLive(s: State)
    requires Inv(s)
    ensures 0 !in s.live
  {
  }

  lemma FreeingKeeps(s: State, q: nat, flags: nat, tag: nat)
    requires Inv(s) && q != 0 && Allowed(s, Freeing(q, flags, tag))
    ensures Kept(Exec(s, Freeing(q, flags, tag)))
  {
    LiveIsOwned(s, q);
    FreeingResult(s, q, flags, tag);
    if q !in s.lost {
      TakenKeeps(s, q);
    }
  }

  lemma PoolTakenKeeps(s: State, q: nat, tag: nat)
    requires Inv(s) && q in s.live && s.live[q].pool
    ensures Kept(Exec(s, PoolFreeing(q + EX_HEADER, tag)))
  {
    LiveIsOwned(s, q);
    PoolFreeingResult(s, q, tag);
    if q !in s.lost {
      TakenKeeps(s, q);
    }
  }

  lemma PoolFreeingKeeps(s: State, p: nat, tag: nat)
    requires Inv(s) && p != 0 && Allowed(s, PoolFreeing(p, tag))
    ensures Kept(Exec(s, PoolFreeing(p, tag)))
  {
    PoolTakenKeeps(s, p - EX_HEADER, tag);
  }

  lemma NullFreeingKeeps(s: State, flags: nat, tag: nat)
    requires Inv(s)
    ensures Kept(Exec(s, Freeing(0, flags, tag))) && Kept(Exec(s, PoolFreeing(0, tag)))
  {
    NullIsNotLive(s);
    FreeingNothing(s, flags, tag);
  }

  // ----- the owners' writes

  lemma LoadOverwritten(mem: Memory, a: nat, n: nat, at: nat, bytes: Bytes)
    requires at + |bytes| <= n
    ensures Load(Store(mem, a + at, bytes), a, n) == Overwritten(Load(mem, a, n), at, bytes)
  {
    var loaded, expected := Load(Store(mem, a + at, bytes), a, n), Overwritten(Load(mem, a, n), at, bytes);
    forall i | 0 <= i < n
      ensures loaded[i] == expected[i]
    {
      StoreByte(mem, a + at, bytes, a + i);
    }
  }

  lemma WriteStored(mem: Memory, q: nat, al: Allocation, at: nat, bytes: Bytes)
    requires Stored(mem, q, al) && Shape(al) && at + |bytes| <= |al.data|
    ensures Stored(Store(mem, q + Lead(al.pool) + at, bytes), q, al.(data := Overwritten(al.data, at, bytes)))
  {
    var a := q + Lead(al.pool) + at;
    LoadApart(mem, a, bytes, q - HEADER, HEADER);
    if al.pool {
      LoadApart(mem, a, bytes, q, 4);
    }
    LoadOverwritten(mem, q + Lead(al.pool), |al.data|, at, bytes);
  }

  lemma TableRenews(live: map<nat, Allocation>, blocks: map<nat, Block>, q: nat, data: Bytes)
    requires Table(live, blocks) && q in live && |data| == |live[q].data|
    ensures Table(live[q := live[q].(data := data)], blocks)
  {
  }

  lemma HeadedRenews(live: map<nat, Allocation>, q: nat, data: Bytes)
    requires AllHeaded(live) && q in live
    ensures AllHeaded(live[q := live[q].(data := data)])
  {
  }

  lemma BasesRenew(live: map<nat, Allocation>, q: nat, data: Bytes)
    requires q in live
    ensures Bases(live[q := live[q].(data := data)]) == Bases(live)
  {
    var live' := live[q := live[q].(data := data)];
    assert live'.Keys == live.Keys;
    assert forall r | r in live :: live'[r].base == live[r].base;
  }

  lemma WriteElsewhere(live: map<nat, Allocation>, h: Heap, q: nat, a: nat, bytes: Bytes)
    requires Table(live, h.blocks) && Separate(h.blocks) && AllStored(h.mem, live)
    requires q in live && q <= a && a + |bytes| <= q + live[q].size
    ensures AllStored(Store(h.mem, a, bytes), live - {q})
  {
    RestApart(live, h.blocks, q);
    AllStoredTake(h.mem, live, q);
    AllStoredApart(h.mem, live - {q}, a, bytes);
  }

  lemma RestApart(live: map<nat, Allocation>, blocks: map<nat, Block>, q: nat)
    requires Table(live, blocks) && Separate(blocks) && q in live
    ensures q >= HEADER
    ensures forall r | r in live - {q} ::
        Shape(live[r]) && Apart(q - HEADER, HEADER + live[q].size, r - HEADER, HEADER + live[r].size)
  {
    assert Backed(blocks, q, live[q]);
    forall r | r in live - {q}
      ensures Shape(live[r]) && Apart(q - HEADER, HEADER + live[q].size, r - HEADER, HEADER + live[r].size)
    {
      LiveApart(live, blocks, q, r);
    }
  }

  lemma LeaksRenew(leaks: map<nat, nat>, live: map<nat, Allocation>, lost: set<nat>, q: nat, data: Bytes)
    requires Leaks(leaks, live, lost) && q in live
    ensures Leaks(leaks, live[q := live[q].(data := data)], lost)
  {
  }

  ghost function Rewritten(s: State, q: nat, at: nat, bytes: Bytes): State
    requires q in s.live && at + |bytes| <= |s.live[q].data|
  {
    var al := s.live[q];
    State(s.heap.(mem := Store(s.heap.mem, q + Lead(al.pool) + at, bytes)),
          s.live[q := al.(data := Overwritten(al.data, at, bytes))], s.lost)
  }

  lemma RewrittenKeeps(s: State, q: nat, at: nat, bytes: Bytes)
    requires Inv(s) && q in s.live && at + |bytes| <= |s.live[q].data|
    ensures Inv(Rewritten(s, q, at, bytes))
  {
    LiveIsOwned(s, q);
    RewriteAll(s, q, at, bytes);
    TableRenews(s.live, s.heap.blocks, q, Overwritten(s.live[q].data, at, bytes));
    BasesRenew(s.live, q, Overwritten(s.live[q].data, at, bytes));
    HeadedRenews(s.live, q, Overwritten(s.live[q].data, at, bytes));
    LeaksRenew(s.heap.leaks, s.live, s.lost, q, Overwritten(s.live[q].data, at, bytes));
  }

  lemma RewriteAll(s: State, q: nat, at: nat, bytes: Bytes)
    requires q in s.live && Stored(s.heap.mem, q, s.live[q]) && Shape(s.live[q]) && at + |bytes| <= |s.live[q].data|
    requires Table(s.live, s.heap.blocks) && Separate(s.heap.blocks) && AllStored(s.heap.mem, s.live)
    ensures AllStored(Rewritten(s, q, at, bytes).heap.mem, Rewritten(s, q, at, bytes).live)
  {
    var a := q + Lead(s.live[q].pool) + at;
    assert q <= a && a + |bytes| <= q + s.live[q].size;
    WriteElsewhere(s.live, s.heap, q, a, bytes);
    RewriteStored(s, q, at, bytes);
  }

  lemma RewriteStored(s: State, q: nat, at: nat, bytes: Bytes)
    requires q in s.live && Stored(s.heap.mem, q, s.live[q]) && Shape(s.live[q]) && at + |bytes| <= |s.live[q].data|
    requires AllStored(Store(s.heap.mem, q + Lead(s.live[q].pool) + at, bytes), s.live - {q})
    ensures AllStored(Rewritten(s, q, at, bytes).heap.mem, Rewritten(s, q, at, bytes).live)
  {
    var al := s.live[q];
    var a := q + Lead(al.pool) + at;
    WriteStored(s.heap.mem, q, al, at, bytes);
    AllStoredUpdate(Store(s.heap.mem, a, bytes), s.live, q, al.(data := Overwritten(al.data, at, bytes)));
  }

  lemma WritingResult(s: State, q: nat, at: nat, bytes: Bytes)
    requires Allowed(s, Writing(q, at, bytes))
    ensures Exec(s, Writing(q, at, bytes)) == Some(Rewritten(s, q, at, bytes))
  {
  }

  lemma WritingKeeps(s: State, q: nat, at: nat, bytes: Bytes)
    requires Inv(s)
    ensures Kept(Exec(s, Writing(q, at, bytes)))
  {
    if Allowed(s, Writing(q, at, bytes)) {
      WritingResult(s, q, at, bytes);
      RewrittenKeeps(s, q, at, bytes);
    }
  }

  lemma AllStoredUpdate(mem: Memory, live: map<nat, Allocation>, q: nat, al: Allocation)
    requires AllStored(mem, live - {q}) && Stored(mem, q, al)
    ensures AllStored(mem, live[q := al])
  {
    var live' := live[q := al];
    forall r | r in live'
      ensures Stored(mem, r, live'[r])
    {
      assert r != q ==> r in live - {q};
    }
  }

  // ----- reallocation

  /** The bytes of the old block that reach the new one, and what follows them. */
  ghost function Grown(mem: Memory, al: Allocation, base: nat, n: nat): Memory {
    var offset := Offset(al.kind);
    var moved := Store(mem, base, Load(mem, al.base, Least(offset + al.size, offset + n)));
    if n > al.size then Store(moved, base + offset + al.size, Repeat(Filler(al.flags), n - al.size)) else moved
  }

  /** A successful reallocation. */
  ghost function Moved(s: State, q: nat, base: nat, n: nat): State
    requires q in s.live
  {
    var al := Resize(s.live[q], base, n);
    var p := base + Offset(al.kind);
    State(Heap((s.heap.blocks - {s.live[q].base})[base := BlockFor(al.kind, n)], Grown(s.heap.mem, s.live[q], base, n),
               (s.heap.leaks - {q})[p := n]),
          (s.live - {q})[p := al], s.lost)
  }

  /** A reallocation that the C runtime has no memory for. */
  ghost function Dropped(s: State, q: nat): State {
    s.(heap := s.heap.(leaks := s.heap.leaks - {q}), lost := s.lost + {q})
  }

  lemma GrownStored(mem: Memory, q: nat, al: Allocation, base: nat, n: nat)
    requires Stored(mem, q, al) && Shape(al) && q == al.base + Offset(al.kind) && !al.pool && n + LINE < ADDRESS
    ensures Stored(Grown(mem, al, base, n), base + Offset(al.kind), Resize(al, base, n))
  {
    var offset, p := Offset(al.kind), base + Offset(al.kind);
    var kept := Least(al.size, n);
    var chunk := Load(mem, al.base, offset + kept);
    var moved := Store(mem, base, chunk);
    LoadWithin(mem, base, chunk, offset - HEADER, HEADER);
    LoadPart(mem, al.base, offset + kept, offset - HEADER, HEADER);
    LoadWithin(mem, base, chunk, offset, kept);
    LoadPart(mem, al.base, offset + kept, offset, kept);
    LoadPart(mem, q, al.size, 0, kept);
    if n > al.size {
      GrowthStored(moved, p, al, n);
    }
  }

  lemma GrowthStored(mem: Memory, p: nat, al: Allocation, n: nat)
    requires Stored(mem, p, al) && Shape(al) && !al.pool && n > al.size
    ensures Stored(Store(mem, p + al.size, Repeat(Filler(al.flags), n - al.size)), p, Resize(al, al.base, n))
  {
    var more := Repeat(Filler(al.flags), n - al.size);
    LoadApart(mem, p + al.size, more, p - HEADER, HEADER);
    LoadApart(mem, p + al.size, more, p, al.size);
    LoadWithin(mem, p + al.size, more, 0, n - al.size);
    var mem' := Store(mem, p + al.size, more);
    LoadPart(mem', p, n, 0, al.size);
    LoadPart(mem', p, n, al.size, n - al.size);
    var loaded := Load(mem', p, n);
    assert loaded == loaded[0..al.size] + loaded[al.size..n];
  }

  lemma ReallocateAsserts(s: State, q: nat, flags: nat, n: nat, tag: nat, base: nat)
    requires Owned(s, q)
    requires !Agrees(s.live[q], flags, tag) || s.live[q].recorded != s.live[q].size || q in s.lost
    ensures Reallocate(s.heap, q, flags, s.live[q].size, n, tag, false, base).stop == Asserted
  {
    HeaderReads(s.heap.mem, q, s.live[q]);
  }

  lemma ReallocateResult(s: State, q: nat, flags: nat, n: nat, tag: nat, base: nat)
    requires Owned(s, q) && !s.live[q].pool && n + LINE < ADDRESS
    requires Agrees(s.live[q], flags, tag) && s.live[q].recorded == s.live[q].size && q !in s.lost
    ensures Reallocate(s.heap, q, flags, s.live[q].size, n, tag, false, base) ==
      if base == 0 then Result(Running, Dropped(s, q).heap, 0)
      else Result(Running, Moved(s, q, base, n).heap, base + Offset(s.live[q].kind))
  {
    HeaderReads(s.heap.mem, q, s.live[q]);
    MoveResult(s, q, base, n);
  }

  lemma MoveResult(s: State, q: nat, base: nat, n: nat)
    requires q in s.live && Backed(s.heap.blocks, q, s.live[q]) && n + LINE < ADDRESS
    ensures var al := s.live[q];
      var moved := Move(s.heap, al.base, (Offset(al.kind) + n) % ADDRESS, al.kind, base);
      && moved.blocks == Moved(s, q, base, n).heap.blocks && moved.leaks == s.heap.leaks
      && Grown(s.heap.mem, al, base, n) ==
           if n > al.size then Store(moved.mem, base + Offset(al.kind) + al.size, Repeat(Filler(al.flags), n - al.size))
           else moved.mem
  {
    var al := s.live[q];
    var block := BlockFor(al.kind, n);
    assert s.heap.blocks - {al.base} + map[base := block] == (s.heap.blocks - {al.base})[base := block];
  }

  /** Reallocating with the true old size asserts exactly when the flags or tag do not agree, an
      earlier reallocation changed the size that the header still records, or one failed. */
  lemma ReallocatingResult(s: State, q: nat, flags: nat, oldSize: nat, n: nat, tag: nat, refused: bool, base: nat)
    requires Owned(s, q) && Allowed(s, Reallocating(q, flags, oldSize, n, tag, refused, base))
    ensures var al := s.live[q];
      Exec(s, Reallocating(q, flags, oldSize, n, tag, refused, base)) ==
        if refused then Some(s)
        else if !Agrees(al, flags, tag) || al.recorded != al.size || q in s.lost then None
        else if base == 0 then Some(Dropped(s, q))
        else Some(Moved(s, q, base, n))
  {
    if Agrees(s.live[q], flags, tag) && s.live[q].recorded == s.live[q].size && q !in s.lost {
      ReallocateResult(s, q, flags, n, tag, base);
    } else {
      ReallocateAsserts(s, q, flags, n, tag, base);
    }
  }

  lemma DroppedKeeps(s: State, q: nat)
    requires Inv(s) && q in s.live
    ensures Inv(Dropped(s, q))
  {
  }

  lemma GrownElsewhere(mem: Memory, live: map<nat, Allocation>, al: Allocation, base: nat, n: nat)
    requires AllStored(mem, live)
    requires forall r | r in live ::
        Shape(live[r]) && Apart(base, Offset(al.kind) + n, r - HEADER, HEADER + live[r].size)
    ensures AllStored(Grown(mem, al, base, n), live)
  {
    var offset := Offset(al.kind);
    var chunk := Load(mem, al.base, Least(offset + al.size, offset + n));
    AllStoredApart(mem, live, base, chunk);
    if n > al.size {
      AllStoredApart(Store(mem, base, chunk), live, base + offset + al.size, Repeat(Filler(al.flags), n - al.size));
    }
  }

  lemma MovedStored(s: State, q: nat, base: nat, n: nat)
    requires Owned(s, q) && !s.live[q].pool && n + LINE < ADDRESS
    requires Kept(Some(Taken(s, q)))
    requires Placeable(s.heap.blocks - {s.live[q].base}, base, BlockFor(s.live[q].kind, n))
    ensures AllStored(Moved(s, q, base, n).heap.mem, Moved(s, q, base, n).live)
  {
    MovedElsewhere(Taken(s, q), s.live[q], base, n);
    GrownStored(s.heap.mem, q, s.live[q], base, n);
  }

  lemma MovedElsewhere(t: State, al: Allocation, base: nat, n: nat)
    requires Table(t.live, t.heap.blocks) && AllStored(t.heap.mem, t.live)
    requires Placeable(t.heap.blocks, base, BlockFor(al.kind, n))
    ensures AllStored(Grown(t.heap.mem, al, base, n), t.live)
  {
    forall r | r in t.live
      ensures Shape(t.live[r]) && Apart(base, Offset(al.kind) + n, r - HEADER, HEADER + t.live[r].size)
    {
      PlacedApart(t.live, t.heap.blocks, base, BlockFor(al.kind, n), r);
    }
    GrownElsewhere(t.heap.mem, t.live, al, base, n);
  }

  lemma ResizeShape(al: Allocation, base: nat, n: nat)
    requires Shape(al) && !al.pool && n + LINE < ADDRESS
    ensures Shape(Resize(al, base, n)) && (Headed(al) ==> Headed(Resize(al, base, n)))
  {
  }

  lemma MovedKeeps(s: State, q: nat, base: nat, n: nat)
    requires Inv(s) && q in s.live && !s.live[q].pool && q !in s.lost && n + LINE < ADDRESS
    requires Placeable(s.heap.blocks - {s.live[q].base}, base, BlockFor(s.live[q].kind, n))
    ensures Kept(Some(Moved(s, q, base, n)))
  {
    LiveIsOwned(s, q);
    TakenKeeps(s, q);
    MovedInto(s, q, base, n);
  }

  lemma MovedInto(s: State, q: nat, base: nat, n: nat)
    requires Owned(s, q) && Kept(Some(Taken(s, q))) && !s.live[q].pool && n + LINE < ADDRESS
    requires Placeable(s.heap.blocks - {s.live[q].base}, base, BlockFor(s.live[q].kind, n))
    ensures Kept(Some(Moved(s, q, base, n)))
  {
    var t, al := Taken(s, q), Resize(s.live[q], base, n);
    ResizeShape(s.live[q], base, n);
    MovedStored(s, q, base, n);
    PlaceKeeps(t.live, t.heap.blocks, al);
    HeadedAdds(t.live, base + Offset(al.kind), al);
    LeaksAdd(t.heap.leaks, t.live, t.lost, base + Offset(al.kind), al);
  }

  lemma ReallocatingKeeps(s: State, q: nat, flags: nat, oldSize: nat, n: nat, tag: nat, refused: bool, base: nat)
    requires Inv(s) && Allowed(s, Reallocating(q, flags, oldSize, n, tag, refused, base))
    ensures Kept(Exec(s, Reallocating(q, flags, oldSize, n, tag, refused, base)))
  {
    LiveIsOwned(s, q);
    ReallocatingResult(s, q, flags, oldSize, n, tag, refused, base);
    if base == 0 {
      DroppedKeeps(s, q);
    } else if q !in s.lost {
      MovedKeeps(s, q, base, n);
    }
  }

  // ----- runs

  lemma ExecKeeps(s: State, a: Action)
    requires Inv(s)
    ensures Kept(Exec(s, a))
  {
    if Allowed(s, a) {
      match a
      case Allocating(request) => AllocatingKeeps(s, request);
      case Reallocating(q, flags, oldSize, newSize, tag, refused, base) =>
        ReallocatingKeeps(s, q, flags, oldSize, newSize, tag, refused, base);
      case Freeing(q, flags, tag) =>
        if q == 0 {
          NullFreeingKeeps(s, flags, tag);
        } else {
          FreeingKeeps(s, q, flags, tag);
        }
      case PoolFreeing(p, tag) =>
        if p == 0 {
          NullFreeingKeeps(s, 0, tag);
        } else {
          PoolFreeingKeeps(s, p, tag);
        }
      case Writing(q, at, bytes) => WritingKeeps(s, q, at, bytes);
    }
  }

  const INIT := State(Heap(map[], map[], map[]), map[], {})

  ghost function Run(actions: seq<Action>): Option<State> {
    if actions == [] then Some(INIT)
    else
      var before := Run(actions[..|actions| - 1]);
      if before.Some? then Exec(before.value, actions[|actions| - 1]) else None
  }

  /** The heap is in every run what the table of separate buffers says. */
  lemma {:induction false} RunKeeps(actions: seq<Action>)
    ensures Kept(Run(actions))
  {
    if actions != [] {
      var n := |actions| - 1;
      RunKeeps(actions[..n]);
      if Run(actions[..n]).Some? {
        ExecKeeps(Run(actions[..n]).value, actions[n]);
      }
    }
  }
}
