/**
 The layered allocator: `cxplat_allocate` and its companions (`memory_winuser.cpp`) with their header
 and leak table (`leak_detector.cpp`), and the pool functions on top with a second header (`ex.cpp`).
 This is the debug build. The C runtime's own heap is the set of blocks it has handed out; where it
 places a block, or that it has none, is an input.
 */
module PoolMemory {

  const ADDRESS: nat := 0x1_0000_0000_0000_0000
  const ULONG: nat := 0x1_0000_0000

  type Bytes = seq<nat>
  type Memory = map<nat, nat>

  function Byte(mem: Memory, a: nat): nat {
    if a in mem then mem[a] else 0
  }

  function Load(mem: Memory, a: nat, n: nat): Bytes {
    seq<nat>(n, i requires 0 <= i < n => Byte(mem, a + i))
  }

  function Store(mem: Memory, a: nat, bytes: Bytes): Memory {
    if bytes == [] then mem
    else var n := |bytes| - 1; Store(mem, a, bytes[..n])[a + n := bytes[n]]
  }

  function Repeat(b: nat, n: nat): Bytes {
    seq(n, i requires 0 <= i < n => b)
  }

  lemma {:induction false} StoreByte(mem: Memory, a: nat, bytes: Bytes, x: nat)
    ensures Byte(Store(mem, a, bytes), x) == if a <= x < a + |bytes| then bytes[x - a] else Byte(mem, x)
  {
    if bytes != [] {
      StoreByte(mem, a, bytes[..|bytes| - 1], x);
    }
  }

  lemma LoadWithin(mem: Memory, a: nat, bytes: Bytes, at: nat, n: nat)
    requires at + n <= |bytes|
    ensures Load(Store(mem, a, bytes), a + at, n) == bytes[at..at + n]
  {
    var loaded := Load(Store(mem, a, bytes), a + at, n);
    forall i | 0 <= i < n
      ensures loaded[i] == bytes[at..at + n][i]
    {
      StoreByte(mem, a, bytes, a + at + i);
    }
  }

  predicate Apart(a: nat, m: nat, b: nat, n: nat) {
    a + m <= b || b + n <= a
  }

  lemma LoadApart(mem: Memory, a: nat, bytes: Bytes, b: nat, n: nat)
    requires Apart(a, |bytes|, b, n)
    ensures Load(Store(mem, a, bytes), b, n) == Load(mem, b, n)
  {
    var loaded := Load(Store(mem, a, bytes), b, n);
    forall i | 0 <= i < n
      ensures loaded[i] == Load(mem, b, n)[i]
    {
      StoreByte(mem, a, bytes, b + i);
    }
  }

  lemma LoadPart(mem: Memory, a: nat, n: nat, at: nat, m: nat)
    requires at + m <= n
    ensures Load(mem, a + at, m) == Load(mem, a, n)[at..at + m]
  {
  }

  // ----- little-endian words

  function Encode(v: nat, n: nat): (bytes: Bytes)
    ensures |bytes| == n
  {
    if n == 0 then [] else [v % 256] + Encode(v / 256, n - 1)
  }

  function Decode(bytes: Bytes): nat {
    if bytes == [] then 0 else bytes[0] + 256 * Decode(bytes[1..])
  }

  function Power(n: nat): nat {
    if n == 0 then 1 else 256 * Power(n - 1)
  }

  lemma {:induction false} WordRoundTrip(v: nat, n: nat)
    requires v < Power(n)
    ensures Decode(Encode(v, n)) == v
  {
    if n > 0 {
      WordRoundTrip(v / 256, n - 1);
      assert Encode(v, n)[1..] == Encode(v / 256, n - 1);
    }
  }

  lemma Round4(v: nat)
    requires v < ULONG
    ensures Decode(Encode(v, 4)) == v
  {
    assert Power(1) == 256;
    assert Power(2) == 0x1_0000;
    assert Power(3) == 0x100_0000;
    WordRoundTrip(v, 4);
  }

  lemma Round8(v: nat)
    requires v < ADDRESS
    ensures Decode(Encode(v, 8)) == v
  {
    assert Power(1) == 256;
    assert Power(2) == 0x1_0000;
    assert Power(3) == 0x100_0000;
    assert Power(4) == ULONG;
    assert Power(5) == 256 * ULONG;
    assert Power(6) == 0x1_0000 * ULONG;
    assert Power(7) == 0x100_0000 * ULONG;
    WordRoundTrip(v, 8);
  }
}

module PoolHeap {
  import opened PoolMemory

  const CACHE_ALIGNED: nat := 0x8
  const UNINITIALIZED: nat := 0x2
  const NON_PAGED: nat := 0x40
  const PAGED: nat := 0x100
  const LINE: nat := 64
  const HEADER: nat := 16
  const EX_HEADER: nat := 64

  /** Which pair of C runtime functions a block belongs to. */
  datatype Kind = Plain | Aligned

  datatype Block = Block(size: nat, kind: Kind)

  /** The C runtime's live blocks by base address, the memory, and the leak table. */
  datatype Heap = Heap(blocks: map<nat, Block>, mem: Memory, leaks: map<nat, nat>)

  /** How a call ended: normally, in a bug check, in a failed assertion, or by giving the C runtime
      an address it never handed out or hands out by the other pair of functions. */
  datatype Stop = Running | BugCheck | Asserted | Corrupts

  /** The null pointer is 0. */
  datatype Result = Result(stop: Stop, heap: Heap, pointer: nat)

  predicate Has(flags: nat, bit: nat)
    requires bit > 0
  {
    flags / bit % 2 == 1
  }

  function KindOf(flags: nat): Kind {
    if Has(flags, CACHE_ALIGNED) then Aligned else Plain
  }

  function Offset(kind: Kind): nat {
    if kind == Aligned then LINE else HEADER
  }

  function Filler(flags: nat): nat {
    if Has(flags, UNINITIALIZED) then 0xcc else 0
  }

  /** The bytes of a `cxplat_allocation_header_t`. */
  function Header(flags: nat, tag: nat, size: nat): (bytes: Bytes)
    ensures |bytes| == HEADER
  {
    Encode(flags, 4) + Encode(tag, 4) + Encode(size, 8)
  }

  function HeaderFlags(mem: Memory, q: nat): nat
    requires q >= HEADER
  {
    Decode(Load(mem, q - HEADER, 4))
  }

  function HeaderTag(mem: Memory, q: nat): nat
    requires q >= HEADER
  {
    Decode(Load(mem, q - HEADER + 4, 4))
  }

  function HeaderSize(mem: Memory, q: nat): nat
    requires q >= HEADER
  {
    Decode(Load(mem, q - HEADER + 8, 8))
  }

  /** `cxplat_allocate`; `refused` is the memory limit or an injected fault, `base` what the C runtime
      returns. */
  function Allocate(h: Heap, flags: nat, size: nat, tag: nat, refused: bool, base: nat): Result {
    if size == 0 then Result(Asserted, h, 0)
    else if refused || base == 0 then Result(Running, h, 0)
    else
      var kind := KindOf(flags);
      var q := base + Offset(kind);
      var blocks := h.blocks[base := Block((Offset(kind) + size) % ADDRESS, kind)];
      var mem := Store(Store(h.mem, q, Repeat(Filler(flags), size)), q - HEADER, Header(flags, tag, size));
      Result(Running, Heap(blocks, mem, h.leaks[q := size]), q)
  }

  /** `free` or `_aligned_free`. */
  function Return(h: Heap, base: int, kind: Kind): Result {
    if base in h.blocks && h.blocks[base].kind == kind then Result(Running, h.(blocks := h.blocks - {base}), 0)
    else Result(Corrupts, h, 0)
  }

  /** `cxplat_free`. */
  function Free(h: Heap, q: nat, flags: nat, tag: nat): Result
    requires q == 0 || q >= HEADER
  {
    if q == 0 then Result(Running, h, 0)
    else if tag != 0 && HeaderTag(h.mem, q) != tag then Result(Asserted, h, 0)
    else if HeaderFlags(h.mem, q) != flags then Result(Asserted, h, 0)
    else if q !in h.leaks then Result(Asserted, h, 0)
    else Return(h.(leaks := h.leaks - {q}), q - Offset(KindOf(flags)), KindOf(flags))
  }

  function Least(a: nat, b: nat): nat {
    if a < b then a else b
  }

  /** `realloc` or `_aligned_realloc` of the block at `was` to a block at `base`. */
  function Move(h: Heap, was: nat, size: nat, kind: Kind, base: nat): Heap
    requires was in h.blocks
  {
    Heap(h.blocks - {was} + map[base := Block(size, kind)],
         Store(h.mem, base, Load(h.mem, was, Least(h.blocks[was].size, size))),
         h.leaks)
  }

  /** `cxplat_reallocate`; when the C runtime has no block the old one stays. */
  function Reallocate(
      h: Heap, q: nat, flags: nat, oldSize: nat, newSize: nat, tag: nat, refused: bool, base: nat): Result
    requires q >= HEADER
  {
    var kind := KindOf(flags);
    var was := q - Offset(kind);
    if refused then Result(Running, h, 0)
    else if HeaderSize(h.mem, q) != oldSize || (tag != 0 && HeaderTag(h.mem, q) != tag) || HeaderFlags(h.mem, q) != flags
      then Result(Asserted, h, 0)
    else if !(was in h.blocks && h.blocks[was].kind == kind) then Result(Corrupts, h, 0)
    else
      var moved := if base == 0 then h else Move(h, was, (Offset(kind) + newSize) % ADDRESS, kind, base);
      if q !in h.leaks then Result(Asserted, moved, 0)
      else if base == 0 then Result(Running, h.(leaks := h.leaks - {q}), 0)
      else
        var p := base + Offset(kind);
        var mem := if newSize > oldSize then Store(moved.mem, p + oldSize, Repeat(Filler(flags), newSize - oldSize))
                   else moved.mem;
        Result(Running, Heap(moved.blocks, mem, (h.leaks - {q})[p := newSize]), p)
  }

  datatype PoolType =
    | NonPagedPoolNx | NonPagedPoolNxCacheAligned | PagedPool | PagedPoolCacheAligned | OtherPool

  /** `_pool_type_to_flags` for the pool types it knows. */
  function PoolFlags(pool: PoolType, initialize: bool): nat
    requires pool != OtherPool
  {
    (if initialize then 0 else UNINITIALIZED) +
    match pool
    case NonPagedPoolNx => NON_PAGED
    case NonPagedPoolNxCacheAligned => NON_PAGED + CACHE_ALIGNED
    case PagedPool => PAGED
    case PagedPoolCacheAligned => PAGED + CACHE_ALIGNED
  }

  /** The second layer: one cache line in front of the caller's bytes, holding the flags. */
  function Wrap(r: Result, flags: nat): Result {
    if r.stop != Running || r.pointer == 0 then r
    else Result(Running, r.heap.(mem := Store(r.heap.mem, r.pointer, Encode(flags, 4))), r.pointer + EX_HEADER)
  }

  function ExAllocateUninitialized(h: Heap, pool: PoolType, bytes: nat, tag: nat, refused: bool, base: nat): Result {
    if tag == 0 || pool == OtherPool then Result(BugCheck, h, 0)
    else
      var flags := PoolFlags(pool, false);
      Wrap(Allocate(h, flags, (EX_HEADER + bytes) % ADDRESS, tag, refused, base), flags)
  }

  /** `ExAllocatePool2`: the 64-bit flags are cut to 32 bits. */
  function ExAllocate2(
      h: Heap, poolFlags: nat, bytes: nat, tag: nat, dispatch: bool, refused: bool, base: nat): Result {
    if tag == 0 || bytes == 0 then Result(BugCheck, h, 0)
    else if !Has(poolFlags, NON_PAGED) && dispatch then Result(Asserted, h, 0)
    else
      var flags := poolFlags % ULONG;
      Wrap(Allocate(h, flags, (EX_HEADER + bytes) % ADDRESS, tag, refused, base), flags)
  }

  function ExAllocateWithTag(
      h: Heap, pool: PoolType, bytes: nat, tag: nat, dispatch: bool, refused: bool, base: nat): Result {
    if pool == OtherPool then Result(BugCheck, h, 0)
    else ExAllocate2(h, PoolFlags(pool, true), bytes, tag, dispatch, refused, base)
  }

  /** `ExFreePoolWithTag`, and `ExFreePool` with tag 0. */
  function ExFree(h: Heap, p: nat, tag: nat): Result
    requires p == 0 || p >= EX_HEADER + HEADER
  {
    if p == 0 then Result(BugCheck, h, 0)
    else Free(h, p - EX_HEADER, Decode(Load(h.mem, p - EX_HEADER, 4)), tag)
  }

  /** The global heap and leak table, and the functions that update them. */
  class Allocator {
    var blocks: map<nat, Block>
    var mem: Memory
    var leaks: map<nat, nat>

    ghost function View(): Heap
      reads this
    {
      Heap(blocks, mem, leaks)
    }

    constructor ()
      ensures View() == Heap(map[], map[], map[])
    {
      blocks, mem, leaks := map[], map[], map[];
    }

    method CxplatAllocate(flags: nat, size: nat, tag: nat, refused: bool, base: nat) returns (stop: Stop, q: nat)
      modifies this
      ensures Result(stop, View(), q) == Allocate(old(View()), flags, size, tag, refused, base)
    {
      stop, q := Running, 0;
      if size == 0 {
        stop := Asserted;
        return;
      }
      if refused || base == 0 {
        return;
      }
      if Has(flags, CACHE_ALIGNED) {
        blocks := blocks[base := Block((LINE + size) % ADDRESS, Aligned)];
        q := base + LINE;
      } else {
        blocks := blocks[base := Block((HEADER + size) % ADDRESS, Plain)];
        q := base + HEADER;
      }
      if !Has(flags, UNINITIALIZED) {
        mem := Store(mem, q, Repeat(0, size));
      } else {
        mem := Store(mem, q, Repeat(0xcc, size));
      }
      mem := Store(mem, q - HEADER, Header(flags, tag, size));
      leaks := leaks[q := size];
    }

    method CxplatFree(q: nat, flags: nat, tag: nat) returns (stop: Stop)
      requires q == 0 || q >= HEADER
      modifies this
      ensures Result(stop, View(), 0) == Free(old(View()), q, flags, tag)
    {
      stop := Running;
      if q == 0 {
        return;
      }
      if !(tag == 0 || HeaderTag(mem, q) == tag) || HeaderFlags(mem, q) != flags || q !in leaks {
        stop := Asserted;
        return;
      }
      leaks := leaks - {q};
      var kind := KindOf(flags);
      var base := q - Offset(kind);
      if base in blocks && blocks[base].kind == kind {
        blocks := blocks - {base};
      } else {
        stop := Corrupts;
      }
    }

    method CrtReallocate(was: nat, size: nat, kind: Kind, base: nat)
      requires was in blocks
      modifies this
      ensures View() == Move(old(View()), was, size, kind, base)
    {
      mem := Store(mem, base, Load(mem, was, Least(blocks[was].size, size)));
      blocks := blocks - {was} + map[base := Block(size, kind)];
    }

    method CxplatReallocate(
        q: nat, flags: nat, oldSize: nat, newSize: nat, tag: nat, refused: bool, base: nat) returns (stop: Stop, p: nat)
      requires q >= HEADER
      modifies this
      ensures Result(stop, View(), p) == Reallocate(old(View()), q, flags, oldSize, newSize, tag, refused, base)
    {
      stop, p := Running, 0;
      if refused {
        return;
      }
      if HeaderSize(mem, q) != oldSize || (tag != 0 && HeaderTag(mem, q) != tag) || HeaderFlags(mem, q) != flags {
        stop := Asserted;
        return;
      }
      var kind := KindOf(flags);
      var was := q - Offset(kind);
      if !(was in blocks && blocks[was].kind == kind) {
        stop := Corrupts;
        return;
      }
      if base != 0 {
        CrtReallocate(was, (Offset(kind) + newSize) % ADDRESS, kind, base);
      }
      if q !in leaks {
        stop := Asserted;
        return;
      }
      leaks := leaks - {q};
      if base != 0 {
        p := base + Offset(kind);
        if newSize > oldSize {
          mem := Store(mem, p + oldSize, Repeat(Filler(flags), newSize - oldSize));
        }
        leaks := leaks[p := newSize];
      }
    }

    method ExAllocatePoolUninitialized(pool: PoolType, bytes: nat, tag: nat, refused: bool, base: nat)
        returns (stop: Stop, p: nat)
      modifies this
      ensures Result(stop, View(), p) == ExAllocateUninitialized(old(View()), pool, bytes, tag, refused, base)
    {
      if tag == 0 || pool == OtherPool {
        return BugCheck, 0;
      }
      var flags := PoolFlags(pool, false);
      stop, p := CxplatAllocate(flags, (EX_HEADER + bytes) % ADDRESS, tag, refused, base);
      if stop == Running && p != 0 {
        mem := Store(mem, p, Encode(flags, 4));
        p := p + EX_HEADER;
      }
    }

    method ExAllocatePool2(poolFlags: nat, bytes: nat, tag: nat, dispatch: bool, refused: bool, base: nat)
        returns (stop: Stop, p: nat)
      modifies this
      ensures Result(stop, View(), p) == ExAllocate2(old(View()), poolFlags, bytes, tag, dispatch, refused, base)
    {
      if tag == 0 || bytes == 0 {
        return BugCheck, 0;
      }
      if !Has(poolFlags, NON_PAGED) && dispatch {
        return Asserted, 0;
      }
      var flags := poolFlags % ULONG;
      stop, p := CxplatAllocate(flags, (EX_HEADER + bytes) % ADDRESS, tag, refused, base);
      if stop == Running && p != 0 {
        mem := Store(mem, p, Encode(flags, 4));
        p := p + EX_HEADER;
      }
    }

    method ExFreePoolWithTag(p: nat, tag: nat) returns (stop: Stop)
      requires p == 0 || p >= EX_HEADER + HEADER
      modifies this
      ensures Result(stop, View(), 0) == ExFree(old(View()), p, tag)
    {
      if p == 0 {
        return BugCheck;
      }
      var header := p - EX_HEADER;
      stop := CxplatFree(header, Decode(Load(mem, header, 4)), tag);
    }
  }
}
