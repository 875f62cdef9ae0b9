/**
 Memory descriptor lists (`io.cpp`, `inc/usersim/mm.h`): page arithmetic, initialization and partial
 lists. `unsigned long` is 32 bits wide and addresses are 64 bits wide; the masks and shifts by powers
 of two are written as `%` and `/`.
 */
module MemoryDescriptors {

  const PAGE_SIZE: nat := 4096
  const ULONG: nat := 0x1_0000_0000
  const ADDRESS: nat := 0x1_0000_0000_0000_0000
  const SIZEOF_MDL: nat := 40
  const SIZEOF_PFN: nat := 4

  type Address = a: nat | a < ADDRESS
  type Length = n: nat | n < ULONG

  function PageAlign(va: Address): Address {
    va - va % PAGE_SIZE
  }

  function ByteOffset(va: Address): Length {
    va % PAGE_SIZE
  }

  /** `ADDRESS_AND_SIZE_TO_SPAN_PAGES`: `size - 1` wraps for an empty range. */
  function SpanPages(va: Address, size: Length): nat {
    var last := (size - 1) % ULONG;
    (last / PAGE_SIZE + (last % PAGE_SIZE + va % PAGE_SIZE) / PAGE_SIZE + 1) % ULONG
  }

  // ----- pages touched

  /** The numbers of the pages that hold a byte of the range. */
  ghost function PagesTouched(va: nat, size: nat): set<nat> {
    set a: nat | va <= a < va + size :: a / PAGE_SIZE
  }

  ghost function Interval(first: nat, past: nat): set<nat>
    decreases past
  {
    if first < past then Interval(first, past - 1) + {past - 1} else {}
  }

  lemma {:induction false} IntervalSize(first: nat, past: nat)
    requires first <= past
    ensures |Interval(first, past)| == past - first
    ensures forall p :: p in Interval(first, past) <==> first <= p < past
    decreases past
  {
    if first < past {
      IntervalSize(first, past - 1);
    }
  }

  lemma PagesAreInterval(va: nat, size: nat)
    requires size > 0
    ensures |PagesTouched(va, size)| == (va + size - 1) / PAGE_SIZE + 1 - va / PAGE_SIZE
  {
    var pages := Interval(va / PAGE_SIZE, (va + size - 1) / PAGE_SIZE + 1);
    IntervalSize(va / PAGE_SIZE, (va + size - 1) / PAGE_SIZE + 1);
    forall p | p in pages
      ensures p in PagesTouched(va, size)
    {
      var a := if p == va / PAGE_SIZE then va else p * PAGE_SIZE;
      assert va <= a < va + size && a / PAGE_SIZE == p;
    }
    assert PagesTouched(va, size) == pages;
  }

  lemma SpanOfBytes(va: Address, size: Length)
    requires size > 0
    ensures SpanPages(va, size) == (va + size - 1) / PAGE_SIZE + 1 - va / PAGE_SIZE
  {
  }

  /** The macro counts the pages touched exactly when the length is not zero; the wrap-around makes
      it 2^20 or one more for an empty range, which touches none. */
  lemma SpanCountsPagesTouched(va: Address, size: Length)
    ensures SpanPages(va, size) == |PagesTouched(va, size)| <==> size != 0
    ensures size == 0 ==> SpanPages(va, size) == 0x10_0000 + if va % PAGE_SIZE == 0 then 0 else 1
  {
    if size == 0 {
      assert PagesTouched(va, size) == {};
    } else {
      PagesAreInterval(va, size);
      SpanOfBytes(va, size);
    }
  }

  // ----- descriptors

  /** The fields of an MDL other than its link. */
  datatype Fields = Fields(size: nat, flags: nat, startVa: Address, byteOffset: Length, byteCount: Length)

  /** `MmInitializeMdl`; the size keeps only 16 bits. */
  function Initialized(va: Address, length: Length): Fields {
    Fields((SIZEOF_MDL + SIZEOF_PFN * SpanPages(va, length)) % 0x1_0000, 0, PageAlign(va), ByteOffset(va), length)
  }

  /** `MmGetMdlVirtualAddress`. */
  function VirtualAddress(m: Fields): Address {
    (m.startVa + m.byteOffset) % ADDRESS
  }

  /** One past the last byte described. */
  function End(m: Fields): nat {
    VirtualAddress(m) + m.byteCount
  }

  /** `IoBuildPartialMdl`: the offset keeps the low 32 bits of the address difference. */
  function Partial(source: Fields, target: Fields, va: Address, length: Length): Fields {
    var offset := ((va - source.startVa) % ADDRESS % ULONG - source.byteOffset) % ULONG;
    var count := if length == 0 then (source.byteCount - offset) % ULONG else length;
    Fields(target.size, source.flags, PageAlign(va), ByteOffset(va), count)
  }

  class Mdl {
    var next: Mdl?
    var size: nat
    var flags: nat
    var startVa: Address
    var byteOffset: Length
    var byteCount: Length

    ghost function View(): Fields
      reads this
    {
      Fields(size, flags, startVa, byteOffset, byteCount)
    }

    constructor (va: Address, length: Length)
      ensures next == null && View() == Initialized(va, length)
    {
      next := null;
      size := (SIZEOF_MDL + SIZEOF_PFN * SpanPages(va, length)) % 0x1_0000;
      flags := 0;
      startVa := PageAlign(va);
      byteOffset := ByteOffset(va);
      byteCount := length;
    }

    /** `MmGetMdlVirtualAddress`: gives back the address the list was made for, or the address a partial
        list was built for. */
    method GetVirtualAddress() returns (va: Address)
      ensures va == VirtualAddress(View())
      ensures forall base: Address, length: Length :: View() == Initialized(base, length) ==> va == base
      ensures forall source: Fields, target: Fields, base: Address, length: Length ::
        View() == Partial(source, target, base, length) ==> va == base
    {
      va := (startVa + byteOffset) % ADDRESS;
    }
  }

  /** `IoAllocateMdl`; `available` is whether the allocation succeeds. */
  method IoAllocateMdl(va: Address, length: Length, available: bool) returns (mdl: Mdl?)
    ensures (mdl != null) == available
    ensures mdl != null ==> fresh(mdl) && mdl.next == null && mdl.View() == Initialized(va, length)
  {
    mdl := null;
    if available {
      mdl := new Mdl(va, length);
    }
  }

  /** The source and the target may be the same object. */
  method IoBuildPartialMdl(source: Mdl, target: Mdl, va: Address, length: Length)
    modifies target
    ensures target.View() == Partial(old(source.View()), old(target.View()), va, length)
    ensures target.next == old(target.next)
  {
    var offset := (va - source.startVa) % ADDRESS % ULONG;
    offset := (offset - source.byteOffset) % ULONG;
    var count := length;
    if count == 0 {
      count := (source.byteCount - offset) % ULONG;
    }
    target.startVa := PageAlign(va);
    target.byteCount := count;
    target.byteOffset := ByteOffset(va);
    target.flags := source.flags;
  }

  // ----- what they describe

  /** Initializing a descriptor and reading it back gives the range; the 16-bit size is that of a
      descriptor with one page frame number per page exactly for non-empty ranges of at most 16373
      pages and for empty ranges at a page boundary. */
  lemma InitializedDescribes(va: Address, length: Length)
    ensures VirtualAddress(Initialized(va, length)) == va && Initialized(va, length).byteCount == length
    ensures Initialized(va, length).size == SIZEOF_MDL + SIZEOF_PFN * |PagesTouched(va, length)|
        <==> if length == 0 then va % PAGE_SIZE == 0 else SpanPages(va, length) <= 16373
  {
    SpanCountsPagesTouched(va, length);
    if length == 0 {
      assert PagesTouched(va, length) == {};
    }
  }

  /** The offset is the distance from the start of the source, modulo 2^32. */
  lemma PartialOffset(source: Fields, va: Address)
    ensures ((va - source.startVa) % ADDRESS % ULONG - source.byteOffset) % ULONG
         == (va - VirtualAddress(source)) % ULONG
  {
    WrapTwice(va - source.startVa);
    WrapTwice(source.startVa + source.byteOffset);
    var x, y := va - source.startVa, source.startVa + source.byteOffset;
    WrapDifference(x, source.byteOffset);
    WrapSubtract(va, y % ADDRESS);
    WrapSubtract(va, y);
  }

  lemma WrapTwice(x: int)
    ensures x % ADDRESS % ULONG == x % ULONG
  {
  }

  lemma WrapDifference(x: int, y: int)
    ensures (x % ULONG - y) % ULONG == (x - y) % ULONG
  {
  }

  lemma WrapSubtract(x: int, y: int)
    ensures (x - y % ULONG) % ULONG == (x - y) % ULONG
  {
  }

  /** For every address and length, a partial list starts at the address; with no length it describes
      the bytes up to the end of the source exactly when there are at least 0 and fewer than 2^32 of
      them, and always agrees with that number modulo 2^32. */
  lemma PartialDescribes(source: Fields, target: Fields, va: Address, length: Length)
    ensures VirtualAddress(Partial(source, target, va, length)) == va
    ensures Partial(source, target, va, length).flags == source.flags && Partial(source, target, va, length).size == target.size
    ensures length != 0 ==> Partial(source, target, va, length).byteCount == length
    ensures Partial(source, target, va, 0).byteCount == (End(source) - va) % ULONG
    ensures End(Partial(source, target, va, 0)) == End(source) <==> 0 <= End(source) - va < ULONG
  {
    PartialRemaining(source, target, va);
    InRange(End(source) - va);
  }

  lemma PartialRemaining(source: Fields, target: Fields, va: Address)
    ensures Partial(source, target, va, 0).byteCount == (End(source) - va) % ULONG
  {
    PartialOffset(source, va);
    WrapSubtract(source.byteCount, va - VirtualAddress(source));
  }

  lemma InRange(x: int)
    ensures x % ULONG == x <==> 0 <= x < ULONG
  {
  }

  /** For an address inside the source the result describes exactly the requested or the remaining
      bytes, and stays inside exactly when the request does. */
  lemma PartialInside(source: Fields, target: Fields, va: Address, length: Length)
    requires VirtualAddress(source) <= va < End(source)
    ensures var p := Partial(source, target, va, length);
      && VirtualAddress(p) == va
      && End(p) == (if length == 0 then End(source) else va + length)
      && (End(p) <= End(source) <==> length <= End(source) - va)
  {
    PartialDescribes(source, target, va, length);
  }

  /** A partial of a partial is the direct partial, exactly when the second asks for a length, the
      first did not, or the first one ends where its source does (modulo 2^32). */
  lemma PartialOfPartial(
      source: Fields, between: Fields, target: Fields, va1: Address, length1: Length, va2: Address, length2: Length)
    ensures Partial(Partial(source, between, va1, length1), target, va2, length2) == Partial(source, target, va2, length2)
        <==> length2 != 0 || length1 == 0 || (va1 + length1 - End(source)) % ULONG == 0
  {
    var p := Partial(source, between, va1, length1);
    PartialDescribes(source, between, va1, length1);
    PartialDescribes(source, target, va2, length2);
    PartialDescribes(p, target, va2, length2);
    SameRemainder(End(p) - va2, End(source) - va2);
    if length1 == 0 {
      WrapAdd(va1, End(source) - va1);
      SameRemainder(End(p), End(source));
    }
  }

  lemma WrapAdd(x: int, y: int)
    ensures (x + y % ULONG - (x + y)) % ULONG == 0
  {
  }

  lemma SameRemainder(x: int, y: int)
    ensures x % ULONG == y % ULONG <==> (x - y) % ULONG == 0
  {
  }

  /** What a caller sees of a list built with no length from the list of a buffer. */
  lemma RemainderOfBuffer(base: Address, length: Length, target: Fields, offset: Length)
    requires base + length <= ADDRESS && offset < length
    ensures var p := Partial(Initialized(base, length), target, base + offset, 0);
      VirtualAddress(p) == base + offset && p.byteCount == length - offset
  {
    InitializedDescribes(base, length);
    PartialInside(Initialized(base, length), target, base + offset, 0);
  }
}
