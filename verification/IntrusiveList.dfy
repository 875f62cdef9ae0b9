/**
 The intrusive circular doubly linked lists of `src/framework.h` and `src/kernel_um.h`, on the heap.
 `Ring(nodes)` says that following Flink from `nodes[0]` visits exactly `nodes` in order and comes
 back, and that Blink is its inverse. A list is a ring that starts at its head.
 */
module IntrusiveList {

  class ListEntry {
    var flink: ListEntry
    var blink: ListEntry

    /** Which record the entry is embedded in. */
    const container: nat

    constructor (container: nat)
      ensures flink == this && blink == this && this.container == container
    {
      this.container := container;
      flink := this;
      blink := this;
    }
  }

  ghost predicate Distinct(nodes: seq<ListEntry>) {
    forall i, j :: 0 <= i < j < |nodes| ==> nodes[i] != nodes[j]
  }

  function Succ(i: nat, n: nat): nat
    requires i < n
  {
    if i + 1 == n then 0 else i + 1
  }

  ghost predicate Ring(nodes: seq<ListEntry>)
    reads nodes
  {
    && nodes != [] && Distinct(nodes)
    && forall i :: 0 <= i < |nodes| ==>
         && nodes[i].flink == nodes[Succ(i, |nodes|)]
         && nodes[Succ(i, |nodes|)].blink == nodes[i]
  }

  /** The list with this head holds exactly these entries, in order. */
  ghost predicate List(head: ListEntry, items: seq<ListEntry>)
    reads head, items
  {
    Ring([head] + items)
  }

  ghost function Without(items: seq<ListEntry>, k: nat): seq<ListEntry>
    requires k < |items|
  {
    items[..k] + items[k + 1..]
  }

  // ----- src/framework.h

  method Initialize(head: ListEntry)
    modifies head
    ensures List(head, []) && head.flink == head && head.blink == head
  {
    head.flink := head;
    head.blink := head;
  }

  method IsEmpty(head: ListEntry, ghost items: seq<ListEntry>) returns (empty: bool)
    requires List(head, items)
    ensures empty == (items == [])
  {
    empty := head.flink == head;
    assert ([head] + items)[0] == head;
  }

  method InsertTail(head: ListEntry, entry: ListEntry, ghost items: seq<ListEntry>)
    requires List(head, items) && entry != head && entry !in items
    modifies head, items, entry
    ensures List(head, items + [entry])
  {
    ghost var nodes := [head] + items;
    ghost var last := |nodes| - 1;
    assert Succ(last, |nodes|) == 0 && nodes[0].blink == nodes[last];
    var previous := head.blink;
    entry.flink := head;
    entry.blink := previous;
    previous.flink := entry;
    head.blink := entry;
    assert [head] + (items + [entry]) == nodes + [entry];
  }

  /** A ring with node `k` taken out, when its neighbours have been made each other's neighbours. */
  ghost predicate Bypasses(nodes: seq<ListEntry>, k: nat)
    requires 1 <= k < |nodes|
    reads nodes
  {
    && nodes[k - 1].flink == nodes[Succ(k, |nodes|)]
    && nodes[Succ(k, |nodes|)].blink == nodes[k - 1]
    && (forall i :: 0 <= i < |nodes| && i != k - 1 && i != k ==> nodes[i].flink == nodes[Succ(i, |nodes|)])
    && (forall i :: 0 <= i < |nodes| && i != k - 1 && i != k ==> nodes[Succ(i, |nodes|)].blink == nodes[i])
  }

  lemma Unlinked(nodes: seq<ListEntry>, k: nat)
    requires Distinct(nodes) && 1 <= k < |nodes| && Bypasses(nodes, k)
    ensures Ring(nodes[..k] + nodes[k + 1..])
  {
    var rest := nodes[..k] + nodes[k + 1..];
    forall i | 0 <= i < |rest|
      ensures rest[i].flink == rest[Succ(i, |rest|)] && rest[Succ(i, |rest|)].blink == rest[i]
    {
      var from := if i < k then i else i + 1;
      assert rest[i] == nodes[from];
      if i == k - 1 {
        assert rest[Succ(i, |rest|)] == nodes[Succ(k, |nodes|)];
      } else {
        assert rest[Succ(i, |rest|)] == nodes[Succ(from, |nodes|)];
      }
    }
  }

  /** The two writes that take a node out of a ring; its own links are not touched. */
  method Unlink(previous: ListEntry, next: ListEntry, ghost nodes: seq<ListEntry>, ghost k: nat)
    modifies previous`flink, next`blink
    ensures previous.flink == next && next.blink == previous
    ensures old(Ring(nodes)) && 1 <= k < |nodes| && previous == nodes[k - 1] && next == nodes[Succ(k, |nodes|)] ==>
      Ring(nodes[..k] + nodes[k + 1..])
  {
    ghost var linked := Ring(nodes) && 1 <= k < |nodes| && previous == nodes[k - 1] && next == nodes[Succ(k, |nodes|)];
    previous.flink := next;
    next.blink := previous;
    if linked {
      forall i | 0 <= i < |nodes| && i != k - 1 && i != k
        ensures nodes[i].flink == nodes[Succ(i, |nodes|)] && nodes[Succ(i, |nodes|)].blink == nodes[i]
      {
        assert Succ(i, |nodes|) != Succ(k, |nodes|) && nodes[i] != previous;
        assert old(nodes[Succ(i, |nodes|)].blink) == nodes[i];
      }
      Unlinked(nodes, k);
    }
  }

  lemma DistinctConcat(a: seq<ListEntry>, b: seq<ListEntry>)
    requires Distinct(a) && Distinct(b) && forall x :: x in a ==> x !in b
    ensures Distinct(a + b)
  {
    forall i, j | 0 <= i < j < |a + b|
      ensures (a + b)[i] != (a + b)[j]
    {
      if i < |a| && j >= |a| {
        assert (a + b)[i] in a && (a + b)[j] in b;
      }
    }
  }

  /** `usersim_list_remove_entry`: also leaves the entry linked to itself. The result says whether
      the list is now empty. */
  method RemoveEntry(head: ListEntry, entry: ListEntry, ghost items: seq<ListEntry>, ghost k: nat) returns (lastOne: bool)
    requires List(head, items) && k < |items| && items[k] == entry
    modifies head, items
    ensures List(head, Without(items, k)) && List(entry, []) && entry.flink == entry
    ensures lastOne == (Without(items, k) == [])
  {
    ghost var nodes := [head] + items;
    assert nodes[k + 1] == entry;
    Neighbours(nodes, k + 1);
    RestWithout(head, items, k);
    var next := entry.flink;
    var previous := entry.blink;
    lastOne := previous == next;
    Unlink(previous, next, nodes, k + 1);
    Initialize(entry);
  }

  lemma Neighbours(nodes: seq<ListEntry>, k: nat)
    requires Ring(nodes) && 1 <= k < |nodes|
    ensures nodes[k].blink == nodes[k - 1] && nodes[k].flink == nodes[Succ(k, |nodes|)]
    ensures nodes[k - 1] == nodes[Succ(k, |nodes|)] <==> |nodes| == 2
  {
    assert Succ(k - 1, |nodes|) == k;
  }

  lemma RestWithout(head: ListEntry, items: seq<ListEntry>, k: nat)
    requires k < |items| && Distinct([head] + items)
    ensures var nodes := [head] + items; [head] + Without(items, k) == nodes[..k + 1] + nodes[k + 2..]
    ensures items[k] !in [head] + Without(items, k)
  {
    var nodes := [head] + items;
    assert nodes[k + 1] == items[k];
    assert [head] + Without(items, k) == nodes[..k + 1] + nodes[k + 2..];
  }

  /** `usersim_list_remove_head_entry`: returns the head itself when the list is empty, and leaves
      the links of the removed entry as they were. */
  method RemoveHeadEntry(head: ListEntry, ghost items: seq<ListEntry>) returns (removed: ListEntry)
    requires List(head, items)
    modifies head, items
    ensures items == [] ==> removed == head && List(head, [])
    ensures items != [] ==> removed == items[0] && List(head, items[1..])
  {
    ghost var nodes := [head] + items;
    assert nodes[0] == head && head.flink == nodes[Succ(0, |nodes|)];
    if head.flink == head {
      return head;
    }
    removed := head.flink;
    assert removed.flink == nodes[Succ(1, |nodes|)];
    head.flink := removed.flink;
    removed.flink.blink := head;
    Unlinked(nodes, 1);
    assert [head] + items[1..] == nodes[..1] + nodes[2..];
  }

  /** What the DPC worker does with the first entry: takes it off the list and links it to itself. */
  method DetachFirst(head: ListEntry, ghost items: seq<ListEntry>) returns (entry: ListEntry)
    requires List(head, items) && items != []
    modifies head, items
    ensures entry == items[0] && List(head, items[1..]) && entry.flink == entry && entry.blink == entry
  {
    ghost var nodes := [head] + items;
    entry := RemoveHeadEntry(head, items);
    ghost var rest := [head] + items[1..];
    assert nodes[0] == head && nodes[1] == entry;
    assert forall i :: 1 <= i < |rest| ==> rest[i] == nodes[i + 1];
    assert entry !in rest;
    Initialize(entry);
  }

  /** The nodes are linked in order, without saying how the ends are linked. */
  ghost predicate Chain(nodes: seq<ListEntry>)
    reads nodes
  {
    forall i :: 0 <= i < |nodes| - 1 ==> nodes[i].flink == nodes[i + 1] && nodes[i + 1].blink == nodes[i]
  }

  lemma RingIsChain(nodes: seq<ListEntry>)
    requires Ring(nodes)
    ensures Chain(nodes) && nodes[|nodes| - 1].flink == nodes[0] && nodes[0].blink == nodes[|nodes| - 1]
  {
  }

  lemma ChainsJoin(a: seq<ListEntry>, b: seq<ListEntry>)
    requires a != [] && b != [] && Chain(a) && Chain(b) && Distinct(a + b)
    requires a[|a| - 1].flink == b[0] && b[0].blink == a[|a| - 1]
    requires b[|b| - 1].flink == a[0] && a[0].blink == b[|b| - 1]
    ensures Ring(a + b)
  {
    var all := a + b;
    forall i | 0 <= i < |all|
      ensures all[i].flink == all[Succ(i, |all|)] && all[Succ(i, |all|)].blink == all[i]
    {
      if i < |a| - 1 {
        assert all[i] == a[i] && all[i + 1] == a[i + 1];
      } else if |a| <= i < |all| - 1 {
        assert all[i] == b[i - |a|] && all[i + 1] == b[i - |a| + 1];
      }
    }
  }

  /** Writing the forward link of a last node or the backward link of a first one leaves both chains. */
  lemma EndsApart(a: seq<ListEntry>, b: seq<ListEntry>)
    requires a != [] && b != [] && Distinct(a) && Distinct(b) && forall x :: x in a ==> x !in b
    ensures forall i :: 0 <= i < |a| - 1 ==> a[i] != a[|a| - 1] && a[i] != b[|b| - 1]
    ensures forall i :: 0 < i < |a| ==> a[i] != a[0] && a[i] != b[0]
    ensures forall i :: 0 <= i < |b| - 1 ==> b[i] != b[|b| - 1] && b[i] != a[|a| - 1]
    ensures forall i :: 0 < i < |b| ==> b[i] != b[0] && b[i] != a[0]
  {
    assert a[0] in a && a[|a| - 1] in a && b[0] in b && b[|b| - 1] in b;
  }

  /** `usersim_list_append_tail_list` and `AppendTailList`: splices a ring without a head onto the
      end of a list. */
  method AppendTailList(head: ListEntry, first: ListEntry, ghost items: seq<ListEntry>, ghost more: seq<ListEntry>)
    requires List(head, items) && Ring(more) && more[0] == first
    requires head !in more && forall x :: x in items ==> x !in more
    modifies head, items, more
    ensures List(head, items + more)
  {
    ghost var nodes := [head] + items;
    RingIsChain(nodes);
    RingIsChain(more);
    assert forall x :: x in nodes ==> x !in more;
    DistinctConcat(nodes, more);
    assert nodes[0] == head && head.blink == nodes[|nodes| - 1] && first.blink == more[|more| - 1];
    var listEnd := head.blink;
    EndsApart(nodes, more);
    head.blink.flink := first;
    head.blink := first.blink;
    first.blink.flink := head;
    first.blink := listEnd;
    ChainsJoin(nodes, more);
    assert [head] + (items + more) == nodes + more;
  }

  // ----- src/kernel_um.h: the same operations with a check of the links first. `fatal` is the call
  // of FatalListEntryError, after which the operation goes on.

  method InsertTailList(head: ListEntry, entry: ListEntry, ghost items: seq<ListEntry>) returns (fatal: bool)
    modifies head, head.blink, entry
    ensures fatal == old(head.blink.flink != head)
    ensures old(List(head, items)) && entry != head && entry !in items ==> !fatal && List(head, items + [entry])
  {
    ghost var nodes := [head] + items;
    ghost var n := |nodes|;
    assert nodes[0] == head && Succ(n - 1, n) == 0;
    var previous := head.blink;
    fatal := previous.flink != head;
    entry.flink := head;
    entry.blink := previous;
    previous.flink := entry;
    head.blink := entry;
    assert [head] + (items + [entry]) == nodes + [entry];
  }

  method InsertHeadList(head: ListEntry, entry: ListEntry, ghost items: seq<ListEntry>) returns (fatal: bool)
    modifies head, head.flink, entry
    ensures fatal == old(head.flink.blink != head)
    ensures old(List(head, items)) && entry != head && entry !in items ==> !fatal && List(head, [entry] + items)
  {
    ghost var nodes := [head] + items;
    assert nodes[0] == head;
    assert List(head, items) ==> head.flink == nodes[Succ(0, |nodes|)] && head.flink.blink == head;
    var next := head.flink;
    fatal := next.blink != head;
    entry.flink := next;
    entry.blink := head;
    next.blink := entry;
    head.flink := entry;
    ghost var all := [head] + ([entry] + items);
    assert all[0] == head && all[1] == entry && forall i :: 2 <= i < |all| ==> all[i] == nodes[i - 1];
    if old(List(head, items)) && entry != head && entry !in items {
      assert Distinct(all);
      forall i | 0 <= i < |all|
        ensures all[i].flink == all[Succ(i, |all|)] && all[Succ(i, |all|)].blink == all[i]
      {
        if i >= 2 {
          assert all[i] == nodes[i - 1];
          assert old(nodes[i - 1].flink) == nodes[Succ(i - 1, |nodes|)];
          assert old(nodes[Succ(i - 1, |nodes|)].blink) == nodes[i - 1];
        }
      }
    }
  }

  method RemoveEntryList(entry: ListEntry, ghost head: ListEntry, ghost items: seq<ListEntry>, ghost k: nat)
    returns (lastOne: bool, fatal: bool)
    modifies entry.flink, entry.blink
    ensures fatal == old(entry.flink.blink != entry || entry.blink.flink != entry)
    ensures old(List(head, items)) && k < |items| && items[k] == entry ==>
      !fatal && List(head, Without(items, k)) && lastOne == (Without(items, k) == [])
  {
    ghost var nodes := [head] + items;
    ghost var linked := List(head, items) && k < |items| && items[k] == entry;
    if linked {
      assert nodes[k + 1] == entry && Succ(k, |nodes|) == k + 1;
      assert nodes[Succ(k, |nodes|)].blink == nodes[k];
      assert entry.flink == nodes[Succ(k + 1, |nodes|)];
    }
    var next := entry.flink;
    var previous := entry.blink;
    fatal := next.blink != entry || previous.flink != entry;
    Unlink(previous, next, nodes, k + 1);
    if linked {
      assert [head] + Without(items, k) == nodes[..k + 1] + nodes[k + 2..];
    }
    lastOne := previous == next;
  }

  method RemoveHeadList(head: ListEntry, ghost items: seq<ListEntry>) returns (entry: ListEntry, fatal: bool)
    modifies head, head.flink.flink
    ensures fatal == old(head.flink.blink != head || head.flink.flink.blink != head.flink)
    ensures entry == old(head.flink)
    ensures old(List(head, items)) ==>
      && !fatal
      && (items == [] ==> entry == head && List(head, []))
      && (items != [] ==> entry == items[0] && List(head, items[1..]))
  {
    ghost var nodes := [head] + items;
    ghost var linked := List(head, items);
    assert nodes[0] == head;
    if linked {
      assert head.flink == nodes[Succ(0, |nodes|)] && head.flink.blink == head;
      ghost var j := Succ(0, |nodes|);
      assert nodes[j].flink == nodes[Succ(j, |nodes|)] && nodes[Succ(j, |nodes|)].blink == nodes[j];
    }
    entry := head.flink;
    var next := entry.flink;
    fatal := entry.blink != head || next.blink != entry;
    head.flink := next;
    next.blink := head;
    if linked && items != [] {
      Unlinked(nodes, 1);
      assert [head] + items[1..] == nodes[..1] + nodes[2..];
    }
  }

  // ----- any sequence of operations

  /** `Splice` appends a ring without a head, given by its first entry; the rest of it is there for
      the specification. */
  datatype Op =
    | InsertAtTail(entry: ListEntry)
    | InsertAtHead(entry: ListEntry)
    | TakeOut(entry: ListEntry)
    | TakeFirst
    | Splice(first: ListEntry, rest: seq<ListEntry>)
  {
    /** The nodes that the operation brings in. */
    ghost function Ringed(): seq<ListEntry> {
      if Splice? then [first] + rest else []
    }

    ghost function Brings(): set<ListEntry> {
      set x | x in Ringed()
    }
  }

  /** The same operation on the sequence of entries. */
  ghost function Apply(items: seq<ListEntry>, op: Op): seq<ListEntry> {
    match op
    case InsertAtTail(e) => items + [e]
    case InsertAtHead(e) => [e] + items
    case TakeOut(e) => if e in items then Without(items, Position(items, e)) else items
    case TakeFirst => if items == [] then [] else items[1..]
    case Splice(_, _) => items + op.Ringed()
  }

  ghost function Position(items: seq<ListEntry>, e: ListEntry): (k: nat)
    requires e in items
    ensures k < |items| && items[k] == e
  {
    if items[0] == e then 0 else 1 + Position(items[1..], e)
  }

  ghost function ApplyAll(items: seq<ListEntry>, ops: seq<Op>): seq<ListEntry> {
    if ops == [] then items else Apply(ApplyAll(items, ops[..|ops| - 1]), ops[|ops| - 1])
  }

  /** Callers insert what is not in the list, and take out what is. */
  ghost predicate Legal(head: ListEntry, items: seq<ListEntry>, op: Op) {
    match op
    case InsertAtTail(e) => e != head && e !in items
    case InsertAtHead(e) => e != head && e !in items
    case TakeOut(e) => e in items
    case TakeFirst => true
    case Splice(_, _) => true
  }

  /** The nodes that a sequence of operations may have touched, starting from these. */
  ghost function Reach(nodes: set<ListEntry>, ops: seq<Op>): set<ListEntry> {
    if ops == [] then nodes else Reach(nodes, ops[..|ops| - 1]) + ops[|ops| - 1].Brings()
  }

  lemma {:induction false} ReachGrows(nodes: set<ListEntry>, ops: seq<Op>)
    ensures nodes <= Reach(nodes, ops)
  {
    if ops != [] {
      ReachGrows(nodes, ops[..|ops| - 1]);
    }
  }

  method ApplyOne(head: ListEntry, op: Op, ghost items: seq<ListEntry>, ghost nodes: set<ListEntry>) returns (fatal: bool)
    requires List(head, items) && Legal(head, items, op)
    requires head in nodes && (forall x :: x in items ==> x in nodes)
    requires op.InsertAtTail? || op.InsertAtHead? ==> op.entry in nodes
    requires op.Splice? ==> Ring(op.Ringed()) && nodes !! op.Brings()
    modifies nodes, op.Brings()
    ensures List(head, Apply(items, op)) && !fatal
    ensures forall x :: x in Apply(items, op) ==> x in nodes || x in op.Brings()
  {
    if op.Splice? {
      AppendTailList(head, op.first, items, op.Ringed());
      fatal := false;
    } else {
      fatal := ApplyLinked(head, op, items, nodes);
    }
  }

  method ApplyLinked(head: ListEntry, op: Op, ghost items: seq<ListEntry>, ghost nodes: set<ListEntry>) returns (fatal: bool)
    requires List(head, items) && Legal(head, items, op) && !op.Splice?
    requires head in nodes && (forall x :: x in items ==> x in nodes)
    requires op.InsertAtTail? || op.InsertAtHead? ==> op.entry in nodes
    modifies nodes
    ensures List(head, Apply(items, op)) && !fatal
    ensures forall x :: x in Apply(items, op) ==> x in nodes
  {
    ghost var ring := [head] + items;
    RingIsChain(ring);
    assert forall i :: 0 <= i < |ring| ==> ring[i] in nodes;
    match op
    case InsertAtTail(e) =>
      fatal := InsertTailList(head, e, items);
    case InsertAtHead(e) =>
      assert ring[0].flink == ring[Succ(0, |ring|)];
      fatal := InsertHeadList(head, e, items);
    case TakeOut(e) =>
      ghost var k := Position(items, e);
      assert ring[k + 1] == e && ring[k].flink == e && e.blink == ring[k];
      assert e.flink == ring[Succ(k + 1, |ring|)];
      var lastOne;
      lastOne, fatal := RemoveEntryList(e, head, items, k);
    case TakeFirst =>
      ghost var j := Succ(0, |ring|);
      assert ring[0].flink == ring[j] && ring[j].flink == ring[Succ(j, |ring|)];
      var entry;
      entry, fatal := RemoveHeadList(head, items);
  }

  /** Every operation is legal when its turn comes; what it inserts is known by then, and a ring that
      it splices in is apart from all nodes known by then. */
  ghost predicate LegalRun(head: ListEntry, items: seq<ListEntry>, ops: seq<Op>, nodes: set<ListEntry>) {
    ops == [] ||
    var before, op := ops[..|ops| - 1], ops[|ops| - 1];
    && LegalRun(head, items, before, nodes)
    && Legal(head, ApplyAll(items, before), op)
    && (op.InsertAtTail? || op.InsertAtHead? ==> op.entry in Reach(nodes, before))
    && Reach(nodes, before) !! op.Brings()
  }

  /** Every sequence of operations on the linked heap structure does what the same operations do on
      the sequence of entries, and never reports a corrupted list. */
  method Replay(head: ListEntry, ops: seq<Op>, ghost items: seq<ListEntry>, ghost nodes: set<ListEntry>) returns (fatal: bool)
    requires List(head, items) && LegalRun(head, items, ops, nodes)
    requires head in nodes && forall x :: x in items ==> x in nodes
    requires forall op | op in ops && op.Splice? :: Ring(op.Ringed())
    modifies Reach(nodes, ops)
    ensures List(head, ApplyAll(items, ops)) && !fatal
    ensures forall x :: x in ApplyAll(items, ops) ==> x in Reach(nodes, ops)
    decreases |ops|
  {
    fatal := false;
    if ops != [] {
      var n := |ops| - 1;
      ghost var before, reach := ApplyAll(items, ops[..n]), Reach(nodes, ops[..n]);
      fatal := Replay(head, ops[..n], items, nodes);
      ReachGrows(nodes, ops[..n]);
      fatal := ApplyOne(head, ops[n], before, reach);
    }
  }
}
