/** One emulated DPC queue on the heap: the list head, the flush marker and the entries embedded in
    the KDPCs, linked with the operations of IntrusiveList. Each method is a critical section of
    `_usersim_emulated_dpc` and does to the linked structure what DpcProtocol does to the queue. */
module DpcHeap {
  import opened IntrusiveList
  import P = DpcProtocol

  class Kdpc {
    const entry: ListEntry
    var parameter1: int
    var parameter2: int

    constructor (id: nat)
      ensures fresh(entry) && entry.container == id && entry.flink == entry && entry.blink == entry
    {
      entry := new ListEntry(id);
      parameter1, parameter2 := 0, 0;
    }
  }

  class EmulatedDpc {
    const head: ListEntry
    const flushEntry: ListEntry

    /** The KDPCs aimed at this queue, by identity. */
    const dpcs: map<nat, Kdpc>

    ghost var items: seq<ListEntry>

    constructor (dpcs: map<nat, Kdpc>)
      requires forall id :: id in dpcs ==>
        dpcs[id].entry.container == id && dpcs[id].entry.flink == dpcs[id].entry && dpcs[id].entry.blink == dpcs[id].entry
      ensures Valid() && Queue() == [] && this.dpcs == dpcs && Represents(P.NEW_CPU)
    {
      this.dpcs := dpcs;
      head := new ListEntry(0);
      flushEntry := new ListEntry(0);
      items := [];
      new;
      assert Ring([head]) && [head] + items == [head];
    }

    ghost function Nodes(): set<ListEntry> {
      {head, flushEntry} + set id | id in dpcs :: dpcs[id].entry
    }

    /** The linked structure is a list of the marker and of embedded entries, and an entry is linked
        to itself exactly when it is not queued. */
    ghost predicate Valid()
      reads this, Nodes(), items
    {
      && List(head, items) && Wiring() && Members(items)
      && (forall e :: e in Nodes() && e != head ==> (e.flink == e <==> e !in items))
    }

    ghost predicate Wiring() {
      && head != flushEntry
      && (forall id :: id in dpcs ==> dpcs[id].entry.container == id
                                      && dpcs[id].entry != head && dpcs[id].entry != flushEntry)
    }

    ghost predicate Members(entries: seq<ListEntry>) {
      forall e :: e in entries ==>
        e in Nodes() && (e == flushEntry || (e.container in dpcs && dpcs[e.container].entry == e))
    }

    ghost function SlotOf(e: ListEntry): P.Slot {
      if e == flushEntry then P.Marker else P.Work(e.container)
    }

    /** The queue that the links stand for. */
    ghost function Queue(): seq<P.Slot>
      reads this
    {
      seq(|items|, i requires 0 <= i < |items| reads this => SlotOf(items[i]))
    }

    ghost function Kdpcs(): set<Kdpc> {
      set id | id in dpcs :: dpcs[id]
    }

    /** The queue and the parameter fields are those of a CPU of the protocol. */
    ghost predicate Represents(c: P.Cpu)
      reads this, Kdpcs()
    {
      && Queue() == c.queue
      && forall id :: id in dpcs && id in c.stored ==> c.stored[id] == P.Args(dpcs[id].parameter1, dpcs[id].parameter2)
    }

    lemma QueuedIffLinked(id: nat)
      requires Valid() && id in dpcs
      ensures P.Work(id) in Queue() <==> dpcs[id].entry in items
      ensures dpcs[id].entry.flink == dpcs[id].entry <==> P.Work(id) !in Queue()
    {
      var e := dpcs[id].entry;
      if e in items {
        var i :| 0 <= i < |items| && items[i] == e;
        assert Queue()[i] == P.Work(id);
      }
      if P.Work(id) in Queue() {
        var i :| 0 <= i < |Queue()| && Queue()[i] == P.Work(id);
        assert items[i] in items;
      }
      assert e in Nodes();
    }

    lemma MarkerIffLinked()
      requires Valid()
      ensures P.Marker in Queue() <==> flushEntry in items
      ensures flushEntry.flink == flushEntry <==> P.Marker !in Queue()
    {
      if flushEntry in items {
        var i :| 0 <= i < |items| && items[i] == flushEntry;
        assert Queue()[i] == P.Marker;
      }
      if P.Marker in Queue() {
        var i :| 0 <= i < |Queue()| && Queue()[i] == P.Marker;
        assert items[i] in items;
      }
    }

    /** An entry of the list is not linked to itself. */
    lemma LinkedElsewhere(e: ListEntry)
      requires List(head, items) && e in items
      ensures e.flink != e
    {
      var i :| 0 <= i < |items| && items[i] == e;
      var ring := [head] + items;
      assert ring[i + 1] == e && ring[Succ(i + 1, |ring|)] != ring[i + 1];
    }

    method Insert(id: nat, parameter1: int, parameter2: int, ghost c: P.Cpu) returns (inserted: bool)
      requires Valid() && id in dpcs && Represents(c)
      modifies this, Nodes(), dpcs[id]
      ensures Valid() && Represents(P.Insert(c, id, P.Args(parameter1, parameter2)))
      ensures inserted == (P.Work(id) !in old(Queue()))
      ensures Queue() == if inserted then old(Queue()) + [P.Work(id)] else old(Queue())
      ensures inserted ==> dpcs[id].parameter1 == parameter1 && dpcs[id].parameter2 == parameter2
      ensures !inserted ==> dpcs[id].parameter1 == old(dpcs[id].parameter1) && dpcs[id].parameter2 == old(dpcs[id].parameter2)
    {
      QueuedIffLinked(id);
      var workItem := dpcs[id];
      assert workItem.entry in Nodes();
      if workItem.entry.flink != workItem.entry {
        return false;
      }
      ghost var queue := Queue();
      workItem.parameter1 := parameter1;
      workItem.parameter2 := parameter2;
      Append(workItem.entry);
      inserted := true;
      assert Queue() == queue + [P.Work(id)];
      assert forall other :: other in dpcs && other != id ==> dpcs[other] != dpcs[id];
    }

    /** `usersim_list_insert_tail` on the queue's head. */
    method Append(entry: ListEntry)
      requires Valid() && entry in Nodes() && entry != head && entry !in items
      modifies this`items, Nodes()
      ensures Valid() && items == old(items) + [entry]
    {
      ghost var before := items;
      InsertTail(head, entry, items);
      items := items + [entry];
      forall e | e in Nodes() && e != head
        ensures e.flink == e <==> e !in items
      {
        if e in items {
          LinkedElsewhere(e);
        } else {
          assert e !in before;
        }
      }
    }

    method Remove(id: nat, ghost c: P.Cpu) returns (removed: bool)
      requires Valid() && id in dpcs && Represents(c)
      modifies this`items, Nodes()
      ensures Valid() && Represents(P.Remove(c, id))
      ensures removed == (P.Work(id) in old(Queue()))
      ensures !removed ==> Queue() == old(Queue())
      ensures removed ==> Queue() == P.TakeOut(old(Queue()), P.Work(id))
    {
      QueuedIffLinked(id);
      var entry := dpcs[id].entry;
      assert entry in Nodes();
      if entry.flink == entry {
        return false;
      }
      RemoveQueued(id, c);
      removed := true;
    }

    method RemoveQueued(id: nat, ghost c: P.Cpu)
      requires Valid() && id in dpcs && Represents(c) && dpcs[id].entry in items && P.Work(id) in Queue()
      modifies this`items, Nodes()
      ensures Valid() && Represents(P.Remove(c, id)) && Queue() == P.TakeOut(old(Queue()), P.Work(id))
    {
      var entry := dpcs[id].entry;
      ghost var k :| 0 <= k < |items| && items[k] == entry;
      SamePlace(items, Queue(), k, P.Position(Queue(), P.Work(id)), id);
      Extract(entry, k);
    }

    /** `usersim_list_remove_entry` on an entry of the queue. */
    method Extract(entry: ListEntry, ghost k: nat)
      requires Valid() && k < |items| && items[k] == entry
      modifies this`items, Nodes()
      ensures Valid() && items == Without(old(items), k)
      ensures Queue() == old(Queue())[..k] + old(Queue())[k + 1..]
    {
      ghost var before, queue := items, Queue();
      assert forall e :: e in items ==> e in Nodes();
      var lastOne := RemoveEntry(head, entry, items, k);
      items := Without(items, k);
      StillValid(before, k);
      assert Queue() == queue[..k] + queue[k + 1..];
    }

    /** A DPC has one place in the queue. */
    lemma SamePlace(entries: seq<ListEntry>, queue: seq<P.Slot>, k: nat, j: nat, id: nat)
      requires id in dpcs && Wiring() && Members(entries) && Distinct([head] + entries) && |queue| == |entries|
      requires forall i :: 0 <= i < |queue| ==> queue[i] == SlotOf(entries[i])
      requires k < |queue| && j < |queue| && queue[k] == P.Work(id) && queue[j] == P.Work(id)
      ensures j == k
    {
      assert entries[j] in entries && entries[k] in entries;
      assert ([head] + entries)[j + 1] == entries[j] && ([head] + entries)[k + 1] == entries[k];
    }

    /** After an entry is taken out and linked to itself. */
    lemma StillValid(before: seq<ListEntry>, k: nat)
      requires Wiring() && Distinct([head] + before) && Members(before)
      requires k < |before| && items == Without(before, k)
      requires List(head, items) && before[k].flink == before[k]
      requires forall e :: e in Nodes() && e !in before && e != head ==> e.flink == e
      ensures Valid()
    {
      forall e | e in items
        ensures e in before && e != before[k]
      {
        var i :| 0 <= i < |items| && items[i] == e;
        assert e == before[if i < k then i else i + 1];
        assert ([head] + before)[k + 1] == before[k];
        assert ([head] + before)[(if i < k then i else i + 1) + 1] == e;
      }
      forall e | e in before && e != before[k]
        ensures e in items
      {
        var i :| 0 <= i < |before| && before[i] == e;
        assert items[if i < k then i else i - 1] == e;
      }
      forall e | e in Nodes() && e != head
        ensures e.flink == e <==> e !in items
      {
        if e in items {
          LinkedElsewhere(e);
        }
      }
    }

    /** Takes the first entry off the list and leaves it linked to itself. */
    method TakeFirst() returns (entry: ListEntry)
      requires Valid() && items != []
      modifies this`items, Nodes()
      ensures Valid() && entry == old(items[0]) && items == old(items)[1..]
    {
      ghost var before := items;
      assert forall e :: e in items ==> e in Nodes();
      entry := DetachFirst(head, items);
      items := items[1..];
      assert before[1..] == Without(before, 0);
      StillValid(before, 0);
    }

    /** The worker's critical section: takes the first entry and snapshots the arguments. `flushed`
        says that it was the flush marker. */
    method WorkerTake(ghost c: P.Cpu) returns (flushed: bool, id: nat, parameter1: int, parameter2: int)
      requires Valid() && items != [] && Represents(c) && c.worker.Idle?
      modifies this`items, Nodes()
      ensures Valid() && Queue() == old(Queue())[1..] && Represents(P.Take(c))
      ensures !flushed && id in c.stored ==>
        P.Take(c).worker.Running? && P.Take(c).worker.record.dpc == id
        && P.Take(c).worker.record.args == P.Args(parameter1, parameter2)
      ensures old(Queue())[0] == if flushed then P.Marker else P.Work(id)
      ensures !flushed ==> id in dpcs && parameter1 == dpcs[id].parameter1 && parameter2 == dpcs[id].parameter2
    {
      ghost var queue := Queue();
      assert queue[0] == SlotOf(items[0]) && items[0] in items;
      flushed, id, parameter1, parameter2 := false, 0, 0, 0;
      var entry := TakeFirst();
      assert Queue() == queue[1..];
      if entry == flushEntry {
        flushed := true;
      } else {
        id := entry.container;
        parameter1, parameter2 := dpcs[id].parameter1, dpcs[id].parameter2;
      }
    }

    /** The start of `flush_queue`: the marker must not be queued already. */
    method FlushMark(ghost c: P.Cpu)
      requires Valid() && P.Marker !in Queue() && Represents(c)
      modifies this`items, Nodes()
      ensures Valid() && Queue() == old(Queue()) + [P.Marker] && Represents(P.EnqueueMarker(c))
    {
      MarkerIffLinked();
      Initialize(flushEntry);
      assert Valid();
      Append(flushEntry);
    }

    /** The condition that `flush_queue` waits for. */
    method FlushAnswered() returns (answered: bool)
      requires Valid()
      ensures answered == (P.Marker !in Queue())
    {
      MarkerIffLinked();
      answered := flushEntry.flink == flushEntry;
    }
  }
}
