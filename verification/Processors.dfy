/**
 Processor groups and system-wide processor indices (`platform_user.cpp`). The number of groups and
 the size of each are what the operating system reports.
 */
module Processors {
  import opened Options

  const ULONG: nat := 0x1_0000_0000

  /** A `PROCESSOR_NUMBER`: 16 bits of group, 8 bits of number within it. */
  datatype ProcessorNumber = ProcessorNumber(group: nat, number: nat)

  /** The index of the first processor of group `g`; the total when `g` is the number of groups. */
  ghost function Start(sizes: seq<nat>, g: nat): nat
    requires g <= |sizes|
  {
    if g == 0 then 0 else Start(sizes, g - 1) + sizes[g - 1]
  }

  ghost function Total(sizes: seq<nat>): nat {
    Start(sizes, |sizes|)
  }

  /** The system reports at most 2^16 groups and fewer than 2^32 processors. */
  ghost predicate Reportable(sizes: seq<nat>) {
    |sizes| <= 0x1_0000 && Total(sizes) < ULONG
  }

  ghost predicate Holds(sizes: seq<nat>, g: nat, index: nat) {
    g < |sizes| && Start(sizes, g) <= index < Start(sizes, g + 1)
  }

  lemma {:induction false} StartGrows(sizes: seq<nat>, g: nat, h: nat)
    requires g <= h <= |sizes|
    ensures Start(sizes, g) <= Start(sizes, h)
  {
    if g < h {
      StartGrows(sizes, g, h - 1);
    }
  }

  /** At most one group holds an index, empty groups or not. */
  lemma OneGroupHolds(sizes: seq<nat>, g: nat, h: nat, index: nat)
    requires Holds(sizes, g, index) && Holds(sizes, h, index)
    ensures g == h
  {
    if g < h {
      StartGrows(sizes, g + 1, h);
    } else if h < g {
      StartGrows(sizes, h + 1, g);
    }
  }

  /** `p` is what looking up an index finds: its group, and 8 bits of its position in the group. */
  ghost predicate IndexGives(sizes: seq<nat>, index: nat, p: ProcessorNumber) {
    Holds(sizes, p.group, index) && p.number == (index - Start(sizes, p.group)) % 256
  }

  class ProcessorMap {
    var groupToIndex: seq<nat>
    var processorCount: nat
    ghost var sizes: seq<nat>

    ghost predicate Valid()
      reads this
    {
      && Reportable(sizes)
      && |groupToIndex| == |sizes| && processorCount == Total(sizes)
      && forall g :: 0 <= g < |sizes| ==> groupToIndex[g] == Start(sizes, g)
    }

    /** The group part of `usersim_platform_initiate`; `total` is the count for all groups. */
    constructor (reported: seq<nat>, total: nat)
      requires Reportable(reported) && total == Total(reported)
      ensures Valid() && sizes == reported
    {
      groupToIndex := seq(|reported|, _ => 0);
      processorCount := total;
      sizes := reported;
      new;
      var base, i := 0, 0;
      while i < |groupToIndex|
        invariant i <= |groupToIndex| == |reported| && base == Start(reported, i)
        invariant sizes == reported && processorCount == total
        invariant forall g :: 0 <= g < i ==> groupToIndex[g] == Start(reported, g)
      {
        groupToIndex := groupToIndex[i := base];
        StartGrows(reported, i + 1, |reported|);
        base := (base + reported[i]) % ULONG;
        i := i + 1;
      }
    }

    /** `KeGetProcessorIndexFromNumber`. */
    method IndexFromNumber(p: ProcessorNumber) returns (index: nat)
      requires Valid() && p.group < |sizes| && p.number < 256
      ensures index == (Start(sizes, p.group) + p.number) % ULONG
      ensures p.number < sizes[p.group] ==> index < Total(sizes) && Holds(sizes, p.group, index)
    {
      index := (groupToIndex[p.group] + p.number) % ULONG;
      StartGrows(sizes, p.group + 1, |sizes|);
    }

    /** `KeGetProcessorNumberFromIndex`; None is STATUS_INVALID_PARAMETER. */
    method NumberFromIndex(index: nat) returns (r: Option<ProcessorNumber>)
      requires Valid() && index < ULONG
      ensures r.Some? <==> index < Total(sizes)
      ensures r.Some? ==> IndexGives(sizes, index, r.value)
    {
      if index >= processorCount {
        return None;
      }
      var i := 0;
      while i < |groupToIndex|
        invariant i <= |sizes|
        invariant i == 0 || Start(sizes, i - 1) <= index
      {
        if index < groupToIndex[i] {
          assert groupToIndex[0] == 0;
          return Some(ProcessorNumber((i - 1) % 0x1_0000, (index - groupToIndex[i - 1]) % 256));
        }
        i := i + 1;
      }
      var last := |groupToIndex| - 1;
      return Some(ProcessorNumber(last % 0x1_0000, (index - groupToIndex[last]) % 256));
    }
  }

  /** The indices below the total are exactly those of some processor of some group. */
  lemma {:induction false} SomeGroupHolds(sizes: seq<nat>, n: nat, index: nat)
    requires n <= |sizes|
    ensures index < Start(sizes, n) <==> exists g :: 0 <= g < n && Holds(sizes, g, index)
  {
    if n > 0 {
      SomeGroupHolds(sizes, n - 1, index);
      assert Start(sizes, n - 1) <= index < Start(sizes, n) ==> Holds(sizes, n - 1, index);
    }
  }

  /** Back from the number to the index: the same one exactly when it is among the first 256 of its
      group. */
  lemma IndexReturns(sizes: seq<nat>, index: nat, p: ProcessorNumber)
    requires Reportable(sizes) && IndexGives(sizes, index, p)
    ensures (Start(sizes, p.group) + p.number) % ULONG == index <==> index < Start(sizes, p.group) + 256
  {
    StartGrows(sizes, p.group + 1, |sizes|);
  }

  ghost predicate IsProcessor(sizes: seq<nat>, p: ProcessorNumber) {
    p.group < |sizes| && p.number < sizes[p.group]
  }

  /** With groups of at most 256, index-to-number is a bijection between the indices below the total
      and the processors, with number-to-index as its inverse; a larger group breaks it. */
  lemma Bijection(sizes: seq<nat>)
    ensures (forall i, j, p | IndexGives(sizes, i, p) && IndexGives(sizes, j, p) :: i == j)
        <==> (forall g | 0 <= g < |sizes| :: sizes[g] <= 256)
    ensures (forall g | 0 <= g < |sizes| :: sizes[g] <= 256) ==>
      && (forall i, p | IndexGives(sizes, i, p) :: IsProcessor(sizes, p) && i == Start(sizes, p.group) + p.number)
      && (forall p | IsProcessor(sizes, p) :: IndexGives(sizes, Start(sizes, p.group) + p.number, p))
    ensures forall i, p, q | IndexGives(sizes, i, p) && IndexGives(sizes, i, q) :: p == q
  {
    forall i, p, q | IndexGives(sizes, i, p) && IndexGives(sizes, i, q)
      ensures p == q
    {
      OneGroupHolds(sizes, p.group, q.group, i);
    }
    forall g | 0 <= g < |sizes| && sizes[g] > 256
      ensures exists i, j, p :: IndexGives(sizes, i, p) && IndexGives(sizes, j, p) && i != j
    {
      var first := Start(sizes, g);
      assert IndexGives(sizes, first, ProcessorNumber(g, 0)) && IndexGives(sizes, first + 256, ProcessorNumber(g, 0));
    }
  }
}
