/** What Machine.Rest computes, stated without its loop: conservation of CPUs, memory and devices. */
module Capacity {
  import opened Resources
  import opened Sizes
  import opened CpuSets
  import opened Machines

  ghost function BoundCpus(list: seq<ResourceRef>): set<int> {
    if list == [] then {} else BoundCpus(list[..|list| - 1]) + Elems(list[|list| - 1].binding.cpuSet)
  }

  ghost function BoundDevices(list: seq<ResourceRef>): set<string> {
    if list == [] then {} else BoundDevices(list[..|list| - 1]) + Devices(list[|list| - 1].binding)
  }

  ghost function BoundMemory(list: seq<ResourceRef>): int {
    if list == [] then 0 else BoundMemory(list[..|list| - 1]) + list[|list| - 1].binding.memory
  }

  /** Every bound device is one the machine offers. */
  ghost predicate DevicesOffered(round: Rounding, m: Machine, list: seq<ResourceRef>)
    requires m.info.Some?
  {
    forall i :: 0 <= i < |list| ==> Devices(list[i].binding) <= AvailableDisks(round, m).Keys
  }

  /** No device serves two entries of the list. */
  ghost predicate DevicesApart(list: seq<ResourceRef>) {
    forall i, j :: 0 <= i < j < |list| ==> Devices(list[i].binding) !! Devices(list[j].binding)
  }

  /** No device serves one entry twice. */
  ghost predicate DevicesDistinct(list: seq<ResourceRef>) {
    forall i :: 0 <= i < |list| ==> DistinctDevices(list[i].binding)
  }

  ghost predicate CpusOffered(m: Machine, list: seq<ResourceRef>)
    requires m.info.Some?
  {
    forall i :: 0 <= i < |list| ==> Elems(list[i].binding.cpuSet) <= AvailableCpus(m)
  }

  ghost predicate CpusApart(list: seq<ResourceRef>) {
    forall i, j :: 0 <= i < j < |list| ==> Elems(list[i].binding.cpuSet) !! Elems(list[j].binding.cpuSet)
  }

  // ---- Rest without its loop -------------------------------------------------------------

  lemma TakeCpus(round: Rounding, rest: AvailableResource, b: ResourceBinding, left: set<int>)
    requires rest.idleCPUSet == Ascending(left) && Take(round, rest, b).Some?
    ensures Take(round, rest, b).value.idleCPUSet == Ascending(left - Elems(b.cpuSet))
  {
    assert Enumerates(Ascending(left), left);
  }

  /** Whenever Rest answers, its CPUs and disks are what the machine offers less what is bound. */
  lemma {:induction false} RestIsDifference(round: Rounding, m: Machine, list: seq<ResourceRef>)
    requires m.info.Some? && RestOf(round, m, list).Some?
    ensures RestOf(round, m, list).value.idleCPUSet == Ascending(AvailableCpus(m) - BoundCpus(list))
    ensures RestOf(round, m, list).value.disks == AvailableDisks(round, m) - BoundDevices(list)
  {
    var cpus, disks := AvailableCpus(m), AvailableDisks(round, m);
    if list == [] {
      assert cpus - {} == cpus;
      assert disks - {} == disks;
    } else {
      var n := |list| - 1;
      var before := RestOf(round, m, list[..n]).value;
      RestIsDifference(round, m, list[..n]);
      TakeCpus(round, before, list[n].binding, cpus - BoundCpus(list[..n]));
      assert cpus - BoundCpus(list[..n]) - Elems(list[n].binding.cpuSet) == cpus - BoundCpus(list);
      assert disks - BoundDevices(list[..n]) - Devices(list[n].binding) == disks - BoundDevices(list);
    }
  }

  /** BoundCpus and BoundDevices are the least sets above every entry. */
  lemma {:induction false} BoundIsUpper(list: seq<ResourceRef>, e: ResourceRef)
    requires e in list
    ensures Elems(e.binding.cpuSet) <= BoundCpus(list)
    ensures Devices(e.binding) <= BoundDevices(list)
  {
    if e != list[|list| - 1] {
      BoundIsUpper(list[..|list| - 1], e);
    }
  }

  lemma {:induction false} BoundIsLeast(list: seq<ResourceRef>, cpus: set<int>, devices: set<string>)
    requires forall e :: e in list ==> Elems(e.binding.cpuSet) <= cpus && Devices(e.binding) <= devices
    ensures BoundCpus(list) <= cpus
    ensures BoundDevices(list) <= devices
  {
    if list != [] {
      BoundIsLeast(list[..|list| - 1], cpus, devices);
    }
  }

  lemma BoundIsMonotone(xs: seq<ResourceRef>, ys: seq<ResourceRef>)
    requires forall e :: e in xs ==> e in ys
    ensures BoundCpus(xs) <= BoundCpus(ys)
    ensures BoundDevices(xs) <= BoundDevices(ys)
  {
    forall e | e in xs
      ensures Elems(e.binding.cpuSet) <= BoundCpus(ys) && Devices(e.binding) <= BoundDevices(ys)
    {
      BoundIsUpper(ys, e);
    }
    BoundIsLeast(xs, BoundCpus(ys), BoundDevices(ys));
  }

  /** A new entry shares no device with the list exactly when it shares none with any entry. */
  lemma ApartFromAll(list: seq<ResourceRef>, e: ResourceRef)
    ensures Devices(e.binding) !! BoundDevices(list) <==>
            forall i :: 0 <= i < |list| ==> Devices(list[i].binding) !! Devices(e.binding)
  {
    forall i | 0 <= i < |list| ensures Devices(list[i].binding) <= BoundDevices(list) {
      BoundIsUpper(list, list[i]);
    }
    if forall i :: 0 <= i < |list| ==> Devices(list[i].binding) !! Devices(e.binding) {
      var others := BoundDevices(list) - Devices(e.binding);
      forall x | x in list
        ensures Elems(x.binding.cpuSet) <= BoundCpus(list) && Devices(x.binding) <= others
      {
        BoundIsUpper(list, x);
      }
      BoundIsLeast(list, BoundCpus(list), others);
    }
  }

  ghost predicate DevicesSound(round: Rounding, m: Machine, list: seq<ResourceRef>) {
    m.info.Some? && DevicesDistinct(list) && DevicesApart(list) && DevicesOffered(round, m, list)
  }

  lemma DevicesSoundStep(round: Rounding, m: Machine, list: seq<ResourceRef>, e: ResourceRef)
    requires m.info.Some?
    ensures DevicesSound(round, m, list + [e]) <==>
            && DevicesSound(round, m, list)
            && DistinctDevices(e.binding)
            && Devices(e.binding) <= AvailableDisks(round, m).Keys
            && Devices(e.binding) !! BoundDevices(list)
  {
    var longer := list + [e];
    var n := |list|;
    assert longer[n] == e;
    assert forall i :: 0 <= i < n ==> longer[i] == list[i];
    ApartFromAll(list, e);
    if DevicesSound(round, m, longer) {
      forall i, j | 0 <= i < j < n ensures Devices(list[i].binding) !! Devices(list[j].binding) {
        assert Devices(longer[i].binding) !! Devices(longer[j].binding);
      }
      assert forall i :: 0 <= i < n ==> DistinctDevices(longer[i].binding);
      assert forall i :: 0 <= i < n ==> Devices(longer[i].binding) <= AvailableDisks(round, m).Keys;
      assert forall i :: 0 <= i < n ==> Devices(longer[i].binding) !! Devices(longer[n].binding);
    }
  }

  /** Rest gives up exactly when Info is missing or a bound device is unknown or bound twice. */
  lemma {:induction false} RestAnswersIff(round: Rounding, m: Machine, list: seq<ResourceRef>)
    ensures RestOf(round, m, list).Some? <==> DevicesSound(round, m, list)
  {
    if list != [] && m.info.Some? {
      var n := |list| - 1;
      var head := list[..n];
      RestAnswersIff(round, m, head);
      assert list == head + [list[n]];
      DevicesSoundStep(round, m, head, list[n]);
      if RestOf(round, m, head).Some? {
        RestIsDifference(round, m, head);
      }
    } else if m.info.None? {
      RestStaysNone(round, m, list, 0);
    }
  }

  /** Rest still answers after one more binding exactly when that takes devices which are left, and none of them twice. */
  lemma StillAnswersIff(round: Rounding, m: Machine, list: seq<ResourceRef>, e: ResourceRef)
    ensures RestOf(round, m, list + [e]).Some? <==>
              && RestOf(round, m, list).Some?
              && (forall x :: x in e.binding.disks ==> e.binding.disks[x].device in RestOf(round, m, list).value.disks)
              && (forall x, y :: x in e.binding.disks && y in e.binding.disks && x != y ==>
                    e.binding.disks[x].device != e.binding.disks[y].device)
  {
    var before, disks := RestOf(round, m, list), e.binding.disks;
    assert (list + [e])[..|list|] == list;
    if before.Some? {
      if forall x :: x in disks ==> disks[x].device in before.value.disks {
        assert Devices(e.binding) <= before.value.disks.Keys;
      } else {
        var x :| x in disks && disks[x].device !in before.value.disks;
        assert disks[x].device in Devices(e.binding);
      }
    }
  }

  /** One more binding, field by field: its memory, its CPUs and its devices go, and nothing else. */
  lemma RestAfterOneMore(round: Rounding, m: Machine, list: seq<ResourceRef>, e: ResourceRef)
    requires RestOf(round, m, list + [e]).Some?
    ensures RestOf(round, m, list).Some?
    ensures var before, after := RestOf(round, m, list).value, RestOf(round, m, list + [e]).value;
            && after.memory == round(before.memory - e.binding.memory)
            && (forall c :: c in after.idleCPUSet <==> c in before.idleCPUSet && c !in e.binding.cpuSet)
            && (forall d :: d in after.disks <==>
                  d in before.disks && forall x :: x in e.binding.disks ==> e.binding.disks[x].device != d)
            && (forall d :: d in after.disks ==> after.disks[d] == before.disks[d])
  {
    assert (list + [e])[..|list|] == list;
    var before, after := RestOf(round, m, list).value, RestOf(round, m, list + [e]).value;
    assert after == Take(round, before, e.binding).value;
    AscendingHas(Elems(before.idleCPUSet) - Elems(e.binding.cpuSet));
    forall d ensures d in Devices(e.binding) <==> exists x :: x in e.binding.disks && e.binding.disks[x].device == d {
    }
  }

  /** The running subtraction drifts by at most e for each Sub it performs. */
  lemma {:induction false} RestMemoryWithin(round: Rounding, e: int, m: Machine, list: seq<ResourceRef>)
    requires Within(round, e) && m.info.Some? && RestOf(round, m, list).Some?
    ensures var exact := m.info.value.memory - m.reserve.memory - BoundMemory(list);
            exact - (|list| + 1) * e <= RestOf(round, m, list).value.memory <= exact + (|list| + 1) * e
  {
    if list != [] {
      RestMemoryWithin(round, e, m, list[..|list| - 1]);
      assert (|list| + 1) * e == |list| * e + e;
    }
  }

  /** With exact sizes, rest memory and bound memory add up to the available memory. */
  lemma RestMemoryExact(round: Rounding, m: Machine, list: seq<ResourceRef>)
    requires Exact(round) && m.info.Some? && RestOf(round, m, list).Some?
    ensures RestOf(round, m, list).value.memory + BoundMemory(list) == m.info.value.memory - m.reserve.memory
  {
    RestMemoryWithin(round, 0, m, list);
  }

  // ---- The order of the bindings does not matter -----------------------------------------

  /** Apart, told from the entries and how often each occurs. */
  ghost predicate ApartAsMultiset(list: seq<ResourceRef>) {
    && (forall x, y :: x in list && y in list && x != y ==> Devices(x.binding) !! Devices(y.binding))
    && (forall x :: x in list && Devices(x.binding) != {} ==> multiset(list)[x] <= 1)
  }

  lemma TwiceAtTwoPlaces<T>(s: seq<T>, x: T)
    requires multiset(s)[x] >= 2
    ensures exists p, q :: 0 <= p < q < |s| && s[p] == x && s[q] == x
  {
    assert x in multiset(s);
    var p :| 0 <= p < |s| && s[p] == x;
    assert s == s[..p] + [x] + s[p + 1..];
    assert multiset(s) == multiset(s[..p]) + multiset{x} + multiset(s[p + 1..]);
    if x in multiset(s[..p]) {
      var q :| 0 <= q < p && s[..p][q] == x;
      assert s[q] == x;
    } else {
      assert x in multiset(s[p + 1..]);
      var q :| 0 <= q < |s| - p - 1 && s[p + 1..][q] == x;
      assert s[p + 1 + q] == x;
    }
  }

  lemma TwiceNotApart(list: seq<ResourceRef>, x: ResourceRef)
    requires multiset(list)[x] >= 2 && Devices(x.binding) != {}
    ensures !DevicesApart(list)
  {
    TwiceAtTwoPlaces(list, x);
    var p, q :| 0 <= p < q < |list| && list[p] == x && list[q] == x;
    var d := Member(Devices(x.binding));
    assert d in Devices(list[p].binding) * Devices(list[q].binding);
  }

  lemma ApartIsUnordered(list: seq<ResourceRef>)
    ensures DevicesApart(list) <==> ApartAsMultiset(list)
  {
    if DevicesApart(list) {
      forall x, y | x in list && y in list && x != y ensures Devices(x.binding) !! Devices(y.binding) {
        var i :| 0 <= i < |list| && list[i] == x;
        var j :| 0 <= j < |list| && list[j] == y;
        if i < j { assert Devices(list[i].binding) !! Devices(list[j].binding); }
        else { assert Devices(list[j].binding) !! Devices(list[i].binding); }
      }
      forall x | x in list && Devices(x.binding) != {} ensures multiset(list)[x] <= 1 {
        if multiset(list)[x] >= 2 {
          TwiceNotApart(list, x);
        }
      }
    }
    if ApartAsMultiset(list) {
      forall i, j | 0 <= i < j < |list| ensures Devices(list[i].binding) !! Devices(list[j].binding) {
        if list[i] == list[j] {
          TwiceInMultiset(list, i, j);
        }
      }
    }
  }

  lemma {:induction false} BoundMemoryRemoveAt(list: seq<ResourceRef>, i: nat)
    requires i < |list|
    ensures BoundMemory(list) == BoundMemory(list[..i] + list[i + 1..]) + list[i].binding.memory
  {
    var n := |list| - 1;
    if i == n {
      assert list[..i] + list[i + 1..] == list[..n];
    } else {
      BoundMemoryRemoveAt(list[..n], i);
      var without := list[..i] + list[i + 1..];
      assert without[..|without| - 1] == list[..n][..i] + list[..n][i + 1..];
      assert without[|without| - 1] == list[n];
    }
  }

  lemma RemoveOne<T>(s: seq<T>, i: nat)
    requires i < |s|
    ensures multiset(s[..i] + s[i + 1..]) == multiset(s) - multiset{s[i]}
  {
    assert s == s[..i] + [s[i]] + s[i + 1..];
  }

  lemma {:induction false} BoundMemoryIsUnordered(xs: seq<ResourceRef>, ys: seq<ResourceRef>)
    requires multiset(xs) == multiset(ys)
    ensures BoundMemory(xs) == BoundMemory(ys)
    decreases |xs|
  {
    if xs == [] {
      assert |multiset(ys)| == |ys|;
    } else {
      var n := |xs| - 1;
      assert xs[n] in multiset(ys);
      var i :| 0 <= i < |ys| && ys[i] == xs[n];
      RemoveOne(xs, n);
      RemoveOne(ys, i);
      assert xs[..n] + xs[n + 1..] == xs[..n];
      BoundMemoryIsUnordered(xs[..n], ys[..i] + ys[i + 1..]);
      BoundMemoryRemoveAt(ys, i);
    }
  }

  /** Soundness only looks at the entries and their number. */
  lemma DevicesSoundIsUnordered(round: Rounding, m: Machine, xs: seq<ResourceRef>, ys: seq<ResourceRef>)
    requires multiset(xs) == multiset(ys) && DevicesSound(round, m, xs)
    ensures DevicesSound(round, m, ys)
  {
    ApartIsUnordered(xs);
    ApartIsUnordered(ys);
    assert forall e :: e in xs <==> e in multiset(xs);
    assert forall e :: e in ys <==> e in multiset(ys);
    forall i | 0 <= i < |ys|
      ensures DistinctDevices(ys[i].binding) && Devices(ys[i].binding) <= AvailableDisks(round, m).Keys
    {
      assert ys[i] in xs;
    }
  }

  lemma BoundIsUnordered(xs: seq<ResourceRef>, ys: seq<ResourceRef>)
    requires multiset(xs) == multiset(ys)
    ensures BoundCpus(xs) == BoundCpus(ys)
    ensures BoundDevices(xs) == BoundDevices(ys)
  {
    assert forall e :: e in xs <==> e in ys by {
      assert forall e :: e in xs <==> e in multiset(xs);
      assert forall e :: e in ys <==> e in multiset(ys);
    }
    BoundIsMonotone(xs, ys);
    BoundIsMonotone(ys, xs);
  }

  lemma RestIsUnorderedWhenSound(round: Rounding, m: Machine, xs: seq<ResourceRef>, ys: seq<ResourceRef>)
    requires multiset(xs) == multiset(ys) && m.info.Some?
    requires RestOf(round, m, xs).Some? && RestOf(round, m, ys).Some?
    ensures RestOf(round, m, xs).value.idleCPUSet == RestOf(round, m, ys).value.idleCPUSet
    ensures RestOf(round, m, xs).value.disks == RestOf(round, m, ys).value.disks
    ensures Exact(round) ==> RestOf(round, m, xs).value.memory == RestOf(round, m, ys).value.memory
  {
    RestIsDifference(round, m, xs);
    RestIsDifference(round, m, ys);
    BoundIsUnordered(xs, ys);
    if Exact(round) {
      RestMemoryExact(round, m, xs);
      RestMemoryExact(round, m, ys);
      BoundMemoryIsUnordered(xs, ys);
    }
  }

  /** Rest depends on which bindings there are, not on their order. */
  lemma RestIsUnordered(round: Rounding, m: Machine, xs: seq<ResourceRef>, ys: seq<ResourceRef>)
    requires multiset(xs) == multiset(ys)
    ensures RestOf(round, m, xs).Some? <==> RestOf(round, m, ys).Some?
    ensures RestOf(round, m, xs).Some? ==>
              && RestOf(round, m, xs).value.idleCPUSet == RestOf(round, m, ys).value.idleCPUSet
              && RestOf(round, m, xs).value.disks == RestOf(round, m, ys).value.disks
    ensures Exact(round) ==> RestOf(round, m, xs) == RestOf(round, m, ys)
  {
    RestAnswersIff(round, m, xs);
    RestAnswersIff(round, m, ys);
    if DevicesSound(round, m, xs) {
      DevicesSoundIsUnordered(round, m, xs, ys);
      RestIsUnorderedWhenSound(round, m, xs, ys);
    } else if DevicesSound(round, m, ys) {
      DevicesSoundIsUnordered(round, m, ys, xs);
    }
  }
}
