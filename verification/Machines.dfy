/** Capacity arithmetic of api/v1/machine_types.go. */
module Machines {
  import opened Options
  import opened Resources
  import opened Sizes
  import opened CpuSets
  import Sorting

  // ---- Available -------------------------------------------------------------------------

  function TrimTrailingSlashes(p: string): string {
    if p != "" && p[|p| - 1] == '/' then TrimTrailingSlashes(p[..|p| - 1]) else p
  }

  function AfterLastSlash(p: string): string {
    if p == "" then ""
    else if p[|p| - 1] == '/' then ""
    else AfterLastSlash(p[..|p| - 1]) + [p[|p| - 1]]
  }

  /** path.Base */
  function PathBase(p: string): string {
    if p == "" then "."
    else
      var trimmed := TrimTrailingSlashes(p);
      if trimmed == "" then "/" else AfterLastSlash(trimmed)
  }

  function KindOf(device: string): DiskKind {
    if "nvme" <= PathBase(device) then NVMe else OtherKind
  }

  function DiskOf(round: Rounding, device: string, disk: StorageDevice): DiskResource {
    DiskResource(Sub(round, disk.total, disk.used), KindOf(device), disk.mountPoint)
  }

  predicate Schedulable(m: Machine, core: int)
    requires m.info.Some?
  {
    0 <= core < m.info.value.threads && m.reserve.cores <= core
  }

  /** The CPU ids left to the scheduler: all threads but the first reserved ones. */
  ghost function AvailableCpus(m: Machine): set<int>
    requires m.info.Some?
  {
    set c | 0 <= c < m.info.value.threads && Schedulable(m, c)
  }

  /** The devices left to the scheduler: those that are both present and declared exclusive. */
  ghost function AvailableDisks(round: Rounding, m: Machine): map<string, DiskResource>
    requires m.info.Some?
  {
    var devices := m.info.value.storageDevices;
    map d | d in devices && d in m.exclusiveDisks :: DiskOf(round, d, devices[d])
  }

  ghost function AvailableOf(round: Rounding, m: Machine): Option<AvailableResource> {
    if m.info.None? then None
    else Some(AvailableResource(Sub(round, m.info.value.memory, m.reserve.memory),
                                Ascending(AvailableCpus(m)), AvailableDisks(round, m)))
  }

  method MakeCPUSet(threads: int) returns (cpuSet: seq<int>)
    ensures StrictlyAscending(cpuSet)
    ensures forall c :: c in cpuSet <==> 0 <= c < threads
  {
    cpuSet := [];
    var i := 0;
    while i < threads
      invariant 0 <= i && (i <= threads || i == 0)
      invariant StrictlyAscending(cpuSet)
      invariant forall c :: c in cpuSet <==> 0 <= c < i
    {
      assert forall k :: 0 <= k < |cpuSet| ==> cpuSet[k] in cpuSet;
      cpuSet := cpuSet + [i];
      i := i + 1;
    }
  }

  lemma LessIsStrictWeakOrder()
    ensures Sorting.StrictWeakOrder((x: int, y: int) => x < y)
  {
  }

  lemma TwiceInMultiset<T>(s: seq<T>, p: nat, q: nat)
    requires p < q < |s| && s[p] == s[q]
    ensures multiset(s)[s[p]] >= 2
  {
    assert s == s[..q] + s[q..];
    assert s[..q][p] in multiset(s[..q]) && s[q..][0] in multiset(s[q..]);
  }

  /** Sorting an enumeration of a set gives its ascending form. */
  lemma SortedEnumeration(s: seq<int>, want: set<int>)
    requires Sorting.Sorted(s, (x: int, y: int) => x < y)
    requires multiset(s) == multiset(want)
    ensures s == Ascending(want)
  {
    forall p, q | 0 <= p < q < |s| ensures s[p] < s[q] {
      if s[p] == s[q] {
        TwiceInMultiset(s, p, q);
      }
    }
    forall x ensures x in Elems(s) <==> x in Elems(Ascending(want)) {
      assert x in s <==> x in multiset(s);
      assert x in multiset(want) <==> x in want;
    }
    AscendingUnique(s, Ascending(want));
  }

  method SetDifference(cpuSet: seq<int>, allocSet: seq<int>) returns (cores: set<int>)
    ensures cores == Elems(cpuSet) - Elems(allocSet)
  {
    cores := {};
    for i := 0 to |cpuSet|
      invariant cores == Elems(cpuSet[..i])
    {
      assert cpuSet[..i + 1] == cpuSet[..i] + [cpuSet[i]];
      cores := cores + {cpuSet[i]};
    }
    assert cpuSet[..|cpuSet|] == cpuSet;
    for i := 0 to |allocSet|
      invariant cores == Elems(cpuSet) - Elems(allocSet[..i])
    {
      assert allocSet[..i + 1] == allocSet[..i] + [allocSet[i]];
      cores := cores - {allocSet[i]};
    }
    assert allocSet[..|allocSet|] == allocSet;
  }

  /** Reads a map's keys in whatever order they come. */
  method Enumerate<T(==)>(keys: set<T>) returns (s: seq<T>)
    ensures multiset(s) == multiset(keys)
  {
    s := [];
    var todo := keys;
    while todo != {}
      invariant todo <= keys
      invariant multiset(s) == multiset(keys - todo)
    {
      var key :| key in todo;
      assert keys - (todo - {key}) == keys - todo + {key};
      s := s + [key];
      todo := todo - {key};
    }
    assert keys - todo == keys;
  }

  /** Whatever order the map is read in, the result is the ascending set difference. */
  method DeleteCPUSet(cpuSet: seq<int>, allocSet: seq<int>) returns (idleCPUSet: seq<int>)
    ensures idleCPUSet == Ascending(Elems(cpuSet) - Elems(allocSet))
  {
    var cores := SetDifference(cpuSet, allocSet);
    idleCPUSet := Enumerate(cores);
    var slice := new int[|idleCPUSet|](i requires 0 <= i < |idleCPUSet| => idleCPUSet[i]);
    assert slice[..] == idleCPUSet;
    LessIsStrictWeakOrder();
    Sorting.SortSlice(slice, (x: int, y: int) => x < y);
    idleCPUSet := slice[..];
    SortedEnumeration(idleCPUSet, cores);
  }

  method ExclusiveDevices(round: Rounding, m: Machine) returns (disks: map<string, DiskResource>)
    requires m.info.Some?
    ensures disks == AvailableDisks(round, m)
  {
    var exclusiveSet: map<string, bool> := map[];
    for i := 0 to |m.exclusiveDisks|
      invariant forall d :: d in exclusiveSet <==> d in m.exclusiveDisks[..i]
    {
      exclusiveSet := exclusiveSet[m.exclusiveDisks[i] := true];
    }
    disks := map[];
    var devices := m.info.value.storageDevices;
    var todo := devices.Keys;
    while todo != {}
      invariant todo <= devices.Keys
      invariant disks.Keys == set d | d in devices.Keys - todo && d in m.exclusiveDisks
      invariant forall d :: d in disks ==> disks[d] == DiskOf(round, d, devices[d])
    {
      var device :| device in todo;
      if device in exclusiveSet {
        disks := disks[device := DiskOf(round, device, devices[device])];
      }
      todo := todo - {device};
    }
  }

  method Available(round: Rounding, m: Machine) returns (available: Option<AvailableResource>)
    ensures available == AvailableOf(round, m)
    ensures available.None? <==> m.info.None?
    ensures available.Some? ==>
              var idle := available.value.idleCPUSet;
              && (forall p, q :: 0 <= p < q < |idle| ==> idle[p] < idle[q])
              && (forall c :: c in idle <==> 0 <= c < m.info.value.threads && m.reserve.cores <= c)
    ensures available.Some? ==>
              var disks, devices := available.value.disks, m.info.value.storageDevices;
              && available.value.memory == round(m.info.value.memory - m.reserve.memory)
              && (forall d :: d in disks <==> d in devices && d in m.exclusiveDisks)
              && (forall d :: d in disks ==>
                    disks[d].size == round(devices[d].total - devices[d].used) && disks[d].mountPath == devices[d].mountPoint)
  {
    if m.info.None? {
      return None;
    }
    var threads := MakeCPUSet(m.info.value.threads);
    var reserved := MakeCPUSet(m.reserve.cores);
    var idle := DeleteCPUSet(threads, reserved);
    assert Elems(threads) - Elems(reserved) == AvailableCpus(m);
    var disks := ExclusiveDevices(round, m);
    available := Some(AvailableResource(Sub(round, m.info.value.memory, m.reserve.memory), idle, disks));
    OfferedCpus(round, m);
    OfferedIs(round, m);
  }

  // ---- What that offers, field by field --------------------------------------------------

  /** The idle ids ascend, and they are the threads but the first reserved ones, however many those are. */
  lemma OfferedCpus(round: Rounding, m: Machine)
    requires m.info.Some?
    ensures AvailableOf(round, m).Some?
    ensures var idle := AvailableOf(round, m).value.idleCPUSet;
            && (forall p, q :: 0 <= p < q < |idle| ==> idle[p] < idle[q])
            && (forall c :: c in idle <==> 0 <= c < m.info.value.threads && m.reserve.cores <= c)
  {
    var idle := AvailableOf(round, m).value.idleCPUSet;
    assert Enumerates(idle, AvailableCpus(m));
    forall c ensures c in idle <==> 0 <= c < m.info.value.threads && m.reserve.cores <= c {
      assert c in idle <==> c in AvailableCpus(m);
      assert Schedulable(m, c) <==> 0 <= c < m.info.value.threads && m.reserve.cores <= c;
    }
  }

  /** A machine of unknown info offers nothing; otherwise memory and each exclusive device are what was measured less what is in use. */
  lemma OfferedIs(round: Rounding, m: Machine)
    ensures AvailableOf(round, m).None? <==> m.info.None?
    ensures m.info.Some? ==>
              var offered, info := AvailableOf(round, m).value, m.info.value;
              && offered.memory == round(info.memory - m.reserve.memory)
              && (forall d :: d in offered.disks <==> d in info.storageDevices && d in m.exclusiveDisks)
              && (forall d :: d in offered.disks ==>
                    && offered.disks[d].size == round(info.storageDevices[d].total - info.storageDevices[d].used)
                    && offered.disks[d].mountPath == info.storageDevices[d].mountPoint)
  {
    if m.info.Some? {
      assert AvailableOf(round, m).value.disks == AvailableDisks(round, m);
    }
  }

  lemma {:induction false} TrimsSlashes(p: string, trail: string)
    requires p != "" ==> p[|p| - 1] != '/'
    requires forall c :: c in trail ==> c == '/'
    ensures TrimTrailingSlashes(p + trail) == p
  {
    if trail == "" {
      assert p + trail == p;
    } else {
      var n := |trail| - 1;
      assert trail[n] in trail && forall c :: c in trail[..n] ==> c in trail;
      assert (p + trail)[..|p + trail| - 1] == p + trail[..n];
      TrimsSlashes(p, trail[..n]);
    }
  }

  lemma {:induction false} BaseFollowsSlash(dir: string, base: string)
    requires '/' !in base && (dir == "" || dir[|dir| - 1] == '/')
    ensures AfterLastSlash(dir + base) == base
  {
    if base == "" {
      assert dir + base == dir;
    } else {
      var n := |base| - 1;
      assert base[n] in base;
      assert (dir + base)[..|dir + base| - 1] == dir + base[..n];
      BaseFollowsSlash(dir, base[..n]);
    }
  }

  /** The kind is read off the last element of the device's path, whatever directories stand before it and slashes after it. */
  lemma OfferedKindIs(round: Rounding, m: Machine, d: string, dir: string, base: string, trail: string)
    requires m.info.Some? && d in AvailableOf(round, m).value.disks && d == dir + base + trail
    requires base != "" && '/' !in base && (dir == "" || dir[|dir| - 1] == '/') && forall c :: c in trail ==> c == '/'
    ensures AvailableOf(round, m).value.disks[d].kind == if |base| >= 4 && base[..4] == "nvme" then NVMe else OtherKind
  {
    var path := dir + base;
    assert path[|path| - 1] == base[|base| - 1] && base[|base| - 1] in base;
    assert d == path + trail;
    TrimsSlashes(path, trail);
    BaseFollowsSlash(dir, base);
    assert PathBase(d) == base;
    assert AvailableOf(round, m).value.disks[d] == DiskOf(round, d, m.info.value.storageDevices[d]);
    assert "nvme" <= base <==> |base| >= 4 && base[..4] == "nvme";
  }

  // ---- Rest ------------------------------------------------------------------------------

  ghost function Devices(b: ResourceBinding): set<string> {
    set name | name in b.disks :: b.disks[name].device
  }

  /** No two disks of one binding sit on one device. */
  ghost predicate DistinctDevices(b: ResourceBinding) {
    forall x, y :: x in b.disks && y in b.disks && b.disks[x].device == b.disks[y].device ==> x == y
  }

  /** What is left after one binding; None when a device of it is not there to take. */
  ghost function Take(round: Rounding, rest: AvailableResource, b: ResourceBinding): Option<AvailableResource> {
    if DistinctDevices(b) && Devices(b) <= rest.disks.Keys then
      Some(AvailableResource(Sub(round, rest.memory, b.memory),
                             Ascending(Elems(rest.idleCPUSet) - Elems(b.cpuSet)),
                             rest.disks - Devices(b)))
    else None
  }

  ghost function RestOf(round: Rounding, m: Machine, list: seq<ResourceRef>): Option<AvailableResource> {
    if list == [] then AvailableOf(round, m)
    else
      var before := RestOf(round, m, list[..|list| - 1]);
      if before.None? then None else Take(round, before.value, list[|list| - 1].binding)
  }

  lemma RestStep(round: Rounding, m: Machine, list: seq<ResourceRef>, i: nat)
    requires i < |list|
    ensures RestOf(round, m, list[..i + 1]) ==
            if RestOf(round, m, list[..i]).None? then None
            else Take(round, RestOf(round, m, list[..i]).value, list[i].binding)
  {
    assert list[..i + 1][..i] == list[..i];
  }

  lemma {:induction false} RestStaysNone(round: Rounding, m: Machine, list: seq<ResourceRef>, i: nat)
    requires i <= |list| && RestOf(round, m, list[..i]).None?
    ensures RestOf(round, m, list).None?
    decreases |list| - i
  {
    if i == |list| {
      assert list[..i] == list;
    } else {
      RestStep(round, m, list, i);
      RestStaysNone(round, m, list, i + 1);
    }
  }

  /** The inner loop of Rest; None when a device is missing. */
  method TakeDisks(disks: map<string, DiskResource>, b: ResourceBinding)
    returns (left: Option<map<string, DiskResource>>)
    ensures left == if DistinctDevices(b) && Devices(b) <= disks.Keys then Some(disks - Devices(b)) else None
  {
    var rest := disks;
    var todo := b.disks.Keys;
    ghost var gone: set<string> := {};
    while todo != {}
      invariant todo <= b.disks.Keys
      invariant gone == set name | name in b.disks.Keys - todo :: b.disks[name].device
      invariant gone <= disks.Keys
      invariant rest == disks - gone
      invariant forall x, y :: x in b.disks.Keys - todo && y in b.disks.Keys - todo ==>
                                 b.disks[x].device == b.disks[y].device ==> x == y
    {
      var name :| name in todo;
      var device := b.disks[name].device;
      if device !in rest {
        assert device in Devices(b);
        return None;
      }
      rest := rest - {device};
      gone := gone + {device};
      todo := todo - {name};
    }
    assert gone == Devices(b);
    left := Some(rest);
  }

  lemma AscendingHas(cpus: set<int>)
    ensures forall c :: c in Ascending(cpus) <==> c in cpus
    ensures forall p, q :: 0 <= p < q < |Ascending(cpus)| ==> Ascending(cpus)[p] < Ascending(cpus)[q]
  {
    assert Enumerates(Ascending(cpus), cpus);
    forall c ensures c in Ascending(cpus) <==> c in cpus {
      assert c in Ascending(cpus) <==> c in Elems(Ascending(cpus));
    }
  }

  /** The CPUs left: in ascending order, the threads from the reserved number on that no binding holds. */
  lemma {:induction false} IdleCpusAre(round: Rounding, m: Machine, list: seq<ResourceRef>)
    requires RestOf(round, m, list).Some?
    ensures m.info.Some?
    ensures var idle := RestOf(round, m, list).value.idleCPUSet;
            && (forall p, q :: 0 <= p < q < |idle| ==> idle[p] < idle[q])
            && (forall c :: c in idle <==>
                  0 <= c < m.info.value.threads && m.reserve.cores <= c && forall e :: e in list ==> c !in e.binding.cpuSet)
  {
    if list == [] {
      OfferedIs(round, m);
      OfferedCpus(round, m);
    } else {
      var n := |list| - 1;
      var before := RestOf(round, m, list[..n]).value.idleCPUSet;
      IdleCpusAre(round, m, list[..n]);
      AscendingHas(Elems(before) - Elems(list[n].binding.cpuSet));
      assert forall e :: e in list <==> e in list[..n] || e == list[n];
    }
  }

  /** The devices left: present, exclusive and in no binding, each with what was measured less what is in use. */
  lemma {:induction false} IdleDisksAre(round: Rounding, m: Machine, list: seq<ResourceRef>)
    requires RestOf(round, m, list).Some?
    ensures m.info.Some? && AvailableOf(round, m).Some?
    ensures var disks, devices := RestOf(round, m, list).value.disks, m.info.value.storageDevices;
            && (forall d :: d in disks <==>
                  && d in devices && d in m.exclusiveDisks
                  && forall e, x :: e in list && x in e.binding.disks ==> e.binding.disks[x].device != d)
            && (forall d :: d in disks ==>
                  && disks[d] == AvailableOf(round, m).value.disks[d]
                  && disks[d].size == round(devices[d].total - devices[d].used) && disks[d].mountPath == devices[d].mountPoint)
  {
    OfferedIs(round, m);
    if list != [] {
      var n := |list| - 1;
      IdleDisksAre(round, m, list[..n]);
      assert forall e :: e in list <==> e in list[..n] || e == list[n];
      assert forall d :: d in Devices(list[n].binding) <==> exists x :: x in list[n].binding.disks && list[n].binding.disks[x].device == d;
    }
  }

  method Rest(round: Rounding, m: Machine, list: seq<ResourceRef>) returns (rest: Option<AvailableResource>)
    ensures rest == RestOf(round, m, list)
    ensures rest.Some? ==> m.info.Some? && forall c :: c in rest.value.idleCPUSet <==>
              0 <= c < m.info.value.threads && m.reserve.cores <= c && forall e :: e in list ==> c !in e.binding.cpuSet
    ensures rest.Some? ==> forall d :: d in rest.value.disks <==>
              && d in m.info.value.storageDevices && d in m.exclusiveDisks
              && forall e, x :: e in list && x in e.binding.disks ==> e.binding.disks[x].device != d
  {
    rest := Available(round, m);
    if rest.None? {
      RestStaysNone(round, m, list, 0);
      return;
    }
    for i := 0 to |list|
      invariant rest.Some? && rest == RestOf(round, m, list[..i])
    {
      RestStep(round, m, list, i);
      var idle := DeleteCPUSet(rest.value.idleCPUSet, list[i].binding.cpuSet);
      var memory := Sub(round, rest.value.memory, list[i].binding.memory);
      var disks := TakeDisks(rest.value.disks, list[i].binding);
      if disks.None? {
        RestStaysNone(round, m, list, i + 1);
        return None;
      }
      rest := Some(AvailableResource(memory, idle, disks.value));
    }
    assert list[..|list|] == list;
    IdleCpusAre(round, m, list);
    IdleDisksAre(round, m, list);
  }
}
