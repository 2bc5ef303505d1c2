/** When a disk-free group fits a machine, as plain arithmetic. */
module GroupLaws {
  import opened Refs
  import opened Resources
  import opened Sizes
  import opened CpuSets
  import opened Machines
  import opened Capacity
  import opened Placement
  import opened PlacementLaws
  import opened Scheduler

  ghost function TotalCores(group: seq<TestResource>): nat {
    if group == [] then 0 else Max0(group[0].spec.cores) + TotalCores(group[1..])
  }

  ghost function TotalMemory(group: seq<TestResource>): nat {
    if group == [] then 0 else group[0].spec.memory + TotalMemory(group[1..])
  }

  lemma AscendingSize(s: seq<int>)
    requires StrictlyAscending(s)
    ensures |Elems(s)| == |s|
  {
    assert Enumerates(Ascending(Elems(s)), Elems(s));
    AscendingUnique(s, Ascending(Elems(s)));
  }

  /** Taking the first c of the idle CPUs leaves c fewer. */
  lemma PickedLeaves(left: set<int>, c: nat)
    requires c <= |left|
    ensures |left - Elems(Ascending(left)[..c])| == |left| - c
  {
    var idle := Ascending(left);
    assert Enumerates(idle, left);
    var picked := Elems(idle[..c]);
    AscendingSize(idle[..c]);
    assert picked <= Elems(idle);
    SubsetSizes(picked, left);
  }

  lemma SubsetSizes<T>(a: set<T>, b: set<T>)
    requires a <= b
    ensures |b - a| == |b| - |a|
  {
    assert b == a + (b - a);
    assert |b| == |a| + |b - a|;
  }

  lemma TakeDiskFree(round: Rounding, rest: AvailableResource, left: set<int>, spec: TestResourceSpec, b: ResourceBinding)
    requires Exact(round) && rest.idleCPUSet == Ascending(left) && Max0(spec.cores) <= |rest.idleCPUSet|
    requires b.memory == spec.memory && b.cpuSet == rest.idleCPUSet[..Max0(spec.cores)] && b.disks == map[]
    ensures Take(round, rest, b).Some?
    ensures Take(round, rest, b).value.memory == rest.memory - spec.memory
    ensures |Take(round, rest, b).value.idleCPUSet| == |rest.idleCPUSet| - Max0(spec.cores)
  {
    assert Devices(b) == {};
    assert Enumerates(Ascending(left), left);
    PickedLeaves(left, Max0(spec.cores));
  }

  /** What a disk-free binding leaves, with exact sizes. */
  lemma RestAfterDiskFree(cfg: Config, m: Machine, list: seq<ResourceRef>, spec: TestResourceSpec, b: ResourceBinding, r: Ref)
    requires Exact(cfg.round) && spec.disks == map[] && Fits(cfg, m, list, spec, b)
    ensures var before, after := RestOf(cfg.round, m, list), RestOf(cfg.round, m, list + [ResourceRef(r, b)]);
            && after.Some?
            && after.value.memory == before.value.memory - spec.memory
            && |after.value.idleCPUSet| == |before.value.idleCPUSet| - Max0(spec.cores)
  {
    var rest := RestOf(cfg.round, m, list).value;
    assert RestOf(cfg.round, m, list + [ResourceRef(r, b)]) == Take(cfg.round, rest, b) by {
      assert (list + [ResourceRef(r, b)])[..|list|] == list;
    }
    assert b.disks == map[] by {
      assert b.disks.Keys == {};
    }
    assert m.info.Some? by {
      RestAnswersIff(cfg.round, m, list);
    }
    var left := AvailableCpus(m) - BoundCpus(list);
    assert rest.idleCPUSet == Ascending(left) by {
      RestIsDifference(cfg.round, m, list);
    }
    TakeDiskFree(cfg.round, rest, left, spec, b);
  }

  /**
   * Greedy placement is exact without disks: a machine takes a group if and only if Rest answers and
   * the group's cores and memory together are at most what is left.
   */
  lemma {:induction false} GroupFitsIff(cfg: Config, m: Machine, list: seq<ResourceRef>, group: seq<TestResource>)
    requires Exact(cfg.round) && DiskFree(group) && group != []
    ensures CanTake(cfg, m, list, group) <==>
            && RestOf(cfg.round, m, list).Some?
            && TotalCores(group) <= |RestOf(cfg.round, m, list).value.idleCPUSet|
            && TotalMemory(group) <= RestOf(cfg.round, m, list).value.memory
    decreases group
  {
    var spec := group[0].spec;
    DiskFreeFitsIff(cfg, m, list, spec);
    if CanFit(cfg, m, list, spec) {
      var b :| Fits(cfg, m, list, spec, b);
      var longer := list + [ResourceRef(group[0].ref, b)];
      CanTakeStep(cfg, m, list, group, b);
      RestAfterDiskFree(cfg, m, list, spec, b, group[0].ref);
      assert DiskFree(group[1..]);
      if group[1..] == [] {
        assert CanTake(cfg, m, longer, group[1..]);
        assert TotalCores(group[1..]) == 0 && TotalMemory(group[1..]) == 0;
      } else {
        GroupFitsIff(cfg, m, longer, group[1..]);
      }
    }
  }
}
