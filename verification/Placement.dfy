/** Fitting one item on one machine: pickCpuSet and resourceOverflow. */
module Placement {
  import opened Options
  import opened Resources
  import opened Sizes
  import opened CpuSets
  import opened Machines

  /**
   * How the scheduler runs. Rounding is what a Sub does to a size. The code deletes from the
   * remaining disks under the name of the requested disk; byDevice switches to the evident
   * intent, deleting the device that was just given away.
   */
  datatype Config = Config(round: Rounding, byDevice: bool)

  function Max0(cores: int): nat {
    if cores < 0 then 0 else cores
  }

  predicate Suits(want: DiskSpec, have: DiskResource) {
    want.kind == have.kind && want.size <= have.size
  }

  function DiskBindingOf(want: DiskSpec, device: string, have: DiskResource): DiskBinding {
    DiskBinding(want.kind, have.size, device, have.mountPath, want.mountPath)
  }

  /** The key that serving this disk deletes from the remaining disks. */
  function Deleted(byDevice: bool, name: string, device: string): string {
    if byDevice then device else name
  }

  /** Serving the requested disks in this order, no disk gets a device whose key is already deleted. */
  ghost predicate ServingOrder(byDevice: bool, disks: map<string, DiskBinding>, order: seq<string>) {
    && (forall name :: name in order <==> name in disks)
    && (forall i, j :: 0 <= i < j < |order| ==>
          && order[i] != order[j]
          && disks[order[j]].device != Deleted(byDevice, order[i], disks[order[i]].device))
  }

  predicate SuitablyBound(have: map<string, DiskResource>, want: DiskSpec, got: DiskBinding) {
    && got.device in have
    && Suits(want, have[got.device])
    && got == DiskBindingOf(want, got.device, have[got.device])
  }

  /** A possible outcome of the two nested loops over Go maps. */
  ghost predicate DisksServed(byDevice: bool, have: map<string, DiskResource>,
                              want: map<string, DiskSpec>, got: map<string, DiskBinding>)
  {
    && got.Keys <= want.Keys
    && (forall name :: name in got ==> SuitablyBound(have, want[name], got[name]))
    && exists order :: ServingOrder(byDevice, got, order)
  }

  ghost function DeletedKeys(byDevice: bool, got: map<string, DiskBinding>): set<string> {
    set name | name in got :: Deleted(byDevice, name, got[name].device)
  }

  /** The named disk was not served, and every device that suits it had been deleted. */
  ghost predicate Starved(byDevice: bool, have: map<string, DiskResource>, want: map<string, DiskSpec>,
                          got: map<string, DiskBinding>, name: string)
  {
    && name in want && name !in got
    && forall d :: d in have && Suits(want[name], have[d]) ==> d in DeletedKeys(byDevice, got)
  }

  /** The binding is one that resourceOverflow may grant out of rest. */
  ghost predicate Grants(byDevice: bool, rest: AvailableResource, spec: TestResourceSpec, b: ResourceBinding) {
    && b.memory == spec.memory <= rest.memory
    && Max0(spec.cores) <= |rest.idleCPUSet|
    && b.cpuSet == rest.idleCPUSet[..Max0(spec.cores)]
    && b.disks.Keys == spec.disks.Keys
    && DisksServed(byDevice, rest.disks, spec.disks, b.disks)
  }

  ghost predicate Fits(cfg: Config, m: Machine, list: seq<ResourceRef>, spec: TestResourceSpec, b: ResourceBinding) {
    RestOf(cfg.round, m, list).Some? && Grants(cfg.byDevice, RestOf(cfg.round, m, list).value, spec, b)
  }

  /** Enough memory and CPUs are left; this does not look at disks. */
  ghost predicate Roomy(rest: AvailableResource, spec: TestResourceSpec) {
    spec.memory <= rest.memory && spec.cores <= |rest.idleCPUSet|
  }

  /** Some outcome of the disk loops lets the item fit. */
  ghost predicate CanFit(cfg: Config, m: Machine, list: seq<ResourceRef>, spec: TestResourceSpec) {
    exists b :: Fits(cfg, m, list, spec, b)
  }

  /** Why an item can be refused: nothing is known to be left, no room, or a disk whose suitable devices were all deleted. */
  ghost predicate Overflows(cfg: Config, m: Machine, list: seq<ResourceRef>, spec: TestResourceSpec) {
    var rest := RestOf(cfg.round, m, list);
    rest.Some? && Roomy(rest.value, spec) ==>
      exists name, got :: DisksServed(cfg.byDevice, rest.value.disks, spec.disks, got)
                          && Starved(cfg.byDevice, rest.value.disks, spec.disks, got, name)
  }

  // ---- What a grant is, field by field ---------------------------------------------------

  /** The memory asked for, the first idle ids, and for each disk a device of its kind that is large enough. */
  lemma GrantIs(byDevice: bool, rest: AvailableResource, spec: TestResourceSpec, b: ResourceBinding)
    requires Grants(byDevice, rest, spec, b)
    ensures b.memory == spec.memory <= rest.memory
    ensures |b.cpuSet| == (if spec.cores < 0 then 0 else spec.cores) <= |rest.idleCPUSet| && b.cpuSet <= rest.idleCPUSet
    ensures forall n :: n in b.disks <==> n in spec.disks
    ensures forall n :: n in spec.disks ==>
              && b.disks[n].device in rest.disks
              && rest.disks[b.disks[n].device].kind == spec.disks[n].kind
              && spec.disks[n].size <= rest.disks[b.disks[n].device].size
    ensures forall n :: n in spec.disks ==>
              b.disks[n] == DiskBinding(spec.disks[n].kind, rest.disks[b.disks[n].device].size, b.disks[n].device,
                                        rest.disks[b.disks[n].device].mountPath, spec.disks[n].mountPath)
  {
    forall n | n in spec.disks ensures SuitablyBound(rest.disks, spec.disks[n], b.disks[n]) {
      assert n in b.disks.Keys;
    }
  }

  /** No device left is of the kind and the size. */
  lemma OnlyDiskStarves(byDevice: bool, have: map<string, DiskResource>, want: map<string, DiskSpec>,
                        got: map<string, DiskBinding>, name: string)
    requires |want| <= 1 && got.Keys <= want.Keys && Starved(byDevice, have, want, got, name)
    ensures forall d :: d in have ==> have[d].kind != want[name].kind || have[d].size < want[name].size
  {
    SubsetSize({name}, want.Keys);
    assert |want.Keys| == |want|;
    assert got.Keys == {};
    assert DeletedKeys(byDevice, got) == {};
    assert forall d :: d in have ==> !Suits(want[name], have[d]);
  }

  // ---- The code --------------------------------------------------------------------------

  method PickCpuSet(cpuSet: seq<int>, i: int) returns (picked: seq<int>)
    ensures picked == if i <= |cpuSet| then cpuSet[..Max0(i)] else []
  {
    picked := [];
    if |cpuSet| < i {
      return;
    }
    var index := 0;
    while index < i
      invariant 0 <= index && (index <= i || index == 0)
      invariant picked == cpuSet[..index]
    {
      picked := picked + [cpuSet[index]];
      index := index + 1;
    }
  }

  /** The inner loop: any device that suits, or none when no remaining device does. */
  method FindDevice(want: DiskSpec, disks: map<string, DiskResource>) returns (device: Option<string>)
    ensures device.Some? ==>
              device.value in disks && disks[device.value].kind == want.kind && want.size <= disks[device.value].size
    ensures device.None? ==> forall d :: d in disks ==> disks[d].kind != want.kind || disks[d].size < want.size
  {
    var todo := disks.Keys;
    while todo != {}
      invariant todo <= disks.Keys
      invariant forall d :: d in disks.Keys - todo ==> !Suits(want, disks[d])
    {
      var d :| d in todo;
      if Suits(want, disks[d]) {
        return Some(d);
      }
      todo := todo - {d};
    }
    device := None;
  }

  /** What the outer loop keeps: every disk it has looked at is served or starved. */
  ghost predicate ServingProgress(byDevice: bool, have: map<string, DiskResource>, want: map<string, DiskSpec>,
                                  todo: set<string>, got: map<string, DiskBinding>, order: seq<string>)
  {
    && todo <= want.Keys
    && got.Keys <= want.Keys - todo
    && (forall name :: name in got ==> SuitablyBound(have, want[name], got[name]))
    && ServingOrder(byDevice, got, order)
    && (forall name :: name in want.Keys - todo && name !in got ==> Starved(byDevice, have, want, got, name))
  }

  lemma DeletedGrows(byDevice: bool, got: map<string, DiskBinding>, name: string, b: DiskBinding)
    requires name !in got
    ensures DeletedKeys(byDevice, got[name := b]) == DeletedKeys(byDevice, got) + {Deleted(byDevice, name, b.device)}
  {
    var more := got[name := b];
    forall k | k in DeletedKeys(byDevice, got) ensures k in DeletedKeys(byDevice, more) {
      var x :| x in got && Deleted(byDevice, x, got[x].device) == k;
      assert x in more && more[x] == got[x];
    }
    assert name in more && more[name] == b;
  }

  lemma OrderGrows(byDevice: bool, got: map<string, DiskBinding>, order: seq<string>, name: string, b: DiskBinding)
    requires ServingOrder(byDevice, got, order) && name !in got && b.device !in DeletedKeys(byDevice, got)
    ensures ServingOrder(byDevice, got[name := b], order + [name])
  {
    var more := got[name := b];
    forall i, j | 0 <= i < j < |order + [name]|
      ensures (order + [name])[i] != (order + [name])[j]
      ensures more[(order + [name])[j]].device != Deleted(byDevice, order[i], more[order[i]].device)
    {
      assert order[i] in got;
      if j == |order| {
        assert Deleted(byDevice, order[i], got[order[i]].device) in DeletedKeys(byDevice, got);
      }
    }
  }

  lemma ServeOneMore(byDevice: bool, have: map<string, DiskResource>, want: map<string, DiskSpec>,
                     todo: set<string>, got: map<string, DiskBinding>, order: seq<string>, name: string, b: DiskBinding)
    requires ServingProgress(byDevice, have, want, todo, got, order)
    requires name in todo && SuitablyBound(have, want[name], b) && b.device !in DeletedKeys(byDevice, got)
    ensures DeletedKeys(byDevice, got[name := b]) == DeletedKeys(byDevice, got) + {Deleted(byDevice, name, b.device)}
    ensures ServingProgress(byDevice, have, want, todo - {name}, got[name := b], order + [name])
  {
    DeletedGrows(byDevice, got, name, b);
    OrderGrows(byDevice, got, order, name, b);
  }

  lemma StarveOneMore(byDevice: bool, have: map<string, DiskResource>, want: map<string, DiskSpec>,
                      todo: set<string>, got: map<string, DiskBinding>, order: seq<string>, name: string)
    requires ServingProgress(byDevice, have, want, todo, got, order)
    requires name in todo
    requires forall d :: d in have - DeletedKeys(byDevice, got) ==> !Suits(want[name], have[d])
    ensures ServingProgress(byDevice, have, want, todo - {name}, got, order)
  {
    forall d | d in have && Suits(want[name], have[d]) ensures d in DeletedKeys(byDevice, got) {
      assert d in have - DeletedKeys(byDevice, got) || d in DeletedKeys(byDevice, got);
    }
  }

  /** Served disks sit on devices of their kind and size; for the others each such device was given away or, by name, deleted. */
  lemma StarvedMeans(byDevice: bool, have: map<string, DiskResource>, want: map<string, DiskSpec>, got: map<string, DiskBinding>)
    requires forall n :: n in got ==> n in want && SuitablyBound(have, want[n], got[n])
    requires forall n :: n in want && n !in got ==> Starved(byDevice, have, want, got, n)
    ensures forall n :: n in got ==>
              && got[n].device in have
              && have[got[n].device].kind == want[n].kind && want[n].size <= have[got[n].device].size
    ensures forall n, d :: n in want && n !in got && d in have && have[d].kind == want[n].kind && want[n].size <= have[d].size ==>
              if byDevice then exists x :: x in got && got[x].device == d else d in got
  {
    forall n, d | n in want && n !in got && d in have && have[d].kind == want[n].kind && want[n].size <= have[d].size
      ensures if byDevice then exists x :: x in got && got[x].device == d else d in got
    {
      assert Suits(want[n], have[d]);
      var x :| x in got && Deleted(byDevice, x, got[x].device) == d;
    }
  }

  /** The outer loop; order is the order in which the disks were served. */
  method ServeDisks(byDevice: bool, have: map<string, DiskResource>, want: map<string, DiskSpec>)
    returns (got: map<string, DiskBinding>, ghost order: seq<string>)
    ensures DisksServed(byDevice, have, want, got)
    ensures ServingOrder(byDevice, got, order)
    ensures forall name :: name in want && name !in got ==> Starved(byDevice, have, want, got, name)
    ensures forall n :: n in got ==>
              && n in want && got[n].device in have
              && have[got[n].device].kind == want[n].kind && want[n].size <= have[got[n].device].size
    ensures forall n, d :: n in want && n !in got && d in have && have[d].kind == want[n].kind && want[n].size <= have[d].size ==>
              if byDevice then exists x :: x in got && got[x].device == d else d in got
  {
    got := map[];
    order := [];
    var disks := have;
    var todo := want.Keys;
    while todo != {}
      invariant ServingProgress(byDevice, have, want, todo, got, order)
      invariant disks == have - DeletedKeys(byDevice, got)
    {
      var name :| name in todo;
      var device := FindDevice(want[name], disks);
      if device.Some? {
        var binding := DiskBindingOf(want[name], device.value, have[device.value]);
        ServeOneMore(byDevice, have, want, todo, got, order, name, binding);
        disks := disks - {Deleted(byDevice, name, device.value)};
        got := got[name := binding];
        order := order + [name];
      } else {
        StarveOneMore(byDevice, have, want, todo, got, order, name);
      }
      todo := todo - {name};
    }
    StarvedMeans(byDevice, have, want, got);
  }

  /** None is the overflow answer. */
  method ResourceOverflow(byDevice: bool, rest: Option<AvailableResource>, spec: TestResourceSpec)
    returns (binding: Option<ResourceBinding>)
    ensures binding.Some? ==> rest.Some? && Grants(byDevice, rest.value, spec, binding.value)
    ensures binding.Some? ==>
              && binding.value.memory == spec.memory <= rest.value.memory
              && |binding.value.cpuSet| == (if spec.cores < 0 then 0 else spec.cores) && binding.value.cpuSet <= rest.value.idleCPUSet
              && (forall n :: n in binding.value.disks <==> n in spec.disks)
    ensures binding.Some? ==> forall n :: n in spec.disks ==>
              var device := binding.value.disks[n].device;
              && device in rest.value.disks
              && rest.value.disks[device].kind == spec.disks[n].kind && spec.disks[n].size <= rest.value.disks[device].size
              && binding.value.disks[n] == DiskBinding(spec.disks[n].kind, rest.value.disks[device].size, device,
                                                       rest.value.disks[device].mountPath, spec.disks[n].mountPath)
    ensures binding.None? && rest.Some? && Roomy(rest.value, spec) ==>
              exists name, got :: DisksServed(byDevice, rest.value.disks, spec.disks, got)
                                  && Starved(byDevice, rest.value.disks, spec.disks, got, name)
    ensures binding.None? && rest.Some? && spec.memory <= rest.value.memory && spec.cores <= |rest.value.idleCPUSet| && |spec.disks| <= 1 ==>
              exists n :: n in spec.disks && forall d :: d in rest.value.disks ==>
                rest.value.disks[d].kind != spec.disks[n].kind || rest.value.disks[d].size < spec.disks[n].size
    ensures rest.Some? && (rest.value.memory < spec.memory || |rest.value.idleCPUSet| < spec.cores) ==> binding.None?
  {
    if rest.None? {
      return None;
    }
    var cpuSet := PickCpuSet(rest.value.idleCPUSet, spec.cores);
    var disks, order := ServeDisks(byDevice, rest.value.disks, spec.disks);
    var overflow := |disks| < |spec.disks| || rest.value.memory < spec.memory || |cpuSet| < spec.cores;
    SubsetSize(disks.Keys, spec.disks.Keys);
    assert |disks| == |disks.Keys| && |spec.disks| == |spec.disks.Keys|;
    if overflow {
      if Roomy(rest.value, spec) {
        ghost var name := Member(spec.disks.Keys - disks.Keys);
        if |spec.disks| <= 1 {
          OnlyDiskStarves(byDevice, rest.value.disks, spec.disks, disks, name);
        }
      }
      return None;
    }
    binding := Some(ResourceBinding(spec.memory, cpuSet, disks));
    GrantIs(byDevice, rest.value, spec, binding.value);
  }

  lemma SubsetSize<T>(a: set<T>, b: set<T>)
    requires a <= b
    ensures |a| < |b| <==> a != b
    ensures a != b ==> b - a != {}
  {
    assert b == a + (b - a);
    assert |b| == |a| + |b - a|;
  }
}
