/** tryBindResource and tryRequest: from a request to a committed plan, or to nothing at all. */
module Scheduler {
  import opened Options
  import opened Refs
  import opened Resources
  import opened Machines
  import opened Relationships
  import opened Placement
  import opened PlacementLaws
  import opened Grouping

  // ---- Plans -----------------------------------------------------------------------------

  datatype Placed = Placed(machine: Machine, resource: TestResource, binding: ResourceBinding)

  function Apply(rel: RelationshipStatus, plan: seq<Placed>): RelationshipStatus {
    if plan == [] then rel
    else
      var p := plan[|plan| - 1];
      Bind(Apply(rel, plan[..|plan| - 1]), p.machine.ref, p.resource.ref, p.binding)
  }

  /** Each binding fits on its machine on top of the bindings before it. */
  ghost predicate Legal(cfg: Config, rel: RelationshipStatus, plan: seq<Placed>) {
    plan != [] ==>
      var n := |plan| - 1;
      && Legal(cfg, rel, plan[..n])
      && Fits(cfg, plan[n].machine, ListOf(Apply(rel, plan[..n]), Key(plan[n].machine.ref)),
              plan[n].resource.spec, plan[n].binding)
  }

  ghost function ResourcesOf(plan: seq<Placed>): seq<TestResource> {
    seq(|plan|, i requires 0 <= i < |plan| => plan[i].resource)
  }

  lemma {:induction false} ApplyConcat(rel: RelationshipStatus, a: seq<Placed>, b: seq<Placed>)
    ensures Apply(rel, a + b) == Apply(Apply(rel, a), b)
  {
    if b == [] {
      assert a + b == a;
    } else {
      ApplyConcat(rel, a, b[..|b| - 1]);
      assert (a + b)[..|a + b| - 1] == a + b[..|b| - 1];
    }
  }

  lemma {:induction false} LegalConcat(cfg: Config, rel: RelationshipStatus, a: seq<Placed>, b: seq<Placed>)
    requires Legal(cfg, rel, a) && Legal(cfg, Apply(rel, a), b)
    ensures Legal(cfg, rel, a + b)
  {
    if b == [] {
      assert a + b == a;
    } else {
      var n := |b| - 1;
      LegalConcat(cfg, rel, a, b[..n]);
      assert (a + b)[..|a + b| - 1] == a + b[..n];
      ApplyConcat(rel, a, b[..n]);
    }
  }

  /** Binding only ever lengthens a list. */
  lemma {:induction false} ApplyGrows(rel: RelationshipStatus, plan: seq<Placed>, key: string)
    ensures ListOf(rel, key) <= ListOf(Apply(rel, plan), key)
    ensures Apply(rel, plan).acceptedRequests == rel.acceptedRequests
    ensures Apply(rel, plan).machineLocks == rel.machineLocks
  {
    if plan != [] {
      ApplyGrows(rel, plan[..|plan| - 1], key);
    }
  }

  // ---- One group on one machine ----------------------------------------------------------

  function Entries(group: seq<TestResource>, bindings: seq<ResourceBinding>): seq<ResourceRef>
    requires |bindings| <= |group|
  {
    seq(|bindings|, i requires 0 <= i < |bindings| => ResourceRef(group[i].ref, bindings[i]))
  }

  /** The bindings fit the first items of the group, each on top of the ones before it. */
  ghost predicate FitsAll(cfg: Config, m: Machine, list: seq<ResourceRef>, group: seq<TestResource>, bindings: seq<ResourceBinding>)
    requires |bindings| <= |group|
  {
    bindings != [] ==>
      var n := |bindings| - 1;
      && FitsAll(cfg, m, list, group, bindings[..n])
      && Fits(cfg, m, list + Entries(group, bindings[..n]), group[n].spec, bindings[n])
  }

  /** The machine can take the whole group, one item after the other. */
  ghost predicate CanTake(cfg: Config, m: Machine, list: seq<ResourceRef>, group: seq<TestResource>)
    decreases group
  {
    group != [] ==>
      exists b :: Fits(cfg, m, list, group[0].spec, b) && CanTake(cfg, m, list + [ResourceRef(group[0].ref, b)], group[1..])
  }

  ghost predicate DiskFree(group: seq<TestResource>) {
    forall i :: 0 <= i < |group| ==> group[i].spec.disks == map[]
  }

  /** Only the last item may ask for a disk, and for one at most: then no choice of device can spoil a later item. */
  ghost predicate Predictable(group: seq<TestResource>) {
    forall i :: 0 <= i < |group| ==> |group[i].spec.disks| <= if i == |group| - 1 then 1 else 0
  }

  ghost predicate NamesDistinct(group: seq<TestResource>) {
    forall i, j :: 0 <= i < j < |group| ==> group[i].ref.name != group[j].ref.name
  }

  lemma DiskFreeBindingUnique(cfg: Config, m: Machine, list: seq<ResourceRef>, spec: TestResourceSpec, a: ResourceBinding, b: ResourceBinding)
    requires Fits(cfg, m, list, spec, a) && Fits(cfg, m, list, spec, b) && spec.disks == map[]
    ensures a == b
  {
    assert a.disks.Keys == {} && b.disks.Keys == {};
    assert a.disks == map[] && b.disks == map[];
  }

  /** Taking a disk-free item, or the last one, does not change whether the rest of the group can be taken. */
  lemma CanTakeStep(cfg: Config, m: Machine, list: seq<ResourceRef>, group: seq<TestResource>, b: ResourceBinding)
    requires group != [] && (group[0].spec.disks == map[] || |group| == 1) && Fits(cfg, m, list, group[0].spec, b)
    ensures CanTake(cfg, m, list, group) <==> CanTake(cfg, m, list + [ResourceRef(group[0].ref, b)], group[1..])
  {
    if |group| == 1 {
      assert CanTake(cfg, m, list + [ResourceRef(group[0].ref, b)], group[1..]);
    } else if CanTake(cfg, m, list, group) {
      var c :| Fits(cfg, m, list, group[0].spec, c) && CanTake(cfg, m, list + [ResourceRef(group[0].ref, c)], group[1..]);
      DiskFreeBindingUnique(cfg, m, list, group[0].spec, b, c);
    }
  }

  /** The same with the group as the i-th suffix, and the case where the item does not fit. */
  lemma CanTakeNext(cfg: Config, m: Machine, list: seq<ResourceRef>, group: seq<TestResource>, i: nat, b: Option<ResourceBinding>)
    requires i < |group| && Predictable(group)
    requires b.Some? ==> Fits(cfg, m, list, group[i].spec, b.value)
    requires b.None? ==> !CanFit(cfg, m, list, group[i].spec)
    ensures CanTake(cfg, m, list, group[i..]) <==>
            b.Some? && CanTake(cfg, m, list + [ResourceRef(group[i].ref, b.value)], group[i + 1..])
  {
    assert group[i..][0] == group[i] && group[i..][1..] == group[i + 1..];
    if b.Some? {
      CanTakeStep(cfg, m, list, group[i..], b.value);
    }
  }

  lemma EntriesStep(list: seq<ResourceRef>, group: seq<TestResource>, bindings: seq<ResourceBinding>, b: ResourceBinding)
    requires |bindings| < |group|
    ensures list + Entries(group, bindings + [b]) == list + Entries(group, bindings) + [ResourceRef(group[|bindings|].ref, b)]
  {
    assert Entries(group, bindings + [b]) == Entries(group, bindings) + [ResourceRef(group[|bindings|].ref, b)];
  }

  lemma FitsAllStep(cfg: Config, m: Machine, list: seq<ResourceRef>, group: seq<TestResource>,
                    bindings: seq<ResourceBinding>, b: ResourceBinding)
    requires |bindings| < |group| && FitsAll(cfg, m, list, group, bindings)
    requires Fits(cfg, m, list + Entries(group, bindings), group[|bindings|].spec, b)
    ensures FitsAll(cfg, m, list, group, bindings + [b])
  {
    var longer, n := bindings + [b], |bindings|;
    assert longer[..n] == bindings && longer[n] == b && |longer| - 1 == n;
  }

  /** The map from item name to binding, as far as the loop has come. */
  ghost predicate Recorded(group: seq<TestResource>, bindings: seq<ResourceBinding>, bindingOf: map<string, ResourceBinding>)
    requires |bindings| <= |group|
  {
    forall k :: 0 <= k < |bindings| ==> group[k].ref.name in bindingOf && bindingOf[group[k].ref.name] == bindings[k]
  }

  lemma RecordedStep(group: seq<TestResource>, bindings: seq<ResourceBinding>, bindingOf: map<string, ResourceBinding>, b: ResourceBinding)
    requires |bindings| < |group| && NamesDistinct(group) && Recorded(group, bindings, bindingOf)
    ensures Recorded(group, bindings + [b], bindingOf[group[|bindings|].ref.name := b])
  {
  }

  method AllocateItem(cfg: Config, m: Machine, list: seq<ResourceRef>, spec: TestResourceSpec) returns (binding: Option<ResourceBinding>)
    ensures binding.Some? ==> Fits(cfg, m, list, spec, binding.value)
    ensures binding.None? ==> Overflows(cfg, m, list, spec)
    ensures binding.None? && |spec.disks| <= 1 ==> !CanFit(cfg, m, list, spec)
  {
    var rest := Rest(cfg.round, m, list);
    binding := ResourceOverflow(cfg.byDevice, rest, spec);
    if binding.None? && |spec.disks| <= 1 {
      OneDiskOverflowExact(cfg, m, list, spec);
    }
  }

  /** After grants for some first items of the group, the next item is refused. */
  ghost predicate GroupOverflows(cfg: Config, m: Machine, list: seq<ResourceRef>, group: seq<TestResource>) {
    exists bindings :: OverflowsAfter(cfg, m, list, group, bindings)
  }

  ghost predicate OverflowsAfter(cfg: Config, m: Machine, list: seq<ResourceRef>, group: seq<TestResource>, bindings: seq<ResourceBinding>) {
    && |bindings| < |group| && FitsAll(cfg, m, list, group, bindings)
    && Overflows(cfg, m, list + Entries(group, bindings), group[|bindings|].spec)
  }

  /** The loop over the group's items has placed this many of them. */
  ghost predicate Allocated(cfg: Config, m: Machine, list: seq<ResourceRef>, group: seq<TestResource>, taken: seq<ResourceRef>,
                            bindingOf: map<string, ResourceBinding>, bindings: seq<ResourceBinding>)
  {
    && |bindings| <= |group| && FitsAll(cfg, m, list, group, bindings)
    && taken == list + Entries(group, bindings)
    && Recorded(group, bindings, bindingOf)
    && (Predictable(group) ==> (CanTake(cfg, m, list, group) <==> CanTake(cfg, m, taken, group[|bindings|..])))
  }

  lemma AllocatedStart(cfg: Config, m: Machine, list: seq<ResourceRef>, group: seq<TestResource>)
    ensures Allocated(cfg, m, list, group, list, map[], [])
  {
    assert group[0..] == group;
    assert list + Entries(group, []) == list;
  }

  lemma AllocatedStep(cfg: Config, m: Machine, list: seq<ResourceRef>, group: seq<TestResource>, taken: seq<ResourceRef>,
                      bindingOf: map<string, ResourceBinding>, bindings: seq<ResourceBinding>, b: ResourceBinding)
    requires Allocated(cfg, m, list, group, taken, bindingOf, bindings) && |bindings| < |group| && NamesDistinct(group)
    requires Fits(cfg, m, taken, group[|bindings|].spec, b)
    ensures var next := group[|bindings|].ref;
            Allocated(cfg, m, list, group, taken + [ResourceRef(next, b)], bindingOf[next.name := b], bindings + [b])
  {
    FitsAllStep(cfg, m, list, group, bindings, b);
    EntriesStep(list, group, bindings, b);
    RecordedStep(group, bindings, bindingOf, b);
    if Predictable(group) {
      CanTakeNext(cfg, m, taken, group, |bindings|, Some(b));
    }
  }

  /** Allocate the group's items one after the other, or give up at the first that overflows. */
  method AllocateGroup(cfg: Config, m: Machine, list: seq<ResourceRef>, group: seq<TestResource>)
    returns (taken: seq<ResourceRef>, bindingOf: map<string, ResourceBinding>, ok: bool, ghost bindings: seq<ResourceBinding>)
    requires NamesDistinct(group)
    ensures ok ==>
              && |bindings| == |group| && FitsAll(cfg, m, list, group, bindings)
              && taken == list + Entries(group, bindings)
              && Recorded(group, bindings, bindingOf)
    ensures !ok ==> GroupOverflows(cfg, m, list, group)
    ensures Predictable(group) ==> (ok <==> CanTake(cfg, m, list, group))
  {
    taken := Clone(list);
    bindingOf := map[];
    bindings := [];
    AllocatedStart(cfg, m, list, group);
    for i := 0 to |group|
      invariant |bindings| == i && Allocated(cfg, m, list, group, taken, bindingOf, bindings)
    {
      var binding := AllocateItem(cfg, m, taken, group[i].spec);
      if binding.None? {
        if Predictable(group) {
          CanTakeNext(cfg, m, taken, group, i, None);
        }
        assert OverflowsAfter(cfg, m, list, group, bindings);
        ok := false;
        return;
      }
      AllocatedStep(cfg, m, list, group, taken, bindingOf, bindings, binding.value);
      taken := taken + [ResourceRef(group[i].ref, binding.value)];
      bindingOf := bindingOf[group[i].ref.name := binding.value];
      bindings := bindings + [binding.value];
    }
    ok := true;
  }

  // ---- tryBindResource -------------------------------------------------------------------

  /** The plan that puts the first items of a group on one machine. */
  function PlanOn(m: Machine, group: seq<TestResource>, bindings: seq<ResourceBinding>): seq<Placed>
    requires |bindings| <= |group|
  {
    seq(|bindings|, i requires 0 <= i < |bindings| => Placed(m, group[i], bindings[i]))
  }

  lemma PlanOnStep(rel: RelationshipStatus, m: Machine, group: seq<TestResource>, bindings: seq<ResourceBinding>)
    requires 0 < |bindings| <= |group|
    ensures var n := |bindings| - 1;
            && PlanOn(m, group, bindings) == PlanOn(m, group, bindings[..n]) + [Placed(m, group[n], bindings[n])]
            && Apply(rel, PlanOn(m, group, bindings)) ==
               Bind(Apply(rel, PlanOn(m, group, bindings[..n])), m.ref, group[n].ref, bindings[n])
  {
    var n := |bindings| - 1;
    var plan := PlanOn(m, group, bindings);
    assert plan[..n] == PlanOn(m, group, bindings[..n]);
  }

  /** Applying such a plan appends its entries to the one list it concerns. */
  lemma {:induction false} PlanOnMaps(rel: RelationshipStatus, m: Machine, group: seq<TestResource>, bindings: seq<ResourceBinding>)
    requires |bindings| <= |group|
    ensures Apply(rel, PlanOn(m, group, bindings)).machineToResources ==
            if bindings == [] then rel.machineToResources
            else rel.machineToResources[Key(m.ref) := ListOf(rel, Key(m.ref)) + Entries(group, bindings)]
  {
    if bindings != [] {
      var n := |bindings| - 1;
      PlanOnMaps(rel, m, group, bindings[..n]);
      PlanOnStep(rel, m, group, bindings);
      EntriesStep(ListOf(rel, Key(m.ref)), group, bindings[..n], bindings[n]);
      assert bindings[..n] + [bindings[n]] == bindings;
      assert ListOf(rel, Key(m.ref)) + Entries(group, []) == ListOf(rel, Key(m.ref));
    }
  }

  lemma PlanOnList(rel: RelationshipStatus, m: Machine, group: seq<TestResource>, bindings: seq<ResourceBinding>)
    requires |bindings| <= |group|
    ensures ListOf(Apply(rel, PlanOn(m, group, bindings)), Key(m.ref)) == ListOf(rel, Key(m.ref)) + Entries(group, bindings)
  {
    PlanOnMaps(rel, m, group, bindings);
    assert bindings == [] ==> Entries(group, bindings) == [];
  }

  lemma {:induction false} PlanOnLegal(cfg: Config, rel: RelationshipStatus, m: Machine, group: seq<TestResource>, bindings: seq<ResourceBinding>)
    requires |bindings| <= |group| && FitsAll(cfg, m, ListOf(rel, Key(m.ref)), group, bindings)
    ensures Legal(cfg, rel, PlanOn(m, group, bindings))
  {
    if bindings != [] {
      var n := |bindings| - 1;
      PlanOnLegal(cfg, rel, m, group, bindings[..n]);
      PlanOnStep(rel, m, group, bindings);
      PlanOnList(rel, m, group, bindings[..n]);
      assert PlanOn(m, group, bindings)[..n] == PlanOn(m, group, bindings[..n]);
    }
  }

  /** The machine can host the group on top of what the record says it hosts. */
  ghost predicate CanHost(cfg: Config, rel: RelationshipStatus, m: Machine, group: seq<TestResource>) {
    CanTake(cfg, m, ListOf(rel, Key(m.ref)), group)
  }

  /** The plan puts exactly this group, in order, on this machine. */
  ghost predicate Hosts(plan: seq<Placed>, m: Machine, group: seq<TestResource>) {
    && |plan| == |group|
    && forall i :: 0 <= i < |plan| ==> plan[i].machine == m && plan[i].resource == group[i]
  }

  /** resourceToMachine when the first i items are recorded. */
  ghost function BoundAfter(rel: RelationshipStatus, m: Machine, group: seq<TestResource>, bindings: seq<ResourceBinding>, i: nat): map<string, MachineRef>
    requires i <= |bindings| <= |group|
  {
    Apply(rel, PlanOn(m, group, bindings[..i])).resourceToMachine
  }

  lemma BoundStep(rel: RelationshipStatus, m: Machine, group: seq<TestResource>, bindings: seq<ResourceBinding>, i: nat)
    requires i < |bindings| <= |group|
    ensures BoundAfter(rel, m, group, bindings, 0) == rel.resourceToMachine
    ensures BoundAfter(rel, m, group, bindings, i + 1) ==
            BoundAfter(rel, m, group, bindings, i)[Key(group[i].ref) := MachineRef(m.ref, bindings[i])]
  {
    assert PlanOn(m, group, bindings[..0]) == [];
    PlanOnStep(rel, m, group, bindings[..i + 1]);
    assert bindings[..i + 1][..i] == bindings[..i];
  }

  /** Record a group that fits: its list on the machine, and the machine of each of its items. */
  method RecordGroup(rel: Relationship, m: Machine, group: seq<TestResource>, taken: seq<ResourceRef>,
                     bindingOf: map<string, ResourceBinding>, ghost bindings: seq<ResourceBinding>)
    requires group != [] && |bindings| == |group| && Recorded(group, bindings, bindingOf)
    requires taken == ListOf(rel.Status(), Key(m.ref)) + Entries(group, bindings)
    modifies rel
    ensures rel.Status() == Apply(old(rel.Status()), PlanOn(m, group, bindings))
  {
    ghost var before := rel.Status();
    rel.machineToResources := rel.machineToResources[Key(m.ref) := taken];
    BoundStep(before, m, group, bindings, 0);
    for i := 0 to |group|
      invariant rel.machineToResources == before.machineToResources[Key(m.ref) := taken]
      invariant rel.acceptedRequests == before.acceptedRequests && rel.machineLocks == before.machineLocks
      invariant rel.resourceToMachine == BoundAfter(before, m, group, bindings, i)
    {
      BoundStep(before, m, group, bindings, i);
      rel.resourceToMachine := rel.resourceToMachine[Key(group[i].ref) := MachineRef(m.ref, bindingOf[group[i].ref.name])];
    }
    assert bindings[..|group|] == bindings;
    PlanOnMaps(before, m, group, bindings);
    ApplyGrows(before, PlanOn(m, group, bindings), Key(m.ref));
  }

  /** The group overflowed this machine; if it is predictable, the machine cannot host it at all. */
  ghost predicate MachineRefuses(cfg: Config, rel: RelationshipStatus, m: Machine, group: seq<TestResource>) {
    && GroupOverflows(cfg, m, ListOf(rel, Key(m.ref)), group)
    && (Predictable(group) ==> !CanHost(cfg, rel, m, group))
  }

  /** One candidate: the whole group goes there and is recorded, or nothing happens. */
  method TryMachine(cfg: Config, rel: Relationship, m: Machine, group: seq<TestResource>) returns (ok: bool, ghost plan: seq<Placed>)
    requires group != [] && NamesDistinct(group)
    modifies rel
    ensures ok ==> Hosts(plan, m, group) && Legal(cfg, old(rel.Status()), plan) && rel.Status() == Apply(old(rel.Status()), plan)
    ensures !ok ==> rel.Status() == old(rel.Status()) && MachineRefuses(cfg, rel.Status(), m, group)
    ensures ok && Predictable(group) ==> CanHost(cfg, old(rel.Status()), m, group)
  {
    var list := if Key(m.ref) in rel.machineToResources then rel.machineToResources[Key(m.ref)] else [];
    assert list == ListOf(rel.Status(), Key(m.ref));
    var taken, bindingOf;
    ghost var bindings;
    taken, bindingOf, ok, bindings := AllocateGroup(cfg, m, list, group);
    plan := [];
    if ok {
      PlanOnLegal(cfg, rel.Status(), m, group, bindings);
      RecordGroup(rel, m, group, taken, bindingOf, bindings);
      plan := PlanOn(m, group, bindings);
    }
  }

  /** First fit: the first candidate whose attempt succeeds gets the group, and none is the refusal. */
  method TryBindResource(cfg: Config, rel: Relationship, candidates: seq<Machine>, group: seq<TestResource>)
    returns (host: Option<Machine>, ghost plan: seq<Placed>)
    requires group != [] && NamesDistinct(group)
    modifies rel
    ensures host.None? ==>
              && rel.Status() == old(rel.Status())
              && forall k :: 0 <= k < |candidates| ==> MachineRefuses(cfg, rel.Status(), candidates[k], group)
    ensures host.Some? ==>
              && Hosts(plan, host.value, group) && Legal(cfg, old(rel.Status()), plan)
              && rel.Status() == Apply(old(rel.Status()), plan)
              && host.value in candidates && FirstFit(cfg, old(rel.Status()), candidates, group, host.value)
  {
    ghost var before := rel.Status();
    plan := [];
    for k := 0 to |candidates|
      invariant rel.Status() == before
      invariant forall j :: 0 <= j < k ==> MachineRefuses(cfg, before, candidates[j], group)
    {
      var ok;
      ok, plan := TryMachine(cfg, rel, candidates[k], group);
      if ok {
        host := Some(candidates[k]);
        assert FitsFirst(cfg, before, candidates, group, candidates[k], k);
        return;
      }
    }
    host := None;
  }

  /** The k-th candidate is the host, and every one before it refused. */
  ghost predicate FitsFirst(cfg: Config, rel: RelationshipStatus, candidates: seq<Machine>, group: seq<TestResource>, host: Machine, k: nat) {
    && k < |candidates| && candidates[k] == host && (Predictable(group) ==> CanHost(cfg, rel, host, group))
    && forall j :: 0 <= j < k ==> MachineRefuses(cfg, rel, candidates[j], group)
  }

  ghost predicate FirstFit(cfg: Config, rel: RelationshipStatus, candidates: seq<Machine>, group: seq<TestResource>, host: Machine) {
    exists k :: FitsFirst(cfg, rel, candidates, group, host, k)
  }

  // ---- tryRequest ------------------------------------------------------------------------

  /** machineRequestsMap: when a name is declared twice the later declaration wins. */
  function DeclaredAs(machines: seq<MachineRequest>, name: string): Option<MachineRequest> {
    if machines == [] then None
    else if machines[|machines| - 1].name == name then Some(machines[|machines| - 1])
    else DeclaredAs(machines[..|machines| - 1], name)
  }

  lemma {:induction false} DeclaredIsSome(machines: seq<MachineRequest>, name: string)
    requires exists k :: 0 <= k < |machines| && machines[k].name == name
    ensures DeclaredAs(machines, name).Some?
  {
    var k :| 0 <= k < |machines| && machines[k].name == name;
    if machines[|machines| - 1].name != name {
      assert machines[..|machines| - 1][k].name == name;
      DeclaredIsSome(machines[..|machines| - 1], name);
    }
  }

  lemma {:induction false} LastIsDeclared(machines: seq<MachineRequest>, k: nat)
    requires k < |machines| && forall l :: k < l < |machines| ==> machines[l].name != machines[k].name
    ensures DeclaredAs(machines, machines[k].name) == Some(machines[k])
  {
    var n := |machines| - 1;
    if k < n {
      LastIsDeclared(machines[..n], k);
    }
  }

  lemma {:induction false} DeclaredIsLast(machines: seq<MachineRequest>, name: string) returns (k: nat)
    requires DeclaredAs(machines, name).Some?
    ensures k < |machines| && machines[k].name == name && DeclaredAs(machines, name) == Some(machines[k])
    ensures forall l :: k < l < |machines| ==> machines[l].name != name
  {
    var n := |machines| - 1;
    if machines[n].name == name {
      k := n;
    } else {
      k := DeclaredIsLast(machines[..n], name);
    }
  }

  /** A name is declared by the last entry that carries it, with all its fields, and by none if and only if no entry does. */
  lemma DeclaredAsIs(machines: seq<MachineRequest>, name: string)
    ensures DeclaredAs(machines, name).None? <==> forall k :: 0 <= k < |machines| ==> machines[k].name != name
    ensures forall k :: 0 <= k < |machines| && machines[k].name == name && (forall l :: k < l < |machines| ==> machines[l].name != name) ==>
              DeclaredAs(machines, name) == Some(machines[k])
  {
    if DeclaredAs(machines, name).Some? {
      var k := DeclaredIsLast(machines, name);
    } else if k :| 0 <= k < |machines| && machines[k].name == name {
      DeclaredIsSome(machines, name);
    }
    forall k | 0 <= k < |machines| && machines[k].name == name && (forall l :: k < l < |machines| ==> machines[l].name != name)
      ensures DeclaredAs(machines, name) == Some(machines[k])
    {
      LastIsDeclared(machines, k);
    }
  }

  ghost predicate IsDeclarationMap(machines: seq<MachineRequest>, requests: map<string, MachineRequest>) {
    forall n :: DeclaredAs(machines, n) == if n in requests then Some(requests[n]) else None
  }

  /** The machines the request asks for by their real name. */
  ghost function ExplicitNames(machines: seq<MachineRequest>): set<string> {
    set k | 0 <= k < |machines| && machines[k].testMachineResource != "" :: machines[k].testMachineResource
  }

  ghost function Unlocked(rel: RelationshipStatus, book: map<string, Machine>): map<string, Machine> {
    map name | name in book && name !in rel.machineLocks :: book[name]
  }

  /** The machine chosen for a logical machine honours its declaration. */
  ghost predicate Honours(rel: RelationshipStatus, declared: MachineRequest, host: Machine) {
    && (declared.testMachineResource != "" ==> host.ref.name == declared.testMachineResource)
    && (declared.exclusive ==> ListOf(rel, Key(host.ref)) == [])
  }

  /** A candidate that the group's declaration allows. */
  ghost predicate Eligible(rel: RelationshipStatus, candidates: map<string, Machine>, declared: Option<MachineRequest>, m: Machine) {
    m.ref.name in candidates && candidates[m.ref.name] == m && (declared.Some? ==> Honours(rel, declared.value, m))
  }

  /** A group avoids the explicit machines only if every one of them that its declaration allows refuses it. */
  ghost predicate ExplicitFirst(cfg: Config, rel: RelationshipStatus, candidates: map<string, Machine>, explicit: set<string>,
                                declared: Option<MachineRequest>, host: Machine, group: seq<TestResource>)
  {
    host.ref.name !in explicit ==>
      forall m: Machine :: Eligible(rel, candidates, declared, m) && m.ref.name in explicit ==> MachineRefuses(cfg, rel, m, group)
  }

  /** In the sorted list no machine that is not explicit stands before one that is. */
  lemma ExplicitStandsFirst(explicit: set<string>, rel0: RelationshipStatus, candidates: map<string, Machine>, sorted: seq<Machine>,
                            x: Machine, y: Machine)
    requires SortedMachines(explicit, rel0, candidates, sorted) && x.ref.name !in explicit && y.ref.name in explicit
    ensures !StandsBefore(sorted, x, y)
  {
    forall a, b | 0 <= a < b < |sorted| ensures !(sorted[a] == x && sorted[b] == y) {
      assert !Comparator(explicit, rel0)(sorted[b], sorted[a]);
    }
  }

  /** First fit along the sorted list, or along what is left of it, prefers explicit machines. */
  lemma FirstFitIsExplicitFirst(cfg: Config, rel0: RelationshipStatus, rel: RelationshipStatus, candidates: map<string, Machine>,
                                explicit: set<string>, sorted: seq<Machine>, declared: Option<MachineRequest>, tried: seq<Machine>,
                                group: seq<TestResource>, host: Machine)
    requires SortedMachines(explicit, rel0, candidates, sorted) && KeepsOrder(tried, sorted)
    requires forall m: Machine :: Eligible(rel, candidates, declared, m) ==> m in tried
    requires FirstFit(cfg, rel, tried, group, host)
    ensures ExplicitFirst(cfg, rel, candidates, explicit, declared, host, group)
  {
    if host.ref.name !in explicit {
      var k: nat :| FitsFirst(cfg, rel, tried, group, host, k);
      forall m: Machine | Eligible(rel, candidates, declared, m) && m.ref.name in explicit
        ensures MachineRefuses(cfg, rel, m, group)
      {
        var j :| 0 <= j < |tried| && tried[j] == m;
        ExplicitStandsFirst(explicit, rel0, candidates, sorted, tried[k], tried[j]);
        assert MachineRefuses(cfg, rel, tried[j], group);
      }
    }
  }

  /** Every machine the group may go to refused it. */
  ghost predicate Refused(cfg: Config, rel: RelationshipStatus, candidates: map<string, Machine>,
                          declared: Option<MachineRequest>, group: seq<TestResource>)
  {
    forall m: Machine :: Eligible(rel, candidates, declared, m) ==> MachineRefuses(cfg, rel, m, group)
  }

  lemma NoneTriedIsRefused(cfg: Config, rel: RelationshipStatus, candidates: map<string, Machine>, declared: Option<MachineRequest>,
                           group: seq<TestResource>, tried: seq<Machine>)
    requires forall m: Machine :: Eligible(rel, candidates, declared, m) ==> m in tried
    requires forall k :: 0 <= k < |tried| ==> MachineRefuses(cfg, rel, tried[k], group)
    ensures Refused(cfg, rel, candidates, declared, group)
  {
    forall m: Machine | Eligible(rel, candidates, declared, m)
      ensures MachineRefuses(cfg, rel, m, group)
    {
      var k :| 0 <= k < |tried| && tried[k] == m;
    }
  }

  function DeclarationOf(requests: map<string, MachineRequest>, group: ItemGroup): Option<MachineRequest>
    requires group.explicitMachine != "" ==> group.explicitMachine in requests
  {
    if group.explicitMachine == "" then None else Some(requests[group.explicitMachine])
  }

  /** The machines a group may go to, in the order in which they are tried. */
  function TriedFrom(rel: RelationshipStatus, declared: Option<MachineRequest>, candidates: map<string, Machine>, sorted: seq<Machine>): seq<Machine> {
    if declared.None? then sorted
    else
      var asked := declared.value.testMachineResource;
      var tried := if asked == "" then sorted else if asked in candidates then [candidates[asked]] else [];
      if declared.value.exclusive then IdleOnes(tried, rel) else tried
  }

  lemma TriedKeepsOrder(rel: RelationshipStatus, declared: Option<MachineRequest>, candidates: map<string, Machine>, sorted: seq<Machine>)
    ensures KeepsOrder(TriedFrom(rel, declared, candidates, sorted), sorted)
  {
    assert KeepsOrder(sorted, sorted) by {
      forall i, j | 0 <= i < j < |sorted| ensures StandsBefore(sorted, sorted[i], sorted[j]) {
      }
    }
    if declared.Some? {
      IdleOnesKeepOrder(sorted, rel);
      if declared.value.testMachineResource in candidates {
        IdleIsOneAtMost(candidates[declared.value.testMachineResource], rel);
      }
    }
  }

  lemma IdleIsOneAtMost(m: Machine, rel: RelationshipStatus)
    ensures |IdleOnes([m], rel)| <= 1
  {
    assert [m][..0] == [];
  }

  /** The machines to try for a group, or None when the machine asked for is not a candidate. */
  method MachinesToTry(rel: Relationship, requests: map<string, MachineRequest>, candidates: map<string, Machine>,
                       sorted: seq<Machine>, group: ItemGroup) returns (list: Option<seq<Machine>>)
    requires WellNamed(candidates) && (group.explicitMachine != "" ==> group.explicitMachine in requests)
    requires forall m :: m in sorted <==> m.ref.name in candidates && candidates[m.ref.name] == m
    ensures var declared := DeclarationOf(requests, group);
            && (list.Some? ==> forall m: Machine :: m in list.value <==> Eligible(rel.Status(), candidates, declared, m))
            && (list.None? <==> declared.Some? && declared.value.testMachineResource != "" && declared.value.testMachineResource !in candidates)
    ensures list.Some? ==> list.value == TriedFrom(rel.Status(), DeclarationOf(requests, group), candidates, sorted)
  {
    var tried := sorted;
    if group.explicitMachine != "" {
      var declared := requests[group.explicitMachine];
      if declared.testMachineResource != "" {
        if declared.testMachineResource !in candidates {
          return None;
        }
        tried := [candidates[declared.testMachineResource]];
      }
      if declared.exclusive {
        IdleOnesMean(tried, rel.Status());
        tried := FilterIdle(tried, RelationshipStatus(rel.machineToResources, rel.resourceToMachine, rel.acceptedRequests, rel.machineLocks));
      }
    }
    list := Some(tried);
  }

  /** One pass of tryRequest's loop over groups; explicit and sorted are computed before the loop. */
  method PlaceGroup(cfg: Config, rel: Relationship, requests: map<string, MachineRequest>, candidates: map<string, Machine>,
                    sorted: seq<Machine>, group: ItemGroup, ghost explicit: set<string>, ghost rel0: RelationshipStatus)
    returns (host: Option<Machine>, lock: bool, ghost plan: seq<Placed>)
    requires group.items != [] && NamesDistinct(group.items) && WellNamed(candidates)
    requires SortedMachines(explicit, rel0, candidates, sorted)
    requires group.explicitMachine != "" ==> group.explicitMachine in requests
    modifies rel
    ensures host.Some? ==>
              && Hosts(plan, host.value, group.items) && Legal(cfg, old(rel.Status()), plan)
              && rel.Status() == Apply(old(rel.Status()), plan)
              && host.value.ref.name in candidates && candidates[host.value.ref.name] == host.value
    ensures host.Some? && group.explicitMachine != "" ==>
              && Honours(old(rel.Status()), requests[group.explicitMachine], host.value)
              && lock == requests[group.explicitMachine].exclusive
    ensures host.Some? && group.explicitMachine == "" ==> !lock
    ensures host.Some? ==>
              ExplicitFirst(cfg, old(rel.Status()), candidates, explicit, DeclarationOf(requests, group), host.value, group.items)
    ensures host.None? ==>
              rel.Status() == old(rel.Status()) && Refused(cfg, rel.Status(), candidates, DeclarationOf(requests, group), group.items)
  {
    ghost var before := rel.Status();
    lock := group.explicitMachine != "" && requests[group.explicitMachine].exclusive;
    plan := [];
    var list := MachinesToTry(rel, requests, candidates, sorted, group);
    if list.None? {
      return None, lock, plan;
    }
    host, plan := TryBindResource(cfg, rel, list.value, group.items);
    if host.None? {
      NoneTriedIsRefused(cfg, before, candidates, DeclarationOf(requests, group), group.items, list.value);
    } else {
      assert Eligible(before, candidates, DeclarationOf(requests, group), host.value);
      TriedKeepsOrder(before, DeclarationOf(requests, group), candidates, sorted);
      FirstFitIsExplicitFirst(cfg, rel0, before, candidates, explicit, sorted, DeclarationOf(requests, group), list.value,
                              group.items, host.value);
    }
  }

  /** The machines chosen so far: group j sits on hosts[j]. */
  ghost predicate HostsChosen(snap: RelationshipStatus, request: TestResourceRequest, book: map<string, Machine>,
                              groups: seq<ItemGroup>, hosts: seq<Machine>)
    requires |hosts| <= |groups|
  {
    && (forall j :: 0 <= j < |hosts| ==> hosts[j].ref.name in Unlocked(snap, book) && book[hosts[j].ref.name] == hosts[j])
    && (forall j :: 0 <= j < |hosts| && groups[j].explicitMachine != "" ==>
          var declared := DeclaredAs(request.machines, groups[j].explicitMachine);
          declared.Some? && Honours(snap, declared.value, hosts[j]))
  }

  /** One placement of the plan: it belongs to group j, sits on that group's machine, and prefers explicit machines. */
  ghost predicate PlacedFor(cfg: Config, snap: RelationshipStatus, request: TestResourceRequest, book: map<string, Machine>,
                            groups: seq<ItemGroup>, hosts: seq<Machine>, before: seq<Placed>, p: Placed, j: nat)
    requires |hosts| <= |groups|
  {
    && j < |hosts| && p.machine == hosts[j] && p.resource in groups[j].items
    && (groups[j].explicitMachine == "" ==>
          ExplicitFirst(cfg, Apply(snap, before), Unlocked(snap, book), ExplicitNames(request.machines), None, p.machine, [p.resource]))
  }

  /** groupOf[k] is the group of the k-th placement. */
  ghost predicate Progress(cfg: Config, snap: RelationshipStatus, request: TestResourceRequest, book: map<string, Machine>,
                           groups: seq<ItemGroup>, plan: seq<Placed>, hosts: seq<Machine>, groupOf: seq<nat>)
    requires |hosts| <= |groups|
  {
    && |groupOf| == |plan|
    && forall k :: 0 <= k < |plan| ==> PlacedFor(cfg, snap, request, book, groups, hosts, plan[..k], plan[k], groupOf[k])
  }

  lemma ResourcesConcat(a: seq<Placed>, b: seq<Placed>)
    ensures ResourcesOf(a + b) == ResourcesOf(a) + ResourcesOf(b)
  {
  }

  lemma ResourcesOfHosted(plan: seq<Placed>, m: Machine, group: seq<TestResource>)
    requires Hosts(plan, m, group)
    ensures ResourcesOf(plan) == group
  {
  }

  /** Honouring a declaration later in the run honours it at the start: lists only grow. */
  lemma HonoursEarlier(rel: RelationshipStatus, plan: seq<Placed>, declared: MachineRequest, host: Machine)
    requires Honours(Apply(rel, plan), declared, host)
    ensures Honours(rel, declared, host)
  {
    ApplyGrows(rel, plan, Key(host.ref));
  }

  lemma HostsChosenStep(snap: RelationshipStatus, request: TestResourceRequest, book: map<string, Machine>,
                        groups: seq<ItemGroup>, plan: seq<Placed>, hosts: seq<Machine>, host: Machine)
    requires |hosts| < |groups| && HostsChosen(snap, request, book, groups, hosts)
    requires host.ref.name in Unlocked(snap, book) && book[host.ref.name] == host
    requires groups[|hosts|].explicitMachine != "" ==>
               var declared := DeclaredAs(request.machines, groups[|hosts|].explicitMachine);
               declared.Some? && Honours(Apply(snap, plan), declared.value, host)
    ensures HostsChosen(snap, request, book, groups, hosts + [host])
  {
    if groups[|hosts|].explicitMachine != "" {
      HonoursEarlier(snap, plan, DeclaredAs(request.machines, groups[|hosts|].explicitMachine).value, host);
    }
  }

  lemma PlacedForStays(cfg: Config, snap: RelationshipStatus, request: TestResourceRequest, book: map<string, Machine>,
                       groups: seq<ItemGroup>, hosts: seq<Machine>, host: Machine, before: seq<Placed>, p: Placed, j: nat)
    requires |hosts| < |groups| && PlacedFor(cfg, snap, request, book, groups, hosts, before, p, j)
    ensures PlacedFor(cfg, snap, request, book, groups, hosts + [host], before, p, j)
  {
  }

  lemma PlacedForNew(cfg: Config, snap: RelationshipStatus, request: TestResourceRequest, book: map<string, Machine>,
                     groups: seq<ItemGroup>, hosts: seq<Machine>, host: Machine, plan: seq<Placed>, more: seq<Placed>, k: nat)
    requires |hosts| < |groups| && Hosts(more, host, groups[|hosts|].items) && k < |more|
    requires groups[|hosts|].explicitMachine == "" ==>
               |groups[|hosts|].items| == 1
               && ExplicitFirst(cfg, Apply(snap, plan), Unlocked(snap, book), ExplicitNames(request.machines), None, host, groups[|hosts|].items)
    ensures PlacedFor(cfg, snap, request, book, groups, hosts + [host], plan + more[..k], more[k], |hosts|)
  {
    if groups[|hosts|].explicitMachine == "" {
      assert plan + more[..k] == plan;
      assert [more[k].resource] == groups[|hosts|].items;
    }
  }

  lemma ProgressStep(cfg: Config, snap: RelationshipStatus, request: TestResourceRequest, book: map<string, Machine>,
                     groups: seq<ItemGroup>, plan: seq<Placed>, hosts: seq<Machine>, groupOf: seq<nat>,
                     more: seq<Placed>, host: Machine) returns (groupOf': seq<nat>)
    requires |hosts| < |groups| && Progress(cfg, snap, request, book, groups, plan, hosts, groupOf)
    requires Hosts(more, host, groups[|hosts|].items)
    requires groups[|hosts|].explicitMachine == "" ==>
               |groups[|hosts|].items| == 1
               && ExplicitFirst(cfg, Apply(snap, plan), Unlocked(snap, book), ExplicitNames(request.machines), None, host, groups[|hosts|].items)
    ensures Progress(cfg, snap, request, book, groups, plan + more, hosts + [host], groupOf')
  {
    var g := |hosts|;
    groupOf' := groupOf + seq(|more|, i => g);
    var all, hosts' := plan + more, hosts + [host];
    forall k | 0 <= k < |all|
      ensures PlacedFor(cfg, snap, request, book, groups, hosts', all[..k], all[k], groupOf'[k])
    {
      if k < |plan| {
        assert all[..k] == plan[..k];
        PlacedForStays(cfg, snap, request, book, groups, hosts, host, plan[..k], plan[k], groupOf[k]);
      } else {
        assert all[..k] == plan + more[..k - |plan|];
        PlacedForNew(cfg, snap, request, book, groups, hosts, host, plan, more, k - |plan|);
      }
    }
  }

  lemma PlanStep(cfg: Config, snap: RelationshipStatus, groups: seq<ItemGroup>, g: nat, plan: seq<Placed>, more: seq<Placed>, host: Machine)
    requires g < |groups| && Legal(cfg, snap, plan) && ResourcesOf(plan) == Members(groups[..g])
    requires Hosts(more, host, groups[g].items) && Legal(cfg, Apply(snap, plan), more)
    ensures Legal(cfg, snap, plan + more) && ResourcesOf(plan + more) == Members(groups[..g + 1])
    ensures Apply(snap, plan + more) == Apply(Apply(snap, plan), more)
  {
    LegalConcat(cfg, snap, plan, more);
    ApplyConcat(snap, plan, more);
    ResourcesConcat(plan, more);
    ResourcesOfHosted(more, host, groups[g].items);
    assert groups[..g + 1][..g] == groups[..g];
  }

  ghost predicate GroupsPrefer(cfg: Config, snap: RelationshipStatus, request: TestResourceRequest, book: map<string, Machine>,
                               groups: seq<ItemGroup>, plan: seq<Placed>, hosts: seq<Machine>)
    requires |hosts| <= |groups|
  {
    forall j :: 0 <= j < |hosts| ==>
      Preferred(cfg, snap, request, book, plan, DeclarationFor(request, groups[j]), groups[j].items, hosts[j])
  }

  lemma StaysPreferred(cfg: Config, snap: RelationshipStatus, request: TestResourceRequest, book: map<string, Machine>,
                       plan: seq<Placed>, more: seq<Placed>, declared: Option<MachineRequest>, group: seq<TestResource>, host: Machine)
    requires Preferred(cfg, snap, request, book, plan, declared, group, host)
    ensures Preferred(cfg, snap, request, book, plan + more, declared, group, host)
  {
    var k: nat :| PreferredAt(cfg, snap, request, book, plan, declared, group, host, k);
    assert (plan + more)[..k] == plan[..k] && (plan + more)[k..k + |group|] == plan[k..k + |group|];
    assert PreferredAt(cfg, snap, request, book, plan + more, declared, group, host, k);
  }

  lemma PreferStep(cfg: Config, snap: RelationshipStatus, request: TestResourceRequest, book: map<string, Machine>,
                   groups: seq<ItemGroup>, plan: seq<Placed>, hosts: seq<Machine>, more: seq<Placed>, host: Machine)
    requires |hosts| < |groups| && GroupsPrefer(cfg, snap, request, book, groups, plan, hosts)
    requires var group := groups[|hosts|];
             && Hosts(more, host, group.items)
             && ExplicitFirst(cfg, Apply(snap, plan), Unlocked(snap, book), ExplicitNames(request.machines),
                              DeclarationFor(request, group), host, group.items)
    ensures GroupsPrefer(cfg, snap, request, book, groups, plan + more, hosts + [host])
  {
    var g := |hosts|;
    forall j | 0 <= j < g ensures Preferred(cfg, snap, request, book, plan + more, DeclarationFor(request, groups[j]), groups[j].items, hosts[j]) {
      StaysPreferred(cfg, snap, request, book, plan, more, DeclarationFor(request, groups[j]), groups[j].items, hosts[j]);
    }
    assert (plan + more)[..|plan|] == plan && (plan + more)[|plan|..|plan| + |groups[g].items|] == more;
    assert PreferredAt(cfg, snap, request, book, plan + more, DeclarationFor(request, groups[g]), groups[g].items, host, |plan|);
  }

  /** Every item is placed once, on an unlocked ready machine, within what is left there. */
  ghost predicate PlacesEachItemOnce(cfg: Config, rel: RelationshipStatus, request: TestResourceRequest,
                                     resources: map<string, TestResource>, book: map<string, Machine>, plan: seq<Placed>)
    requires Resolved(request.items, resources)
  {
    && Legal(cfg, rel, plan)
    && multiset(ResourcesOf(plan)) == multiset(ItemResources(request.items, resources))
    && (forall k :: 0 <= k < |plan| ==> IsCandidate(rel, book, plan[k].machine))
  }

  /** The placement of an item: with its logical machine, or on explicit machines for preference. */
  ghost predicate FollowsItem(cfg: Config, rel: RelationshipStatus, request: TestResourceRequest, book: map<string, Machine>,
                              hosts: map<string, Machine>, before: seq<Placed>, p: Placed, item: ResourceRequestItem)
  {
    if item.spec.machine != "" then
      item.spec.machine in hosts && p.machine == hosts[item.spec.machine]
    else
      ExplicitFirst(cfg, Apply(rel, before), Unlocked(rel, book), ExplicitNames(request.machines), None, p.machine, [p.resource])
  }

  ghost predicate FollowsItems(cfg: Config, rel: RelationshipStatus, request: TestResourceRequest, resources: map<string, TestResource>,
                               book: map<string, Machine>, plan: seq<Placed>, hosts: map<string, Machine>)
    requires Resolved(request.items, resources)
  {
    forall k, i :: 0 <= k < |plan| && 0 <= i < |request.items| && plan[k].resource == resources[request.items[i].name] ==>
      FollowsItem(cfg, rel, request, book, hosts, plan[..k], plan[k], request.items[i])
  }

  /** Each logical machine has one host: the machine asked for if one is, and an empty one if it is to be exclusive. */
  ghost predicate HostsHonoured(rel: RelationshipStatus, request: TestResourceRequest, book: map<string, Machine>, hosts: map<string, Machine>) {
    && hosts.Keys == MachineNames(request.items)
    && forall name :: name in hosts ==>
         && IsCandidate(rel, book, hosts[name])
         && DeclaredAs(request.machines, name).Some?
         && Honours(rel, DeclaredAs(request.machines, name).value, hosts[name])
  }

  /** From its k-th placement on the plan puts the group on the host, which explicit machines were preferred to. */
  ghost predicate PreferredAt(cfg: Config, rel: RelationshipStatus, request: TestResourceRequest, book: map<string, Machine>,
                              plan: seq<Placed>, declared: Option<MachineRequest>, group: seq<TestResource>, host: Machine, k: nat)
  {
    && k + |group| <= |plan| && Hosts(plan[k..k + |group|], host, group)
    && ExplicitFirst(cfg, Apply(rel, plan[..k]), Unlocked(rel, book), ExplicitNames(request.machines), declared, host, group)
  }

  ghost predicate Preferred(cfg: Config, rel: RelationshipStatus, request: TestResourceRequest, book: map<string, Machine>,
                            plan: seq<Placed>, declared: Option<MachineRequest>, group: seq<TestResource>, host: Machine)
  {
    exists k :: PreferredAt(cfg, rel, request, book, plan, declared, group, host, k)
  }

  /** The items that name a logical machine are placed one after another, on explicit machines for preference. */
  ghost predicate NamedFollow(cfg: Config, rel: RelationshipStatus, request: TestResourceRequest, resources: map<string, TestResource>,
                              book: map<string, Machine>, plan: seq<Placed>, hosts: map<string, Machine>)
    requires Resolved(request.items, resources)
  {
    forall name :: name in hosts ==>
      Preferred(cfg, rel, request, book, plan, DeclaredAs(request.machines, name), Naming(request.items, resources, name), hosts[name])
  }

  /** What a committed request did. */
  ghost predicate Accepts(cfg: Config, rel: RelationshipStatus, request: TestResourceRequest, resources: map<string, TestResource>,
                          book: map<string, Machine>, plan: seq<Placed>, hosts: map<string, Machine>)
    requires Resolved(request.items, resources)
  {
    && PlacesEachItemOnce(cfg, rel, request, resources, book, plan)
    && HostsHonoured(rel, request, book, hosts)
    && FollowsItems(cfg, rel, request, resources, book, plan, hosts)
    && NamedFollow(cfg, rel, request, resources, book, plan, hosts)
  }

  ghost predicate IsCandidate(rel: RelationshipStatus, book: map<string, Machine>, m: Machine) {
    m.ref.name in Unlocked(rel, book) && book[m.ref.name] == m
  }

  /** The machines that get the request's exclusive lock. */
  ghost function LocksOf(request: TestResourceRequest, hosts: map<string, Machine>): set<string> {
    set name | name in hosts && DeclaredAs(request.machines, name).Some? && DeclaredAs(request.machines, name).value.exclusive ::
      hosts[name].ref.name
  }

  ghost function Accepted(rel: RelationshipStatus, request: Ref, plan: seq<Placed>, locks: set<string>): RelationshipStatus {
    var bound := Apply(rel, plan);
    bound.(acceptedRequests := rel.acceptedRequests + [request],
           machineLocks := rel.machineLocks + map name | name in locks :: request)
  }

  /** Each owned resource was created from the item of its name, and item names are distinct. */
  ghost predicate FaithfulResources(items: seq<ResourceRequestItem>, resources: map<string, TestResource>) {
    && Resolved(items, resources)
    && (forall i :: 0 <= i < |items| ==> resources[items[i].name].ref.name == items[i].name)
    && (forall i, j :: 0 <= i < j < |items| ==> items[i].name != items[j].name)
  }

  lemma NamingDisjoint(items: seq<ResourceRequestItem>, resources: map<string, TestResource>, a: string, b: string, r: TestResource)
    requires FaithfulResources(items, resources) && r in Naming(items, resources, a) && r in Naming(items, resources, b)
    ensures a == b
  {
    NamingMembers(items, resources, a);
    NamingMembers(items, resources, b);
    var i :| 0 <= i < |items| && items[i].spec.machine == a && resources[items[i].name] == r;
    var j :| 0 <= j < |items| && items[j].spec.machine == b && resources[items[j].name] == r;
    assert items[i].name == items[j].name;
  }

  lemma {:induction false} NamingNamesDistinct(items: seq<ResourceRequestItem>, resources: map<string, TestResource>, machine: string)
    requires FaithfulResources(items, resources)
    ensures NamesDistinct(Naming(items, resources, machine))
  {
    if items != [] {
      var n := |items| - 1;
      NamingNamesDistinct(items[..n], resources, machine);
      NamingMembers(items[..n], resources, machine);
      var before := Naming(items[..n], resources, machine);
      forall k | 0 <= k < |before| ensures before[k].ref.name != items[n].name {
        assert before[k] in before && NamedBy(items[..n], resources, machine, before[k]);
        var i :| 0 <= i < n && items[..n][i].spec.machine == machine && resources[items[..n][i].name] == before[k];
        assert items[..n][i] == items[i];
      }
    }
  }

  // ---- From the loop to the accepted request ---------------------------------------------

  /** Named groups hold the items that name them, the other groups one unnamed item each. */
  lemma GroupIs(request: TestResourceRequest, resources: map<string, TestResource>, names: seq<string>, groups: seq<ItemGroup>, g: nat)
    requires FaithfulResources(request.items, resources) && ItemsDeclared(request)
    requires Grouped(request.items, resources, names, groups) && g < |groups|
    ensures groups[g].items != [] && NamesDistinct(groups[g].items)
    ensures g < |names| ==> groups[g].explicitMachine == names[g] != "" && DeclaredAs(request.machines, names[g]).Some?
    ensures g >= |names| ==> groups[g].explicitMachine == "" && |groups[g].items| == 1
    ensures forall r :: r in groups[g].items ==> r in Naming(request.items, resources, groups[g].explicitMachine)
  {
    if g < |names| {
      assert names[g] in MachineNames(request.items);
      var i :| 0 <= i < |request.items| && request.items[i].spec.machine != "" && request.items[i].spec.machine == names[g];
      DeclaredIsSome(request.machines, names[g]);
      NamingMembers(request.items, resources, names[g]);
      assert NamedBy(request.items, resources, names[g], resources[request.items[i].name]);
      NamingNamesDistinct(request.items, resources, names[g]);
    } else {
      var singles := Singletons(request.items, resources);
      assert groups[g] == groups[|names|..][g - |names|] == singles[g - |names|];
    }
  }

  ghost function HostMap(names: seq<string>, hosts: seq<Machine>): map<string, Machine>
    requires |names| <= |hosts| && forall i, j :: 0 <= i < j < |names| ==> names[i] != names[j]
  {
    map j | 0 <= j < |names| :: names[j] := hosts[j]
  }

  /** The group of a placement is the one its item names. */
  lemma GroupOfPlacement(cfg: Config, snap: RelationshipStatus, request: TestResourceRequest, resources: map<string, TestResource>,
                         book: map<string, Machine>, names: seq<string>, groups: seq<ItemGroup>,
                         hosts: seq<Machine>, before: seq<Placed>, p: Placed, j: nat, i: nat)
    requires FaithfulResources(request.items, resources) && ItemsDeclared(request)
    requires Grouped(request.items, resources, names, groups) && |hosts| == |groups|
    requires PlacedFor(cfg, snap, request, book, groups, hosts, before, p, j)
    requires i < |request.items| && p.resource == resources[request.items[i].name]
    ensures groups[j].explicitMachine == request.items[i].spec.machine
    ensures j < |names| <==> request.items[i].spec.machine != ""
  {
    GroupIs(request, resources, names, groups, j);
    NamingMembers(request.items, resources, request.items[i].spec.machine);
    assert NamedBy(request.items, resources, request.items[i].spec.machine, p.resource);
    NamingDisjoint(request.items, resources, groups[j].explicitMachine, request.items[i].spec.machine, p.resource);
  }

  lemma LoopPlacesEachItemOnce(cfg: Config, snap: RelationshipStatus, request: TestResourceRequest, resources: map<string, TestResource>,
                               book: map<string, Machine>, names: seq<string>, groups: seq<ItemGroup>,
                               plan: seq<Placed>, hosts: seq<Machine>, groupOf: seq<nat>)
    requires Resolved(request.items, resources) && Grouped(request.items, resources, names, groups) && |hosts| == |groups|
    requires Legal(cfg, snap, plan) && ResourcesOf(plan) == Members(groups)
    requires HostsChosen(snap, request, book, groups, hosts)
    requires Progress(cfg, snap, request, book, groups, plan, hosts, groupOf)
    ensures PlacesEachItemOnce(cfg, snap, request, resources, book, plan)
  {
    GroupsPartitionItems(request.items, resources, names, groups);
    forall k | 0 <= k < |plan| ensures IsCandidate(snap, book, plan[k].machine) {
      assert PlacedFor(cfg, snap, request, book, groups, hosts, plan[..k], plan[k], groupOf[k]);
    }
  }

  lemma LoopHostsHonoured(snap: RelationshipStatus, request: TestResourceRequest, resources: map<string, TestResource>,
                          book: map<string, Machine>, names: seq<string>, groups: seq<ItemGroup>, hosts: seq<Machine>)
    requires FaithfulResources(request.items, resources) && ItemsDeclared(request)
    requires Grouped(request.items, resources, names, groups) && |hosts| == |groups|
    requires HostsChosen(snap, request, book, groups, hosts)
    ensures HostsHonoured(snap, request, book, HostMap(names, hosts))
  {
    var map' := HostMap(names, hosts);
    forall name | name in map'
      ensures IsCandidate(snap, book, map'[name]) && DeclaredAs(request.machines, name).Some?
      ensures Honours(snap, DeclaredAs(request.machines, name).value, map'[name])
    {
      var j :| 0 <= j < |names| && names[j] == name;
      GroupIs(request, resources, names, groups, j);
    }
    forall n ensures n in map'.Keys <==> n in MachineNames(request.items) {
      assert n in names <==> n in MachineNames(request.items);
    }
  }

  lemma LoopFollowsItem(cfg: Config, snap: RelationshipStatus, request: TestResourceRequest, resources: map<string, TestResource>,
                        book: map<string, Machine>, names: seq<string>, groups: seq<ItemGroup>,
                        hosts: seq<Machine>, before: seq<Placed>, p: Placed, j: nat, i: nat)
    requires FaithfulResources(request.items, resources) && ItemsDeclared(request)
    requires Grouped(request.items, resources, names, groups) && |hosts| == |groups|
    requires PlacedFor(cfg, snap, request, book, groups, hosts, before, p, j)
    requires i < |request.items| && p.resource == resources[request.items[i].name]
    ensures FollowsItem(cfg, snap, request, book, HostMap(names, hosts), before, p, request.items[i])
  {
    GroupOfPlacement(cfg, snap, request, resources, book, names, groups, hosts, before, p, j, i);
    if j < |names| {
      GroupIs(request, resources, names, groups, j);
      assert HostMap(names, hosts)[names[j]] == hosts[j];
    }
  }

  lemma LoopNamedFollow(cfg: Config, snap: RelationshipStatus, request: TestResourceRequest, resources: map<string, TestResource>,
                        book: map<string, Machine>, names: seq<string>, groups: seq<ItemGroup>, plan: seq<Placed>, hosts: seq<Machine>)
    requires FaithfulResources(request.items, resources) && ItemsDeclared(request)
    requires Grouped(request.items, resources, names, groups) && |hosts| == |groups|
    requires GroupsPrefer(cfg, snap, request, book, groups, plan, hosts)
    ensures NamedFollow(cfg, snap, request, resources, book, plan, HostMap(names, hosts))
  {
    forall name | name in HostMap(names, hosts)
      ensures Preferred(cfg, snap, request, book, plan, DeclaredAs(request.machines, name), Naming(request.items, resources, name),
                        HostMap(names, hosts)[name])
    {
      var j :| 0 <= j < |names| && names[j] == name;
      GroupIs(request, resources, names, groups, j);
      assert Preferred(cfg, snap, request, book, plan, DeclarationFor(request, groups[j]), groups[j].items, hosts[j]);
    }
  }

  lemma LoopAccepts(cfg: Config, snap: RelationshipStatus, request: TestResourceRequest, resources: map<string, TestResource>,
                    book: map<string, Machine>, names: seq<string>, groups: seq<ItemGroup>,
                    plan: seq<Placed>, hosts: seq<Machine>, groupOf: seq<nat>)
    requires FaithfulResources(request.items, resources) && ItemsDeclared(request)
    requires Grouped(request.items, resources, names, groups) && |hosts| == |groups|
    requires Legal(cfg, snap, plan) && ResourcesOf(plan) == Members(groups)
    requires HostsChosen(snap, request, book, groups, hosts)
    requires Progress(cfg, snap, request, book, groups, plan, hosts, groupOf)
    requires GroupsPrefer(cfg, snap, request, book, groups, plan, hosts)
    ensures Accepts(cfg, snap, request, resources, book, plan, HostMap(names, hosts))
  {
    LoopNamedFollow(cfg, snap, request, resources, book, names, groups, plan, hosts);
    LoopPlacesEachItemOnce(cfg, snap, request, resources, book, names, groups, plan, hosts, groupOf);
    LoopHostsHonoured(snap, request, resources, book, names, groups, hosts);
    forall k, i | 0 <= k < |plan| && 0 <= i < |request.items| && plan[k].resource == resources[request.items[i].name]
      ensures FollowsItem(cfg, snap, request, book, HostMap(names, hosts), plan[..k], plan[k], request.items[i])
    {
      LoopFollowsItem(cfg, snap, request, resources, book, names, groups, hosts, plan[..k], plan[k], groupOf[k], i);
    }
  }

  /**
   * What the last declaration of a name says binds every item that names it: the item sits on the machine asked for,
   * if one is, and if the declaration is exclusive, on a machine that hosted nothing and whose name is to be locked.
   */
  lemma AcceptsAsDeclared(cfg: Config, rel: RelationshipStatus, request: TestResourceRequest, resources: map<string, TestResource>,
                          book: map<string, Machine>, plan: seq<Placed>, hosts: map<string, Machine>, k: nat, i: nat, p: nat)
    requires Resolved(request.items, resources) && Accepts(cfg, rel, request, resources, book, plan, hosts)
    requires k < |request.machines| && forall l :: k < l < |request.machines| ==> request.machines[l].name != request.machines[k].name
    requires i < |request.items| && request.items[i].spec.machine == request.machines[k].name != ""
    requires p < |plan| && plan[p].resource == resources[request.items[i].name]
    ensures request.machines[k].testMachineResource != "" ==> plan[p].machine.ref.name == request.machines[k].testMachineResource
    ensures request.machines[k].exclusive ==>
              ListOf(rel, Key(plan[p].machine.ref)) == [] && plan[p].machine.ref.name in LocksOf(request, hosts)
  {
    LastIsDeclared(request.machines, k);
    assert FollowsItem(cfg, rel, request, book, hosts, plan[..p], plan[p], request.items[i]);
    assert hosts[request.machines[k].name] == plan[p].machine;
  }

  /** Names of machines to lock: the hosts of the exclusive groups. */
  ghost predicate LocksSoFar(request: TestResourceRequest, groups: seq<ItemGroup>, hosts: seq<Machine>, toLock: seq<string>)
    requires |hosts| <= |groups|
  {
    forall n :: n in toLock <==> exists j :: 0 <= j < |hosts| && ExclusiveHost(request, groups[j], hosts[j], n)
  }

  ghost predicate ExclusiveHost(request: TestResourceRequest, group: ItemGroup, host: Machine, name: string) {
    && group.explicitMachine != "" && host.ref.name == name
    && DeclaredAs(request.machines, group.explicitMachine).Some?
    && DeclaredAs(request.machines, group.explicitMachine).value.exclusive
  }

  lemma LockedIsHost(request: TestResourceRequest, resources: map<string, TestResource>, names: seq<string>,
                     groups: seq<ItemGroup>, hosts: seq<Machine>, j: nat, n: string)
    requires FaithfulResources(request.items, resources) && ItemsDeclared(request)
    requires Grouped(request.items, resources, names, groups) && |hosts| == |groups|
    requires j < |hosts| && ExclusiveHost(request, groups[j], hosts[j], n)
    ensures n in LocksOf(request, HostMap(names, hosts))
  {
    GroupIs(request, resources, names, groups, j);
    assert names[j] in HostMap(names, hosts) && HostMap(names, hosts)[names[j]] == hosts[j];
  }

  lemma HostIsLocked(request: TestResourceRequest, resources: map<string, TestResource>, names: seq<string>,
                     groups: seq<ItemGroup>, hosts: seq<Machine>, n: string) returns (j: nat)
    requires FaithfulResources(request.items, resources) && ItemsDeclared(request)
    requires Grouped(request.items, resources, names, groups) && |hosts| == |groups|
    requires n in LocksOf(request, HostMap(names, hosts))
    ensures j < |hosts| && ExclusiveHost(request, groups[j], hosts[j], n)
  {
    var map' := HostMap(names, hosts);
    var name :| name in map' && DeclaredAs(request.machines, name).Some?
                && DeclaredAs(request.machines, name).value.exclusive && map'[name].ref.name == n;
    j :| 0 <= j < |names| && names[j] == name;
    GroupIs(request, resources, names, groups, j);
  }

  lemma LocksAreHosts(request: TestResourceRequest, resources: map<string, TestResource>, names: seq<string>,
                      groups: seq<ItemGroup>, hosts: seq<Machine>, toLock: seq<string>)
    requires FaithfulResources(request.items, resources) && ItemsDeclared(request)
    requires Grouped(request.items, resources, names, groups) && |hosts| == |groups|
    requires LocksSoFar(request, groups, hosts, toLock)
    ensures forall n :: n in toLock <==> n in LocksOf(request, HostMap(names, hosts))
  {
    forall n | n in toLock ensures n in LocksOf(request, HostMap(names, hosts)) {
      var j :| 0 <= j < |hosts| && ExclusiveHost(request, groups[j], hosts[j], n);
      LockedIsHost(request, resources, names, groups, hosts, j, n);
    }
    forall n | n in LocksOf(request, HostMap(names, hosts)) ensures n in toLock {
      var j := HostIsLocked(request, resources, names, groups, hosts, n);
    }
  }

  // ---- The code of tryRequest ------------------------------------------------------------

  /** The names of the map are the declared ones, and each maps to its last entry as it stands in the list. */
  lemma DeclarationMapIs(declared: seq<MachineRequest>, requests: map<string, MachineRequest>)
    requires IsDeclarationMap(declared, requests)
    ensures forall n :: n in requests <==> exists k :: 0 <= k < |declared| && declared[k].name == n
    ensures forall k :: 0 <= k < |declared| && (forall l :: k < l < |declared| ==> declared[l].name != declared[k].name) ==>
              declared[k].name in requests && requests[declared[k].name] == declared[k]
  {
    forall n ensures n in requests <==> exists k :: 0 <= k < |declared| && declared[k].name == n {
      DeclaredAsIs(declared, n);
      assert DeclaredAs(declared, n).Some? <==> n in requests;
    }
    forall k | 0 <= k < |declared| && (forall l :: k < l < |declared| ==> declared[l].name != declared[k].name)
      ensures declared[k].name in requests && requests[declared[k].name] == declared[k]
    {
      LastIsDeclared(declared, k);
      assert DeclaredAs(declared, declared[k].name).Some?;
    }
  }

  lemma ExplicitNamesAre(declared: seq<MachineRequest>)
    ensures forall n :: n in ExplicitNames(declared) <==> n != "" && exists k :: 0 <= k < |declared| && declared[k].testMachineResource == n
  {
    forall k | 0 <= k < |declared| && declared[k].testMachineResource != "" ensures declared[k].testMachineResource in ExplicitNames(declared) {
    }
  }

  /** The first loop: the last declaration of each name, and the explicit machines, all of which must be ready. */
  method ReadDeclarations(declared: seq<MachineRequest>, machines: map<string, Machine>)
    returns (requests: map<string, MachineRequest>, explicit: set<string>, ok: bool)
    ensures ok <==> forall k :: 0 <= k < |declared| ==> declared[k].testMachineResource == "" || declared[k].testMachineResource in machines
    ensures ok ==> forall n :: n in requests <==> exists k :: 0 <= k < |declared| && declared[k].name == n
    ensures ok ==> forall k :: 0 <= k < |declared| && (forall l :: k < l < |declared| ==> declared[l].name != declared[k].name) ==>
              declared[k].name in requests && requests[declared[k].name] == declared[k]
    ensures ok ==> forall n :: n in explicit <==> n != "" && exists k :: 0 <= k < |declared| && declared[k].testMachineResource == n
    ensures ok ==> IsDeclarationMap(declared, requests) && explicit == ExplicitNames(declared)
  {
    requests := map[];
    explicit := {};
    for i := 0 to |declared|
      invariant IsDeclarationMap(declared[..i], requests)
      invariant explicit == ExplicitNames(declared[..i]) && explicit <= machines.Keys
    {
      assert declared[..i + 1][..i] == declared[..i];
      requests := requests[declared[i].name := declared[i]];
      ExplicitNamesGrow(declared, i);
      if declared[i].testMachineResource != "" {
        if declared[i].testMachineResource !in machines {
          ok := false;
          return;
        }
        explicit := explicit + {declared[i].testMachineResource};
      }
    }
    assert declared[..|declared|] == declared;
    DeclarationMapIs(declared, requests);
    ExplicitNamesAre(declared);
    ok := true;
  }

  lemma ExplicitNamesGrow(declared: seq<MachineRequest>, i: nat)
    requires i < |declared|
    ensures ExplicitNames(declared[..i + 1]) == ExplicitNames(declared[..i]) +
            if declared[i].testMachineResource != "" then {declared[i].testMachineResource} else {}
  {
    var longer := declared[..i + 1];
    assert longer[i] == declared[i];
    forall n | n in ExplicitNames(declared[..i]) ensures n in ExplicitNames(longer) {
      var k :| 0 <= k < i && declared[..i][k].testMachineResource != "" && declared[..i][k].testMachineResource == n;
      assert longer[k] == declared[..i][k];
    }
  }

  lemma LocksStep(request: TestResourceRequest, groups: seq<ItemGroup>, hosts: seq<Machine>, toLock: seq<string>, host: Machine, lock: bool)
    requires |hosts| < |groups| && LocksSoFar(request, groups, hosts, toLock)
    requires lock <==> ExclusiveHost(request, groups[|hosts|], host, host.ref.name)
    ensures LocksSoFar(request, groups, hosts + [host], if lock then toLock + [host.ref.name] else toLock)
  {
    var hosts' := hosts + [host];
    forall n ensures (exists j :: 0 <= j < |hosts'| && ExclusiveHost(request, groups[j], hosts'[j], n)) <==>
                     n in toLock || (lock && n == host.ref.name)
    {
      if n in toLock {
        var j :| 0 <= j < |hosts| && ExclusiveHost(request, groups[j], hosts[j], n);
        assert ExclusiveHost(request, groups[j], hosts'[j], n);
      }
      if lock && n == host.ref.name {
        assert ExclusiveHost(request, groups[|hosts|], hosts'[|hosts|], n);
      }
    }
  }

  /** The loop invariant of tryRequest: the first groups have hosts, and the copy holds their plan. */
  ghost predicate LoopState(cfg: Config, snap: RelationshipStatus, request: TestResourceRequest, book: map<string, Machine>,
                            groups: seq<ItemGroup>, plan: seq<Placed>, hosts: seq<Machine>, groupOf: seq<nat>, toLock: seq<string>)
  {
    && |hosts| <= |groups|
    && Legal(cfg, snap, plan) && ResourcesOf(plan) == Members(groups[..|hosts|])
    && HostsChosen(snap, request, book, groups, hosts)
    && Progress(cfg, snap, request, book, groups, plan, hosts, groupOf)
    && LocksSoFar(request, groups, hosts, toLock)
    && GroupsPrefer(cfg, snap, request, book, groups, plan, hosts)
  }

  /** What PlaceGroup guarantees about the group it placed. */
  ghost predicate GroupPlaced(cfg: Config, rel: RelationshipStatus, snap: RelationshipStatus, request: TestResourceRequest,
                              book: map<string, Machine>, group: ItemGroup, more: seq<Placed>, host: Machine, lock: bool)
  {
    && Hosts(more, host, group.items) && Legal(cfg, rel, more) && IsCandidate(snap, book, host)
    && (if group.explicitMachine != "" then
          var declared := DeclaredAs(request.machines, group.explicitMachine);
          declared.Some? && Honours(rel, declared.value, host) && lock == declared.value.exclusive
        else !lock)
    && ExplicitFirst(cfg, rel, Unlocked(snap, book), ExplicitNames(request.machines), DeclarationFor(request, group), host, group.items)
  }

  lemma HostsAndLocksStep(cfg: Config, snap: RelationshipStatus, request: TestResourceRequest, book: map<string, Machine>,
                          groups: seq<ItemGroup>, plan: seq<Placed>, hosts: seq<Machine>, toLock: seq<string>,
                          more: seq<Placed>, host: Machine, lock: bool)
    requires |hosts| < |groups| && GroupPlaced(cfg, Apply(snap, plan), snap, request, book, groups[|hosts|], more, host, lock)
    requires HostsChosen(snap, request, book, groups, hosts) && LocksSoFar(request, groups, hosts, toLock)
    ensures HostsChosen(snap, request, book, groups, hosts + [host])
    ensures LocksSoFar(request, groups, hosts + [host], if lock then toLock + [host.ref.name] else toLock)
  {
    HostsChosenStep(snap, request, book, groups, plan, hosts, host);
    LocksStep(request, groups, hosts, toLock, host, lock);
  }

  lemma LoopStep(cfg: Config, snap: RelationshipStatus, request: TestResourceRequest, book: map<string, Machine>,
                 groups: seq<ItemGroup>, plan: seq<Placed>, hosts: seq<Machine>, groupOf: seq<nat>, toLock: seq<string>,
                 more: seq<Placed>, host: Machine, lock: bool) returns (groupOf': seq<nat>)
    requires LoopState(cfg, snap, request, book, groups, plan, hosts, groupOf, toLock) && |hosts| < |groups|
    requires groups[|hosts|].explicitMachine == "" ==> |groups[|hosts|].items| == 1
    requires GroupPlaced(cfg, Apply(snap, plan), snap, request, book, groups[|hosts|], more, host, lock)
    ensures LoopState(cfg, snap, request, book, groups, plan + more, hosts + [host], groupOf',
                      if lock then toLock + [host.ref.name] else toLock)
    ensures Apply(snap, plan + more) == Apply(Apply(snap, plan), more)
  {
    var plan', hosts', toLock' := plan + more, hosts + [host], if lock then toLock + [host.ref.name] else toLock;
    assert HostsChosen(snap, request, book, groups, hosts') && LocksSoFar(request, groups, hosts', toLock') by {
      HostsAndLocksStep(cfg, snap, request, book, groups, plan, hosts, toLock, more, host, lock);
    }
    assert Legal(cfg, snap, plan') && ResourcesOf(plan') == Members(groups[..|hosts'|]) && Apply(snap, plan') == Apply(Apply(snap, plan), more) by {
      PlanStep(cfg, snap, groups, |hosts|, plan, more, host);
    }
    groupOf' := ProgressStep(cfg, snap, request, book, groups, plan, hosts, groupOf, more, host);
    PreferStep(cfg, snap, request, book, groups, plan, hosts, more, host);
  }

  function DeclarationFor(request: TestResourceRequest, group: ItemGroup): Option<MachineRequest> {
    if group.explicitMachine == "" then None else DeclaredAs(request.machines, group.explicitMachine)
  }

  /** A named group is declared, in the map as in the request; the other groups hold one item. */
  lemma GroupIsDeclared(request: TestResourceRequest, resources: map<string, TestResource>, names: seq<string>,
                        groups: seq<ItemGroup>, g: nat, requests: map<string, MachineRequest>)
    requires FaithfulResources(request.items, resources) && ItemsDeclared(request)
    requires Grouped(request.items, resources, names, groups) && g < |groups| && IsDeclarationMap(request.machines, requests)
    ensures groups[g].items != [] && NamesDistinct(groups[g].items)
    ensures groups[g].explicitMachine != "" ==> groups[g].explicitMachine in requests
    ensures DeclarationFor(request, groups[g]) == DeclarationOf(requests, groups[g])
    ensures groups[g].explicitMachine == "" ==> |groups[g].items| == 1
  {
    GroupIs(request, resources, names, groups, g);
  }

  /** With the plan for the first g groups in place, group g found no machine. */
  ghost predicate GaveUpAt(cfg: Config, snap: RelationshipStatus, request: TestResourceRequest, book: map<string, Machine>,
                           groups: seq<ItemGroup>, plan: seq<Placed>, g: nat)
  {
    g < |groups| && Refused(cfg, Apply(snap, plan), Unlocked(snap, book), DeclarationFor(request, groups[g]), groups[g].items)
  }

  /** Some groups were placed as they may be, and the next one found no machine. */
  ghost predicate GaveUp(cfg: Config, snap: RelationshipStatus, request: TestResourceRequest, resources: map<string, TestResource>,
                         book: map<string, Machine>)
    requires Resolved(request.items, resources)
  {
    exists names, groups, plan, hosts, groupOf, toLock ::
      && Grouped(request.items, resources, names, groups)
      && LoopState(cfg, snap, request, book, groups, plan, hosts, groupOf, toLock)
      && GaveUpAt(cfg, snap, request, book, groups, plan, |hosts|)
  }

  /** The loop over groups; the copy may be left half changed when it gives up. */
  method PlaceGroups(cfg: Config, rel: Relationship, request: TestResourceRequest, ghost resources: map<string, TestResource>,
                     machines: map<string, Machine>, requests: map<string, MachineRequest>, explicit: set<string>,
                     groups: seq<ItemGroup>, ghost names: seq<string>)
    returns (placed: bool, toLock: seq<string>, ghost plan: seq<Placed>, ghost hosts: seq<Machine>, ghost groupOf: seq<nat>)
    requires FaithfulResources(request.items, resources) && ItemsDeclared(request) && WellNamed(machines)
    requires Grouped(request.items, resources, names, groups)
    requires IsDeclarationMap(request.machines, requests) && explicit == ExplicitNames(request.machines)
    modifies rel
    ensures placed ==> |hosts| == |groups| && rel.Status() == Apply(old(rel.Status()), plan)
    ensures LoopState(cfg, old(rel.Status()), request, machines, groups, plan, hosts, groupOf, toLock)
    ensures !placed ==> GaveUpAt(cfg, old(rel.Status()), request, machines, groups, plan, |hosts|)
  {
    ghost var snap := rel.Status();
    var candidates := SelectNonLockMachines(machines, rel.machineLocks);
    var sorted := SortMachines(candidates, explicit,
      RelationshipStatus(rel.machineToResources, rel.resourceToMachine, rel.acceptedRequests, rel.machineLocks));
    toLock, plan, hosts, groupOf := [], [], [], [];
    for g := 0 to |groups|
      invariant |hosts| == g && rel.Status() == Apply(snap, plan)
      invariant LoopState(cfg, snap, request, machines, groups, plan, hosts, groupOf, toLock)
    {
      var group := groups[g];
      GroupIsDeclared(request, resources, names, groups, g, requests);
      ghost var now := rel.Status();
      var host, lock;
      ghost var more;
      host, lock, more := PlaceGroup(cfg, rel, requests, candidates, sorted, group, explicit, snap);
      if host.None? {
        placed := false;
        return;
      }
      assert GroupPlaced(cfg, now, snap, request, machines, group, more, host.value, lock);
      groupOf := LoopStep(cfg, snap, request, machines, groups, plan, hosts, groupOf, toLock, more, host.value, lock);
      plan := plan + more;
      hosts := hosts + [host.value];
      if lock {
        toLock := toLock + [host.value.ref.name];
      }
    }
    placed := true;
  }

  method LockMachines(rel: Relationship, toLock: seq<string>, request: Ref)
    modifies rel`machineLocks
    ensures rel.machineLocks == old(rel.machineLocks) + map name | name in toLock :: request
  {
    ghost var locks := rel.machineLocks;
    for i := 0 to |toLock|
      invariant rel.machineLocks == locks + map name | name in toLock[..i] :: request
    {
      rel.machineLocks := rel.machineLocks[toLock[i] := request];
    }
    assert toLock[..|toLock|] == toLock;
  }

  /** Lock, append to the accept list, commit. */
  method CommitRequest(store: Store, rel: Relationship, request: Ref, toLock: seq<string>,
                       ghost snap: RelationshipStatus, ghost plan: seq<Placed>)
    returns (ok: bool)
    requires rel.Status() == Apply(snap, plan)
    modifies rel, store
    ensures ok <==> rel.resourceVersion == old(store.version)
    ensures ok ==> store.version == old(store.version) + 1
                   && store.status == Accepted(snap, request, plan, set n | n in toLock)
    ensures !ok ==> store.status == old(store.status) && store.version == old(store.version)
  {
    LockMachines(rel, toLock, request);
    rel.acceptedRequests := rel.acceptedRequests + [request];
    ApplyGrows(snap, plan, "");
    ghost var locks := set n | n in toLock;
    assert (map name | name in toLock :: request) == map name | name in locks :: request;
    ok := store.Update(rel);
  }

  lemma LoopGaveUp(cfg: Config, snap: RelationshipStatus, request: TestResourceRequest, resources: map<string, TestResource>,
                   book: map<string, Machine>, names: seq<string>, groups: seq<ItemGroup>,
                   plan: seq<Placed>, hosts: seq<Machine>, groupOf: seq<nat>, toLock: seq<string>)
    requires Resolved(request.items, resources) && Grouped(request.items, resources, names, groups)
    requires LoopState(cfg, snap, request, book, groups, plan, hosts, groupOf, toLock)
    requires GaveUpAt(cfg, snap, request, book, groups, plan, |hosts|)
    ensures GaveUp(cfg, snap, request, resources, book)
  {
  }

  lemma LoopFinished(cfg: Config, snap: RelationshipStatus, request: TestResourceRequest, resources: map<string, TestResource>,
                     book: map<string, Machine>, names: seq<string>, groups: seq<ItemGroup>,
                     plan: seq<Placed>, hosts: seq<Machine>, groupOf: seq<nat>, toLock: seq<string>)
    requires FaithfulResources(request.items, resources) && ItemsDeclared(request)
    requires Grouped(request.items, resources, names, groups) && |hosts| == |groups|
    requires LoopState(cfg, snap, request, book, groups, plan, hosts, groupOf, toLock)
    ensures Accepts(cfg, snap, request, resources, book, plan, HostMap(names, hosts))
    ensures (set n | n in toLock) == LocksOf(request, HostMap(names, hosts))
  {
    assert groups[..|groups|] == groups;
    LoopAccepts(cfg, snap, request, resources, book, names, groups, plan, hosts, groupOf);
    LocksAreHosts(request, resources, names, groups, hosts, toLock);
  }

  /** The law of declarations, told from the request's own list and the locks that are stored. */
  ghost predicate DeclarationsKept(rel: RelationshipStatus, request: TestResourceRequest, resources: map<string, TestResource>,
                                   plan: seq<Placed>, locks: map<string, Ref>)
    requires Resolved(request.items, resources)
  {
    forall k, i, p ::
      (0 <= k < |request.machines| && (forall l :: k < l < |request.machines| ==> request.machines[l].name != request.machines[k].name)
       && 0 <= i < |request.items| && request.items[i].spec.machine == request.machines[k].name != ""
       && 0 <= p < |plan| && plan[p].resource == resources[request.items[i].name]) ==>
      var declared, host := request.machines[k], plan[p].machine.ref;
      && (declared.testMachineResource != "" ==> host.name == declared.testMachineResource)
      && (declared.exclusive ==> ListOf(rel, Key(host)) == [] && host.name in locks && locks[host.name] == request.ref)
  }

  lemma AcceptedKeepsDeclarations(cfg: Config, rel: RelationshipStatus, request: TestResourceRequest, resources: map<string, TestResource>,
                                  book: map<string, Machine>, plan: seq<Placed>, hosts: map<string, Machine>)
    requires Resolved(request.items, resources) && Accepts(cfg, rel, request, resources, book, plan, hosts)
    ensures DeclarationsKept(rel, request, resources, plan, Accepted(rel, request.ref, plan, LocksOf(request, hosts)).machineLocks)
  {
    forall k, i, p | (0 <= k < |request.machines| && (forall l :: k < l < |request.machines| ==> request.machines[l].name != request.machines[k].name)
                      && 0 <= i < |request.items| && request.items[i].spec.machine == request.machines[k].name != ""
                      && 0 <= p < |plan| && plan[p].resource == resources[request.items[i].name])
      ensures request.machines[k].testMachineResource != "" ==> plan[p].machine.ref.name == request.machines[k].testMachineResource
      ensures request.machines[k].exclusive ==>
                ListOf(rel, Key(plan[p].machine.ref)) == [] && plan[p].machine.ref.name in LocksOf(request, hosts)
    {
      AcceptsAsDeclared(cfg, rel, request, resources, book, plan, hosts, k, i, p);
    }
  }

  datatype Outcome = NoExplicitMachine | NoSuitableMachine | Conflict | Committed

  /**
   * All or nothing: either the one commit binds every item and lists the request as accepted, or the
   * stored record is what it was, whatever happened to the copy on the way.
   */
  method TryRequest(cfg: Config, store: Store, rel: Relationship, request: TestResourceRequest,
                    resources: map<string, TestResource>, machines: map<string, Machine>)
    returns (outcome: Outcome, ghost plan: seq<Placed>, ghost hosts: map<string, Machine>)
    requires FaithfulResources(request.items, resources) && ItemsDeclared(request) && WellNamed(machines)
    modifies rel, store
    ensures outcome.Committed? ==>
              && rel.resourceVersion == old(store.version) && store.version == old(store.version) + 1
              && Accepts(cfg, old(rel.Status()), request, resources, machines, plan, hosts)
              && store.status == Accepted(old(rel.Status()), request.ref, plan, LocksOf(request, hosts))
    ensures outcome.Committed? ==> DeclarationsKept(old(rel.Status()), request, resources, plan, store.status.machineLocks)
    ensures !outcome.Committed? ==> store.status == old(store.status) && store.version == old(store.version)
    ensures rel.resourceVersion != old(store.version) ==> !outcome.Committed?
    ensures outcome.NoExplicitMachine? <==>
              exists k :: 0 <= k < |request.machines| && request.machines[k].testMachineResource != ""
                          && request.machines[k].testMachineResource !in machines
    ensures outcome.NoSuitableMachine? ==> GaveUp(cfg, old(rel.Status()), request, resources, machines)
    ensures outcome.Conflict? ==>
              rel.resourceVersion != old(store.version) && Accepts(cfg, old(rel.Status()), request, resources, machines, plan, hosts)
  {
    ghost var snap := rel.Status();
    plan, hosts := [], map[];
    var requests, explicit, ok := ReadDeclarations(request.machines, machines);
    if !ok {
      return NoExplicitMachine, plan, hosts;
    }
    var groups;
    ghost var names;
    groups, names := GroupCoLocatedItems(request.items, resources);
    var placed, toLock;
    ghost var hostOf, groupOf;
    placed, toLock, plan, hostOf, groupOf := PlaceGroups(cfg, rel, request, resources, machines, requests, explicit, groups, names);
    if !placed {
      LoopGaveUp(cfg, snap, request, resources, machines, names, groups, plan, hostOf, groupOf, toLock);
      return NoSuitableMachine, plan, hosts;
    }
    LoopFinished(cfg, snap, request, resources, machines, names, groups, plan, hostOf, groupOf, toLock);
    hosts := HostMap(names, hostOf);
    ok := CommitRequest(store, rel, request.ref, toLock, snap, plan);
    outcome := if ok then Committed else Conflict;
    AcceptedKeepsDeclarations(cfg, snap, request, resources, machines, plan, hosts);
  }
}
