/** What the acceptance or the refusal of a request means for its items and machines, field by field. */
module RequestLaws {
  import opened Options
  import opened Refs
  import opened Resources
  import opened Machines
  import opened Relationships
  import opened Placement
  import opened PlacementLaws
  import opened Grouping
  import opened Scheduler

  // ---- What a plan does to the record ----------------------------------------------------

  ghost predicate PlansOnce(plan: seq<Placed>) {
    forall i, j :: 0 <= i < j < |plan| ==> Key(plan[i].resource.ref) != Key(plan[j].resource.ref)
  }

  /** Each placement binds its resource on its machine. */
  lemma {:induction false} PlanIsRecorded(rel: RelationshipStatus, plan: seq<Placed>, p: nat)
    requires PlansOnce(plan) && p < |plan|
    ensures var after := Apply(rel, plan);
            && Key(plan[p].resource.ref) in after.resourceToMachine
            && after.resourceToMachine[Key(plan[p].resource.ref)] == MachineRef(plan[p].machine.ref, plan[p].binding)
  {
    var n := |plan| - 1;
    if p < n {
      assert plan[..n][p] == plan[p];
      PlanIsRecorded(rel, plan[..n], p);
    }
  }

  /** Every other key keeps what it had. */
  lemma {:induction false} OthersAreKept(rel: RelationshipStatus, plan: seq<Placed>, k: string)
    requires forall p :: 0 <= p < |plan| ==> Key(plan[p].resource.ref) != k
    ensures k in Apply(rel, plan).resourceToMachine <==> k in rel.resourceToMachine
    ensures k in rel.resourceToMachine ==> Apply(rel, plan).resourceToMachine[k] == rel.resourceToMachine[k]
  {
    if plan != [] {
      OthersAreKept(rel, plan[..|plan| - 1], k);
    }
  }

  /** A machine's list is what it was and then an entry for each placement on it. */
  lemma {:induction false} PlanIsListed(rel: RelationshipStatus, plan: seq<Placed>, key: string, e: ResourceRef)
    ensures e in ListOf(Apply(rel, plan), key) <==>
            || e in ListOf(rel, key)
            || exists p :: 0 <= p < |plan| && Key(plan[p].machine.ref) == key && e == ResourceRef(plan[p].resource.ref, plan[p].binding)
  {
    if plan != [] {
      var n := |plan| - 1;
      PlanIsListed(rel, plan[..n], key, e);
      assert forall p :: 0 <= p < n ==> plan[..n][p] == plan[p];
      if p :| 0 <= p < n && Key(plan[..n][p].machine.ref) == key && e == ResourceRef(plan[..n][p].resource.ref, plan[..n][p].binding) {
        assert plan[p] == plan[..n][p];
      }
    }
  }

  // ---- What a placement got --------------------------------------------------------------

  lemma {:induction false} LegalAt(cfg: Config, rel: RelationshipStatus, plan: seq<Placed>, p: nat)
    requires Legal(cfg, rel, plan) && p < |plan|
    ensures Fits(cfg, plan[p].machine, ListOf(Apply(rel, plan[..p]), Key(plan[p].machine.ref)), plan[p].resource.spec, plan[p].binding)
  {
    var n := |plan| - 1;
    if p < n {
      assert plan[..n][..p] == plan[..p] && plan[..n][p] == plan[p];
      assert Legal(cfg, rel, plan[..n]);
      LegalAt(cfg, rel, plan[..n], p);
    }
  }

  /** Each placement is on a ready machine whose name is not locked, and got what its item asked for out of what was left there at that moment. */
  lemma PlacementIsGranted(cfg: Config, rel: RelationshipStatus, request: TestResourceRequest, resources: map<string, TestResource>,
                           book: map<string, Machine>, plan: seq<Placed>, hosts: map<string, Machine>, p: nat)
    requires Resolved(request.items, resources) && Accepts(cfg, rel, request, resources, book, plan, hosts) && p < |plan|
    ensures var m := plan[p].machine; m.ref.name in book && book[m.ref.name] == m && m.ref.name !in rel.machineLocks
    ensures var left := RestOf(cfg.round, plan[p].machine, ListOf(Apply(rel, plan[..p]), Key(plan[p].machine.ref)));
            var spec, b := plan[p].resource.spec, plan[p].binding;
            && left.Some? && b.memory == spec.memory <= left.value.memory
            && |b.cpuSet| == (if spec.cores < 0 then 0 else spec.cores) && b.cpuSet <= left.value.idleCPUSet
            && b.disks.Keys == spec.disks.Keys
            && forall n :: n in spec.disks ==>
                 && b.disks[n].device in left.value.disks
                 && left.value.disks[b.disks[n].device].kind == spec.disks[n].kind
                 && spec.disks[n].size <= left.value.disks[b.disks[n].device].size
  {
    LegalAt(cfg, rel, plan, p);
    var m := plan[p].machine;
    var left := RestOf(cfg.round, m, ListOf(Apply(rel, plan[..p]), Key(m.ref)));
    GrantIs(cfg.byDevice, left.value, plan[p].resource.spec, plan[p].binding);
    assert IsCandidate(rel, book, m);
  }

  // ---- Every item once -------------------------------------------------------------------

  lemma ItemHasPlacement(items: seq<ResourceRequestItem>, resources: map<string, TestResource>, plan: seq<Placed>, i: nat) returns (p: nat)
    requires Resolved(items, resources) && i < |items|
    requires multiset(ResourcesOf(plan)) == multiset(ItemResources(items, resources))
    ensures p < |plan| && plan[p].resource == resources[items[i].name]
  {
    var r := resources[items[i].name];
    assert ItemResources(items, resources)[i] == r;
    assert r in multiset(ResourcesOf(plan));
    p :| 0 <= p < |plan| && ResourcesOf(plan)[p] == r;
  }

  lemma PlacementHasItem(items: seq<ResourceRequestItem>, resources: map<string, TestResource>, plan: seq<Placed>, p: nat) returns (i: nat)
    requires Resolved(items, resources) && p < |plan|
    requires multiset(ResourcesOf(plan)) == multiset(ItemResources(items, resources))
    ensures i < |items| && plan[p].resource == resources[items[i].name]
  {
    var r := plan[p].resource;
    assert ResourcesOf(plan)[p] == r;
    assert r in multiset(ItemResources(items, resources));
    i :| 0 <= i < |items| && ItemResources(items, resources)[i] == r;
  }

  lemma PlanIsAsLong(items: seq<ResourceRequestItem>, resources: map<string, TestResource>, plan: seq<Placed>)
    requires Resolved(items, resources)
    requires multiset(ResourcesOf(plan)) == multiset(ItemResources(items, resources))
    ensures |plan| == |items|
  {
    assert |plan| == |multiset(ResourcesOf(plan))|;
    assert |items| == |multiset(ItemResources(items, resources))|;
  }

  /** There are as many placements as items, one for each item. */
  lemma ItemsArePlaced(cfg: Config, rel: RelationshipStatus, request: TestResourceRequest, resources: map<string, TestResource>,
                       book: map<string, Machine>, plan: seq<Placed>, hosts: map<string, Machine>)
    requires Resolved(request.items, resources) && Accepts(cfg, rel, request, resources, book, plan, hosts)
    ensures |plan| == |request.items|
    ensures forall i :: 0 <= i < |request.items| ==> exists p :: 0 <= p < |plan| && plan[p].resource == resources[request.items[i].name]
    ensures forall p :: 0 <= p < |plan| ==> exists i :: 0 <= i < |request.items| && plan[p].resource == resources[request.items[i].name]
  {
    PlanIsAsLong(request.items, resources, plan);
    forall i | 0 <= i < |request.items| ensures exists p :: 0 <= p < |plan| && plan[p].resource == resources[request.items[i].name] {
      var p := ItemHasPlacement(request.items, resources, plan, i);
    }
    forall p | 0 <= p < |plan| ensures exists i :: 0 <= i < |request.items| && plan[p].resource == resources[request.items[i].name] {
      var i := PlacementHasItem(request.items, resources, plan, p);
    }
  }

  // ---- The locks -------------------------------------------------------------------------

  /** Item i names the k-th declaration, the last of its name and exclusive, and placement p of it is on a machine of this name. */
  ghost predicate LockedFor(request: TestResourceRequest, resources: map<string, TestResource>, plan: seq<Placed>, n: string, k: nat, i: nat, p: nat)
    requires Resolved(request.items, resources)
  {
    && k < |request.machines| && (forall l :: k < l < |request.machines| ==> request.machines[l].name != request.machines[k].name)
    && request.machines[k].exclusive
    && i < |request.items| && request.items[i].spec.machine == request.machines[k].name != ""
    && p < |plan| && plan[p].resource == resources[request.items[i].name] && plan[p].machine.ref.name == n
  }

  /** The names locked are those of the machines that items with an exclusive declaration were put on, and no others. */
  lemma LocksAre(cfg: Config, rel: RelationshipStatus, request: TestResourceRequest, resources: map<string, TestResource>,
                 book: map<string, Machine>, plan: seq<Placed>, hosts: map<string, Machine>, n: string)
    requires Resolved(request.items, resources) && Accepts(cfg, rel, request, resources, book, plan, hosts)
    ensures n in LocksOf(request, hosts) <==> exists k, i, p :: LockedFor(request, resources, plan, n, k, i, p)
  {
    if k, i, p :| LockedFor(request, resources, plan, n, k, i, p) {
      AcceptsAsDeclared(cfg, rel, request, resources, book, plan, hosts, k, i, p);
    }
    if n in LocksOf(request, hosts) {
      var name :| name in hosts && DeclaredAs(request.machines, name).Some?
                  && DeclaredAs(request.machines, name).value.exclusive && hosts[name].ref.name == n;
      var k := DeclaredIsLast(request.machines, name);
      assert name in MachineNames(request.items);
      var i: nat :| i < |request.items| && request.items[i].spec.machine != "" && request.items[i].spec.machine == name;
      var p := ItemHasPlacement(request.items, resources, plan, i);
      assert FollowsItem(cfg, rel, request, book, hosts, plan[..p], plan[p], request.items[i]);
      assert LockedFor(request, resources, plan, n, k, i, p);
    }
  }

  /** The stored record lists the request once more at the end, keeps every lock, and adds those names under the request. */
  lemma LocksAreAdded(cfg: Config, rel: RelationshipStatus, request: TestResourceRequest, resources: map<string, TestResource>,
                      book: map<string, Machine>, plan: seq<Placed>, hosts: map<string, Machine>)
    requires Resolved(request.items, resources) && Accepts(cfg, rel, request, resources, book, plan, hosts)
    ensures var after := Accepted(rel, request.ref, plan, LocksOf(request, hosts));
            && after.acceptedRequests == rel.acceptedRequests + [request.ref]
            && (forall n :: n in rel.machineLocks ==> n in after.machineLocks && after.machineLocks[n] == rel.machineLocks[n])
            && (forall n :: n in after.machineLocks && n !in rel.machineLocks ==>
                  after.machineLocks[n] == request.ref && exists k, i, p :: LockedFor(request, resources, plan, n, k, i, p))
            && (forall n, k, i, p :: LockedFor(request, resources, plan, n, k, i, p) ==>
                  n !in rel.machineLocks && n in after.machineLocks && after.machineLocks[n] == request.ref)
  {
    forall n ensures n in LocksOf(request, hosts) <==> exists k, i, p :: LockedFor(request, resources, plan, n, k, i, p) {
      LocksAre(cfg, rel, request, resources, book, plan, hosts, n);
    }
    forall n | n in LocksOf(request, hosts) ensures n !in rel.machineLocks {
      var name :| name in hosts && DeclaredAs(request.machines, name).Some?
                  && DeclaredAs(request.machines, name).value.exclusive && hosts[name].ref.name == n;
      assert IsCandidate(rel, book, hosts[name]);
    }
  }

  // ---- Room ------------------------------------------------------------------------------

  lemma FittingIsTaken(cfg: Config, m: Machine, list: seq<ResourceRef>, r: TestResource, b: ResourceBinding)
    requires Fits(cfg, m, list, r.spec, b)
    ensures CanTake(cfg, m, list, [r])
  {
    var group := [r];
    assert group[0] == r && group[1..] == [];
    assert CanTake(cfg, m, list + [ResourceRef(group[0].ref, b)], group[1..]);
  }

  lemma NotTakenHasNoRoom(cfg: Config, m: Machine, list: seq<ResourceRef>, r: TestResource)
    requires |r.spec.disks| <= 1 && !CanTake(cfg, m, list, [r])
    ensures !HasRoom(cfg, m, list, r.spec)
  {
    FitsIffRoom(cfg, m, list, r.spec);
    if CanFit(cfg, m, list, r.spec) {
      var b :| Fits(cfg, m, list, r.spec, b);
      FittingIsTaken(cfg, m, list, r, b);
    }
  }

  lemma OneItemRefusedIsFull(cfg: Config, rel: RelationshipStatus, m: Machine, r: TestResource)
    requires |r.spec.disks| <= 1 && MachineRefuses(cfg, rel, m, [r])
    ensures !HasRoom(cfg, m, ListOf(rel, Key(m.ref)), r.spec)
  {
    assert Predictable([r]);
    NotTakenHasNoRoom(cfg, m, ListOf(rel, Key(m.ref)), r);
  }

  /** An item that names no logical machine and is not on an explicit machine found each of those full that was ready and unlocked. */
  lemma ExplicitMachinesWereFull(cfg: Config, rel: RelationshipStatus, request: TestResourceRequest, resources: map<string, TestResource>,
                                 book: map<string, Machine>, plan: seq<Placed>, hosts: map<string, Machine>, i: nat, p: nat, k: nat)
    requires Resolved(request.items, resources) && Accepts(cfg, rel, request, resources, book, plan, hosts) && WellNamed(book)
    requires i < |request.items| && request.items[i].spec.machine == "" && p < |plan| && plan[p].resource == resources[request.items[i].name]
    requires |plan[p].resource.spec.disks| <= 1
    requires forall l :: 0 <= l < |request.machines| ==> request.machines[l].testMachineResource != plan[p].machine.ref.name
    requires k < |request.machines| && request.machines[k].testMachineResource != ""
    requires request.machines[k].testMachineResource in book && request.machines[k].testMachineResource !in rel.machineLocks
    ensures var full := book[request.machines[k].testMachineResource];
            !HasRoom(cfg, full, ListOf(Apply(rel, plan[..p]), Key(full.ref)), plan[p].resource.spec)
  {
    var full := book[request.machines[k].testMachineResource];
    ExplicitNamesAre(request.machines);
    assert FollowsItem(cfg, rel, request, book, hosts, plan[..p], plan[p], request.items[i]);
    assert Eligible(Apply(rel, plan[..p]), Unlocked(rel, book), None, full);
    OneItemRefusedIsFull(cfg, Apply(rel, plan[..p]), full, plan[p].resource);
  }

  /** The items that name a logical machine stand one after another in the plan, on that machine's host, from some place at on. */
  lemma GroupIsPreferred(cfg: Config, rel: RelationshipStatus, request: TestResourceRequest, resources: map<string, TestResource>,
                         book: map<string, Machine>, plan: seq<Placed>, hosts: map<string, Machine>, name: string) returns (at: nat)
    requires Resolved(request.items, resources) && NamedFollow(cfg, rel, request, resources, book, plan, hosts) && name in hosts
    ensures PreferredAt(cfg, rel, request, book, plan, DeclaredAs(request.machines, name), Naming(request.items, resources, name), hosts[name], at)
    ensures var group := Naming(request.items, resources, name);
            at + |group| <= |plan| && forall i :: 0 <= i < |group| ==> plan[at + i].machine == hosts[name] && plan[at + i].resource == group[i]
  {
    assert Preferred(cfg, rel, request, book, plan, DeclaredAs(request.machines, name), Naming(request.items, resources, name), hosts[name]);
    at :| PreferredAt(cfg, rel, request, book, plan, DeclaredAs(request.machines, name), Naming(request.items, resources, name), hosts[name], at);
    var group := Naming(request.items, resources, name);
    forall i | 0 <= i < |group| ensures plan[at + i].machine == hosts[name] && plan[at + i].resource == group[i] {
      assert plan[at + i] == plan[at..at + |group|][i];
    }
  }

  /**
   * If the host of a logical machine, declared by the d-th entry, is not an explicit machine, then each explicit
   * machine that was ready, unlocked and, if it is to be exclusive, empty at that place refused the group.
   */
  lemma ExplicitMachinesRefused(cfg: Config, rel: RelationshipStatus, request: TestResourceRequest, book: map<string, Machine>,
                              plan: seq<Placed>, d: nat, group: seq<TestResource>, host: Machine, at: nat, n: string)
    requires d < |request.machines| && PreferredAt(cfg, rel, request, book, plan, Some(request.machines[d]), group, host, at)
    requires Honours(rel, request.machines[d], host) && WellNamed(book)
    requires forall l :: 0 <= l < |request.machines| ==> request.machines[l].testMachineResource != host.ref.name
    requires n in book && n !in rel.machineLocks && exists k :: 0 <= k < |request.machines| && request.machines[k].testMachineResource == n != ""
    requires request.machines[d].exclusive ==> ListOf(Apply(rel, plan[..at]), Key(book[n].ref)) == []
    ensures MachineRefuses(cfg, Apply(rel, plan[..at]), book[n], group)
  {
    ExplicitNamesAre(request.machines);
    assert Eligible(Apply(rel, plan[..at]), Unlocked(rel, book), Some(request.machines[d]), book[n]);
  }

  // ---- Requests of one item --------------------------------------------------------------

  /** The item may go to the machine: it is ready, its name is not locked, and the last declaration of the item's logical machine allows it. */
  ghost predicate Allowed(rel: RelationshipStatus, request: TestResourceRequest, book: map<string, Machine>, item: ResourceRequestItem, n: string) {
    && n in book && n !in rel.machineLocks
    && forall k :: (0 <= k < |request.machines| && request.machines[k].name == item.spec.machine != ""
                    && forall l :: k < l < |request.machines| ==> request.machines[l].name != item.spec.machine) ==>
         && (request.machines[k].testMachineResource != "" ==> request.machines[k].testMachineResource == n)
         && (request.machines[k].exclusive ==> ListOf(rel, Key(book[n].ref)) == [])
  }

  lemma OneAtMost(names: seq<string>, x: string)
    requires forall i :: 0 <= i < |names| ==> names[i] == x
    requires forall i, j :: 0 <= i < j < |names| ==> names[i] != names[j]
    ensures |names| <= 1
  {
    var first, second := if |names| > 0 then names[0] else x, if |names| > 1 then names[1] else x;
    assert first == second;
  }

  lemma OneGroup(items: seq<ResourceRequestItem>, resources: map<string, TestResource>, names: seq<string>, groups: seq<ItemGroup>)
    requires |items| == 1 && Resolved(items, resources) && Grouped(items, resources, names, groups)
    ensures groups == [ItemGroup(items[0].spec.machine, [resources[items[0].name]])]
  {
    var machine, r := items[0].spec.machine, resources[items[0].name];
    assert items[..0] == [];
    assert forall m :: Naming(items, resources, m) == if m == machine then [r] else [];
    assert MachineNames(items) == if machine == "" then {} else {machine} by {
      assert machine != "" ==> items[0].spec.machine in MachineNames(items);
    }
    assert forall i :: 0 <= i < |names| ==> names[i] in names;
    if machine == "" {
      assert |names| == 0;
      assert groups == groups[|names|..];
    } else {
      OneAtMost(names, machine);
      assert machine in names;
      assert groups[1..] == [];
      assert groups == [groups[0]] + groups[1..];
    }
  }

  lemma AllowedIsEligible(rel: RelationshipStatus, request: TestResourceRequest, book: map<string, Machine>, item: ResourceRequestItem, n: string)
    requires WellNamed(book) && Allowed(rel, request, book, item, n)
    ensures Eligible(rel, Unlocked(rel, book), if item.spec.machine == "" then None else DeclaredAs(request.machines, item.spec.machine), book[n])
  {
    if item.spec.machine != "" && DeclaredAs(request.machines, item.spec.machine).Some? {
      var k := DeclaredIsLast(request.machines, item.spec.machine);
    }
  }

  /** A request of one item, for at most one disk, is given up only if every machine the item may go to lacks room. */
  lemma OneItemGivesUp(cfg: Config, rel: RelationshipStatus, request: TestResourceRequest, resources: map<string, TestResource>,
                       book: map<string, Machine>, n: string)
    requires |request.items| == 1 && Resolved(request.items, resources) && WellNamed(book)
    requires |resources[request.items[0].name].spec.disks| <= 1
    requires GaveUp(cfg, rel, request, resources, book) && Allowed(rel, request, book, request.items[0], n)
    ensures !HasRoom(cfg, book[n], ListOf(rel, Key(book[n].ref)), resources[request.items[0].name].spec)
  {
    var r := resources[request.items[0].name];
    var names, groups, plan, hosts, groupOf, toLock :|
      && Grouped(request.items, resources, names, groups)
      && LoopState(cfg, rel, request, book, groups, plan, hosts, groupOf, toLock)
      && GaveUpAt(cfg, rel, request, book, groups, plan, |hosts|);
    OneGroup(request.items, resources, names, groups);
    assert |hosts| == 0 && ResourcesOf(plan) == Members(groups[..0]);
    assert |plan| == |ResourcesOf(plan)| == 0;
    AllowedIsEligible(rel, request, book, request.items[0], n);
    assert MachineRefuses(cfg, rel, book[n], [r]);
    OneItemRefusedIsFull(cfg, rel, book[n], r);
  }

  /** Any item of an accepted request is on a machine that it may go to. */
  lemma PlacedIsAllowed(cfg: Config, rel: RelationshipStatus, request: TestResourceRequest, resources: map<string, TestResource>,
                        book: map<string, Machine>, plan: seq<Placed>, hosts: map<string, Machine>, i: nat, p: nat)
    requires Resolved(request.items, resources) && Accepts(cfg, rel, request, resources, book, plan, hosts)
    requires i < |request.items| && p < |plan| && plan[p].resource == resources[request.items[i].name]
    ensures Allowed(rel, request, book, request.items[i], plan[p].machine.ref.name) && book[plan[p].machine.ref.name] == plan[p].machine
  {
    var m := plan[p].machine;
    assert IsCandidate(rel, book, m);
    forall k | (0 <= k < |request.machines| && request.machines[k].name == request.items[i].spec.machine != ""
                && forall l :: k < l < |request.machines| ==> request.machines[l].name != request.items[i].spec.machine)
      ensures request.machines[k].testMachineResource != "" ==> request.machines[k].testMachineResource == m.ref.name
      ensures request.machines[k].exclusive ==> ListOf(rel, Key(m.ref)) == []
    {
      AcceptsAsDeclared(cfg, rel, request, resources, book, plan, hosts, k, i, p);
    }
  }

  lemma LegalHasRoom(cfg: Config, rel: RelationshipStatus, plan: seq<Placed>)
    requires plan != [] && |plan[0].resource.spec.disks| <= 1 && Legal(cfg, rel, plan)
    ensures HasRoom(cfg, plan[0].machine, ListOf(rel, Key(plan[0].machine.ref)), plan[0].resource.spec)
  {
    LegalAt(cfg, rel, plan, 0);
    FitsIffRoom(cfg, plan[0].machine, ListOf(rel, Key(plan[0].machine.ref)), plan[0].resource.spec);
  }

  /** And it is placed only where there is room for it. */
  lemma OneItemIsPlaced(cfg: Config, rel: RelationshipStatus, request: TestResourceRequest, resources: map<string, TestResource>,
                        book: map<string, Machine>, plan: seq<Placed>)
    requires |request.items| == 1 && Resolved(request.items, resources)
    requires |resources[request.items[0].name].spec.disks| <= 1
    requires PlacesEachItemOnce(cfg, rel, request, resources, book, plan)
    ensures |plan| == 1 && plan[0].resource == resources[request.items[0].name]
    ensures HasRoom(cfg, plan[0].machine, ListOf(rel, Key(plan[0].machine.ref)), resources[request.items[0].name].spec)
  {
    assert |plan| == 1 && plan[0].resource == resources[request.items[0].name] by {
      PlanIsAsLong(request.items, resources, plan);
      var i := PlacementHasItem(request.items, resources, plan, 0);
    }
    assert Legal(cfg, rel, plan);
    assert HasRoom(cfg, plan[0].machine, ListOf(rel, Key(plan[0].machine.ref)), plan[0].resource.spec) by {
      LegalHasRoom(cfg, rel, plan);
    }
  }
}
