/** The acceptance: one commit that binds a whole request keeps the invariant. */
module AcceptStep {
  import opened Options
  import opened Refs
  import opened Resources
  import opened Machines
  import opened Relationships
  import opened Capacity
  import opened Placement
  import opened Grouping
  import opened Scheduler
  import opened Cluster
  import opened Invariants
  import opened RecordLaws
  import opened Frames
  import opened RequestSteps

  // ---- tryRequest is called as it expects ------------------------------------------------

  ghost function ItemNames(items: seq<ResourceRequestItem>): set<string> {
    set i | 0 <= i < |items| :: items[i].name
  }

  lemma ItemNamesStep(items: seq<ResourceRequestItem>)
    requires items != []
    ensures ItemNames(items) == ItemNames(items[..|items| - 1]) + {items[|items| - 1].name}
  {
    var n := |items| - 1;
    forall x | x in ItemNames(items[..n]) ensures x in ItemNames(items) {
      var i :| 0 <= i < n && items[..n][i].name == x;
      assert items[i].name == x;
    }
    forall x | x in ItemNames(items) ensures x in ItemNames(items[..n]) + {items[n].name} {
      var i :| 0 <= i < |items| && items[i].name == x;
      assert i < n ==> items[..n][i].name == x;
    }
  }

  /** As many names as items means that no name occurs twice. */
  lemma {:induction false} AsManyNamesAsItems(items: seq<ResourceRequestItem>)
    ensures |ItemNames(items)| <= |items|
    ensures |ItemNames(items)| == |items| ==> forall i, j :: 0 <= i < j < |items| ==> items[i].name != items[j].name
  {
    if items != [] {
      var n := |items| - 1;
      AsManyNamesAsItems(items[..n]);
      ItemNamesStep(items);
      if |ItemNames(items)| == |items| {
        forall i, j | 0 <= i < j < |items| ensures items[i].name != items[j].name {
          if j == n {
            assert items[..n][i].name in ItemNames(items[..n]);
          } else {
            assert items[..n][i].name != items[..n][j].name;
          }
        }
      }
    }
  }

  lemma ListedNamesAreItems(s: State, q: Ref, listed: map<string, Listed>)
    requires ListingOk(s, q, listed) && ResourcesOk(s) && q in s.requests
    ensures listed.Keys <= ItemNames(s.requests[q].request.items)
  {
    forall n | n in listed ensures n in ItemNames(s.requests[q].request.items) {
      var r := listed[n].resource.ref;
      assert ResourceOk(s, r, s.resources[r]);
      assert s.resources[r].resource.ref.name == n;
    }
  }

  lemma NamesAreListed(s: State, q: Ref, listed: map<string, Listed>)
    requires ListingOk(s, q, listed) && ResourcesOk(s) && q in s.requests
    requires |listed| == |s.requests[q].request.items|
    ensures listed.Keys == ItemNames(s.requests[q].request.items) && |ItemNames(s.requests[q].request.items)| == |listed|
  {
    var items := s.requests[q].request.items;
    ListedNamesAreItems(s, q, listed);
    AsManyNamesAsItems(items);
    Placement.SubsetSize(listed.Keys, ItemNames(items));
    assert |listed.Keys| == |listed|;
  }

  /** The resources handed to tryRequest are those of the request's items, one each. */
  lemma ListedIsFaithful(s: State, q: Ref, listed: map<string, Listed>)
    requires ListingOk(s, q, listed) && ResourcesOk(s) && q in s.requests
    requires |listed| == |s.requests[q].request.items|
    ensures FaithfulResources(s.requests[q].request.items, ResourcesOfListing(listed))
  {
    var items := s.requests[q].request.items;
    NamesAreListed(s, q, listed);
    AsManyNamesAsItems(items);
    forall i | 0 <= i < |items| ensures items[i].name in listed {
      assert items[i].name in ItemNames(items);
    }
  }

  // ---- What the plan is made of ----------------------------------------------------------

  lemma PlacedItem(items: seq<ResourceRequestItem>, resources: map<string, TestResource>, plan: seq<Placed>, k: nat) returns (i: nat)
    requires Resolved(items, resources) && multiset(ResourcesOf(plan)) == multiset(ItemResources(items, resources)) && k < |plan|
    ensures i < |items| && plan[k].resource == resources[items[i].name]
  {
    assert ResourcesOf(plan)[k] in multiset(ResourcesOf(plan));
    assert plan[k].resource in ItemResources(items, resources);
    i :| 0 <= i < |items| && ItemResources(items, resources)[i] == plan[k].resource;
  }

  /** No resource is placed twice. */
  lemma PlacedOnce(items: seq<ResourceRequestItem>, resources: map<string, TestResource>, plan: seq<Placed>, i: nat, j: nat)
    requires FaithfulResources(items, resources) && multiset(ResourcesOf(plan)) == multiset(ItemResources(items, resources))
    requires i < j < |plan|
    ensures plan[i].resource != plan[j].resource
  {
    if plan[i].resource == plan[j].resource {
      TwiceInMultiset(ResourcesOf(plan), i, j);
      TwiceAtTwoPlaces(ItemResources(items, resources), plan[i].resource);
    }
  }

  /** One placement that may be committed for q. */
  ghost predicate PlacementReady(s: State, q: Ref, p: Placed) {
    && HostLive(s.machines, p.machine.ref) && s.machines[p.machine.ref].machine == p.machine
    && p.machine.ref.name !in s.rel.machineLocks
    && p.resource.ref in s.resources && s.resources[p.resource.ref].resource == p.resource
    && s.resources[p.resource.ref].finalizer && s.resources[p.resource.ref].owner == q
    && Key(p.resource.ref) !in s.rel.resourceToMachine
  }

  ghost predicate PlanReady(s: State, q: Ref, plan: seq<Placed>) {
    && (forall i :: 0 <= i < |plan| ==> PlacementReady(s, q, plan[i]))
    && (forall i, j :: 0 <= i < j < |plan| ==> plan[i].resource.ref != plan[j].resource.ref)
  }

  ghost predicate IdleHost(s: State, host: Ref, name: string) {
    HostLive(s.machines, host) && host.name == name && ListOf(s.rel, Key(host)) == []
  }

  /** Each machine to be locked is live, not locked and hosts nothing. */
  ghost predicate LocksReady(s: State, locks: set<string>) {
    forall n :: n in locks ==> n !in s.rel.machineLocks && exists host :: IdleHost(s, host, n)
  }

  lemma LocksAreReady(s: State, request: TestResourceRequest, book: map<string, Machine>, hosts: map<string, Machine>)
    requires HostsHonoured(s.rel, request, book, hosts) && BookOk(s, book)
    ensures LocksReady(s, LocksOf(request, hosts))
  {
    forall n | n in LocksOf(request, hosts) ensures n !in s.rel.machineLocks && exists host :: IdleHost(s, host, n) {
      var name :| name in hosts && DeclaredAs(request.machines, name).Some?
                  && DeclaredAs(request.machines, name).value.exclusive && hosts[name].ref.name == n;
      assert IsCandidate(s.rel, book, hosts[name]);
      assert IdleHost(s, hosts[name].ref, n);
    }
  }

  /** A placement honours the declaration of the logical machine it is for. */
  ghost predicate PlacedAsDeclared(s: State, declared: Option<MachineRequest>, host: Ref, locks: set<string>) {
    && declared.Some?
    && (declared.value.testMachineResource != "" ==> host.name == declared.value.testMachineResource)
    && (declared.value.exclusive ==> host.name in locks && ListOf(s.rel, Key(host)) == [])
  }

  ghost predicate PlansName(plan: seq<Placed>, name: string) {
    exists k :: 0 <= k < |plan| && plan[k].resource.ref.name == name
  }

  /** Named resources go where their logical machine was declared to be, together, and no item is left out. */
  ghost predicate PlanAsAsked(s: State, request: TestResourceRequest, plan: seq<Placed>, locks: set<string>) {
    && (forall k :: 0 <= k < |plan| && plan[k].resource.spec.machine != "" ==>
          PlacedAsDeclared(s, DeclaredAs(request.machines, plan[k].resource.spec.machine), plan[k].machine.ref, locks))
    && (forall k, l :: 0 <= k < |plan| && 0 <= l < |plan| && plan[k].resource.spec.machine == plan[l].resource.spec.machine != "" ==>
          plan[k].machine.ref == plan[l].machine.ref)
    && (forall i :: 0 <= i < |request.items| ==> PlansName(plan, request.items[i].name))
  }

  /** The commit, with everything it rests on told about the current state. */
  ghost predicate AcceptedBy(cfg: Config, s: State, s': State, q: Ref, plan: seq<Placed>, locks: set<string>) {
    && q in s.requests && s.requests[q].finalizer && q !in s.rel.acceptedRequests
    && PlanReady(s, q, plan) && LocksReady(s, locks) && Legal(cfg, s.rel, plan)
    && PlanAsAsked(s, s.requests[q].request, plan, locks)
    && s' == Commit(WithRequest(s, q, s.requests[q].(pc := QIdle)), Accepted(s.rel, q, plan, locks))
  }

  /** A listed resource has the spec of the item of its name. */
  lemma ListedSpec(s: State, q: Ref, listed: map<string, Listed>, i: nat)
    requires ListingOk(s, q, listed) && ResourcesOk(s) && q in s.requests && i < |s.requests[q].request.items|
    requires FaithfulResources(s.requests[q].request.items, ResourcesOfListing(listed))
    ensures ResourcesOfListing(listed)[s.requests[q].request.items[i].name].spec == s.requests[q].request.items[i].spec
  {
    var items := s.requests[q].request.items;
    var resource := listed[items[i].name].resource;
    assert ResourceOk(s, resource.ref, s.resources[resource.ref]);
    assert MadeFrom(s.requests[q].request, resource);
    var j :| 0 <= j < |items| && items[j].name == resource.ref.name && items[j].spec == resource.spec;
    assert items[j].name == items[i].name;
  }

  /** Each placement is that of an item, with the item's spec, on the host of the item's logical machine. */
  lemma PlacedOnHost(cfg: Config, s: State, q: Ref, listed: map<string, Listed>, book: map<string, Machine>,
                     plan: seq<Placed>, hosts: map<string, Machine>, k: nat)
    requires ListingOk(s, q, listed) && ResourcesOk(s) && q in s.requests && k < |plan|
    requires FaithfulResources(s.requests[q].request.items, ResourcesOfListing(listed))
    requires Accepts(cfg, s.rel, s.requests[q].request, ResourcesOfListing(listed), book, plan, hosts)
    ensures var name := plan[k].resource.spec.machine; name != "" ==> name in hosts && plan[k].machine == hosts[name]
  {
    var request, resources := s.requests[q].request, ResourcesOfListing(listed);
    var i := PlacedItem(request.items, resources, plan, k);
    ListedSpec(s, q, listed, i);
    assert FollowsItem(cfg, s.rel, request, book, hosts, plan[..k], plan[k], request.items[i]);
  }

  lemma HostIsAsDeclared(s: State, request: TestResourceRequest, book: map<string, Machine>, hosts: map<string, Machine>, name: string)
    requires HostsHonoured(s.rel, request, book, hosts) && name in hosts
    ensures PlacedAsDeclared(s, DeclaredAs(request.machines, name), hosts[name].ref, LocksOf(request, hosts))
  {
  }

  lemma ItemIsPlanned(items: seq<ResourceRequestItem>, resources: map<string, TestResource>, plan: seq<Placed>, i: nat)
    requires FaithfulResources(items, resources) && multiset(ResourcesOf(plan)) == multiset(ItemResources(items, resources)) && i < |items|
    ensures PlansName(plan, items[i].name)
  {
    var r := resources[items[i].name];
    assert r == ItemResources(items, resources)[i];
    assert r in multiset(ResourcesOf(plan));
    var k :| 0 <= k < |plan| && ResourcesOf(plan)[k] == r;
    assert plan[k].resource.ref.name == items[i].name;
  }

  lemma PlanIsAsAsked(cfg: Config, s: State, q: Ref, listed: map<string, Listed>, book: map<string, Machine>,
                      plan: seq<Placed>, hosts: map<string, Machine>)
    requires ListingOk(s, q, listed) && ResourcesOk(s) && q in s.requests
    requires FaithfulResources(s.requests[q].request.items, ResourcesOfListing(listed))
    requires Accepts(cfg, s.rel, s.requests[q].request, ResourcesOfListing(listed), book, plan, hosts)
    ensures PlanAsAsked(s, s.requests[q].request, plan, LocksOf(s.requests[q].request, hosts))
  {
    var request := s.requests[q].request;
    forall k | 0 <= k < |plan| && plan[k].resource.spec.machine != ""
      ensures plan[k].resource.spec.machine in hosts && plan[k].machine == hosts[plan[k].resource.spec.machine]
      ensures PlacedAsDeclared(s, DeclaredAs(request.machines, plan[k].resource.spec.machine), plan[k].machine.ref, LocksOf(request, hosts))
    {
      PlacedOnHost(cfg, s, q, listed, book, plan, hosts, k);
      HostIsAsDeclared(s, request, book, hosts, plan[k].resource.spec.machine);
    }
    forall i | 0 <= i < |request.items| ensures PlansName(plan, request.items[i].name) {
      ItemIsPlanned(request.items, ResourcesOfListing(listed), plan, i);
    }
  }

  lemma PlacementIsReady(cfg: Config, s: State, q: Ref, listed: map<string, Listed>, book: map<string, Machine>, p: Placed, n: string)
    requires Identities(s) && Record(cfg, s.rel, s.machines, s.resources) && EntriesOwned(s)
    requires ListingOk(s, q, listed) && BookOk(s, book) && q !in s.rel.acceptedRequests && p.machine.ref in s.machines
    requires n in listed && p.resource == listed[n].resource && s.resources[p.resource.ref].finalizer
    requires IsCandidate(s.rel, book, p.machine) && s.machines[p.machine.ref].machine == p.machine
    ensures PlacementReady(s, q, p)
  {
    assert p.machine.ref.name in book;
    if Key(p.resource.ref) in s.rel.resourceToMachine {
      BoundOwnerAccepted(cfg, s, p.resource.ref);
    }
  }

  lemma PlanIsReady(cfg: Config, s: State, q: Ref, listed: map<string, Listed>, book: map<string, Machine>, plan: seq<Placed>)
    requires Identities(s) && Record(cfg, s.rel, s.machines, s.resources) && EntriesOwned(s)
    requires q in s.requests && ListingOk(s, q, listed) && BookOk(s, book) && q !in s.rel.acceptedRequests
    requires FaithfulResources(s.requests[q].request.items, ResourcesOfListing(listed))
    requires forall n :: n in listed && listed[n].resource.ref in s.resources ==> s.resources[listed[n].resource.ref].finalizer
    requires PlacesEachItemOnce(cfg, s.rel, s.requests[q].request, ResourcesOfListing(listed), book, plan)
    requires forall k :: 0 <= k < |plan| ==> plan[k].machine.ref in s.machines && s.machines[plan[k].machine.ref].machine == plan[k].machine
    ensures PlanReady(s, q, plan)
  {
    var items, resources := s.requests[q].request.items, ResourcesOfListing(listed);
    forall k | 0 <= k < |plan| ensures PlacementReady(s, q, plan[k]) {
      var i := PlacedItem(items, resources, plan, k);
      assert IsCandidate(s.rel, book, plan[k].machine);
      PlacementIsReady(cfg, s, q, listed, book, plan[k], items[i].name);
    }
    forall i, j | 0 <= i < j < |plan| ensures plan[i].resource.ref != plan[j].resource.ref {
      PlacedOnce(items, resources, plan, i, j);
      assert PlacementReady(s, q, plan[i]) && PlacementReady(s, q, plan[j]);
    }
  }

  /** The machines of a plan that can still be committed are as the plan has them. */
  lemma PlanIsCurrent(cfg: Config, s: State, q: Ref, plan: seq<Placed>, hosts: map<string, Machine>)
    requires q in s.requests && PlanCurrent(cfg, s, s.requests[q]) && s.requests[q].pc.QMachines? && s.requests[q].pc.snap.version == s.version
    requires Resolved(s.requests[q].request.items, ResourcesOfListing(s.requests[q].pc.resources))
    requires Accepts(cfg, s.requests[q].pc.snap.rel, s.requests[q].request, ResourcesOfListing(s.requests[q].pc.resources),
                     s.requests[q].pc.book, plan, hosts)
    ensures forall k :: 0 <= k < |plan| ==> plan[k].machine.ref in s.machines && s.machines[plan[k].machine.ref].machine == plan[k].machine
  {
    var o := s.requests[q];
    forall k | 0 <= k < |plan|
      ensures plan[k].machine.ref in s.machines && s.machines[plan[k].machine.ref].machine == plan[k].machine
    {
      assert IsCandidate(o.pc.snap.rel, o.pc.book, plan[k].machine);
      assert UsesMachine(plan, plan[k].machine.ref) && CouldPlaceOn(cfg, o.request, o.pc, plan[k].machine.ref);
      assert o.pc.book[plan[k].machine.ref.name] == plan[k].machine;
    }
  }

  lemma CommitAccepts(cfg: Config, s: State, s': State, q: Ref) returns (plan: seq<Placed>, locks: set<string>)
    requires Identities(s) && Record(cfg, s.rel, s.machines, s.resources) && EntriesOwned(s)
    requires ResourcesOk(s) && RequestsOk(s) && PlansCurrent(cfg, s) && AcceptCommit(cfg, s, s', q)
    ensures AcceptedBy(cfg, s, s', q, plan, locks)
  {
    var o := s.requests[q];
    assert RequestOk(s, q, o);
    var listed, book := o.pc.resources, o.pc.book;
    var resources := ResourcesOfListing(listed);
    var hosts: map<string, Machine>;
    plan, hosts :| Accepts(cfg, s.rel, o.request, resources, book, plan, hosts)
                   && s' == Commit(WithRequest(s, q, o.(pc := QIdle)), Accepted(s.rel, q, plan, LocksOf(o.request, hosts)));
    locks := LocksOf(o.request, hosts);
    ListedIsFaithful(s, q, listed);
    PlanIsCurrent(cfg, s, q, plan, hosts);
    PlanIsReady(cfg, s, q, listed, book, plan);
    LocksAreReady(s, o.request, book, hosts);
    PlanIsAsAsked(cfg, s, q, listed, book, plan, hosts);
  }

  // ---- The record after the commit -------------------------------------------------------

  lemma PlanKeepsWholeRecord(cfg: Config, s: State, q: Ref, plan: seq<Placed>)
    requires PlanReady(s, q, plan) && Legal(cfg, s.rel, plan) && Identities(s) && Record(cfg, s.rel, s.machines, s.resources)
    ensures Record(cfg, Apply(s.rel, plan), s.machines, s.resources)
  {
    HasValidKeys(s);
    forall i | 0 <= i < |plan| ensures Key(plan[i].resource.ref) !in s.rel.resourceToMachine {
      assert PlacementReady(s, q, plan[i]);
    }
    PlanIsLive(s, q, plan);
    PlanKeepsRecord(cfg, s.rel, s.machines, s.resources, plan);
  }

  lemma AcceptRecord(cfg: Config, s: State, s': State, q: Ref, plan: seq<Placed>, locks: set<string>)
    requires AcceptedBy(cfg, s, s', q, plan, locks) && Record(cfg, Apply(s.rel, plan), s.machines, s.resources)
    ensures Record(cfg, s'.rel, s'.machines, s'.resources)
  {
    SameListsKeepsRecord(cfg, Apply(s.rel, plan), s'.rel, s.machines, s.resources);
  }

  lemma PlanIsLive(s: State, q: Ref, plan: seq<Placed>)
    requires PlanReady(s, q, plan)
    ensures PlanLive(s.machines, s.resources, plan)
  {
    forall i | 0 <= i < |plan|
      ensures HostLive(s.machines, plan[i].machine.ref) && s.machines[plan[i].machine.ref].machine == plan[i].machine
      ensures plan[i].resource.ref in s.resources && s.resources[plan[i].resource.ref].finalizer
      ensures s.resources[plan[i].resource.ref].resource == plan[i].resource
    {
      assert PlacementReady(s, q, plan[i]);
    }
  }

  /** An entry after the commit was there before, or is one of the plan. */
  lemma AcceptedEntry(cfg: Config, s: State, s': State, q: Ref, plan: seq<Placed>, locks: set<string>, k: string, e: ResourceRef)
    requires AcceptedBy(cfg, s, s', q, plan, locks)
    requires k in s'.rel.machineToResources && e in s'.rel.machineToResources[k]
    ensures (k in s.rel.machineToResources && e in s.rel.machineToResources[k]) || PlansEntry(plan, k, e.ref)
  {
    ApplyEntries(s.rel, plan, k, e);
  }

  lemma AcceptKeepsBindings(cfg: Config, s: State, s': State, q: Ref, plan: seq<Placed>, locks: set<string>)
    requires AcceptedBy(cfg, s, s', q, plan, locks)
    ensures forall x :: x in s'.rel.resourceToMachine <==> x in s.rel.resourceToMachine || PlansKey(plan, x)
    ensures forall x :: x in s.rel.resourceToMachine ==> s'.rel.resourceToMachine[x] == s.rel.resourceToMachine[x]
  {
    ApplyBinds(s.rel, plan);
    forall x | x in s.rel.resourceToMachine ensures !PlansKey(plan, x) {
      forall i | 0 <= i < |plan| ensures Key(plan[i].resource.ref) != x {
        assert PlacementReady(s, q, plan[i]);
      }
    }
  }

  lemma AcceptAccepted(cfg: Config, s: State, s': State, q: Ref, plan: seq<Placed>, locks: set<string>)
    requires AcceptedBy(cfg, s, s', q, plan, locks)
    requires AcceptedLive(s.rel.acceptedRequests, s.requests) && HoldersAccepted(s.rel.machineLocks, s.rel.acceptedRequests)
    ensures AcceptedLive(s'.rel.acceptedRequests, s'.requests) && HoldersAccepted(s'.rel.machineLocks, s'.rel.acceptedRequests)
  {
  }

  // ---- Who owns the entries --------------------------------------------------------------

  /** An entry names a live machine, in both maps. */
  ghost predicate EntryHosted(rel: RelationshipStatus, machines: map<Ref, MachineObj>, k: string, e: ResourceRef) {
    EntryMirrored(rel, k, e) && HostLive(machines, rel.resourceToMachine[Key(e.ref)].ref)
  }

  ghost predicate EntriesHosted(rel: RelationshipStatus, machines: map<Ref, MachineObj>) {
    forall k, e :: k in rel.machineToResources && e in rel.machineToResources[k] ==> EntryHosted(rel, machines, k, e)
  }

  lemma RecordHostsEntries(cfg: Config, rel: RelationshipStatus, machines: map<Ref, MachineObj>, resources: map<Ref, ResourceObj>)
    requires Record(cfg, rel, machines, resources)
    ensures EntriesHosted(rel, machines)
  {
    forall k, e | k in rel.machineToResources && e in rel.machineToResources[k] ensures EntryHosted(rel, machines, k, e) {
      assert EntryMirrored(rel, k, e);
    }
  }

  /** An entry after the commit that was not there before is of q, and on the machine of the list it is in. */
  lemma NewEntryIs(cfg: Config, s: State, s': State, q: Ref, plan: seq<Placed>, locks: set<string>, k: string, e: ResourceRef) returns (i: nat)
    requires AcceptedBy(cfg, s, s', q, plan, locks) && EntryHosted(s'.rel, s.machines, k, e) && PlansEntry(plan, k, e.ref)
    requires MachineIds(s.machines, s.uids)
    ensures i < |plan| && plan[i].resource.ref == e.ref && plan[i].machine.ref == s'.rel.resourceToMachine[Key(e.ref)].ref
    ensures PlacementReady(s, q, plan[i])
  {
    i :| 0 <= i < |plan| && Key(plan[i].machine.ref) == k && plan[i].resource.ref == e.ref;
    assert PlacementReady(s, q, plan[i]);
    KeyInjective(s'.rel.resourceToMachine[Key(e.ref)].ref, plan[i].machine.ref);
  }

  lemma EntryOwnedAfter(cfg: Config, s: State, s': State, q: Ref, plan: seq<Placed>, locks: set<string>, k: string, e: ResourceRef)
    requires AcceptedBy(cfg, s, s', q, plan, locks) && EntriesOwned(s)
    requires k in s'.rel.machineToResources && e in s'.rel.machineToResources[k]
    ensures e.ref in s'.resources && EntryOwned(s', e)
  {
    AcceptedEntry(cfg, s, s', q, plan, locks, k, e);
    if k in s.rel.machineToResources && e in s.rel.machineToResources[k] {
      assert EntryOwned(s, e);
    } else {
      PlannedIsOwn(s, q, plan, k, e.ref);
    }
  }

  lemma AcceptEntriesOwned(cfg: Config, s: State, s': State, q: Ref, plan: seq<Placed>, locks: set<string>)
    requires AcceptedBy(cfg, s, s', q, plan, locks) && EntriesOwned(s) && EntriesHosted(s'.rel, s.machines)
    ensures EntriesOwned(s')
  {
    forall k, e | k in s'.rel.machineToResources && e in s'.rel.machineToResources[k]
      ensures e.ref in s'.resources && Key(e.ref) in s'.rel.resourceToMachine && EntryOwned(s', e)
    {
      assert EntryHosted(s'.rel, s.machines, k, e);
      EntryOwnedAfter(cfg, s, s', q, plan, locks, k, e);
    }
  }

  // ---- What was promised -----------------------------------------------------------------

  /** Nothing of the plan goes to a machine whose name was locked before. */
  lemma LockedGetsNothing(cfg: Config, s: State, s': State, q: Ref, plan: seq<Placed>, locks: set<string>, host: Ref, e: ResourceRef)
    requires AcceptedBy(cfg, s, s', q, plan, locks) && MachineIds(s.machines, s.uids) && Valid(host)
    requires host.name in s.rel.machineLocks && e in ListOf(s'.rel, Key(host))
    ensures e in ListOf(s.rel, Key(host))
  {
    AcceptedEntry(cfg, s, s', q, plan, locks, Key(host), e);
    if e !in ListOf(s.rel, Key(host)) {
      var i :| 0 <= i < |plan| && Key(plan[i].machine.ref) == Key(host) && plan[i].resource.ref == e.ref;
      assert PlacementReady(s, q, plan[i]);
      KeyInjective(plan[i].machine.ref, host);
    }
  }

  lemma AcceptKeepsExclusive(cfg: Config, s: State, s': State, q: Ref, plan: seq<Placed>, locks: set<string>, host: Ref, owner: Ref)
    requires AcceptedBy(cfg, s, s', q, plan, locks) && MachineIds(s.machines, s.uids) && Valid(host) && Exclusive(s, host, owner)
    ensures Exclusive(s', host, owner)
  {
    forall e | e in ListOf(s'.rel, Key(host)) ensures e.ref in s'.resources && s'.resources[e.ref].owner == owner {
      LockedGetsNothing(cfg, s, s', q, plan, locks, host, e);
    }
  }

  /** A machine that hosted nothing and is locked now is the request's alone. */
  lemma AcceptMakesExclusive(cfg: Config, s: State, s': State, q: Ref, plan: seq<Placed>, locks: set<string>, host: Ref)
    requires AcceptedBy(cfg, s, s', q, plan, locks) && host.name in locks && ListOf(s.rel, Key(host)) == []
    ensures Exclusive(s', host, q)
  {
    forall e | e in ListOf(s'.rel, Key(host)) ensures e.ref in s'.resources && s'.resources[e.ref].owner == q {
      AcceptedEntry(cfg, s, s', q, plan, locks, Key(host), e);
      var i :| 0 <= i < |plan| && Key(plan[i].machine.ref) == Key(host) && plan[i].resource.ref == e.ref;
      assert PlacementReady(s, q, plan[i]);
    }
  }

  lemma OldEntryAsAsked(cfg: Config, s: State, s': State, q: Ref, plan: seq<Placed>, locks: set<string>, k: string, e: ResourceRef)
    requires AcceptedBy(cfg, s, s', q, plan, locks) && MachineIds(s.machines, s.uids)
    requires EntryHosted(s.rel, s.machines, k, e) && EntryAsAsked(s, e)
    ensures EntryAsAsked(s', e)
  {
    AcceptKeepsBindings(cfg, s, s', q, plan, locks);
    var o, host := s.resources[e.ref], s.rel.resourceToMachine[Key(e.ref)].ref;
    if Exclusive(s, host, o.owner) {
      AcceptKeepsExclusive(cfg, s, s', q, plan, locks, host, o.owner);
    }
  }

  lemma NewEntryAsAsked(cfg: Config, s: State, s': State, q: Ref, plan: seq<Placed>, locks: set<string>, k: string, e: ResourceRef)
    requires AcceptedBy(cfg, s, s', q, plan, locks) && MachineIds(s.machines, s.uids)
    requires EntryHosted(s'.rel, s.machines, k, e) && PlansEntry(plan, k, e.ref)
    ensures EntryAsAsked(s', e)
  {
    var i := NewEntryIs(cfg, s, s', q, plan, locks, k, e);
    var host := plan[i].machine.ref;
    if host.name in locks && ListOf(s.rel, Key(host)) == [] {
      AcceptMakesExclusive(cfg, s, s', q, plan, locks, host);
    }
  }

  lemma AcceptEntriesAsAsked(cfg: Config, s: State, s': State, q: Ref, plan: seq<Placed>, locks: set<string>)
    requires AcceptedBy(cfg, s, s', q, plan, locks) && MachineIds(s.machines, s.uids) && EntriesAsAsked(s)
    requires EntriesHosted(s.rel, s.machines) && EntriesHosted(s'.rel, s.machines)
    ensures EntriesAsAsked(s')
  {
    forall k, e | k in s'.rel.machineToResources && e in s'.rel.machineToResources[k] ensures EntryAsAsked(s', e) {
      AcceptedEntry(cfg, s, s', q, plan, locks, k, e);
      if k in s.rel.machineToResources && e in s.rel.machineToResources[k] {
        OldEntryAsAsked(cfg, s, s', q, plan, locks, k, e);
      } else {
        NewEntryAsAsked(cfg, s, s', q, plan, locks, k, e);
      }
    }
  }

  /** The request had nothing bound before, so what belongs together was placed together. */
  lemma TogetherAfter(cfg: Config, s: State, s': State, q: Ref, plan: seq<Placed>, locks: set<string>,
                      k: string, e: ResourceRef, l: string, f: ResourceRef)
    requires AcceptedBy(cfg, s, s', q, plan, locks) && EntriesOwned(s) && CoLocated(s.rel, s.resources)
    requires k in s'.rel.machineToResources && e in s'.rel.machineToResources[k]
    requires l in s'.rel.machineToResources && f in s'.rel.machineToResources[l] && Together(s'.resources, e, f)
    ensures k == l
  {
    AcceptedEntry(cfg, s, s', q, plan, locks, k, e);
    AcceptedEntry(cfg, s, s', q, plan, locks, l, f);
    if s.resources[e.ref].owner == q {
      NothingBoundYet(s, q);
      var i :| 0 <= i < |plan| && Key(plan[i].machine.ref) == k && plan[i].resource.ref == e.ref;
      var j :| 0 <= j < |plan| && Key(plan[j].machine.ref) == l && plan[j].resource.ref == f.ref;
      assert PlacementReady(s, q, plan[i]) && PlacementReady(s, q, plan[j]);
    } else {
      OthersEntryIsOld(cfg, s, s', q, plan, locks, k, e);
      OthersEntryIsOld(cfg, s, s', q, plan, locks, l, f);
      assert Together(s.resources, e, f);
    }
  }

  lemma OthersEntryIsOld(cfg: Config, s: State, s': State, q: Ref, plan: seq<Placed>, locks: set<string>, k: string, e: ResourceRef)
    requires AcceptedBy(cfg, s, s', q, plan, locks) && e.ref in s.resources && s.resources[e.ref].owner != q
    requires k in s'.rel.machineToResources && e in s'.rel.machineToResources[k]
    ensures k in s.rel.machineToResources && e in s.rel.machineToResources[k]
  {
    AcceptedEntry(cfg, s, s', q, plan, locks, k, e);
    if PlansEntry(plan, k, e.ref) {
      PlannedIsOwn(s, q, plan, k, e.ref);
    }
  }

  lemma PlannedIsOwn(s: State, q: Ref, plan: seq<Placed>, k: string, r: Ref)
    requires PlanReady(s, q, plan) && PlansEntry(plan, k, r)
    ensures r in s.resources && s.resources[r].owner == q
  {
    var i :| 0 <= i < |plan| && Key(plan[i].machine.ref) == k && plan[i].resource.ref == r;
    assert PlacementReady(s, q, plan[i]);
  }

  /** A request that is not accepted has nothing bound. */
  lemma NothingBoundYet(s: State, q: Ref)
    requires EntriesOwned(s) && q !in s.rel.acceptedRequests
    ensures forall k, e :: k in s.rel.machineToResources && e in s.rel.machineToResources[k] ==>
              e.ref in s.resources && s.resources[e.ref].owner != q
  {
    forall k, e | k in s.rel.machineToResources && e in s.rel.machineToResources[k]
      ensures e.ref in s.resources && s.resources[e.ref].owner != q
    {
      assert EntryOwned(s, e);
    }
  }

  lemma AcceptCoLocated(cfg: Config, s: State, s': State, q: Ref, plan: seq<Placed>, locks: set<string>)
    requires AcceptedBy(cfg, s, s', q, plan, locks) && EntriesOwned(s) && CoLocated(s.rel, s.resources)
    ensures CoLocated(s'.rel, s'.resources)
  {
    forall k, e, l, f | k in s'.rel.machineToResources && e in s'.rel.machineToResources[k]
                        && l in s'.rel.machineToResources && f in s'.rel.machineToResources[l] && Together(s'.resources, e, f)
      ensures k == l
    {
      TogetherAfter(cfg, s, s', q, plan, locks, k, e, l, f);
    }
  }

  lemma AcceptFulfils(cfg: Config, s: State, s': State, q: Ref, plan: seq<Placed>, locks: set<string>)
    requires AcceptedBy(cfg, s, s', q, plan, locks)
    ensures Fulfilled(s', q)
  {
    AcceptKeepsBindings(cfg, s, s', q, plan, locks);
    var items := s'.requests[q].request.items;
    forall i | 0 <= i < |items| ensures ItemBound(s', q, items[i].name) {
      assert PlansName(plan, items[i].name);
      var k :| 0 <= k < |plan| && plan[k].resource.ref.name == items[i].name;
      assert PlacementReady(s, q, plan[k]) && PlansKey(plan, Key(plan[k].resource.ref));
    }
  }

  lemma AcceptKeepsFulfilled(cfg: Config, s: State, s': State, q: Ref, plan: seq<Placed>, locks: set<string>, x: Ref)
    requires AcceptedBy(cfg, s, s', q, plan, locks) && x != q && x in s.requests && Fulfilled(s, x)
    ensures Fulfilled(s', x)
  {
    AcceptKeepsBindings(cfg, s, s', q, plan, locks);
    if !s'.requests[x].deleting {
      forall i | 0 <= i < |s'.requests[x].request.items| ensures ItemBound(s', x, s'.requests[x].request.items[i].name) {
        assert ItemBound(s, x, s.requests[x].request.items[i].name);
      }
    }
  }

  lemma AcceptPromises(cfg: Config, s: State, s': State, q: Ref, plan: seq<Placed>, locks: set<string>)
    requires AcceptedBy(cfg, s, s', q, plan, locks) && MachineIds(s.machines, s.uids) && EntriesOwned(s) && Promises(s)
    requires EntriesHosted(s.rel, s.machines) && EntriesHosted(s'.rel, s.machines)
    ensures Promises(s')
  {
    AcceptEntriesAsAsked(cfg, s, s', q, plan, locks);
    AcceptCoLocated(cfg, s, s', q, plan, locks);
    AcceptFulfils(cfg, s, s', q, plan, locks);
    forall x | x in s'.rel.acceptedRequests && x in s'.requests ensures Fulfilled(s', x) {
      if x != q { AcceptKeepsFulfilled(cfg, s, s', q, plan, locks, x); }
    }
  }

  // ---- The objects -----------------------------------------------------------------------

  lemma StrippedStaysEmpty(cfg: Config, s: State, s': State, q: Ref, plan: seq<Placed>, locks: set<string>, m: Ref)
    requires AcceptedBy(cfg, s, s', q, plan, locks) && MachineIds(s.machines, s.uids)
    requires m in s.machines && s.machines[m].pc.MStrip? && ListOf(s.rel, Key(m)) == []
    ensures ListOf(s'.rel, Key(m)) == []
  {
    if ListOf(s'.rel, Key(m)) != [] {
      var e := ListOf(s'.rel, Key(m))[0];
      AcceptedEntry(cfg, s, s', q, plan, locks, Key(m), e);
      var i :| 0 <= i < |plan| && Key(plan[i].machine.ref) == Key(m) && plan[i].resource.ref == e.ref;
      assert PlacementReady(s, q, plan[i]);
      KeyInjective(m, plan[i].machine.ref);
    }
  }

  lemma AcceptMachines(cfg: Config, s: State, s': State, q: Ref, plan: seq<Placed>, locks: set<string>)
    requires AcceptedBy(cfg, s, s', q, plan, locks) && MachineIds(s.machines, s.uids) && MachinesOk(s)
    ensures MachinesOk(s')
  {
    forall m | m in s.machines && s.machines[m].pc.MStrip? ensures ListOf(s'.rel, Key(m)) == [] {
      assert MachineOk(s, m, s.machines[m]);
      StrippedStaysEmpty(cfg, s, s', q, plan, locks, m);
    }
    FrameMachines(s, s', {});
  }

  ghost function NewlyBound(s: State, s': State): set<Ref> {
    set r | r in s.resources && Key(r) !in s.rel.resourceToMachine && Key(r) in s'.rel.resourceToMachine
  }

  lemma NewlyBoundIsOwn(cfg: Config, s: State, s': State, q: Ref, plan: seq<Placed>, locks: set<string>, r: Ref)
    requires AcceptedBy(cfg, s, s', q, plan, locks) && ResourceIds(s.resources, s.uids) && r in NewlyBound(s, s')
    ensures s.resources[r].owner == q
  {
    AcceptKeepsBindings(cfg, s, s', q, plan, locks);
    var i :| 0 <= i < |plan| && Key(plan[i].resource.ref) == Key(r);
    assert PlacementReady(s, q, plan[i]);
    KeyInjective(plan[i].resource.ref, r);
  }

  lemma BoundNow(s: State, s': State, r: Ref, o: ResourceObj)
    requires Advances(s, s') && ResourceOk(s, r, o) && OwnerKept(s, s', o.owner)
    requires !o.deleting && Key(r) in s'.rel.resourceToMachine
    ensures ResourceOk(s', r, o)
  {
  }

  lemma NewlyBoundOk(cfg: Config, s: State, s': State, q: Ref, plan: seq<Placed>, locks: set<string>, r: Ref)
    requires AcceptedBy(cfg, s, s', q, plan, locks) && ResourceIds(s.resources, s.uids) && NoneDeleting(s, q)
    requires r in NewlyBound(s, s') && ResourceOk(s, r, s.resources[r])
    ensures ResourceOk(s', r, s'.resources[r])
  {
    NewlyBoundIsOwn(cfg, s, s', q, plan, locks, r);
    BoundNow(s, s', r, s.resources[r]);
  }

  lemma OthersKeepBinding(cfg: Config, s: State, s': State, q: Ref, plan: seq<Placed>, locks: set<string>)
    requires AcceptedBy(cfg, s, s', q, plan, locks)
    ensures forall r :: r in s.resources && r !in NewlyBound(s, s') ==> SameBinding(s, s', r)
  {
    AcceptKeepsBindings(cfg, s, s', q, plan, locks);
  }

  lemma NewlyBoundAreOk(cfg: Config, s: State, s': State, q: Ref, plan: seq<Placed>, locks: set<string>)
    requires AcceptedBy(cfg, s, s', q, plan, locks) && ResourceIds(s.resources, s.uids) && ResourcesOk(s) && NoneDeleting(s, q)
    ensures forall r :: r in NewlyBound(s, s') ==> ResourceOk(s', r, s'.resources[r])
  {
    forall r | r in NewlyBound(s, s') ensures ResourceOk(s', r, s'.resources[r]) {
      assert ResourceOk(s, r, s.resources[r]);
      NewlyBoundOk(cfg, s, s', q, plan, locks, r);
    }
  }

  lemma AcceptKeepsOwners(cfg: Config, s: State, s': State, q: Ref, plan: seq<Placed>, locks: set<string>)
    requires AcceptedBy(cfg, s, s', q, plan, locks)
    ensures Advances(s, s') && s'.resources == s.resources && forall x :: OwnerKept(s, s', x)
  {
  }

  lemma AcceptResources(cfg: Config, s: State, s': State, q: Ref, plan: seq<Placed>, locks: set<string>)
    requires AcceptedBy(cfg, s, s', q, plan, locks) && ResourceIds(s.resources, s.uids) && ResourcesOk(s) && NoneDeleting(s, q)
    ensures ResourcesOk(s')
  {
    NewlyBoundAreOk(cfg, s, s', q, plan, locks);
    OthersKeepBinding(cfg, s, s', q, plan, locks);
    AcceptKeepsOwners(cfg, s, s', q, plan, locks);
    FrameResources(s, s', NewlyBound(s, s'));
  }

  lemma AcceptOwn(cfg: Config, s: State, s': State, q: Ref, plan: seq<Placed>, locks: set<string>)
    requires AcceptedBy(cfg, s, s', q, plan, locks) && RequestOk(s, q, s.requests[q])
    ensures RequestOk(s', q, s'.requests[q])
  {
  }

  lemma AcceptRequests(cfg: Config, s: State, s': State, q: Ref, plan: seq<Placed>, locks: set<string>)
    requires AcceptedBy(cfg, s, s', q, plan, locks) && RequestsOk(s)
    ensures RequestsOk(s')
  {
    AcceptOwn(cfg, s, s', q, plan, locks);
    FrameRequests(s, s', {q});
  }

  lemma AcceptPlans(cfg: Config, s: State, s': State, q: Ref, plan: seq<Placed>, locks: set<string>)
    requires AcceptedBy(cfg, s, s', q, plan, locks) && RequestsOk(s)
    ensures PlansCurrent(cfg, s')
  {
    CommitEndsPlans(cfg, s, s');
  }

  lemma AcceptIdentities(cfg: Config, s: State, s': State, q: Ref, plan: seq<Placed>, locks: set<string>)
    requires AcceptedBy(cfg, s, s', q, plan, locks) && Identities(s)
    ensures Identities(s')
  {
  }

  lemma AcceptKeeps(cfg: Config, s: State, s': State, q: Ref)
    requires Inv(cfg, s) && AcceptCommit(cfg, s, s', q)
    ensures Inv(cfg, s')
  {
    var plan, locks := CommitAccepts(cfg, s, s', q);
    assert NoneDeleting(s, q) by {
      assert RequestOk(s, q, s.requests[q]);
    }
    AcceptIdentities(cfg, s, s', q, plan, locks);
    PlanKeepsWholeRecord(cfg, s, q, plan);
    AcceptRecord(cfg, s, s', q, plan, locks);
    AcceptAccepted(cfg, s, s', q, plan, locks);
    RecordHostsEntries(cfg, s.rel, s.machines, s.resources);
    RecordHostsEntries(cfg, s'.rel, s'.machines, s'.resources);
    AcceptEntriesOwned(cfg, s, s', q, plan, locks);
    AcceptPromises(cfg, s, s', q, plan, locks);
    AcceptMachines(cfg, s, s', q, plan, locks);
    AcceptResources(cfg, s, s', q, plan, locks);
    AcceptRequests(cfg, s, s', q, plan, locks);
    AcceptPlans(cfg, s, s', q, plan, locks);
  }
}
