/** Each edit of the record keeps its two maps consistent and its machines sound. */
module RecordLaws {
  import opened Refs
  import opened Resources
  import opened Machines
  import opened Relationships
  import opened Placement
  import opened PlacementLaws
  import opened Scheduler
  import opened Cluster
  import opened Invariants

  /** Every reference the record and the stores mention is one the API server could have issued. */
  ghost predicate ValidKeys(machines: map<Ref, MachineObj>, resources: map<Ref, ResourceObj>) {
    && (forall m :: m in machines ==> Valid(m))
    && (forall r :: r in resources ==> Valid(r))
  }

  /** A non-empty list belongs to a live machine. */
  lemma ListedHostLive(cfg: Config, rel: RelationshipStatus, machines: map<Ref, MachineObj>, resources: map<Ref, ResourceObj>, m: Ref)
    requires Record(cfg, rel, machines, resources) && ValidKeys(machines, resources) && Valid(m)
    requires ListOf(rel, Key(m)) != []
    ensures HostLive(machines, m)
  {
    var e := ListOf(rel, Key(m))[0];
    assert EntryMirrored(rel, Key(m), e);
    var host := rel.resourceToMachine[Key(e.ref)].ref;
    assert HostLive(machines, host);
    KeyInjective(host, m);
  }

  /** A bound resource exists, and an entry of its machine's list is its own. */
  lemma BoundHasEntry(cfg: Config, rel: RelationshipStatus, machines: map<Ref, MachineObj>, resources: map<Ref, ResourceObj>, r: Ref)
    returns (e: ResourceRef)
    requires Record(cfg, rel, machines, resources) && ValidKeys(machines, resources) && Valid(r)
    requires Key(r) in rel.resourceToMachine
    ensures e.ref == r && e in ListOf(rel, Key(rel.resourceToMachine[Key(r)].ref))
    ensures e.binding == rel.resourceToMachine[Key(r)].binding
    ensures EntryLive(cfg, resources, e)
  {
    assert BindingMirrored(rel, Key(r));
    e :| e in ListOf(rel, Key(rel.resourceToMachine[Key(r)].ref)) && Key(e.ref) == Key(r)
         && e.binding == rel.resourceToMachine[Key(r)].binding;
    assert EntryLive(cfg, resources, e);
    KeyInjective(e.ref, r);
  }

  // ---- Bind ------------------------------------------------------------------------------

  /** No entry anywhere is of a resource that is not bound. */
  lemma UnboundHasNoEntry(rel: RelationshipStatus, r: Ref)
    requires Mirror(rel) && Key(r) !in rel.resourceToMachine
    ensures forall k, e :: k in rel.machineToResources && e in rel.machineToResources[k] ==> e.ref != r
  {
    forall k, e | k in rel.machineToResources && e in rel.machineToResources[k] ensures e.ref != r {
      assert EntryMirrored(rel, k, e);
    }
  }

  lemma BindEntries(rel: RelationshipStatus, m: Ref, r: Ref, b: ResourceBinding, k: string, e: ResourceRef)
    requires k in Bind(rel, m, r, b).machineToResources && e in Bind(rel, m, r, b).machineToResources[k]
    ensures (k in rel.machineToResources && e in rel.machineToResources[k]) || (k == Key(m) && e == ResourceRef(r, b))
  {
  }

  lemma BindKeepsEntriesMirrored(rel: RelationshipStatus, m: Ref, r: Ref, b: ResourceBinding)
    requires EntriesMirrored(rel) && Key(r) !in rel.resourceToMachine
    requires forall k, e :: k in rel.machineToResources && e in rel.machineToResources[k] ==> e.ref != r
    ensures EntriesMirrored(Bind(rel, m, r, b))
  {
    var rel' := Bind(rel, m, r, b);
    forall k, e | k in rel'.machineToResources && e in rel'.machineToResources[k] ensures EntryMirrored(rel', k, e) {
      BindEntries(rel, m, r, b, k, e);
      if e.ref != r {
        assert EntryMirrored(rel, k, e);
      }
    }
  }

  /** Binding an unbound resource keeps the maps mirrored. */
  lemma BindKeepsMirror(rel: RelationshipStatus, m: Ref, r: Ref, b: ResourceBinding)
    requires Mirror(rel) && Valid(r) && Key(r) !in rel.resourceToMachine
    ensures Mirror(Bind(rel, m, r, b))
  {
    var rel' := Bind(rel, m, r, b);
    UnboundHasNoEntry(rel, r);
    BindKeepsEntriesMirrored(rel, m, r, b);
    forall k | k in rel'.machineToResources ensures RefsDistinct(rel'.machineToResources[k]) {
      assert k in rel.machineToResources ==> RefsDistinct(rel.machineToResources[k]);
    }
    forall x | x in rel'.resourceToMachine ensures BindingMirrored(rel', x) {
      if x == Key(r) {
        assert ResourceRef(r, b) in ListOf(rel', Key(m));
      } else {
        assert BindingMirrored(rel, x);
        var e :| e in ListOf(rel, Key(rel.resourceToMachine[x].ref)) && Key(e.ref) == x && e.binding == rel.resourceToMachine[x].binding;
        assert e in ListOf(rel', Key(rel'.resourceToMachine[x].ref));
      }
    }
  }

  lemma GrantedIsLive(cfg: Config, m: Machine, list: seq<ResourceRef>, resources: map<Ref, ResourceObj>, r: Ref, b: ResourceBinding)
    requires r in resources && resources[r].finalizer
    requires Fits(cfg, m, list, resources[r].resource.spec, b)
    ensures EntryLive(cfg, resources, ResourceRef(r, b))
  {
    var spec := resources[r].resource.spec;
    GrantIs(cfg.byDevice, RestOf(cfg.round, m, list).value, spec, b);
    assert b.disks.Keys == spec.disks.Keys;
    if cfg.byDevice || |spec.disks| <= 1 {
      ServedOnDistinctDevices(cfg.byDevice, RestOf(cfg.round, m, list).value.disks, spec.disks, b.disks);
    }
  }

  lemma BindKeepsSound(cfg: Config, rel: RelationshipStatus, machines: map<Ref, MachineObj>, m: Ref, spec: TestResourceSpec, r: Ref, b: ResourceBinding)
    requires m in machines && Valid(m) && Fits(cfg, machines[m].machine, ListOf(rel, Key(m)), spec, b)
    requires forall x :: x in machines ==> Valid(x) && Sound(cfg.round, machines[x].machine, ListOf(rel, Key(x)))
    ensures forall x :: x in machines ==> Sound(cfg.round, machines[x].machine, ListOf(Bind(rel, m, r, b), Key(x)))
  {
    forall x | x in machines ensures Sound(cfg.round, machines[x].machine, ListOf(Bind(rel, m, r, b), Key(x))) {
      if x == m {
        SoundAfterGrant(cfg, machines[m].machine, ListOf(rel, Key(m)), spec, b, r);
      } else {
        if Key(x) == Key(m) { KeyInjective(x, m); }
        assert ListOf(Bind(rel, m, r, b), Key(x)) == ListOf(rel, Key(x));
      }
    }
  }

  lemma BindKeepsRecord(cfg: Config, rel: RelationshipStatus, machines: map<Ref, MachineObj>, resources: map<Ref, ResourceObj>,
                        m: Ref, r: Ref, b: ResourceBinding)
    requires Record(cfg, rel, machines, resources) && ValidKeys(machines, resources)
    requires HostLive(machines, m) && r in resources && resources[r].finalizer && Key(r) !in rel.resourceToMachine
    requires Fits(cfg, machines[m].machine, ListOf(rel, Key(m)), resources[r].resource.spec, b)
    ensures Record(cfg, Bind(rel, m, r, b), machines, resources)
  {
    var rel' := Bind(rel, m, r, b);
    assert Mirror(rel') by {
      BindKeepsMirror(rel, m, r, b);
    }
    assert forall k, e :: k in rel'.machineToResources && e in rel'.machineToResources[k] ==> EntryLive(cfg, resources, e) by {
      GrantedIsLive(cfg, machines[m].machine, ListOf(rel, Key(m)), resources, r, b);
      forall k, e | k in rel'.machineToResources && e in rel'.machineToResources[k] ensures EntryLive(cfg, resources, e) {
        BindEntries(rel, m, r, b, k, e);
      }
    }
    assert forall x :: x in machines ==> Sound(cfg.round, machines[x].machine, ListOf(rel', Key(x))) by {
      BindKeepsSound(cfg, rel, machines, m, resources[r].resource.spec, r, b);
    }
  }

  // ---- Release ---------------------------------------------------------------------------

  /** Every entry under the resource's key is the resource's own. */
  ghost predicate OwnKey(rel: RelationshipStatus, r: Ref) {
    forall k, e :: k in rel.machineToResources && e in rel.machineToResources[k] && Key(e.ref) == Key(r) ==> e.ref == r
  }

  lemma ReleaseKeepsEntriesMirrored(rel: RelationshipStatus, host: Ref, r: Ref)
    requires EntriesMirrored(rel) && OwnKey(rel, r) && Key(r) in rel.resourceToMachine && rel.resourceToMachine[Key(r)].ref == host
    ensures EntriesMirrored(Release(rel, Key(host), r))
  {
    var rel' := Release(rel, Key(host), r);
    forall k, e | k in rel'.machineToResources && e in rel'.machineToResources[k] ensures EntryMirrored(rel', k, e) {
      assert k in rel.machineToResources && e in rel.machineToResources[k];
      assert EntryMirrored(rel, k, e);
      assert Key(e.ref) != Key(r);
    }
  }

  lemma ReleaseKeepsBindingsMirrored(rel: RelationshipStatus, host: Ref, r: Ref, x: string)
    requires x in rel.resourceToMachine && x != Key(r) && BindingMirrored(rel, x)
    ensures BindingMirrored(Release(rel, Key(host), r), x)
  {
    var rel' := Release(rel, Key(host), r);
    var e :| e in ListOf(rel, Key(rel.resourceToMachine[x].ref)) && Key(e.ref) == x && e.binding == rel.resourceToMachine[x].binding;
    assert e in ListOf(rel', Key(rel'.resourceToMachine[x].ref));
  }

  lemma ReleaseKeepsMirror(rel: RelationshipStatus, host: Ref, r: Ref)
    requires Mirror(rel) && OwnKey(rel, r) && Key(r) in rel.resourceToMachine && rel.resourceToMachine[Key(r)].ref == host
    ensures Mirror(Release(rel, Key(host), r))
  {
    var rel' := Release(rel, Key(host), r);
    ReleaseKeepsEntriesMirrored(rel, host, r);
    assert ListsDistinct(rel') by {
      WithoutKeepsDistinct(ListOf(rel, Key(host)), r);
    }
    forall x | x in rel'.resourceToMachine ensures BindingMirrored(rel', x) {
      ReleaseKeepsBindingsMirrored(rel, host, r, x);
    }
  }

  lemma WithoutKeepsDistinct(list: seq<ResourceRef>, r: Ref)
    requires RefsDistinct(list)
    ensures RefsDistinct(WithoutResource(list, r))
  {
    var at := FilterPositions(list, r);
    var fewer := WithoutResource(list, r);
    forall i, j | 0 <= i < j < |fewer| ensures fewer[i].ref != fewer[j].ref {
      assert list[at[i]] == fewer[i] && list[at[j]] == fewer[j];
    }
  }

  lemma ReleaseKeepsSound(cfg: Config, rel: RelationshipStatus, machines: map<Ref, MachineObj>, host: Ref, r: Ref)
    requires forall x :: x in machines ==> Sound(cfg.round, machines[x].machine, ListOf(rel, Key(x)))
    ensures forall x :: x in machines ==> Sound(cfg.round, machines[x].machine, ListOf(Release(rel, Key(host), r), Key(x)))
  {
    forall x | x in machines ensures Sound(cfg.round, machines[x].machine, ListOf(Release(rel, Key(host), r), Key(x))) {
      SoundAfterRelease(cfg.round, machines[x].machine, ListOf(rel, Key(x)), r);
    }
  }

  lemma OnlyOwnEntries(cfg: Config, rel: RelationshipStatus, machines: map<Ref, MachineObj>, resources: map<Ref, ResourceObj>, r: Ref)
    requires Record(cfg, rel, machines, resources) && ValidKeys(machines, resources) && Valid(r)
    ensures OwnKey(rel, r)
  {
    forall k, e | k in rel.machineToResources && e in rel.machineToResources[k] && Key(e.ref) == Key(r) ensures e.ref == r {
      assert EntryLive(cfg, resources, e);
      KeyInjective(e.ref, r);
    }
  }

  lemma ReleaseKeepsRecord(cfg: Config, rel: RelationshipStatus, machines: map<Ref, MachineObj>, resources: map<Ref, ResourceObj>, host: Ref, r: Ref)
    requires Record(cfg, rel, machines, resources) && ValidKeys(machines, resources) && Valid(r)
    requires Key(r) in rel.resourceToMachine && rel.resourceToMachine[Key(r)].ref == host
    ensures Record(cfg, Release(rel, Key(host), r), machines, resources)
    ensures ListOf(rel, Key(host)) != []
  {
    var rel' := Release(rel, Key(host), r);
    assert ListOf(rel, Key(host)) != [] by {
      var mine := BoundHasEntry(cfg, rel, machines, resources, r);
    }
    assert Mirror(rel') by {
      OnlyOwnEntries(cfg, rel, machines, resources, r);
      ReleaseKeepsMirror(rel, host, r);
    }
    forall k, e | k in rel'.machineToResources && e in rel'.machineToResources[k] ensures EntryLive(cfg, resources, e) {
      assert k in rel.machineToResources && e in rel.machineToResources[k];
    }
    ReleaseKeepsSound(cfg, rel, machines, host, r);
  }

  // ---- Empty entries ---------------------------------------------------------------------

  /** Two records that differ in empty lists only. */
  ghost predicate SameLists(rel: RelationshipStatus, rel': RelationshipStatus) {
    && rel'.resourceToMachine == rel.resourceToMachine
    && forall k :: ListOf(rel', k) == ListOf(rel, k)
  }

  lemma SameListsKeepsMirror(rel: RelationshipStatus, rel': RelationshipStatus)
    requires Mirror(rel) && SameLists(rel, rel')
    ensures Mirror(rel')
  {
    forall k, e | k in rel'.machineToResources && e in rel'.machineToResources[k] ensures EntryMirrored(rel', k, e) {
      assert e in ListOf(rel, k);
      assert EntryMirrored(rel, k, e);
    }
    forall k | k in rel'.machineToResources ensures RefsDistinct(rel'.machineToResources[k]) {
      assert ListOf(rel', k) == ListOf(rel, k);
    }
    forall x | x in rel'.resourceToMachine ensures BindingMirrored(rel', x) {
      assert BindingMirrored(rel, x);
      assert ListOf(rel', Key(rel.resourceToMachine[x].ref)) == ListOf(rel, Key(rel.resourceToMachine[x].ref));
    }
  }

  lemma SameListsKeepsRecord(cfg: Config, rel: RelationshipStatus, rel': RelationshipStatus, machines: map<Ref, MachineObj>, resources: map<Ref, ResourceObj>)
    requires Record(cfg, rel, machines, resources) && SameLists(rel, rel')
    ensures Record(cfg, rel', machines, resources)
  {
    SameListsKeepsMirror(rel, rel');
    forall k, e | k in rel'.machineToResources && e in rel'.machineToResources[k] ensures EntryLive(cfg, resources, e) {
      assert e in ListOf(rel, k);
    }
    forall x | x in machines ensures Sound(cfg.round, machines[x].machine, ListOf(rel', Key(x))) {
      assert ListOf(rel', Key(x)) == ListOf(rel, Key(x));
    }
  }

  // ---- A whole plan ----------------------------------------------------------------------

  /** The plan's machines are live, its resources exist, keep their finalizer and are all different. */
  ghost predicate PlanLive(machines: map<Ref, MachineObj>, resources: map<Ref, ResourceObj>, plan: seq<Placed>) {
    && (forall i :: 0 <= i < |plan| ==>
          && HostLive(machines, plan[i].machine.ref) && machines[plan[i].machine.ref].machine == plan[i].machine
          && plan[i].resource.ref in resources && resources[plan[i].resource.ref].finalizer
          && resources[plan[i].resource.ref].resource == plan[i].resource)
    && (forall i, j :: 0 <= i < j < |plan| ==> plan[i].resource.ref != plan[j].resource.ref)
  }

  /** Some placement of the plan binds a resource under this key. */
  ghost predicate PlansKey(plan: seq<Placed>, k: string) {
    exists i :: 0 <= i < |plan| && Key(plan[i].resource.ref) == k
  }

  /** Some placement of the plan puts this resource into the list under this key. */
  ghost predicate PlansEntry(plan: seq<Placed>, k: string, r: Ref) {
    exists i :: 0 <= i < |plan| && Key(plan[i].machine.ref) == k && plan[i].resource.ref == r
  }

  lemma PlansStep(plan: seq<Placed>)
    requires plan != []
    ensures var n := |plan| - 1;
            && (forall k :: PlansKey(plan, k) <==> PlansKey(plan[..n], k) || Key(plan[n].resource.ref) == k)
            && (forall k, r :: PlansEntry(plan, k, r) <==>
                  PlansEntry(plan[..n], k, r) || (Key(plan[n].machine.ref) == k && plan[n].resource.ref == r))
  {
    var n := |plan| - 1;
    assert forall i :: 0 <= i < n ==> plan[..n][i] == plan[i];
    forall k | PlansKey(plan[..n], k) ensures PlansKey(plan, k) {
      var i :| 0 <= i < n && Key(plan[..n][i].resource.ref) == k;
      assert Key(plan[i].resource.ref) == k;
    }
    forall k, r | PlansEntry(plan[..n], k, r) ensures PlansEntry(plan, k, r) {
      var i :| 0 <= i < n && Key(plan[..n][i].machine.ref) == k && plan[..n][i].resource.ref == r;
      assert plan[i] == plan[..n][i];
    }
  }

  /** After the plan, what is bound is what was bound and the plan. */
  lemma {:induction false} ApplyBinds(rel: RelationshipStatus, plan: seq<Placed>)
    ensures forall k :: k in Apply(rel, plan).resourceToMachine <==> k in rel.resourceToMachine || PlansKey(plan, k)
    ensures forall k :: k in rel.resourceToMachine && !PlansKey(plan, k) ==>
              Apply(rel, plan).resourceToMachine[k] == rel.resourceToMachine[k]
  {
    if plan != [] {
      ApplyBinds(rel, plan[..|plan| - 1]);
      PlansStep(plan);
    }
  }

  lemma {:induction false} ApplyEntries(rel: RelationshipStatus, plan: seq<Placed>, k: string, e: ResourceRef)
    requires k in Apply(rel, plan).machineToResources && e in Apply(rel, plan).machineToResources[k]
    ensures (k in rel.machineToResources && e in rel.machineToResources[k]) || PlansEntry(plan, k, e.ref)
  {
    if plan != [] {
      var n := |plan| - 1;
      var p := plan[n];
      PlansStep(plan);
      BindEntries(Apply(rel, plan[..n]), p.machine.ref, p.resource.ref, p.binding, k, e);
      if k in Apply(rel, plan[..n]).machineToResources && e in Apply(rel, plan[..n]).machineToResources[k] {
        ApplyEntries(rel, plan[..n], k, e);
      }
    }
  }

  lemma NextIsUnbound(rel: RelationshipStatus, machines: map<Ref, MachineObj>, resources: map<Ref, ResourceObj>, plan: seq<Placed>, n: nat)
    requires ValidKeys(machines, resources) && PlanLive(machines, resources, plan) && n < |plan|
    requires forall i :: 0 <= i < |plan| ==> Key(plan[i].resource.ref) !in rel.resourceToMachine
    ensures Key(plan[n].resource.ref) !in Apply(rel, plan[..n]).resourceToMachine
  {
    ApplyBinds(rel, plan[..n]);
    if PlansKey(plan[..n], Key(plan[n].resource.ref)) {
      var i :| 0 <= i < n && Key(plan[..n][i].resource.ref) == Key(plan[n].resource.ref);
      KeyInjective(plan[i].resource.ref, plan[n].resource.ref);
    }
  }

  lemma ShorterPlanLive(machines: map<Ref, MachineObj>, resources: map<Ref, ResourceObj>, plan: seq<Placed>, n: nat)
    requires PlanLive(machines, resources, plan) && n <= |plan|
    ensures PlanLive(machines, resources, plan[..n])
  {
  }

  lemma {:induction false} PlanKeepsRecord(cfg: Config, rel: RelationshipStatus, machines: map<Ref, MachineObj>, resources: map<Ref, ResourceObj>, plan: seq<Placed>)
    requires Record(cfg, rel, machines, resources) && ValidKeys(machines, resources)
    requires PlanLive(machines, resources, plan) && Legal(cfg, rel, plan)
    requires forall i :: 0 <= i < |plan| ==> Key(plan[i].resource.ref) !in rel.resourceToMachine
    ensures Record(cfg, Apply(rel, plan), machines, resources)
  {
    if plan != [] {
      var n := |plan| - 1;
      assert Record(cfg, Apply(rel, plan[..n]), machines, resources) by {
        ShorterPlanLive(machines, resources, plan, n);
        PlanKeepsRecord(cfg, rel, machines, resources, plan[..n]);
      }
      NextIsUnbound(rel, machines, resources, plan, n);
      BindKeepsRecord(cfg, Apply(rel, plan[..n]), machines, resources, plan[n].machine.ref, plan[n].resource.ref, plan[n].binding);
    }
  }
}
