/** The invariant on every run, and what it says about every reachable state. */
module Safety {
  import opened Refs
  import opened Resources
  import opened Sizes
  import opened Machines
  import opened Relationships
  import opened Capacity
  import opened Placement
  import opened PlacementLaws
  import opened Grouping
  import opened Scheduler
  import opened Cluster
  import opened Invariants
  import opened RecordLaws
  import opened Frames
  import opened RequestSteps
  import opened AcceptStep
  import MachineSteps
  import ResourceSteps

  // ---- Every step, every run -------------------------------------------------------------

  lemma MachineNextKeepsInv(cfg: Config, s: State, s': State, step: Step)
    requires Inv(cfg, s) && MachineNext(cfg, s, s', step)
    ensures Inv(cfg, s')
  {
    if step.DoCreateMachine? {
      assert CreateMachine(s, s', step.m);
      MachineSteps.CreateMachineKeeps(cfg, s, s', step.m);
    } else if step.DoStepMachine? {
      assert StepMachine(s, s', step.m);
      MachineSteps.StepMachineKeeps(cfg, s, s', step.m);
    } else if step.DoEditMachine? {
      assert EditMachine(cfg, s, s', step.m);
      MachineSteps.EditMachineKeeps(cfg, s, s', step.m);
    } else if step.DoMachineGone? {
      assert MachineGone(s, s', step.m);
      MachineSteps.MachineGoneKeeps(cfg, s, s', step.m);
    } else {
      assert MachineSteps.EntryCommit(s, s', step.m);
      MachineSteps.EntryCommitKeeps(cfg, s, s', step.m);
    }
  }

  lemma ResourceNextKeepsInv(cfg: Config, s: State, s': State, step: Step)
    requires Inv(cfg, s) && ResourceNext(s, s', step)
    ensures Inv(cfg, s')
  {
    if step.DoRelease? {
      assert ReleaseCommit(s, s', step.r);
      ResourceSteps.ReleaseKeeps(cfg, s, s', step.r);
    } else if step.DoStepResource? {
      assert StepResource(s, s', step.r);
      ResourceSteps.StepResourceKeeps(cfg, s, s', step.r);
    } else {
      assert ResourceGone(s, s', step.r);
      ResourceSteps.ResourceGoneKeeps(cfg, s, s', step.r);
    }
  }

  lemma OwnedResourceNextKeepsInv(cfg: Config, s: State, s': State, step: Step)
    requires Inv(cfg, s) && OwnedResourceNext(s, s', step)
    ensures Inv(cfg, s')
  {
    if step.DoCreateResource? {
      assert CreateResource(s, s', step.q, step.r);
      CreateResourceKeeps(cfg, s, s', step.q, step.r);
    } else {
      assert DeleteResource(s, s', step.q, step.r);
      DeleteResourceKeeps(cfg, s, s', step.q, step.r);
    }
  }

  lemma RequestNextKeepsInv(cfg: Config, s: State, s': State, step: Step)
    requires Inv(cfg, s) && RequestNext(cfg, s, s', step)
    ensures Inv(cfg, s')
  {
    if step.DoCreateRequest? {
      assert CreateRequest(s, s', step.q);
      CreateRequestKeeps(cfg, s, s', step.q);
    } else if step.DoStepRequest? {
      assert StepRequest(s, s', step.q);
      StepRequestKeeps(cfg, s, s', step.q);
    } else if step.DoAccept? {
      assert AcceptCommit(cfg, s, s', step.q);
      AcceptKeeps(cfg, s, s', step.q);
    } else if step.DoDrop? {
      assert DropCommit(s, s', step.q);
      DropKeeps(cfg, s, s', step.q);
    } else {
      assert RequestGone(s, s', step.q);
      RequestGoneKeeps(cfg, s, s', step.q);
    }
  }

  /** Whatever step is taken next, by whichever controller, the invariant still holds. */
  lemma NextKeepsInv(cfg: Config, s: State, s': State, step: Step)
    requires Inv(cfg, s) && NextBy(cfg, s, s', step)
    ensures Inv(cfg, s')
  {
    if MachineNext(cfg, s, s', step) {
      MachineNextKeepsInv(cfg, s, s', step);
    } else if ResourceNext(s, s', step) {
      ResourceNextKeepsInv(cfg, s, s', step);
    } else if OwnedResourceNext(s, s', step) {
      OwnedResourceNextKeepsInv(cfg, s, s', step);
    } else {
      RequestNextKeepsInv(cfg, s, s', step);
    }
  }

  /** What every step keeps holds from the i-th state on. */
  lemma {:induction false} KeptFrom<S, T>(run: seq<S>, steps: seq<T>, next: (S, S, T) -> bool, ok: S -> bool, i: nat, j: nat)
    requires |run| == |steps| + 1 && i <= j < |run| && ok(run[i])
    requires forall k :: 0 <= k < |steps| ==> next(run[k], run[k + 1], steps[k])
    requires forall k :: 0 <= k < |steps| && ok(run[k]) && next(run[k], run[k + 1], steps[k]) ==> ok(run[k + 1])
    ensures ok(run[j])
    decreases j
  {
    if i < j {
      KeptFrom(run, steps, next, ok, i, j - 1);
      assert next(run[j - 1], run[j - 1 + 1], steps[j - 1]);
    }
  }

  /** The invariant holds in every state of every run. */
  lemma InvOnRuns(cfg: Config, run: seq<State>, steps: seq<Step>, i: nat)
    requires IsRun(cfg, run, steps) && i < |run|
    ensures Inv(cfg, run[i])
  {
    var next := (s: State, s': State, step: Step) => NextBy(cfg, s, s', step);
    var ok := (s: State) => Inv(cfg, s);
    InitInv(cfg, run[0]);
    forall k | 0 <= k < |steps| && ok(run[k]) && next(run[k], run[k + 1], steps[k]) ensures ok(run[k + 1]) {
      NextKeepsInv(cfg, run[k], run[k + 1], steps[k]);
    }
    KeptFrom(run, steps, next, ok, 0, i);
  }

  lemma ReachableInv(cfg: Config, s: State)
    requires Reachable(cfg, s)
    ensures Inv(cfg, s)
  {
    var run, steps :| IsRun(cfg, run, steps) && run[|run| - 1] == s;
    InvOnRuns(cfg, run, steps, |run| - 1);
  }

  // ---- What a step does to the record ----------------------------------------------------

  /** What the step did, told about the current record instead of the copy it was computed from. */
  ghost predicate Effect(cfg: Config, s: State, s': State, step: Step) {
    match step
    case DoEnsureEntry(m) => EmptyEntryEffect(s, s')
    case DoRemoveEntry(m) => EmptyEntryEffect(s, s')
    case DoRelease(r) => ResourceSteps.Released(s, s', r)
    case DoAccept(q) => AcceptEffect(cfg, s, s', q)
    case DoDrop(q) => Dropped(s, s', q)
    case _ => s'.rel == s.rel
  }

  ghost predicate EmptyEntryEffect(s: State, s': State) {
    && SameLists(s.rel, s'.rel) && s'.requests == s.requests && s'.uids == s.uids
    && s'.rel.acceptedRequests == s.rel.acceptedRequests && s'.rel.machineLocks == s.rel.machineLocks
  }

  ghost predicate AcceptEffect(cfg: Config, s: State, s': State, q: Ref) {
    q in s.requests && Placing(s.requests[q].pc) && exists plan, locks :: AcceptedBy(cfg, s, s', q, plan, locks)
  }

  lemma MachineEffect(cfg: Config, s: State, s': State, step: Step)
    requires MachinesOk(s) && MachineNext(cfg, s, s', step)
    ensures Effect(cfg, s, s', step)
  {
    if step.DoEnsureEntry? || step.DoRemoveEntry? {
      MachineSteps.EntryCommitShape(s, s', step.m);
    }
  }

  lemma ResourceEffect(cfg: Config, s: State, s': State, step: Step)
    requires ResourcesOk(s) && ResourceNext(s, s', step)
    ensures Effect(cfg, s, s', step)
  {
    if step.DoRelease? {
      assert ReleaseCommit(s, s', step.r);
      ResourceSteps.CommitReleases(s, s', step.r);
    }
  }

  lemma RequestEffect(cfg: Config, s: State, s': State, step: Step)
    requires Identities(s) && Record(cfg, s.rel, s.machines, s.resources) && EntriesOwned(s)
    requires ResourcesOk(s) && RequestsOk(s) && PlansCurrent(cfg, s) && RequestNext(cfg, s, s', step)
    ensures Effect(cfg, s, s', step)
  {
    if step.DoAccept? {
      assert AcceptCommit(cfg, s, s', step.q);
      var plan, locks := CommitAccepts(cfg, s, s', step.q);
    } else if step.DoDrop? {
      assert DropCommit(s, s', step.q);
      CommitDrops(s, s', step.q);
    }
  }

  lemma StepEffect(cfg: Config, s: State, s': State, step: Step)
    requires Inv(cfg, s) && NextBy(cfg, s, s', step)
    ensures Effect(cfg, s, s', step)
  {
    if MachineNext(cfg, s, s', step) {
      MachineEffect(cfg, s, s', step);
    } else if ResourceNext(s, s', step) {
      ResourceEffect(cfg, s, s', step);
    } else if RequestNext(cfg, s, s', step) {
      RequestEffect(cfg, s, s', step);
    } else {
      assert OwnedResourceNext(s, s', step);
    }
  }

  // ---- The two maps ----------------------------------------------------------------------

  lemma ListedIsBound(cfg: Config, s: State, r: Ref, m: Ref, b: ResourceBinding)
    requires Inv(cfg, s) && Valid(m) && ResourceRef(r, b) in ListOf(s.rel, Key(m))
    ensures Key(r) in s.rel.resourceToMachine && s.rel.resourceToMachine[Key(r)] == MachineRef(m, b)
  {
    assert EntryMirrored(s.rel, Key(m), ResourceRef(r, b));
    var host := s.rel.resourceToMachine[Key(r)].ref;
    assert HostLive(s.machines, host);
    KeyInjective(host, m);
  }

  lemma BoundIsListed(cfg: Config, s: State, r: Ref)
    requires Inv(cfg, s) && Valid(r) && Key(r) in s.rel.resourceToMachine
    ensures var at := s.rel.resourceToMachine[Key(r)]; ResourceRef(r, at.binding) in ListOf(s.rel, Key(at.ref))
  {
    HasValidKeys(s);
    var e := BoundHasEntry(cfg, s.rel, s.machines, s.resources, r);
  }

  /** In every reachable state a resource is in a machine's list if and only if the other map says so; no list repeats. */
  lemma MapsMirror(cfg: Config, s: State, r: Ref, m: Ref, b: ResourceBinding)
    requires Reachable(cfg, s) && Valid(r) && Valid(m)
    ensures ResourceRef(r, b) in ListOf(s.rel, Key(m)) <==>
            Key(r) in s.rel.resourceToMachine && s.rel.resourceToMachine[Key(r)] == MachineRef(m, b)
    ensures RefsDistinct(ListOf(s.rel, Key(m)))
  {
    ReachableInv(cfg, s);
    if ResourceRef(r, b) in ListOf(s.rel, Key(m)) {
      ListedIsBound(cfg, s, r, m, b);
    }
    if Key(r) in s.rel.resourceToMachine {
      BoundIsListed(cfg, s, r);
    }
  }

  /** Whenever a release is about to remove a resource from its copy's list, stale or not, that list holds it. */
  lemma ReleaseNeverOnEmptyList(cfg: Config, s: State, r: Ref)
    requires Reachable(cfg, s) && r in s.resources && s.resources[r].pc.RFinalized?
    ensures var pc := s.resources[r].pc; exists e :: e in ListOf(pc.snap.rel, Key(pc.host)) && Key(e.ref) == Key(r)
    ensures |ListOf(s.resources[r].pc.snap.rel, Key(s.resources[r].pc.host))| > 0
  {
    ReachableInv(cfg, s);
    assert ResourceOk(s, r, s.resources[r]);
    var snap := s.resources[r].pc.snap;
    assert BindingMirrored(snap.rel, Key(r));
  }

  // ---- Capacity --------------------------------------------------------------------------

  /** Each resource on the machine asks for at most one disk, or disks are deleted by device. */
  ghost predicate DisksApart(cfg: Config, s: State, list: seq<ResourceRef>) {
    forall i :: 0 <= i < |list| ==>
      list[i].ref in s.resources && (cfg.byDevice || |s.resources[list[i].ref].resource.spec.disks| <= 1)
  }

  lemma ApartIsDistinct(cfg: Config, s: State, m: Ref)
    requires Inv(cfg, s) && DisksApart(cfg, s, ListOf(s.rel, Key(m)))
    ensures DevicesDistinct(ListOf(s.rel, Key(m)))
  {
    var list := ListOf(s.rel, Key(m));
    forall i | 0 <= i < |list| ensures DistinctDevices(list[i].binding) {
      assert EntryLive(cfg, s.resources, list[i]);
    }
  }

  lemma ListIsSound(cfg: Config, s: State, m: Ref)
    requires Reachable(cfg, s) && m in s.machines
    ensures Sound(cfg.round, s.machines[m].machine, ListOf(s.rel, Key(m)))
  {
    ReachableInv(cfg, s);
  }

  /** Nothing is lost or given twice: idle and bound CPUs, devices and memory make up what the machine offers. */
  lemma CapacityConserved(cfg: Config, s: State, m: Ref)
    requires Reachable(cfg, s) && m in s.machines && s.machines[m].machine.info.Some?
    requires DisksApart(cfg, s, ListOf(s.rel, Key(m)))
    ensures Conserved(cfg.round, s.machines[m].machine, ListOf(s.rel, Key(m)))
  {
    assert DevicesDistinct(ListOf(s.rel, Key(m))) by {
      ReachableInv(cfg, s);
      ApartIsDistinct(cfg, s, m);
    }
    ListIsSound(cfg, s, m);
    SoundIsConserved(cfg.round, s.machines[m].machine, ListOf(s.rel, Key(m)));
  }

  /**
   * In every reachable state in which Rest answers: a CPU is idle or bound, and not both, if and only if it is a thread
   * from the reserved number on; so a device, if and only if it is present and declared exclusive.
   */
  lemma EachIsIdleOrBound(cfg: Config, s: State, m: Ref, c: int, d: string)
    requires Reachable(cfg, s) && m in s.machines && s.machines[m].machine.info.Some?
    requires RestOf(cfg.round, s.machines[m].machine, ListOf(s.rel, Key(m))).Some?
    ensures var machine, list := s.machines[m].machine, ListOf(s.rel, Key(m));
            var idle := c in RestOf(cfg.round, machine, list).value.idleCPUSet;
            var bound := exists e :: e in list && c in e.binding.cpuSet;
            && (idle || bound <==> 0 <= c < machine.info.value.threads && machine.reserve.cores <= c)
            && !(idle && bound)
    ensures var machine, list := s.machines[m].machine, ListOf(s.rel, Key(m));
            var left := d in RestOf(cfg.round, machine, list).value.disks;
            var bound := exists e, x :: e in list && x in e.binding.disks && e.binding.disks[x].device == d;
            && (left || bound <==> d in machine.info.value.storageDevices && d in machine.exclusiveDisks)
            && !(left && bound)
  {
    ListIsSound(cfg, s, m);
    CpuIsAccountedFor(cfg.round, s.machines[m].machine, ListOf(s.rel, Key(m)), c);
    DeviceIsAccountedFor(cfg.round, s.machines[m].machine, ListOf(s.rel, Key(m)), d);
  }

  /**
   * As coded, whatever the disk order: no resource gets a reserved CPU or a device that is not exclusive, two resources
   * never share a CPU or a device, and memory is not over-committed.
   */
  lemma NeverShared(cfg: Config, s: State, m: Ref)
    requires Reachable(cfg, s) && m in s.machines && ListOf(s.rel, Key(m)) != []
    ensures s.machines[m].machine.info.Some?
    ensures var machine, list := s.machines[m].machine, ListOf(s.rel, Key(m));
            && (forall e, c :: e in list && c in e.binding.cpuSet ==> 0 <= c < machine.info.value.threads && machine.reserve.cores <= c)
            && (forall i, j, c :: 0 <= i < j < |list| && c in list[i].binding.cpuSet ==> c !in list[j].binding.cpuSet)
            && (forall e, x :: e in list && x in e.binding.disks ==>
                  e.binding.disks[x].device in machine.info.value.storageDevices && e.binding.disks[x].device in machine.exclusiveDisks)
            && (forall i, j, x, y :: 0 <= i < j < |list| && x in list[i].binding.disks && y in list[j].binding.disks ==>
                  list[i].binding.disks[x].device != list[j].binding.disks[y].device)
            && (Exact(cfg.round) ==> BoundMemory(list) <= machine.info.value.memory - machine.reserve.memory)
  {
    var machine, list := s.machines[m].machine, ListOf(s.rel, Key(m));
    ListIsSound(cfg, s, m);
    SoundCpus(cfg.round, machine, list);
    SoundDevices(cfg.round, machine, list);
  }

  /** As coded, a machine with known capacity can still take requests if and only if no binding on it repeats a device. */
  lemma AllocatableIff(cfg: Config, s: State, m: Ref)
    requires Reachable(cfg, s) && m in s.machines && s.machines[m].machine.info.Some?
    ensures RestOf(cfg.round, s.machines[m].machine, ListOf(s.rel, Key(m))).Some? <==>
            forall e, x, y :: e in ListOf(s.rel, Key(m)) && x in e.binding.disks && y in e.binding.disks && x != y ==>
              e.binding.disks[x].device != e.binding.disks[y].device
  {
    var list := ListOf(s.rel, Key(m));
    ListIsSound(cfg, s, m);
    RestAnswersIff(cfg.round, s.machines[m].machine, list);
    if DevicesDistinct(list) {
      forall e | e in list ensures DistinctDevices(e.binding) {
        var i :| 0 <= i < |list| && list[i] == e;
        assert DistinctDevices(list[i].binding);
      }
    }
  }

  /** An acceptance leaves each machine it uses within its memory, up to the rounding of one Sub for each binding. */
  lemma {:induction false} PlanWithinMemory(cfg: Config, e: int, rel: RelationshipStatus, plan: seq<Placed>, i: nat)
    requires Within(cfg.round, e) && Legal(cfg, rel, plan) && i < |plan| && plan[i].machine.info.Some?
    requires forall j :: i < j < |plan| ==> Key(plan[j].machine.ref) != Key(plan[i].machine.ref)
    ensures var m, list := plan[i].machine, ListOf(Apply(rel, plan), Key(plan[i].machine.ref));
            BoundMemory(list) <= m.info.value.memory - m.reserve.memory + |list| * e
    decreases |plan|
  {
    var n := |plan| - 1;
    var p := plan[n];
    if i == n {
      MemoryBoundUnderRounding(cfg, e, p.machine, ListOf(Apply(rel, plan[..n]), Key(p.machine.ref)), p.resource.spec, p.binding, p.resource.ref);
    } else {
      assert plan[..n][i] == plan[i];
      PlanWithinMemory(cfg, e, rel, plan[..n], i);
    }
  }

  // ---- Shutdown --------------------------------------------------------------------------

  /** Every binding's machine exists under the same reference, with its capacity known, and its entry is there. */
  lemma ShutdownStrandsNothing(cfg: Config, s: State, r: Ref)
    requires Reachable(cfg, s) && Valid(r) && Key(r) in s.rel.resourceToMachine
    ensures var host := s.rel.resourceToMachine[Key(r)].ref;
            && host in s.machines && s.machines[host].finalizer && !s.machines[host].pc.MStrip?
            && s.machines[host].machine.info.Some?
            && Key(host) in s.rel.machineToResources
            && forall x :: x in s.machines && x.namespace == host.namespace && x.name == host.name ==> x == host
  {
    ReachableInv(cfg, s);
    var host := s.rel.resourceToMachine[Key(r)].ref;
    BoundIsListed(cfg, s, r);
    assert HostLive(s.machines, host);
    assert MachineOk(s, host, s.machines[host]);
    assert Sound(cfg.round, s.machines[host].machine, ListOf(s.rel, Key(host)));
  }

  /** No commit, and no disappearance of a machine, takes a machine away from under a binding. */
  lemma RemovedHostsNothing(cfg: Config, s: State, s': State, m: Ref)
    requires Reachable(cfg, s) && (RemoveEntryCommit(s, s', m) || MachineGone(s, s', m))
    ensures forall k :: k in s.rel.resourceToMachine ==> s.rel.resourceToMachine[k].ref != m
  {
    ReachableInv(cfg, s);
    assert MachineOk(s, m, s.machines[m]);
    forall k | k in s.rel.resourceToMachine ensures s.rel.resourceToMachine[k].ref != m {
      assert BindingMirrored(s.rel, k);
      assert HostLive(s.machines, s.rel.resourceToMachine[k].ref);
    }
  }

  // ---- Locks -----------------------------------------------------------------------------

  lemma EffectOnLocks(cfg: Config, s: State, s': State, step: Step, n: string)
    requires Effect(cfg, s, s', step)
    ensures n in s.rel.machineLocks ==>
              (n in s'.rel.machineLocks && s'.rel.machineLocks[n] == s.rel.machineLocks[n]) || step == DoDrop(s.rel.machineLocks[n])
    ensures n in s'.rel.machineLocks && n !in s.rel.machineLocks ==> step == DoAccept(s'.rel.machineLocks[n])
  {
    if step.DoAccept? {
      var plan, locks :| AcceptedBy(cfg, s, s', step.q, plan, locks);
    }
  }

  /** A lock is taken only by its holder's acceptance and given up only by its holder's deletion. */
  lemma LocksChangeByHolder(cfg: Config, s: State, s': State, step: Step, n: string)
    requires Reachable(cfg, s) && NextBy(cfg, s, s', step)
    ensures n in s.rel.machineLocks ==>
              (n in s'.rel.machineLocks && s'.rel.machineLocks[n] == s.rel.machineLocks[n]) || step == DoDrop(s.rel.machineLocks[n])
    ensures n in s'.rel.machineLocks && n !in s.rel.machineLocks ==> step == DoAccept(s'.rel.machineLocks[n])
  {
    assert Effect(cfg, s, s', step) by {
      ReachableInv(cfg, s);
      StepEffect(cfg, s, s', step);
    }
    EffectOnLocks(cfg, s, s', step, n);
  }

  // ---- Acceptance ------------------------------------------------------------------------

  lemma PlanCoversItem(items: seq<ResourceRequestItem>, resources: map<string, TestResource>, plan: seq<Placed>, i: nat)
    requires Resolved(items, resources) && multiset(ResourcesOf(plan)) == multiset(ItemResources(items, resources)) && i < |items|
    ensures PlansKey(plan, Key(resources[items[i].name].ref))
  {
    var r := resources[items[i].name];
    assert r == ItemResources(items, resources)[i];
    assert r in multiset(ResourcesOf(plan));
    var k :| 0 <= k < |plan| && ResourcesOf(plan)[k] == r;
    assert plan[k].resource == r;
  }

  lemma AcceptanceBinds(cfg: Config, s: State, s': State, q: Ref, i: nat)
    requires AcceptUnchecked(cfg, s, s', q) && GoodSnap(s, s.requests[q].pc.snap) && i < |s.requests[q].request.items|
    ensures Key(s.requests[q].pc.resources[s.requests[q].request.items[i].name].resource.ref) in s'.rel.resourceToMachine
  {
    var o := s.requests[q];
    var resources := ResourcesOfListing(o.pc.resources);
    var plan, hosts :| Accepts(cfg, o.pc.snap.rel, o.request, resources, o.pc.book, plan, hosts)
                       && s'.rel == Accepted(o.pc.snap.rel, q, plan, LocksOf(o.request, hosts));
    PlanCoversItem(o.request.items, resources, plan, i);
    ApplyBinds(s.rel, plan);
  }

  /** What an acceptance has committed: every item's own resource is newly bound, and q is listed once more. */
  lemma AcceptanceBindsEveryItem(cfg: Config, s: State, s': State, q: Ref, i: nat)
    requires Reachable(cfg, s) && AcceptCommit(cfg, s, s', q) && i < |s.requests[q].request.items|
    ensures var r := s.requests[q].pc.resources[s.requests[q].request.items[i].name].resource.ref;
            && r in s.resources && s.resources[r].owner == q && r.name == s.requests[q].request.items[i].name
            && Key(r) !in s.rel.resourceToMachine && Key(r) in s'.rel.resourceToMachine
    ensures q !in s.rel.acceptedRequests && s'.rel.acceptedRequests == s.rel.acceptedRequests + [q]
  {
    assert Inv(cfg, s) by { ReachableInv(cfg, s); }
    assert RequestOk(s, q, s.requests[q]);
    assert Key(s.requests[q].pc.resources[s.requests[q].request.items[i].name].resource.ref) in s'.rel.resourceToMachine by {
      AcceptanceBinds(cfg, s, s', q, i);
    }
    var r := s.requests[q].pc.resources[s.requests[q].request.items[i].name].resource.ref;
    if Key(r) in s.rel.resourceToMachine {
      BoundOwnerAccepted(cfg, s, r);
    }
  }

  lemma EffectOnBindings(cfg: Config, s: State, s': State, step: Step, r: Ref)
    requires Effect(cfg, s, s', step) && ResourceIds(s.resources, s.uids) && r in s.resources
    requires Key(r) !in s.rel.resourceToMachine && Key(r) in s'.rel.resourceToMachine
    ensures step == DoAccept(s.resources[r].owner)
  {
    if step.DoAccept? {
      var plan, locks :| AcceptedBy(cfg, s, s', step.q, plan, locks);
      NewlyBoundIsOwn(cfg, s, s', step.q, plan, locks, r);
    }
  }

  /** Nothing but the acceptance of its owner binds a resource. */
  lemma OnlyAcceptanceBinds(cfg: Config, s: State, s': State, step: Step, r: Ref)
    requires Reachable(cfg, s) && NextBy(cfg, s, s', step) && r in s.resources
    requires Key(r) !in s.rel.resourceToMachine && Key(r) in s'.rel.resourceToMachine
    ensures step == DoAccept(s.resources[r].owner)
  {
    assert Effect(cfg, s, s', step) && ResourceIds(s.resources, s.uids) by {
      ReachableInv(cfg, s);
      StepEffect(cfg, s, s', step);
    }
    EffectOnBindings(cfg, s, s', step, r);
  }

  /** A request that wants something and reports ready was accepted. */
  lemma ReadyMeansAccepted(cfg: Config, s: State, q: Ref)
    requires Reachable(cfg, s) && q in s.requests && s.requests[q].state.RequestReady?
    requires s.requests[q].request.items != [] && !s.requests[q].deleting
    ensures q in s.rel.acceptedRequests
  {
    ReachableInv(cfg, s);
    assert RequestOk(s, q, s.requests[q]);
  }

  /** Whenever tryRequest runs, its resources are its items', one each, and its machines are known by name. */
  lemma TryRequestIsCalledRight(cfg: Config, s: State, q: Ref)
    requires Reachable(cfg, s) && q in s.requests && s.requests[q].pc.QMachines?
    ensures var o := s.requests[q];
            && FaithfulResources(o.request.items, ResourcesOfListing(o.pc.resources))
            && ItemsDeclared(o.request) && WellNamed(o.pc.book)
  {
    ReachableInv(cfg, s);
    assert RequestOk(s, q, s.requests[q]);
    ListedIsFaithful(s, q, s.requests[q].pc.resources);
  }

  // ---- Accepted at most once in a run ----------------------------------------------------

  /** q will never again place anything. */
  ghost predicate Finished(s: State, q: Ref) {
    q.uid in s.uids && (q in s.requests ==> s.requests[q].deleting && !Placing(s.requests[q].pc))
  }

  ghost predicate Done(s: State, q: Ref) {
    q in s.rel.acceptedRequests || Finished(s, q)
  }

  lemma StepKeepsFinished(s: State, s': State, x: Ref, q: Ref)
    requires StepRequest(s, s', x) && Finished(s, q)
    ensures Finished(s', q)
  {
    var o' :| RequestMove(s, x, s.requests[x], o') && s' == WithRequest(s, x, o');
  }

  lemma CreateKeepsFinished(s: State, s': State, x: Ref, q: Ref)
    requires CreateRequest(s, s', x) && Finished(s, q)
    ensures Finished(s', q)
  {
  }

  lemma AcceptKeepsFinished(cfg: Config, s: State, s': State, x: Ref, q: Ref)
    requires AcceptEffect(cfg, s, s', x) && Finished(s, q)
    ensures Finished(s', q)
  {
    var plan, locks :| AcceptedBy(cfg, s, s', x, plan, locks);
  }

  /** The steps that change the set of requests or one request's progress. */
  lemma RequestsKeepFinished(cfg: Config, s: State, s': State, step: Step, q: Ref)
    requires NextBy(cfg, s, s', step) && Effect(cfg, s, s', step) && Finished(s, q)
    ensures Finished(s', q)
  {
    if step.DoStepRequest? {
      assert StepRequest(s, s', step.q);
      StepKeepsFinished(s, s', step.q, q);
    } else if step.DoCreateRequest? {
      CreateKeepsFinished(s, s', step.q, q);
    } else if step.DoRequestGone? {
      assert RequestGone(s, s', step.q);
    } else if step.DoAccept? {
      AcceptKeepsFinished(cfg, s, s', step.q, q);
    } else if !step.DoDrop? {
      OtherStepsKeepRequests(cfg, s, s', step);
    }
  }

  lemma OtherStepsKeepRequests(cfg: Config, s: State, s': State, step: Step)
    requires NextBy(cfg, s, s', step) && !RequestNext(cfg, s, s', step)
    ensures s'.requests == s.requests && s.uids <= s'.uids
  {
    if MachineNext(cfg, s, s', step) {
    } else if ResourceNext(s, s', step) {
    } else {
      assert OwnedResourceNext(s, s', step);
    }
  }

  lemma EffectKeepsAccepted(cfg: Config, s: State, s': State, step: Step, q: Ref)
    requires Effect(cfg, s, s', step) && q in s.rel.acceptedRequests && step != DoDrop(q)
    ensures q in s'.rel.acceptedRequests
  {
    if step.DoAccept? {
      var plan, locks :| AcceptedBy(cfg, s, s', step.q, plan, locks);
    }
  }

  lemma DropFinishes(s: State, s': State, q: Ref)
    requires DropCommit(s, s', q) && RequestOk(s, q, s.requests[q]) && q.uid in s.uids
    ensures Finished(s', q)
  {
  }

  lemma NextKeepsDone(cfg: Config, s: State, s': State, step: Step, q: Ref)
    requires Inv(cfg, s) && NextBy(cfg, s, s', step) && Done(s, q)
    ensures Done(s', q)
  {
    if step == DoDrop(q) {
      assert DropCommit(s, s', q) && RequestOk(s, q, s.requests[q]);
      DropFinishes(s, s', q);
    } else {
      assert Effect(cfg, s, s', step) by { StepEffect(cfg, s, s', step); }
      if Finished(s, q) {
        RequestsKeepFinished(cfg, s, s', step, q);
      } else {
        EffectKeepsAccepted(cfg, s, s', step, q);
      }
    }
  }

  lemma AcceptanceIsFirst(cfg: Config, s: State, s': State, q: Ref)
    requires Inv(cfg, s) && AcceptCommit(cfg, s, s', q)
    ensures !Done(s, q) && Done(s', q)
  {
    assert RequestOk(s, q, s.requests[q]);
  }

  lemma DoneStays(cfg: Config, run: seq<State>, steps: seq<Step>, i: nat, j: nat, q: Ref)
    requires IsRun(cfg, run, steps) && i <= j < |run| && Done(run[i], q)
    ensures Done(run[j], q)
  {
    var next := (s: State, s': State, step: Step) => NextBy(cfg, s, s', step);
    var ok := (s: State) => Inv(cfg, s) && Done(s, q);
    InvOnRuns(cfg, run, steps, i);
    forall k | 0 <= k < |steps| && ok(run[k]) && next(run[k], run[k + 1], steps[k]) ensures ok(run[k + 1]) {
      NextKeepsInv(cfg, run[k], run[k + 1], steps[k]);
      NextKeepsDone(cfg, run[k], run[k + 1], steps[k], q);
    }
    KeptFrom(run, steps, next, ok, i, j);
  }

  lemma AcceptanceOnRun(cfg: Config, run: seq<State>, steps: seq<Step>, i: nat, q: Ref)
    requires IsRun(cfg, run, steps) && i < |steps| && steps[i] == DoAccept(q)
    ensures !Done(run[i], q) && Done(run[i + 1], q)
  {
    InvOnRuns(cfg, run, steps, i);
    assert AcceptCommit(cfg, run[i], run[i + 1], q);
    AcceptanceIsFirst(cfg, run[i], run[i + 1], q);
  }

  /** No run accepts a request twice, not even after its place was given up. */
  lemma AcceptedAtMostOnce(cfg: Config, run: seq<State>, steps: seq<Step>, i: nat, j: nat, q: Ref)
    requires IsRun(cfg, run, steps) && i < |steps| && j < |steps|
    requires steps[i] == DoAccept(q) && steps[j] == DoAccept(q)
    ensures i == j
  {
    AcceptanceOnRun(cfg, run, steps, i, q);
    AcceptanceOnRun(cfg, run, steps, j, q);
    if i < j {
      DoneStays(cfg, run, steps, i + 1, j, q);
    } else if j < i {
      DoneStays(cfg, run, steps, j + 1, i, q);
    }
  }
}
