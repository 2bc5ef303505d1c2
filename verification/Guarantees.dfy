/** What users were promised, in every reachable state and over whole runs. */
module Guarantees {
  import opened Options
  import opened Refs
  import opened Resources
  import opened CpuSets
  import opened Machines
  import opened Relationships
  import opened Placement
  import opened PlacementLaws
  import opened Scheduler
  import opened Cluster
  import opened Invariants
  import opened RecordLaws
  import opened Frames
  import opened AcceptStep
  import opened Safety
  import ResourceSteps

  // ---- Bindings and their resources ------------------------------------------------------

  lemma BoundIsLive(cfg: Config, s: State, r: Ref)
    requires Inv(cfg, s) && Valid(r) && Key(r) in s.rel.resourceToMachine
    ensures r in s.resources && s.resources[r].finalizer && s.resources[r].owner in s.rel.acceptedRequests
  {
    HasValidKeys(s);
    var e := BoundHasEntry(cfg, s.rel, s.machines, s.resources, r);
    assert EntryOwned(s, e);
  }

  /** A bound resource exists, and keeps its finalizer until it is released. */
  lemma BoundNeverLost(cfg: Config, s: State, r: Ref)
    requires Reachable(cfg, s) && Valid(r) && Key(r) in s.rel.resourceToMachine
    ensures r in s.resources && s.resources[r].finalizer
  {
    ReachableInv(cfg, s);
    BoundIsLive(cfg, s, r);
  }

  /** A binding whose resource is gone. */
  ghost predicate Leaked(s: State, r: Ref) {
    Valid(r) && Key(r) in s.rel.resourceToMachine && r !in s.resources
  }

  ghost predicate RunFrom(cfg: Config, s: State, run: seq<State>, steps: seq<Step>) {
    && |run| == |steps| + 1 && run[0] == s
    && forall i :: 0 <= i < |steps| ==> NextBy(cfg, run[i], run[i + 1], steps[i])
  }

  /** No continuation of s, however long, loses the resource of a binding. */
  ghost predicate NeverLeaks(cfg: Config, s: State) {
    forall run, steps, r :: RunFrom(cfg, s, run, steps) ==> !Leaked(run[|steps|], r)
  }

  lemma InvAfter(cfg: Config, s: State, run: seq<State>, steps: seq<Step>, i: nat)
    requires Inv(cfg, s) && RunFrom(cfg, s, run, steps) && i < |run|
    ensures Inv(cfg, run[i])
  {
    var next := (a: State, b: State, t: Step) => NextBy(cfg, a, b, t);
    var ok := (a: State) => Inv(cfg, a);
    forall k | 0 <= k < |steps| && ok(run[k]) && next(run[k], run[k + 1], steps[k]) ensures ok(run[k + 1]) {
      NextKeepsInv(cfg, run[k], run[k + 1], steps[k]);
    }
    KeptFrom(run, steps, next, ok, 0, i);
  }

  lemma InvNeverLeaks(cfg: Config, s: State)
    requires Inv(cfg, s)
    ensures NeverLeaks(cfg, s)
  {
    forall run, steps, r | RunFrom(cfg, s, run, steps) ensures !Leaked(run[|steps|], r) {
      InvAfter(cfg, s, run, steps, |steps|);
      if Leaked(run[|steps|], r) {
        BoundIsLive(cfg, run[|steps|], r);
      }
    }
  }

  /** From a bound resource without a finalizer, three steps lose it: its request is deleted, lists it, and deletes it. */
  lemma LeakSteps(s1: State, q: Ref, r: Ref) returns (s2: State, s3: State, s4: State)
    requires q in s1.requests && s1.requests[q].finalizer && s1.requests[q].pc.QIdle?
    requires r in s1.resources && s1.resources[r].owner == q && r.namespace == q.namespace && !s1.resources[r].finalizer
    ensures StepRequest(s1, s2, q) && StepRequest(s2, s3, q) && DeleteResource(s3, s4, q, r)
    ensures r !in s4.resources && s4.rel == s1.rel
  {
    var o := s1.requests[q];
    s2 := WithRequest(s1, q, o.(deleting := true));
    assert RequestMove(s1, q, o, o.(deleting := true));
    s3 := WithRequest(s2, q, s2.requests[q].(pc := QDeleting(Owned(s2, q))));
    assert RequestMove(s2, q, s2.requests[q], s3.requests[q]);
    s4 := s3.(resources := s3.resources - {r});
  }

  lemma LeakRun(cfg: Config, s1: State, q: Ref, r: Ref)
    requires q in s1.requests && s1.requests[q].finalizer && s1.requests[q].pc.QIdle?
    requires r in s1.resources && s1.resources[r].owner == q && r.namespace == q.namespace && !s1.resources[r].finalizer
    requires Valid(r) && Key(r) in s1.rel.resourceToMachine
    ensures !NeverLeaks(cfg, s1)
  {
    var s2, s3, s4 := LeakSteps(s1, q, r);
    var run, steps := [s1, s2, s3, s4], [DoStepRequest(q), DoStepRequest(q), DoDeleteResource(q, r)];
    assert RequestNext(cfg, s1, s2, steps[0]) && RequestNext(cfg, s2, s3, steps[1]) && OwnedResourceNext(s3, s4, steps[2]);
    assert RunFrom(cfg, s1, run, steps) && Leaked(run[|steps|], r);
  }

  /** What an unchecked acceptance binds includes every listed resource. */
  lemma ListedIsBound(cfg: Config, s: State, s1: State, q: Ref, n: string)
    requires Inv(cfg, s) && AcceptUnchecked(cfg, s, s1, q) && n in s.requests[q].pc.resources
    ensures var r := s.requests[q].pc.resources[n].resource.ref;
            && Key(r) in s1.rel.resourceToMachine && r in s.resources && s.resources[r].owner == q
  {
    assert RequestOk(s, q, s.requests[q]);
    ListedNamesAreItems(s, q, s.requests[q].pc.resources);
    assert n in ItemNames(s.requests[q].request.items);
    var i :| 0 <= i < |s.requests[q].request.items| && s.requests[q].request.items[i].name == n;
    AcceptanceBinds(cfg, s, s1, q, i);
  }

  lemma UnfinalizedLeaks(cfg: Config, s: State, s1: State, q: Ref, n: string)
    requires Inv(cfg, s) && AcceptUnchecked(cfg, s, s1, q) && n in s.requests[q].pc.resources
    requires !s.resources[s.requests[q].pc.resources[n].resource.ref].finalizer
    ensures !NeverLeaks(cfg, s1)
  {
    var r := s.requests[q].pc.resources[n].resource.ref;
    ListedIsBound(cfg, s, s1, q, n);
    assert RequestOk(s, q, s.requests[q]) && ResourceOk(s, r, s.resources[r]);
    LeakRun(cfg, s1, q, r);
  }

  /**
   * The assumption about finalizers is exactly what is needed: after an acceptance, no continuation loses the
   * resource of a binding if and only if every listed resource held its finalizer when it was committed.
   */
  lemma FinalizedIffNeverLeaks(cfg: Config, s: State, s1: State, q: Ref)
    requires Reachable(cfg, s) && AcceptUnchecked(cfg, s, s1, q)
    ensures Finalized(s, s.requests[q].pc.resources) <==> NeverLeaks(cfg, s1)
  {
    assert Inv(cfg, s) by { ReachableInv(cfg, s); }
    var listed := s.requests[q].pc.resources;
    if Finalized(s, listed) {
      assert AcceptCommit(cfg, s, s1, q);
      AcceptKeeps(cfg, s, s1, q);
      InvNeverLeaks(cfg, s1);
    } else {
      var n :| n in listed && listed[n].resource.ref in s.resources && !s.resources[listed[n].resource.ref].finalizer;
      UnfinalizedLeaks(cfg, s, s1, q, n);
    }
  }

  // ---- Logical machines ------------------------------------------------------------------

  /** The resource is bound, belongs to q, and names this logical machine. */
  ghost predicate BoundFor(s: State, r: Ref, q: Ref, machine: string) {
    && r in s.resources && s.resources[r].owner == q && s.resources[r].resource.spec.machine == machine
    && Key(r) in s.rel.resourceToMachine
  }

  ghost function HostOf(s: State, r: Ref): Ref
    requires Key(r) in s.rel.resourceToMachine
  {
    s.rel.resourceToMachine[Key(r)].ref
  }

  lemma BoundAsAsked(cfg: Config, s: State, r: Ref) returns (e: ResourceRef)
    requires Inv(cfg, s) && r in s.resources && Key(r) in s.rel.resourceToMachine
    ensures e.ref == r && e in ListOf(s.rel, Key(HostOf(s, r))) && EntryAsAsked(s, e) && HostOf(s, r) in s.machines
  {
    HasValidKeys(s);
    e := BoundHasEntry(cfg, s.rel, s.machines, s.resources, r);
    assert EntryAsAsked(s, e);
    assert HostLive(s.machines, HostOf(s, r));
  }

  lemma SameHost(cfg: Config, s: State, e: ResourceRef, f: ResourceRef)
    requires Inv(cfg, s) && EntryAsAsked(s, e) && EntryAsAsked(s, f) && Together(s.resources, e, f)
    requires e in ListOf(s.rel, Key(HostOf(s, e.ref))) && f in ListOf(s.rel, Key(HostOf(s, f.ref)))
    requires HostOf(s, e.ref) in s.machines && HostOf(s, f.ref) in s.machines
    ensures HostOf(s, e.ref) == HostOf(s, f.ref)
  {
    assert Key(HostOf(s, e.ref)) == Key(HostOf(s, f.ref));
    KeyInjective(HostOf(s, e.ref), HostOf(s, f.ref));
  }

  lemma AskedFromDeclaration(s: State, e: ResourceRef, q: Ref, machine: string, k: nat)
    requires EntryAsAsked(s, e) && machine != "" && BoundFor(s, e.ref, q, machine)
    ensures q in s.requests
    ensures exists l :: 0 <= l < |s.requests[q].request.machines| && s.requests[q].request.machines[l].name == machine
    ensures var machines := s.requests[q].request.machines;
            (k < |machines| && machines[k].name == machine && forall l :: k < l < |machines| ==> machines[l].name != machine) ==>
              AsDeclared(s, Some(machines[k]), HostOf(s, e.ref), q)
  {
    var machines := s.requests[q].request.machines;
    var last := DeclaredIsLast(machines, machine);
    if k < |machines| && machines[k].name == machine && forall l :: k < l < |machines| ==> machines[l].name != machine {
      LastIsDeclared(machines, k);
    }
  }

  /**
   * In every reachable state, resources of one request that name one logical machine share one machine. The logical
   * machine is declared, and if the last entry of its name asks for a machine, it is that one.
   */
  lemma NamedItemsShareAMachine(cfg: Config, s: State, q: Ref, machine: string, a: Ref, b: Ref)
    requires Reachable(cfg, s) && machine != "" && BoundFor(s, a, q, machine) && BoundFor(s, b, q, machine)
    ensures HostOf(s, a) == HostOf(s, b)
    ensures q in s.requests
    ensures exists k :: 0 <= k < |s.requests[q].request.machines| && s.requests[q].request.machines[k].name == machine
    ensures var machines := s.requests[q].request.machines;
            forall k :: (0 <= k < |machines| && machines[k].name == machine && forall l :: k < l < |machines| ==> machines[l].name != machine) ==>
              machines[k].testMachineResource != "" ==> HostOf(s, a).name == machines[k].testMachineResource
  {
    assert Inv(cfg, s) by { ReachableInv(cfg, s); }
    var e := BoundAsAsked(cfg, s, a);
    var f := BoundAsAsked(cfg, s, b);
    SameHost(cfg, s, e, f);
    AskedFor(s, e, q, machine);
  }

  lemma AskedFor(s: State, e: ResourceRef, q: Ref, machine: string)
    requires EntryAsAsked(s, e) && machine != "" && BoundFor(s, e.ref, q, machine)
    ensures q in s.requests
    ensures exists k :: 0 <= k < |s.requests[q].request.machines| && s.requests[q].request.machines[k].name == machine
    ensures var machines := s.requests[q].request.machines;
            forall k :: (0 <= k < |machines| && machines[k].name == machine && forall l :: k < l < |machines| ==> machines[l].name != machine) ==>
              machines[k].testMachineResource != "" ==> HostOf(s, e.ref).name == machines[k].testMachineResource
  {
    AskedFromDeclaration(s, e, q, machine, 0);
    var machines := s.requests[q].request.machines;
    forall k | 0 <= k < |machines| && machines[k].name == machine && forall l :: k < l < |machines| ==> machines[l].name != machine
      ensures machines[k].testMachineResource != "" ==> HostOf(s, e.ref).name == machines[k].testMachineResource
    {
      AskedFromDeclaration(s, e, q, machine, k);
    }
  }

  /** If that last entry says exclusive, the machine's name is locked by the request and everything listed there is the request's. */
  lemma ExclusiveAsAsked(cfg: Config, s: State, q: Ref, k: nat, r: Ref)
    requires Reachable(cfg, s) && q in s.requests && k < |s.requests[q].request.machines|
    requires var declared := s.requests[q].request.machines[k];
             && declared.exclusive && declared.name != "" && BoundFor(s, r, q, declared.name)
             && forall l :: k < l < |s.requests[q].request.machines| ==> s.requests[q].request.machines[l].name != declared.name
    ensures HostOf(s, r).name in s.rel.machineLocks && s.rel.machineLocks[HostOf(s, r).name] == q
    ensures forall e :: e in ListOf(s.rel, Key(HostOf(s, r))) ==> e.ref in s.resources && s.resources[e.ref].owner == q
  {
    assert Inv(cfg, s) by { ReachableInv(cfg, s); }
    var e := BoundAsAsked(cfg, s, r);
    AskedFromDeclaration(s, e, q, s.requests[q].request.machines[k].name, k);
  }

  // ---- What a bound resource has ---------------------------------------------------------

  lemma BoundIsOnSoundList(cfg: Config, s: State, r: Ref) returns (e: ResourceRef)
    requires Reachable(cfg, s) && r in s.resources && Key(r) in s.rel.resourceToMachine
    ensures HostOf(s, r) in s.machines
    ensures e.ref == r && e.binding == s.rel.resourceToMachine[Key(r)].binding && e in ListOf(s.rel, Key(HostOf(s, r)))
    ensures EntryLive(cfg, s.resources, e)
    ensures s.machines[HostOf(s, r)].machine.info.Some?
    ensures Sound(cfg.round, s.machines[HostOf(s, r)].machine, ListOf(s.rel, Key(HostOf(s, r))))
  {
    e := BoundEntry(cfg, s, r);
    ListIsSound(cfg, s, HostOf(s, r));
  }

  lemma BoundEntry(cfg: Config, s: State, r: Ref) returns (e: ResourceRef)
    requires Reachable(cfg, s) && r in s.resources && Key(r) in s.rel.resourceToMachine
    ensures HostOf(s, r) in s.machines
    ensures e.ref == r && e.binding == s.rel.resourceToMachine[Key(r)].binding && e in ListOf(s.rel, Key(HostOf(s, r)))
    ensures EntryLive(cfg, s.resources, e)
  {
    assert Inv(cfg, s) by { ReachableInv(cfg, s); }
    HasValidKeys(s);
    e := BoundHasEntry(cfg, s.rel, s.machines, s.resources, r);
    assert HostLive(s.machines, HostOf(s, r));
  }

  /**
   * In every reachable state a bound resource has the memory and the number of CPUs it asked for, none of them
   * reserved, and for each disk it asked for a device that is present and exclusive, of the kind asked for, with at
   * least the size asked for unused when the machine was measured, mounted where it was and where it is wanted.
   */
  lemma BoundAsSpecified(cfg: Config, s: State, r: Ref)
    requires Reachable(cfg, s) && r in s.resources && Key(r) in s.rel.resourceToMachine
    ensures HostOf(s, r) in s.machines && s.machines[HostOf(s, r)].machine.info.Some?
    ensures AvailableOf(cfg.round, s.machines[HostOf(s, r)].machine).Some?
    ensures var machine, b, spec := s.machines[HostOf(s, r)].machine, s.rel.resourceToMachine[Key(r)].binding, s.resources[r].resource.spec;
            && b.memory == spec.memory && |b.cpuSet| == (if spec.cores < 0 then 0 else spec.cores)
            && (forall i, j :: 0 <= i < j < |b.cpuSet| ==> b.cpuSet[i] < b.cpuSet[j])
            && (forall c :: c in b.cpuSet ==> 0 <= c < machine.info.value.threads && machine.reserve.cores <= c)
            && (forall n :: n in b.disks <==> n in spec.disks)
    ensures var machine, b, spec := s.machines[HostOf(s, r)].machine, s.rel.resourceToMachine[Key(r)].binding, s.resources[r].resource.spec;
            forall n :: n in spec.disks && n in b.disks ==>
              var device := b.disks[n].device;
              && device in machine.info.value.storageDevices && device in machine.exclusiveDisks
              && device in AvailableOf(cfg.round, machine).value.disks
              && AvailableOf(cfg.round, machine).value.disks[device].kind == spec.disks[n].kind
              && var measured := machine.info.value.storageDevices[device];
              && spec.disks[n].size <= b.disks[n].size == cfg.round(measured.total - measured.used)
              && b.disks[n].originPath == measured.mountPoint && b.disks[n].mountPath == spec.disks[n].mountPath
  {
    var e := BoundIsOnSoundList(cfg, s, r);
    var machine, list := s.machines[HostOf(s, r)].machine, ListOf(s.rel, Key(HostOf(s, r)));
    assert StrictlyAscending(e.binding.cpuSet) by {
      var i :| 0 <= i < |list| && list[i] == e;
    }
    SoundCpus(cfg.round, machine, list);
    SoundDevices(cfg.round, machine, list);
  }

  // ---- From acceptance to drop -----------------------------------------------------------

  lemma OwnersNeverChange(cfg: Config, s: State, s': State, step: Step, r: Ref)
    requires NextBy(cfg, s, s', step) && r in s.resources && r in s'.resources
    ensures s'.resources[r].owner == s.resources[r].owner
  {
    if ResourceNext(s, s', step) {
      if step.DoStepResource? {
        ResourceSteps.StepResourceShape(s, s', step.r);
      }
    } else if OwnedResourceNext(s, s', step) {
      if step.DoCreateResource? {
        assert CreateResource(s, s', step.q, step.r);
      }
    } else if !MachineNext(cfg, s, s', step) {
      assert RequestNext(cfg, s, s', step);
    }
  }

  ghost predicate OwnersKept(s: State, s': State) {
    forall r :: r in s.resources && r in s'.resources ==> s'.resources[r].owner == s.resources[r].owner
  }

  /** What the laws about locks need to know about a step. */
  ghost predicate StepFacts(cfg: Config, s: State, s': State, step: Step) {
    && Effect(cfg, s, s', step) && OwnersKept(s, s') && MachineIds(s.machines, s.uids)
    && EntriesHosted(s'.rel, s'.machines) && EntriesOwned(s')
    && (step.DoAccept? ==> s'.machines == s.machines)
  }

  lemma StepFactsHold(cfg: Config, s: State, s': State, step: Step)
    requires Inv(cfg, s) && NextBy(cfg, s, s', step)
    ensures StepFacts(cfg, s, s', step)
  {
    assert EntriesHosted(s'.rel, s'.machines) && EntriesOwned(s') by {
      NextKeepsInv(cfg, s, s', step);
      RecordHostsEntries(cfg, s'.rel, s'.machines, s'.resources);
    }
    assert OwnersKept(s, s') by {
      forall r | r in s.resources && r in s'.resources ensures s'.resources[r].owner == s.resources[r].owner {
        OwnersNeverChange(cfg, s, s', step, r);
      }
    }
    StepEffect(cfg, s, s', step);
    assert step.DoAccept? ==> AcceptEffect(cfg, s, s', step.q);
  }

  /** Whatever is on an exclusive machine after a step was there before, unless its holder gave it up. */
  lemma ExclusiveListShrinks(cfg: Config, s: State, s': State, step: Step, host: Ref, q: Ref, e: ResourceRef)
    requires Effect(cfg, s, s', step) && MachineIds(s.machines, s.uids) && Valid(host) && Exclusive(s, host, q)
    requires e in ListOf(s'.rel, Key(host))
    ensures e in ListOf(s.rel, Key(host))
  {
    if step.DoAccept? {
      var plan, locks :| AcceptedBy(cfg, s, s', step.q, plan, locks);
      LockedGetsNothing(cfg, s, s', step.q, plan, locks, host, e);
    }
  }

  lemma ExclusiveStep(cfg: Config, s: State, s': State, step: Step, host: Ref, q: Ref)
    requires StepFacts(cfg, s, s', step) && Valid(host) && Exclusive(s, host, q) && step != DoDrop(q)
    ensures Exclusive(s', host, q)
  {
    EffectOnLocks(cfg, s, s', step, host.name);
    forall e | e in ListOf(s'.rel, Key(host)) ensures e.ref in s'.resources && s'.resources[e.ref].owner == q {
      ExclusiveListShrinks(cfg, s, s', step, host, q, e);
      assert Key(host) in s'.rel.machineToResources && EntryOwned(s', e);
    }
  }

  lemma InvAndNext(cfg: Config, run: seq<State>, steps: seq<Step>, i: nat)
    requires IsRun(cfg, run, steps) && i < |steps|
    ensures Inv(cfg, run[i]) && NextBy(cfg, run[i], run[i + 1], steps[i])
  {
    InvOnRuns(cfg, run, steps, i);
  }

  lemma NextKeepsExclusive(cfg: Config, s: State, s': State, step: Step, host: Ref, q: Ref)
    requires Inv(cfg, s) && NextBy(cfg, s, s', step) && Valid(host) && Exclusive(s, host, q) && step != DoDrop(q)
    ensures Exclusive(s', host, q)
  {
    assert StepFacts(cfg, s, s', step) by { StepFactsHold(cfg, s, s', step); }
    ExclusiveStep(cfg, s, s', step, host, q);
  }

  lemma ExclusiveAfter(cfg: Config, run: seq<State>, steps: seq<Step>, i: nat, host: Ref, q: Ref)
    requires IsRun(cfg, run, steps) && i < |steps| && Valid(host) && Exclusive(run[i], host, q) && steps[i] != DoDrop(q)
    ensures Exclusive(run[i + 1], host, q)
  {
    InvAndNext(cfg, run, steps, i);
    NextKeepsExclusive(cfg, run[i], run[i + 1], steps[i], host, q);
  }

  /** Once exclusive, a machine stays the request's alone until the request gives up its locks. */
  lemma {:induction false} ExclusiveUntilDropped(cfg: Config, run: seq<State>, steps: seq<Step>, i: nat, j: nat, host: Ref, q: Ref)
    requires IsRun(cfg, run, steps) && i <= j < |run| && Valid(host) && Exclusive(run[i], host, q)
    requires forall k :: i <= k < j ==> steps[k] != DoDrop(q)
    ensures Exclusive(run[j], host, q)
    decreases j
  {
    if i < j {
      ExclusiveUntilDropped(cfg, run, steps, i, j - 1, host, q);
      ExclusiveAfter(cfg, run, steps, j - 1, host, q);
    }
  }

  lemma ListedBelongsToHolder(s: State, host: Ref, q: Ref)
    ensures Exclusive(s, host, q) && ListOf(s.rel, Key(host)) != [] ==> exists r :: r in s.resources && s.resources[r].owner == q
  {
    if Exclusive(s, host, q) && ListOf(s.rel, Key(host)) != [] {
      assert ListOf(s.rel, Key(host))[0] in ListOf(s.rel, Key(host));
    }
  }

  /** When a request gives up its locks, a machine that was its alone hosts nothing. */
  lemma UnlockedHostsNothing(cfg: Config, s: State, s': State, q: Ref, host: Ref)
    requires Reachable(cfg, s) && DropCommit(s, s', q) && Exclusive(s, host, q)
    ensures ListOf(s.rel, Key(host)) == []
  {
    assert OwnsNothing(s, q) by {
      ReachableInv(cfg, s);
      assert RequestOk(s, q, s.requests[q]);
    }
    ListedBelongsToHolder(s, host, q);
  }

  // ---- Locks by name ---------------------------------------------------------------------

  /** If the name of an entry's machine is locked, then by the owner of the entry. */
  ghost predicate NameHeld(s: State, e: ResourceRef) {
    && e.ref in s.resources && Key(e.ref) in s.rel.resourceToMachine
    && var name := HostOf(s, e.ref).name;
    && (name in s.rel.machineLocks ==> s.rel.machineLocks[name] == s.resources[e.ref].owner)
  }

  /** Machines under a locked name host resources of the holder only, in whatever namespace they are. */
  ghost predicate HeldByName(s: State) {
    forall k, e :: k in s.rel.machineToResources && e in s.rel.machineToResources[k] ==> NameHeld(s, e)
  }

  /** Every name that the step locks is one under which no machine of any namespace hosted anything. */
  ghost predicate LocksFreeNames(s: State, s': State) {
    forall r :: r in s.resources && Key(r) in s.rel.resourceToMachine && HostOf(s, r).name in s'.rel.machineLocks ==>
      HostOf(s, r).name in s.rel.machineLocks
  }

  lemma NameHeldAfterAccept(cfg: Config, s: State, s': State, q: Ref, plan: seq<Placed>, locks: set<string>, k: string, e: ResourceRef)
    requires AcceptedBy(cfg, s, s', q, plan, locks) && MachineIds(s.machines, s.uids) && HeldByName(s) && LocksFreeNames(s, s')
    requires EntryHosted(s'.rel, s.machines, k, e) && k in s'.rel.machineToResources && e in s'.rel.machineToResources[k]
    ensures NameHeld(s', e)
  {
    AcceptedEntry(cfg, s, s', q, plan, locks, k, e);
    if k in s.rel.machineToResources && e in s.rel.machineToResources[k] {
      assert NameHeld(s, e);
      AcceptKeepsBindings(cfg, s, s', q, plan, locks);
    } else {
      var i := NewEntryIs(cfg, s, s', q, plan, locks, k, e);
    }
  }

  lemma NameHeldAfterRelease(s: State, s': State, r: Ref, k: string, e: ResourceRef)
    requires ResourceSteps.Released(s, s', r) && HeldByName(s)
    requires EntryMirrored(s'.rel, k, e) && k in s'.rel.machineToResources && e in s'.rel.machineToResources[k]
    ensures NameHeld(s', e)
  {
    ResourceSteps.ReleasedEntry(s, s', r, k, e);
    assert NameHeld(s, e);
  }

  lemma NameHeldAfterOther(cfg: Config, s: State, s': State, step: Step, k: string, e: ResourceRef)
    requires Effect(cfg, s, s', step) && !step.DoAccept? && !step.DoRelease? && HeldByName(s) && OwnersKept(s, s')
    requires e.ref in s'.resources && k in s'.rel.machineToResources && e in s'.rel.machineToResources[k]
    ensures NameHeld(s', e)
  {
    assert e in ListOf(s'.rel, k);
    assert e in ListOf(s.rel, k) && s'.rel.resourceToMachine == s.rel.resourceToMachine;
    assert k in s.rel.machineToResources && NameHeld(s, e);
  }

  lemma FreeNamesKeepHeld(cfg: Config, s: State, s': State, step: Step)
    requires StepFacts(cfg, s, s', step) && HeldByName(s) && LocksFreeNames(s, s')
    ensures HeldByName(s')
  {
    forall k, e | k in s'.rel.machineToResources && e in s'.rel.machineToResources[k] ensures NameHeld(s', e) {
      assert EntryHosted(s'.rel, s'.machines, k, e);
      if step.DoAccept? {
        var plan, locks :| AcceptedBy(cfg, s, s', step.q, plan, locks);
        NameHeldAfterAccept(cfg, s, s', step.q, plan, locks, k, e);
      } else if step.DoRelease? {
        NameHeldAfterRelease(s, s', step.r, k, e);
      } else {
        assert EntryOwned(s', e);
        NameHeldAfterOther(cfg, s, s', step, k, e);
      }
    }
  }

  /** The binding shows in the list of its machine, and its owner is accepted. */
  ghost predicate Filed(s: State, r: Ref, e: ResourceRef) {
    && r in s.resources && s.resources[r].owner in s.rel.acceptedRequests && e.ref == r
    && Key(r) in s.rel.resourceToMachine && e in ListOf(s.rel, Key(HostOf(s, r)))
  }

  ghost predicate BindingsFiled(s: State) {
    forall r :: r in s.resources && Key(r) in s.rel.resourceToMachine ==> exists e :: Filed(s, r, e)
  }

  lemma BindingIsFiled(cfg: Config, s: State, r: Ref) returns (e: ResourceRef)
    requires Inv(cfg, s) && r in s.resources && Key(r) in s.rel.resourceToMachine
    ensures Filed(s, r, e) && HostOf(s, r) in s.machines
  {
    BoundIsLive(cfg, s, r);
    e := BoundAsAsked(cfg, s, r);
  }

  lemma BindingsAreFiled(cfg: Config, s: State)
    requires Inv(cfg, s)
    ensures BindingsFiled(s)
  {
    forall r | r in s.resources && Key(r) in s.rel.resourceToMachine ensures exists e :: Filed(s, r, e) {
      var e := BindingIsFiled(cfg, s, r);
    }
  }

  lemma TakenByAcceptance(cfg: Config, s: State, s': State, q: Ref, r: Ref, e: ResourceRef)
    requires AcceptEffect(cfg, s, s', q) && Filed(s, r, e)
    requires HostOf(s, r).name in s'.rel.machineLocks && HostOf(s, r).name !in s.rel.machineLocks
    ensures !HeldByName(s')
  {
    var k := Key(HostOf(s, r));
    var plan, locks :| AcceptedBy(cfg, s, s', q, plan, locks);
    AcceptKeepsBindings(cfg, s, s', q, plan, locks);
    ApplyGrows(s.rel, plan, k);
    assert e in ListOf(s'.rel, k) && !NameHeld(s', e);
  }

  lemma TakenNameNotHeld(cfg: Config, s: State, s': State, step: Step)
    requires BindingsFiled(s) && Effect(cfg, s, s', step) && !LocksFreeNames(s, s')
    ensures !HeldByName(s')
  {
    var r :| r in s.resources && Key(r) in s.rel.resourceToMachine && HostOf(s, r).name in s'.rel.machineLocks
             && HostOf(s, r).name !in s.rel.machineLocks;
    assert step.DoAccept? && AcceptEffect(cfg, s, s', step.q) by {
      EffectOnLocks(cfg, s, s', step, HostOf(s, r).name);
    }
    var e :| Filed(s, r, e);
    TakenByAcceptance(cfg, s, s', step.q, r, e);
  }

  /** The law by name is kept by exactly the steps that lock free names. */
  lemma HeldByNameStep(cfg: Config, s: State, s': State, step: Step)
    requires Inv(cfg, s) && NextBy(cfg, s, s', step) && HeldByName(s)
    ensures HeldByName(s') <==> LocksFreeNames(s, s')
  {
    assert StepFacts(cfg, s, s', step) by { StepFactsHold(cfg, s, s', step); }
    if LocksFreeNames(s, s') {
      FreeNamesKeepHeld(cfg, s, s', step);
    } else {
      BindingsAreFiled(cfg, s);
      TakenNameNotHeld(cfg, s, s', step);
    }
  }

  /**
   * The lock table goes by names, which two namespaces may share. Over a run, a locked name always means that its
   * machines host resources of the holder only, if and only if every acceptance locks only free names.
   */
  lemma LockedHostsOnlyHolder(cfg: Config, run: seq<State>, steps: seq<Step>)
    requires IsRun(cfg, run, steps)
    ensures (forall i :: 0 <= i < |run| ==> HeldByName(run[i])) <==> (forall i :: 0 <= i < |steps| ==> LocksFreeNames(run[i], run[i + 1]))
  {
    if forall i :: 0 <= i < |run| ==> HeldByName(run[i]) {
      forall i | 0 <= i < |steps| ensures LocksFreeNames(run[i], run[i + 1]) {
        InvOnRuns(cfg, run, steps, i);
        HeldByNameStep(cfg, run[i], run[i + 1], steps[i]);
      }
    }
    if forall i :: 0 <= i < |steps| ==> LocksFreeNames(run[i], run[i + 1]) {
      forall i | 0 <= i < |run| ensures HeldByName(run[i]) {
        HeldByNameOnRun(cfg, run, steps, i);
      }
    }
  }

  lemma HeldByNameAfter(cfg: Config, run: seq<State>, steps: seq<Step>, i: nat)
    requires IsRun(cfg, run, steps) && i < |steps| && HeldByName(run[i]) && LocksFreeNames(run[i], run[i + 1])
    ensures HeldByName(run[i + 1])
  {
    InvAndNext(cfg, run, steps, i);
    HeldByNameStep(cfg, run[i], run[i + 1], steps[i]);
  }

  lemma {:induction false} HeldByNameOnRun(cfg: Config, run: seq<State>, steps: seq<Step>, i: nat)
    requires IsRun(cfg, run, steps) && i < |run|
    requires forall k :: 0 <= k < |steps| ==> LocksFreeNames(run[k], run[k + 1])
    ensures HeldByName(run[i])
    decreases i
  {
    if i > 0 {
      HeldByNameOnRun(cfg, run, steps, i - 1);
      HeldByNameAfter(cfg, run, steps, i - 1);
    }
  }

  ghost predicate NamesUnique(s: State) {
    forall a, b :: a in s.machines && b in s.machines && a.name == b.name ==> a == b
  }

  lemma HostsSoNotIdle(s: State, host: Ref, e: ResourceRef)
    requires NamesUnique(s) && host in s.machines && e in ListOf(s.rel, Key(host))
    ensures forall idle :: !IdleHost(s, idle, host.name)
  {
    forall idle ensures !IdleHost(s, idle, host.name) {
      if idle in s.machines && idle.name == host.name {
        assert idle == host;
      }
    }
  }

  lemma UniqueNameIsFree(cfg: Config, s: State, s': State, step: Step, r: Ref, e: ResourceRef)
    requires Effect(cfg, s, s', step) && NamesUnique(s) && Filed(s, r, e) && HostOf(s, r) in s.machines
    requires HostOf(s, r).name in s'.rel.machineLocks
    ensures HostOf(s, r).name in s.rel.machineLocks
  {
    EffectOnLocks(cfg, s, s', step, HostOf(s, r).name);
    if step.DoAccept? {
      HostsSoNotIdle(s, HostOf(s, r), e);
      var plan, locks :| AcceptedBy(cfg, s, s', step.q, plan, locks);
    }
  }

  /** Where machine names are not shared, every step locks free names only. */
  lemma UniqueNamesAreFree(cfg: Config, s: State, s': State, step: Step)
    requires Inv(cfg, s) && NextBy(cfg, s, s', step) && NamesUnique(s)
    ensures LocksFreeNames(s, s')
  {
    assert Effect(cfg, s, s', step) by { StepEffect(cfg, s, s', step); }
    forall r | r in s.resources && Key(r) in s.rel.resourceToMachine && HostOf(s, r).name in s'.rel.machineLocks
      ensures HostOf(s, r).name in s.rel.machineLocks
    {
      var e := BindingIsFiled(cfg, s, r);
      UniqueNameIsFree(cfg, s, s', step, r, e);
    }
  }

  // ---- All or nothing, for good ----------------------------------------------------------

  /** From its acceptance until it is deleted, a request has a resource bound for each of its items. */
  lemma AcceptedStaysBound(cfg: Config, s: State, q: Ref, i: nat)
    requires Reachable(cfg, s) && q in s.rel.acceptedRequests
    requires q in s.requests && !s.requests[q].deleting && i < |s.requests[q].request.items|
    ensures exists r :: r in s.resources && s.resources[r].owner == q && r.name == s.requests[q].request.items[i].name
                        && Key(r) in s.rel.resourceToMachine
  {
    ReachableInv(cfg, s);
    assert Fulfilled(s, q);
    assert ItemBound(s, q, s.requests[q].request.items[i].name);
  }
}
