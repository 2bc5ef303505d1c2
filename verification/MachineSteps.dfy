/** MachineReconciler's steps, and the user's on machines, keep the invariant. */
module MachineSteps {
  import opened Refs
  import opened Relationships
  import opened Placement
  import opened PlacementLaws
  import opened Cluster
  import opened Invariants
  import opened RecordLaws
  import opened Frames

  // ---- Steps of one machine object -------------------------------------------------------

  lemma MoveKeepsSettled(s: State, o: MachineObj, o': MachineObj)
    requires MachineMove(s, o, o') && Settled(o)
    ensures Settled(o') && o'.machine == o.machine
  {
  }

  lemma MoveKeepsMachineOk(s: State, s': State, m: Ref, o: MachineObj, o': MachineObj)
    requires MachineMove(s, o, o') && MachineOk(s, m, o) && Mirror(s.rel) && s'.rel == s.rel && s'.version == s.version
    ensures MachineOk(s', m, o')
  {
  }

  lemma StepMachineRecord(cfg: Config, s: State, s': State, m: Ref)
    requires Identities(s) && Record(cfg, s.rel, s.machines, s.resources) && StepMachine(s, s', m)
    ensures Record(cfg, s'.rel, s'.machines, s'.resources)
    ensures HostsKept(s, s')
  {
    var o' :| MachineMove(s, s.machines[m], o') && s' == WithMachine(s, m, o');
    HasValidKeys(s);
    forall x | HostLive(s.machines, x) ensures HostLive(s'.machines, x) && s'.machines[x].machine == s.machines[x].machine {
      if x == m { MoveKeepsSettled(s, s.machines[m], o'); }
    }
    forall r | r in s'.rel.resourceToMachine ensures HostLive(s'.machines, s'.rel.resourceToMachine[r].ref) {
      assert HostLive(s.machines, s.rel.resourceToMachine[r].ref);
    }
    forall x | x in s'.machines ensures Sound(cfg.round, s'.machines[x].machine, ListOf(s'.rel, Key(x))) {
      if x == m && ListOf(s.rel, Key(m)) != [] {
        ListedHostLive(cfg, s.rel, s.machines, s.resources, m);
      }
    }
  }

  lemma StepMachineMachines(s: State, s': State, m: Ref)
    requires StepMachine(s, s', m) && MachinesOk(s) && Mirror(s.rel)
    ensures MachinesOk(s')
  {
    var o' :| MachineMove(s, s.machines[m], o') && s' == WithMachine(s, m, o');
    MoveKeepsMachineOk(s, s', m, s.machines[m], o');
    FrameMachines(s, s', {m});
  }

  lemma StepMachineRequests(s: State, s': State, m: Ref)
    requires StepMachine(s, s', m) && RequestsOk(s) && HostsKept(s, s')
    ensures RequestsOk(s')
  {
    FrameRequests(s, s', {});
  }

  lemma StepMachineResources(s: State, s': State, m: Ref)
    requires StepMachine(s, s', m) && ResourcesOk(s)
    ensures ResourcesOk(s')
  {
    FrameResources(s, s', {});
  }

  lemma StepMachineIdentities(s: State, s': State, m: Ref)
    requires StepMachine(s, s', m) && Identities(s)
    ensures Identities(s')
  {
  }

  lemma StepMachineOwnership(s: State, s': State, m: Ref)
    requires StepMachine(s, s', m) && Ownership(s)
    ensures Ownership(s')
  {
    FrameOwnership(s, s');
  }

  lemma StepMachinePromises(s: State, s': State, m: Ref)
    requires StepMachine(s, s', m) && Ownership(s) && Promises(s)
    ensures Promises(s')
  {
    FramePromises(s, s');
  }

  lemma StepMachinePlans(cfg: Config, s: State, s': State, m: Ref)
    requires StepMachine(s, s', m) && HostsKept(s, s') && RequestsOk(s) && PlansCurrent(cfg, s)
    ensures PlansCurrent(cfg, s')
  {
    FramePlans(cfg, s, s');
  }

  lemma StepMachineKeeps(cfg: Config, s: State, s': State, m: Ref)
    requires Inv(cfg, s) && StepMachine(s, s', m)
    ensures Inv(cfg, s')
  {
    StepMachineRecord(cfg, s, s', m);
    StepMachineIdentities(s, s', m);
    StepMachineOwnership(s, s', m);
    StepMachineMachines(s, s', m);
    StepMachineResources(s, s', m);
    StepMachineRequests(s, s', m);
    StepMachinePromises(s, s', m);
    StepMachinePlans(cfg, s, s', m);
  }

  // ---- An idle machine is edited ---------------------------------------------------------

  lemma EditShape(s: State, s': State, m: Ref)
    requires EditUnchecked(s, s', m)
    ensures s'.rel == s.rel && s'.version == s.version && s'.uids == s.uids
    ensures s'.resources == s.resources && s'.requests == s.requests
    ensures m in s.machines && s'.machines == s.machines[m := s'.machines[m]] && ListOf(s.rel, Key(m)) == []
    ensures s'.machines[m] == s.machines[m].(machine := s'.machines[m].machine) && s'.machines[m].machine.ref == s.machines[m].machine.ref
    ensures s.machines[m].state.MachineReady?
  {
  }

  lemma EditRecord(cfg: Config, s: State, s': State, m: Ref)
    requires EditUnchecked(s, s', m) && Record(cfg, s.rel, s.machines, s.resources)
    ensures Record(cfg, s'.rel, s'.machines, s'.resources)
  {
    EditShape(s, s', m);
    forall r | r in s'.rel.resourceToMachine ensures HostLive(s'.machines, s'.rel.resourceToMachine[r].ref) {
      assert HostLive(s.machines, s.rel.resourceToMachine[r].ref);
    }
    FrameRecordMachines(cfg, s.rel, s.machines, s'.machines, s.resources);
  }

  lemma EditIdentities(s: State, s': State, m: Ref)
    requires EditUnchecked(s, s', m) && Identities(s)
    ensures Identities(s')
  {
    EditShape(s, s', m);
  }

  lemma EditMachines(s: State, s': State, m: Ref)
    requires EditUnchecked(s, s', m) && MachinesOk(s)
    ensures MachinesOk(s')
  {
    EditShape(s, s', m);
    assert MachineOk(s, m, s.machines[m]);
    FrameMachines(s, s', {m});
  }

  lemma EditResources(s: State, s': State, m: Ref)
    requires EditUnchecked(s, s', m) && ResourcesOk(s)
    ensures ResourcesOk(s')
  {
    EditShape(s, s', m);
    FrameResources(s, s', {});
  }

  lemma EditRequests(s: State, s': State, m: Ref)
    requires EditUnchecked(s, s', m) && RequestsOk(s)
    ensures RequestsOk(s')
  {
    EditShape(s, s', m);
    forall q | q in s'.requests ensures RequestOk(s', q, s'.requests[q]) {
      assert RequestOk(s, q, s.requests[q]);
      EditRequest(s, s', m, q, s.requests[q]);
    }
  }

  /** Whoever read the machine finds it live. */
  lemma EditRequest(s: State, s': State, m: Ref, q: Ref, o: RequestObj)
    requires EditUnchecked(s, s', m) && RequestOk(s, q, o)
    ensures RequestOk(s', q, o)
  {
    EditShape(s, s', m);
    if o.pc.QMachines? && o.pc.snap.version == s.version {
      forall n | n in o.pc.book ensures HostLive(s'.machines, o.pc.book[n].ref) {
        assert HostLive(s.machines, o.pc.book[n].ref);
      }
    }
  }

  lemma EditPlans(cfg: Config, s: State, s': State, m: Ref)
    requires EditMachine(cfg, s, s', m) && PlansCurrent(cfg, s)
    ensures PlansCurrent(cfg, s')
  {
    EditShape(s, s', m);
    forall q | q in s'.requests ensures PlanCurrent(cfg, s', s'.requests[q]) {
      assert PlanCurrent(cfg, s, s.requests[q]);
    }
  }

  lemma EditOwnership(s: State, s': State, m: Ref)
    requires EditUnchecked(s, s', m) && Ownership(s) && Promises(s)
    ensures Ownership(s') && Promises(s')
  {
    EditShape(s, s', m);
    assert Ownership(s') by { FrameOwnership(s, s'); }
    FramePromises(s, s');
  }

  lemma EditMachineKeeps(cfg: Config, s: State, s': State, m: Ref)
    requires Inv(cfg, s) && EditMachine(cfg, s, s', m)
    ensures Inv(cfg, s')
  {
    EditRecord(cfg, s, s', m);
    EditIdentities(s, s', m);
    EditMachines(s, s', m);
    EditResources(s, s', m);
    EditRequests(s, s', m);
    EditOwnership(s, s', m);
    EditPlans(cfg, s, s', m);
  }

  // ---- A machine appears -----------------------------------------------------------------

  lemma CreateMachineRecord(cfg: Config, s: State, s': State, m: Ref)
    requires Identities(s) && Record(cfg, s.rel, s.machines, s.resources) && CreateMachine(s, s', m)
    ensures Record(cfg, s'.rel, s'.machines, s'.resources)
    ensures HostsKept(s, s')
  {
    HasValidKeys(s);
    if ListOf(s.rel, Key(m)) != [] {
      ListedHostLive(cfg, s.rel, s.machines, s.resources, m);
    }
    forall r | r in s'.rel.resourceToMachine ensures HostLive(s'.machines, s'.rel.resourceToMachine[r].ref) {
      assert HostLive(s.machines, s.rel.resourceToMachine[r].ref);
    }
    FrameRecordMachines(cfg, s.rel, s.machines, s'.machines, s.resources);
  }

  lemma CreateMachineIdentities(s: State, s': State, m: Ref)
    requires Identities(s) && CreateMachine(s, s', m)
    ensures Identities(s')
  {
  }

  lemma CreateMachineMachines(s: State, s': State, m: Ref)
    requires CreateMachine(s, s', m) && MachinesOk(s)
    ensures MachinesOk(s')
  {
    FrameMachines(s, s', {m});
  }

  lemma CreateMachineResources(s: State, s': State, m: Ref)
    requires CreateMachine(s, s', m) && ResourcesOk(s)
    ensures ResourcesOk(s')
  {
    FrameResources(s, s', {});
  }

  lemma CreateMachineRequests(s: State, s': State, m: Ref)
    requires CreateMachine(s, s', m) && HostsKept(s, s') && RequestsOk(s)
    ensures RequestsOk(s')
  {
    FrameRequests(s, s', {});
  }

  lemma CreateMachineOwnership(s: State, s': State, m: Ref)
    requires CreateMachine(s, s', m) && Ownership(s)
    ensures Ownership(s')
  {
    FrameOwnership(s, s');
  }

  lemma CreateMachinePromises(s: State, s': State, m: Ref)
    requires CreateMachine(s, s', m) && Ownership(s) && Promises(s)
    ensures Promises(s')
  {
    FramePromises(s, s');
  }

  lemma CreateMachinePlans(cfg: Config, s: State, s': State, m: Ref)
    requires CreateMachine(s, s', m) && HostsKept(s, s') && RequestsOk(s) && PlansCurrent(cfg, s)
    ensures PlansCurrent(cfg, s')
  {
    FramePlans(cfg, s, s');
  }

  lemma CreateMachineKeeps(cfg: Config, s: State, s': State, m: Ref)
    requires Inv(cfg, s) && CreateMachine(s, s', m)
    ensures Inv(cfg, s')
  {
    CreateMachineRecord(cfg, s, s', m);
    CreateMachineIdentities(s, s', m);
    CreateMachineMachines(s, s', m);
    CreateMachineResources(s, s', m);
    CreateMachineRequests(s, s', m);
    CreateMachineOwnership(s, s', m);
    CreateMachinePromises(s, s', m);
    CreateMachinePlans(cfg, s, s', m);
  }

  // ---- A machine's entry appears or goes -------------------------------------------------

  /** Both commits change the record by empty lists and one machine's program counter. */
  ghost predicate EntryCommit(s: State, s': State, m: Ref) {
    EnsureEntryCommit(s, s', m) || RemoveEntryCommit(s, s', m)
  }

  lemma EntryCommitShape(s: State, s': State, m: Ref)
    requires MachinesOk(s) && EntryCommit(s, s', m)
    ensures SameLists(s.rel, s'.rel) && s'.version == s.version + 1
    ensures s'.rel.acceptedRequests == s.rel.acceptedRequests && s'.rel.machineLocks == s.rel.machineLocks
    ensures s'.resources == s.resources && s'.requests == s.requests && s'.uids == s.uids
    ensures m in s.machines && s'.machines == s.machines[m := s'.machines[m]]
    ensures s'.machines[m] == s.machines[m].(pc := s'.machines[m].pc)
    ensures s'.machines[m].pc.MStrip? ==> ListOf(s.rel, Key(m)) == [] && s.machines[m].state.MachineShutdown?
    ensures s'.machines[m].pc.MStrip? || s'.machines[m].pc.MIdle?
  {
    assert MachineOk(s, m, s.machines[m]);
  }

  /** The machine whose entry goes hosts nothing. */
  lemma EntryCommitHosts(cfg: Config, s: State, s': State, m: Ref)
    requires MachinesOk(s) && Record(cfg, s.rel, s.machines, s.resources) && EntryCommit(s, s', m)
    ensures forall r :: r in s'.rel.resourceToMachine ==> HostLive(s'.machines, s'.rel.resourceToMachine[r].ref)
  {
    EntryCommitShape(s, s', m);
    forall r | r in s'.rel.resourceToMachine ensures HostLive(s'.machines, s'.rel.resourceToMachine[r].ref) {
      assert HostLive(s.machines, s.rel.resourceToMachine[r].ref);
      assert BindingMirrored(s.rel, r);
    }
  }

  lemma EntryCommitRecord(cfg: Config, s: State, s': State, m: Ref)
    requires Identities(s) && MachinesOk(s) && Record(cfg, s.rel, s.machines, s.resources) && EntryCommit(s, s', m)
    ensures Record(cfg, s'.rel, s'.machines, s'.resources)
  {
    EntryCommitShape(s, s', m);
    assert Record(cfg, s'.rel, s.machines, s.resources) by {
      SameListsKeepsRecord(cfg, s.rel, s'.rel, s.machines, s.resources);
    }
    EntryCommitHosts(cfg, s, s', m);
    FrameRecordMachines(cfg, s'.rel, s.machines, s'.machines, s.resources);
  }

  lemma EntryCommitMachines(s: State, s': State, m: Ref)
    requires EntryCommit(s, s', m) && MachinesOk(s)
    ensures MachinesOk(s')
  {
    EntryCommitShape(s, s', m);
    assert MachineOk(s, m, s.machines[m]);
    FrameMachines(s, s', {m});
  }

  lemma EntryCommitResources(s: State, s': State, m: Ref)
    requires EntryCommit(s, s', m) && MachinesOk(s) && ResourcesOk(s)
    ensures ResourcesOk(s')
  {
    EntryCommitShape(s, s', m);
    FrameResources(s, s', {});
  }

  lemma EntryCommitRequests(s: State, s': State, m: Ref)
    requires EntryCommit(s, s', m) && MachinesOk(s) && RequestsOk(s)
    ensures RequestsOk(s')
  {
    EntryCommitShape(s, s', m);
    FrameRequests(s, s', {});
  }

  lemma EntryCommitIdentities(s: State, s': State, m: Ref)
    requires Identities(s) && MachinesOk(s) && EntryCommit(s, s', m)
    ensures Identities(s')
  {
    EntryCommitShape(s, s', m);
  }

  lemma EntryCommitPromises(s: State, s': State, m: Ref)
    requires EntryCommit(s, s', m) && MachinesOk(s) && Ownership(s) && Promises(s)
    ensures Promises(s')
  {
    EntryCommitShape(s, s', m);
    FramePromises(s, s');
  }

  lemma EntryCommitPlans(cfg: Config, s: State, s': State, m: Ref)
    requires EntryCommit(s, s', m) && MachinesOk(s) && RequestsOk(s)
    ensures PlansCurrent(cfg, s')
  {
    EntryCommitShape(s, s', m);
    CommitEndsPlans(cfg, s, s');
  }

  lemma EntryCommitKeeps(cfg: Config, s: State, s': State, m: Ref)
    requires Inv(cfg, s) && EntryCommit(s, s', m)
    ensures Inv(cfg, s')
  {
    EntryCommitRecord(cfg, s, s', m);
    EntryCommitIdentities(s, s', m);
    EntryCommitMachines(s, s', m);
    EntryCommitResources(s, s', m);
    EntryCommitRequests(s, s', m);
    assert Ownership(s') by {
      EntryCommitShape(s, s', m);
      FrameOwnershipSameLists(s, s');
    }
    EntryCommitPromises(s, s', m);
    EntryCommitPlans(cfg, s, s', m);
  }

  // ---- A machine goes --------------------------------------------------------------------

  lemma GoneHostedNothing(s: State, s': State, m: Ref)
    requires MachinesOk(s) && MachineGone(s, s', m)
    ensures !HostLive(s.machines, m)
    ensures HostsKept(s, s')
  {
    assert MachineOk(s, m, s.machines[m]);
  }

  lemma MachineGoneRecord(cfg: Config, s: State, s': State, m: Ref)
    requires MachinesOk(s) && Record(cfg, s.rel, s.machines, s.resources) && MachineGone(s, s', m)
    ensures Record(cfg, s'.rel, s'.machines, s'.resources)
  {
    GoneHostedNothing(s, s', m);
    forall r | r in s'.rel.resourceToMachine ensures HostLive(s'.machines, s'.rel.resourceToMachine[r].ref) {
      assert HostLive(s.machines, s.rel.resourceToMachine[r].ref);
    }
    FrameRecordMachines(cfg, s.rel, s.machines, s'.machines, s.resources);
  }

  lemma MachineGoneMachines(s: State, s': State, m: Ref)
    requires MachineGone(s, s', m) && MachinesOk(s)
    ensures MachinesOk(s')
  {
    FrameMachines(s, s', {});
  }

  lemma MachineGoneResources(s: State, s': State, m: Ref)
    requires MachineGone(s, s', m) && ResourcesOk(s)
    ensures ResourcesOk(s')
  {
    FrameResources(s, s', {});
  }

  lemma MachineGoneRequests(s: State, s': State, m: Ref)
    requires MachineGone(s, s', m) && MachinesOk(s) && RequestsOk(s)
    ensures RequestsOk(s')
  {
    GoneHostedNothing(s, s', m);
    FrameRequests(s, s', {});
  }

  lemma MachineGoneIdentities(s: State, s': State, m: Ref)
    requires MachineGone(s, s', m) && Identities(s)
    ensures Identities(s')
  {
  }

  lemma MachineGoneOwnership(s: State, s': State, m: Ref)
    requires MachineGone(s, s', m) && Ownership(s)
    ensures Ownership(s')
  {
    FrameOwnership(s, s');
  }

  lemma MachineGonePromises(s: State, s': State, m: Ref)
    requires MachineGone(s, s', m) && Ownership(s) && Promises(s)
    ensures Promises(s')
  {
    FramePromises(s, s');
  }

  lemma MachineGonePlans(cfg: Config, s: State, s': State, m: Ref)
    requires MachineGone(s, s', m) && MachinesOk(s) && RequestsOk(s) && PlansCurrent(cfg, s)
    ensures PlansCurrent(cfg, s')
  {
    GoneHostedNothing(s, s', m);
    FramePlans(cfg, s, s');
  }

  lemma MachineGoneKeeps(cfg: Config, s: State, s': State, m: Ref)
    requires Inv(cfg, s) && MachineGone(s, s', m)
    ensures Inv(cfg, s')
  {
    MachineGoneRecord(cfg, s, s', m);
    MachineGoneIdentities(s, s', m);
    MachineGoneMachines(s, s', m);
    MachineGoneResources(s, s', m);
    MachineGoneRequests(s, s', m);
    MachineGoneOwnership(s, s', m);
    MachineGonePromises(s, s', m);
    MachineGonePlans(cfg, s, s', m);
  }
}
