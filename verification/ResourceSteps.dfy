/** TestResourceReconciler's steps keep the invariant. */
module ResourceSteps {
  import opened Refs
  import opened Resources
  import opened Relationships
  import opened Placement
  import opened Cluster
  import opened Invariants
  import opened RecordLaws
  import opened Frames

  // ---- Steps of one resource object ------------------------------------------------------

  /** The machine found by the name in a binding is the machine that was bound. */
  lemma FoundIsBound(s: State, target: Ref, host: Ref)
    requires MachineIds(s.machines, s.uids) && HostLive(s.machines, target) && FoundMachine(s, target, host)
    ensures host == target
  {
  }

  lemma MoveKeepsResourceOk(s: State, s': State, r: Ref, o: ResourceObj, o': ResourceObj)
    requires ResourceMove(s, r, o, o') && ResourceOk(s, r, o) && Mirror(s.rel) && MachineIds(s.machines, s.uids)
    requires forall x :: x in s.rel.resourceToMachine ==> HostLive(s.machines, s.rel.resourceToMachine[x].ref)
    requires s'.rel == s.rel && s'.version == s.version && s'.requests == s.requests
    ensures ResourceOk(s', r, o')
  {
    if o'.pc.RFinalized? && !o.pc.RFinalized? {
      FoundIsBound(s, s.rel.resourceToMachine[Key(r)].ref, o'.pc.host);
    }
  }

  lemma MoveKeepsFields(s: State, r: Ref, o: ResourceObj, o': ResourceObj)
    requires ResourceMove(s, r, o, o')
    ensures o'.resource == o.resource && o'.owner == o.owner && o'.deleting == o.deleting
    ensures o.finalizer ==> o'.finalizer
    ensures o.state.Required? ==> o'.state.Required? || o.pc.RBound?
  {
  }

  lemma StepResourceShape(s: State, s': State, r: Ref)
    requires StepResource(s, s', r)
    ensures s'.rel == s.rel && s'.version == s.version && s'.uids == s.uids
    ensures s'.machines == s.machines && s'.requests == s.requests
    ensures r in s.resources && s'.resources == s.resources[r := s'.resources[r]]
    ensures s'.resources[r].resource == s.resources[r].resource && s'.resources[r].owner == s.resources[r].owner
    ensures s'.resources[r].deleting == s.resources[r].deleting
    ensures s.resources[r].finalizer ==> s'.resources[r].finalizer
    ensures s.resources[r].state.Required? ==> s'.resources[r].state.Required?
  {
    var o' :| ResourceMove(s, r, s.resources[r], o') && s' == WithResource(s, r, o');
    MoveKeepsFields(s, r, s.resources[r], o');
  }

  lemma StepResourceOwn(cfg: Config, s: State, s': State, r: Ref)
    requires StepResource(s, s', r) && ResourceOk(s, r, s.resources[r]) && MachineIds(s.machines, s.uids)
    requires Record(cfg, s.rel, s.machines, s.resources)
    ensures ResourceOk(s', r, s'.resources[r])
  {
    var o' :| ResourceMove(s, r, s.resources[r], o') && s' == WithResource(s, r, o');
    MoveKeepsResourceOk(s, s', r, s.resources[r], o');
  }

  lemma StepResourceResources(s: State, s': State, r: Ref)
    requires StepResource(s, s', r) && ResourcesOk(s) && ResourceOk(s', r, s'.resources[r])
    ensures ResourcesOk(s')
  {
    StepResourceShape(s, s', r);
    FrameResources(s, s', {r});
  }

  lemma StepResourceRecord(cfg: Config, s: State, s': State, r: Ref)
    requires StepResource(s, s', r) && Record(cfg, s.rel, s.machines, s.resources)
    ensures Record(cfg, s'.rel, s'.machines, s'.resources)
  {
    StepResourceShape(s, s', r);
    FrameRecordResources(cfg, s.rel, s.machines, s.resources, s'.resources);
  }

  lemma StepResourceRequests(s: State, s': State, r: Ref)
    requires StepResource(s, s', r) && RequestsOk(s)
    ensures RequestsOk(s')
  {
    StepResourceShape(s, s', r);
    FrameRequests(s, s', {});
  }

  lemma StepResourceOthers(s: State, s': State, r: Ref)
    requires StepResource(s, s', r) && Identities(s) && Ownership(s) && MachinesOk(s)
    ensures Identities(s') && Ownership(s') && MachinesOk(s')
  {
    StepResourceShape(s, s', r);
    assert Ownership(s') by { FrameOwnership(s, s'); }
    assert MachinesOk(s') by { FrameMachines(s, s', {}); }
  }

  lemma StepResourcePromises(s: State, s': State, r: Ref)
    requires StepResource(s, s', r) && Ownership(s) && Promises(s)
    ensures Promises(s')
  {
    StepResourceShape(s, s', r);
    FramePromises(s, s');
  }

  lemma StepResourcePlans(cfg: Config, s: State, s': State, r: Ref)
    requires StepResource(s, s', r) && RequestsOk(s) && PlansCurrent(cfg, s)
    ensures PlansCurrent(cfg, s')
  {
    FramePlans(cfg, s, s');
  }

  lemma StepResourceKeeps(cfg: Config, s: State, s': State, r: Ref)
    requires Inv(cfg, s) && StepResource(s, s', r)
    ensures Inv(cfg, s')
  {
    StepResourceOthers(s, s', r);
    StepResourceRecord(cfg, s, s', r);
    StepResourceOwn(cfg, s, s', r);
    StepResourceResources(s, s', r);
    StepResourceRequests(s, s', r);
    StepResourcePromises(s, s', r);
    StepResourcePlans(cfg, s, s', r);
  }

  // ---- A binding is released -------------------------------------------------------------

  /** The release as the current record sees it. */
  ghost predicate Released(s: State, s': State, r: Ref) {
    && r in s.resources && s.resources[r].deleting && Key(r) in s.rel.resourceToMachine
    && s'.rel == Release(s.rel, Key(s.rel.resourceToMachine[Key(r)].ref), r) && s'.version == s.version + 1
    && s'.machines == s.machines && s'.requests == s.requests && s'.uids == s.uids
    && s'.resources == s.resources[r := s.resources[r].(pc := RStrip)]
  }

  lemma CommitReleases(s: State, s': State, r: Ref)
    requires ResourcesOk(s) && ReleaseCommit(s, s', r)
    ensures Released(s, s', r)
  {
    assert ResourceOk(s, r, s.resources[r]);
  }

  lemma ReleaseRecord(cfg: Config, s: State, s': State, r: Ref)
    requires Released(s, s', r) && Identities(s) && Record(cfg, s.rel, s.machines, s.resources)
    ensures Record(cfg, s'.rel, s.machines, s.resources)
  {
    HasValidKeys(s);
    ReleaseKeepsRecord(cfg, s.rel, s.machines, s.resources, s.rel.resourceToMachine[Key(r)].ref, r);
  }

  lemma ReleaseRecordAfter(cfg: Config, s: State, s': State, r: Ref)
    requires Released(s, s', r) && Record(cfg, s'.rel, s.machines, s.resources)
    ensures Record(cfg, s'.rel, s'.machines, s'.resources)
  {
    FrameRecordResources(cfg, s'.rel, s.machines, s.resources, s'.resources);
  }

  lemma ReleasedEntry(s: State, s': State, r: Ref, k: string, e: ResourceRef)
    requires Released(s, s', r) && k in s'.rel.machineToResources && e in s'.rel.machineToResources[k]
    ensures k in s.rel.machineToResources && e in s.rel.machineToResources[k]
    ensures forall x :: x in s'.rel.resourceToMachine ==>
              x in s.rel.resourceToMachine && s'.rel.resourceToMachine[x] == s.rel.resourceToMachine[x]
  {
  }

  lemma OwnedAfterRelease(s: State, s': State, r: Ref, k: string, e: ResourceRef)
    requires Released(s, s', r) && EntriesOwned(s) && EntriesMirrored(s'.rel)
    requires k in s'.rel.machineToResources && e in s'.rel.machineToResources[k]
    ensures e.ref in s'.resources && Key(e.ref) in s'.rel.resourceToMachine && EntryOwned(s', e)
  {
    ReleasedEntry(s, s', r, k, e);
    assert EntryOwned(s, e);
    assert EntryMirrored(s'.rel, k, e);
  }

  lemma ReleaseEntriesOwned(s: State, s': State, r: Ref)
    requires Released(s, s', r) && EntriesOwned(s) && EntriesMirrored(s'.rel)
    ensures EntriesOwned(s')
  {
    forall k, e | k in s'.rel.machineToResources && e in s'.rel.machineToResources[k]
      ensures e.ref in s'.resources && Key(e.ref) in s'.rel.resourceToMachine && EntryOwned(s', e)
    {
      OwnedAfterRelease(s, s', r, k, e);
    }
  }

  lemma ReleaseOwnership(s: State, s': State, r: Ref)
    requires Released(s, s', r) && Ownership(s) && Mirror(s'.rel)
    ensures Ownership(s')
  {
    ReleaseEntriesOwned(s, s', r);
  }

  lemma ReleaseMachines(s: State, s': State, r: Ref)
    requires Released(s, s', r) && MachinesOk(s)
    ensures MachinesOk(s')
  {
    forall m | m in s.machines && s.machines[m].pc.MStrip? ensures ListOf(s'.rel, Key(m)) == [] {
      assert MachineOk(s, m, s.machines[m]);
    }
    FrameMachines(s, s', {});
  }

  lemma ReleaseOthersBound(s: State, s': State, r: Ref)
    requires Released(s, s', r) && ResourceIds(s.resources, s.uids)
    ensures forall x :: x in s.resources && x != r ==> SameBinding(s, s', x)
  {
    forall x | x in s.resources && x != r ensures SameBinding(s, s', x) {
      if Key(x) == Key(r) { KeyInjective(x, r); }
    }
  }

  lemma ReleaseOwn(s: State, s': State, r: Ref)
    requires Released(s, s', r) && ResourceOk(s, r, s.resources[r])
    ensures ResourceOk(s', r, s'.resources[r])
  {
  }

  lemma ReleaseResources(s: State, s': State, r: Ref)
    requires Released(s, s', r) && ResourceIds(s.resources, s.uids) && ResourcesOk(s)
    ensures ResourcesOk(s')
  {
    ReleaseOthersBound(s, s', r);
    ReleaseOwn(s, s', r);
    FrameResources(s, s', {r});
  }

  lemma ReleaseKeepsForRequests(s: State, s': State, r: Ref)
    requires Released(s, s', r)
    ensures Advances(s, s') && NoForgery(s, s') && forall q :: ResourcesKept(s, s', q)
  {
  }

  lemma ReleaseRequests(s: State, s': State, r: Ref)
    requires Released(s, s', r) && RequestsOk(s)
    ensures RequestsOk(s')
  {
    ReleaseKeepsForRequests(s, s', r);
    FrameRequests(s, s', {});
  }

  lemma ReleaseIdentities(s: State, s': State, r: Ref)
    requires Released(s, s', r) && Identities(s)
    ensures Identities(s')
  {
  }

  lemma ReleaseKeepsExclusive(s: State, s': State, r: Ref, host: Ref, q: Ref)
    requires Released(s, s', r) && Exclusive(s, host, q)
    ensures Exclusive(s', host, q)
  {
  }

  lemma ReleaseEntriesAsAsked(s: State, s': State, r: Ref)
    requires Released(s, s', r) && EntriesMirrored(s'.rel) && EntriesAsAsked(s)
    ensures EntriesAsAsked(s')
  {
    forall k, e | k in s'.rel.machineToResources && e in s'.rel.machineToResources[k] ensures EntryAsAsked(s', e) {
      ReleasedEntry(s, s', r, k, e);
      assert EntryMirrored(s'.rel, k, e) && EntryAsAsked(s, e);
      var o, host := s.resources[e.ref], s.rel.resourceToMachine[Key(e.ref)].ref;
      if Exclusive(s, host, o.owner) {
        ReleaseKeepsExclusive(s, s', r, host, o.owner);
      }
    }
  }

  lemma ReleaseCoLocated(s: State, s': State, r: Ref)
    requires Released(s, s', r) && CoLocated(s.rel, s.resources)
    ensures CoLocated(s'.rel, s'.resources)
  {
    forall k, e, l, f | k in s'.rel.machineToResources && e in s'.rel.machineToResources[k]
                        && l in s'.rel.machineToResources && f in s'.rel.machineToResources[l] && Together(s'.resources, e, f)
      ensures k == l
    {
      ReleasedEntry(s, s', r, k, e);
      ReleasedEntry(s, s', r, l, f);
      assert Together(s.resources, e, f);
    }
  }

  /** The released resource's owner is being deleted; what other requests have bound stays. */
  lemma OthersStayBound(s: State, s': State, r: Ref, q: Ref, name: string)
    requires Released(s, s', r) && ResourceIds(s.resources, s.uids) && s.resources[r].owner != q && ItemBound(s, q, name)
    ensures ItemBound(s', q, name)
  {
    var x :| x in s.resources && s.resources[x].owner == q && x.name == name && Key(x) in s.rel.resourceToMachine;
    if Key(x) == Key(r) { KeyInjective(x, r); }
  }

  lemma ReleaseFulfilled(s: State, s': State, r: Ref, q: Ref)
    requires Released(s, s', r) && ResourceIds(s.resources, s.uids) && ResourceOk(s, r, s.resources[r])
    requires q in s.requests && Fulfilled(s, q)
    ensures Fulfilled(s', q)
  {
    if !s.requests[q].deleting {
      forall i | 0 <= i < |s.requests[q].request.items| ensures ItemBound(s', q, s.requests[q].request.items[i].name) {
        OthersStayBound(s, s', r, q, s.requests[q].request.items[i].name);
      }
    }
  }

  lemma ReleasePromises(s: State, s': State, r: Ref)
    requires Released(s, s', r) && ResourceIds(s.resources, s.uids) && ResourceOk(s, r, s.resources[r])
    requires EntriesMirrored(s'.rel) && Promises(s)
    ensures Promises(s')
  {
    ReleaseEntriesAsAsked(s, s', r);
    ReleaseCoLocated(s, s', r);
    forall q | q in s'.rel.acceptedRequests && q in s'.requests ensures Fulfilled(s', q) {
      ReleaseFulfilled(s, s', r, q);
    }
  }

  lemma ReleasePlans(cfg: Config, s: State, s': State, r: Ref)
    requires Released(s, s', r) && RequestsOk(s)
    ensures PlansCurrent(cfg, s')
  {
    CommitEndsPlans(cfg, s, s');
  }

  lemma ReleaseKeeps(cfg: Config, s: State, s': State, r: Ref)
    requires Inv(cfg, s) && ReleaseCommit(s, s', r)
    ensures Inv(cfg, s')
  {
    CommitReleases(s, s', r);
    ReleaseIdentities(s, s', r);
    ReleaseRecord(cfg, s, s', r);
    ReleaseRecordAfter(cfg, s, s', r);
    ReleaseOwnership(s, s', r);
    ReleaseMachines(s, s', r);
    ReleaseResources(s, s', r);
    ReleaseRequests(s, s', r);
    ReleasePlans(cfg, s, s', r);
    assert Promises(s') by {
      assert ResourceOk(s, r, s.resources[r]);
      ReleasePromises(s, s', r);
    }
  }

  // ---- A resource goes -------------------------------------------------------------------

  /** A resource disappears that holds nothing. */
  ghost predicate Vanished(s: State, s': State, r: Ref) {
    && r in s.resources && Key(r) !in s.rel.resourceToMachine && s' == s.(resources := s.resources - {r})
  }

  lemma GoneIsUnbound(s: State, s': State, r: Ref)
    requires ResourcesOk(s) && ResourceGone(s, s', r)
    ensures Vanished(s, s', r)
  {
    assert ResourceOk(s, r, s.resources[r]);
  }

  lemma VanishRecord(cfg: Config, s: State, s': State, r: Ref)
    requires Vanished(s, s', r) && Record(cfg, s.rel, s.machines, s.resources)
    ensures Record(cfg, s'.rel, s'.machines, s'.resources)
  {
    FrameRecordResources(cfg, s.rel, s.machines, s.resources, s'.resources);
  }

  lemma VanishOwnership(s: State, s': State, r: Ref)
    requires Vanished(s, s', r) && Ownership(s)
    ensures Ownership(s')
  {
    FrameOwnership(s, s');
  }

  lemma VanishMachines(s: State, s': State, r: Ref)
    requires Vanished(s, s', r) && MachinesOk(s)
    ensures MachinesOk(s')
  {
    FrameMachines(s, s', {});
  }

  lemma VanishResources(s: State, s': State, r: Ref)
    requires Vanished(s, s', r) && ResourcesOk(s)
    ensures ResourcesOk(s')
  {
    FrameResources(s, s', {});
  }

  lemma VanishIdentities(s: State, s': State, r: Ref)
    requires Vanished(s, s', r) && Identities(s)
    ensures Identities(s')
  {
  }

  /** Its owner was not listing if it was being deleted, or if the owner itself is deleting it. */
  lemma OwnerOutlivesResource(s: State, s': State, r: Ref, q: Ref, o: RequestObj)
    requires Vanished(s, s', r) && s.resources[r].owner == q && RequestOk(s, q, o)
    requires s.resources[r].deleting || o.pc.QDeleting?
    ensures RequestOk(s', q, o)
  {
  }

  lemma VanishRequests(s: State, s': State, r: Ref)
    requires Vanished(s, s', r) && RequestsOk(s)
    requires var owner := s.resources[r].owner;
             owner in s.requests ==> s.resources[r].deleting || s.requests[owner].pc.QDeleting?
    ensures RequestsOk(s')
  {
    var owner := s.resources[r].owner;
    if owner in s.requests {
      OwnerOutlivesResource(s, s', r, owner, s.requests[owner]);
    }
    FrameRequests(s, s', {owner});
  }

  lemma VanishPromises(s: State, s': State, r: Ref)
    requires Vanished(s, s', r) && Ownership(s) && Promises(s)
    ensures Promises(s')
  {
    FramePromises(s, s');
  }

  lemma VanishPlans(cfg: Config, s: State, s': State, r: Ref)
    requires Vanished(s, s', r) && RequestsOk(s) && PlansCurrent(cfg, s)
    ensures PlansCurrent(cfg, s')
  {
    FramePlans(cfg, s, s');
  }

  lemma VanishKeeps(cfg: Config, s: State, s': State, r: Ref)
    requires Inv(cfg, s) && Vanished(s, s', r)
    requires var owner := s.resources[r].owner;
             owner in s.requests ==> s.resources[r].deleting || s.requests[owner].pc.QDeleting?
    ensures Inv(cfg, s')
  {
    VanishIdentities(s, s', r);
    VanishRecord(cfg, s, s', r);
    VanishOwnership(s, s', r);
    VanishMachines(s, s', r);
    VanishResources(s, s', r);
    VanishRequests(s, s', r);
    VanishPromises(s, s', r);
    VanishPlans(cfg, s, s', r);
  }

  lemma ResourceGoneKeeps(cfg: Config, s: State, s': State, r: Ref)
    requires Inv(cfg, s) && ResourceGone(s, s', r)
    ensures Inv(cfg, s')
  {
    GoneIsUnbound(s, s', r);
    VanishKeeps(cfg, s, s', r);
  }
}
