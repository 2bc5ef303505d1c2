/** TestResourceRequestReconciler's steps, all but the acceptance, keep the invariant. */
module RequestSteps {
  import opened Refs
  import opened Resources
  import opened Relationships
  import opened Placement
  import opened Grouping
  import opened Cluster
  import opened Invariants
  import opened RecordLaws
  import opened Frames
  import opened ResourceSteps

  // ---- A request appears -----------------------------------------------------------------

  lemma CreateRequestShape(s: State, s': State, q: Ref)
    requires CreateRequest(s, s', q)
    ensures s'.rel == s.rel && s'.version == s.version && s'.machines == s.machines && s'.resources == s.resources
    ensures s'.uids == s.uids + {q.uid} && q in s'.requests && s'.requests == s.requests[q := s'.requests[q]]
    ensures var o := s'.requests[q];
            o.request.ref == q && ItemsDeclared(o.request) && o == RequestObj(o.request, RequestNew, false, false, QIdle)
  {
  }

  lemma CreateRequestIds(s: State, s': State, q: Ref)
    requires CreateRequest(s, s', q) && Identities(s)
    ensures Identities(s') && q !in s.requests
  {
  }

  lemma CreateRequestRequests(s: State, s': State, q: Ref)
    requires CreateRequest(s, s', q) && q !in s.requests && RequestsOk(s)
    ensures RequestsOk(s')
  {
    CreateRequestShape(s, s', q);
    FrameRequests(s, s', {q});
  }

  lemma CreateRequestResources(s: State, s': State, q: Ref)
    requires CreateRequest(s, s', q) && q !in s.requests && ResourcesOk(s)
    ensures ResourcesOk(s')
  {
    FrameResources(s, s', {});
  }

  lemma CreateRequestOthers(s: State, s': State, q: Ref)
    requires CreateRequest(s, s', q) && q !in s.requests && Ownership(s) && MachinesOk(s)
    ensures Ownership(s') && MachinesOk(s')
  {
    assert Ownership(s') by { FrameOwnership(s, s'); }
    assert MachinesOk(s') by { FrameMachines(s, s', {}); }
  }

  lemma CreateRequestPromises(s: State, s': State, q: Ref)
    requires CreateRequest(s, s', q) && q !in s.requests && Ownership(s) && Promises(s)
    ensures Promises(s')
  {
    FramePromises(s, s');
  }

  lemma CreateRequestPlans(cfg: Config, s: State, s': State, q: Ref)
    requires CreateRequest(s, s', q) && RequestsOk(s) && PlansCurrent(cfg, s)
    ensures PlansCurrent(cfg, s')
  {
    CreateRequestShape(s, s', q);
    FramePlans(cfg, s, s');
  }

  lemma CreateRequestKeeps(cfg: Config, s: State, s': State, q: Ref)
    requires Inv(cfg, s) && CreateRequest(s, s', q)
    ensures Inv(cfg, s')
  {
    CreateRequestIds(s, s', q);
    CreateRequestRequests(s, s', q);
    CreateRequestResources(s, s', q);
    CreateRequestOthers(s, s', q);
    CreateRequestPromises(s, s', q);
    CreateRequestPlans(cfg, s, s', q);
  }

  // ---- Steps of one request object -------------------------------------------------------

  /** A request that starts to list is not being deleted, so neither are its resources. */
  lemma StartsUndisturbed(s: State, q: Ref)
    requires ResourcesOk(s) && q in s.requests && !s.requests[q].deleting
    ensures NoneDeleting(s, q)
  {
    forall r | r in s.resources && s.resources[r].owner == q ensures !s.resources[r].deleting {
      assert ResourceOk(s, r, s.resources[r]);
    }
  }

  /** A listing without strangers lists the request's own resources. */
  lemma ListsItsOwn(s: State, q: Ref, listed: map<string, Listed>)
    requires RequestIds(s.requests, s.uids) && ResourceIds(s.resources, s.uids) && ResourcesOk(s) && q in s.requests
    requires forall r :: r in s.resources && r.namespace == q.namespace ==> s.resources[r].owner.uid == q.uid
    requires IsListing(s, q.namespace, listed)
    ensures ListingOk(s, q, listed)
  {
    forall n | n in listed
      ensures var r := listed[n].resource.ref;
              && r in s.resources && s.resources[r].resource == listed[n].resource && s.resources[r].owner == q && r.name == n
              && (listed[n].required ==> s.resources[r].state.Required?)
    {
      var r := listed[n].resource.ref;
      assert ResourceOk(s, r, s.resources[r]);
    }
  }

  /** A resource that left pending is bound, and only the acceptance of its owner binds it. */
  lemma BoundOwnerAccepted(cfg: Config, s: State, r: Ref)
    requires ResourceIds(s.resources, s.uids) && MachineIds(s.machines, s.uids)
    requires Record(cfg, s.rel, s.machines, s.resources) && EntriesOwned(s)
    requires r in s.resources && Key(r) in s.rel.resourceToMachine
    ensures s.resources[r].owner in s.rel.acceptedRequests
  {
    HasValidKeysOf(s.machines, s.resources, s.uids);
    var e := BoundHasEntry(cfg, s.rel, s.machines, s.resources, r);
    assert EntryOwned(s, e);
  }

  lemma HasValidKeysOf(machines: map<Ref, MachineObj>, resources: map<Ref, ResourceObj>, uids: set<string>)
    requires MachineIds(machines, uids) && ResourceIds(resources, uids)
    ensures ValidKeys(machines, resources)
  {
  }

  lemma ReadyIsAccepted(cfg: Config, s: State, q: Ref, listed: map<string, Listed>)
    requires Identities(s) && Record(cfg, s.rel, s.machines, s.resources) && EntriesOwned(s) && ResourcesOk(s)
    requires ListingOk(s, q, listed) && NoneDeleting(s, q) && AllRequired(listed) && |listed| > 0
    ensures q in s.rel.acceptedRequests
  {
    assert listed.Keys != {};
    var n :| n in listed.Keys;
    var r := listed[n].resource.ref;
    assert ResourceOk(s, r, s.resources[r]);
    BoundOwnerAccepted(cfg, s, r);
  }

  lemma BookIsLive(s: State, book: map<string, Machine>)
    requires MachinesOk(s) && IsBook(s, book)
    ensures WellNamed(book) && BookOk(s, book)
  {
    forall n | n in book ensures HostLive(s.machines, book[n].ref) {
      assert MachineOk(s, book[n].ref, s.machines[book[n].ref]);
    }
  }

  lemma OwnedIsOwned(s: State, q: Ref)
    requires RequestIds(s.requests, s.uids) && ResourceIds(s.resources, s.uids) && ResourcesOk(s) && q in s.requests
    ensures forall r :: r in Owned(s, q) ==> s.resources[r].owner == q && r.uid in s.uids
    ensures Owned(s, q) == {} ==> OwnsNothing(s, q)
  {
    forall r | r in s.resources ensures r in Owned(s, q) <==> s.resources[r].owner == q {
      assert ResourceOk(s, r, s.resources[r]);
    }
  }

  /** What a move needs to know about the rest of the state. */
  ghost predicate MoveFacts(s: State, q: Ref, o: RequestObj) {
    && Mirror(s.rel)
    && (!o.deleting ==> NoneDeleting(s, q))
    && ((forall r :: r in s.resources && r.namespace == q.namespace ==> s.resources[r].owner.uid == q.uid) ==>
          forall listed :: IsListing(s, q.namespace, listed) ==> ListingOk(s, q, listed))
    && (o.pc.QListed? && AllRequired(o.pc.resources) && |o.pc.resources| > 0 ==> q in s.rel.acceptedRequests)
    && (forall book :: IsBook(s, book) ==> WellNamed(book) && BookOk(s, book))
    && (forall r :: r in Owned(s, q) ==> s.resources[r].owner == q && r.uid in s.uids)
    && (Owned(s, q) == {} ==> OwnsNothing(s, q))
  }

  lemma MoveFactsHold(cfg: Config, s: State, q: Ref)
    requires Identities(s) && Record(cfg, s.rel, s.machines, s.resources) && EntriesOwned(s)
    requires MachinesOk(s) && ResourcesOk(s) && q in s.requests && RequestOk(s, q, s.requests[q])
    ensures MoveFacts(s, q, s.requests[q])
  {
    var o := s.requests[q];
    assert !o.deleting ==> NoneDeleting(s, q) by {
      if !o.deleting { StartsUndisturbed(s, q); }
    }
    forall listed | (forall r :: r in s.resources && r.namespace == q.namespace ==> s.resources[r].owner.uid == q.uid)
                    && IsListing(s, q.namespace, listed)
      ensures ListingOk(s, q, listed)
    {
      ListsItsOwn(s, q, listed);
    }
    if o.pc.QListed? && AllRequired(o.pc.resources) && |o.pc.resources| > 0 {
      ReadyIsAccepted(cfg, s, q, o.pc.resources);
    }
    forall book | IsBook(s, book) ensures WellNamed(book) && BookOk(s, book) {
      BookIsLive(s, book);
    }
    OwnedIsOwned(s, q);
  }

  ghost predicate Placing(pc: RequestPc) {
    pc.QStarted? || pc.QListed? || pc.QRead? || pc.QMachines?
  }

  lemma MoveToPlacing(s: State, s': State, q: Ref, o: RequestObj, o': RequestObj)
    requires RequestMove(s, q, o, o') && RequestOk(s, q, o) && MoveFacts(s, q, o)
    requires s'.rel == s.rel && s'.version == s.version && s'.machines == s.machines && s'.resources == s.resources && s'.uids == s.uids
    requires Placing(o'.pc)
    ensures RequestOk(s', q, o')
  {
  }

  lemma MoveElsewhere(s: State, s': State, q: Ref, o: RequestObj, o': RequestObj)
    requires RequestMove(s, q, o, o') && RequestOk(s, q, o) && MoveFacts(s, q, o)
    requires s'.rel == s.rel && s'.version == s.version && s'.machines == s.machines && s'.resources == s.resources && s'.uids == s.uids
    requires !Placing(o'.pc)
    ensures RequestOk(s', q, o')
  {
  }

  lemma MoveKeepsRequestOk(s: State, s': State, q: Ref, o: RequestObj, o': RequestObj)
    requires RequestMove(s, q, o, o') && RequestOk(s, q, o) && MoveFacts(s, q, o)
    requires s'.rel == s.rel && s'.version == s.version && s'.machines == s.machines && s'.resources == s.resources && s'.uids == s.uids
    ensures RequestOk(s', q, o')
  {
    if Placing(o'.pc) {
      MoveToPlacing(s, s', q, o, o');
    } else {
      MoveElsewhere(s, s', q, o, o');
    }
  }

  lemma StepRequestShape(s: State, s': State, q: Ref)
    requires StepRequest(s, s', q)
    ensures s'.rel == s.rel && s'.version == s.version && s'.uids == s.uids
    ensures s'.machines == s.machines && s'.resources == s.resources
    ensures q in s.requests && s'.requests == s.requests[q := s'.requests[q]]
    ensures s'.requests[q].request == s.requests[q].request
    ensures s.requests[q].finalizer ==> s'.requests[q].finalizer
    ensures s.requests[q].deleting ==> s'.requests[q].deleting
  {
  }

  lemma StepRequestOwn(s: State, s': State, q: Ref)
    requires StepRequest(s, s', q) && RequestOk(s, q, s.requests[q]) && MoveFacts(s, q, s.requests[q])
    ensures RequestOk(s', q, s'.requests[q])
  {
    var o' :| RequestMove(s, q, s.requests[q], o') && s' == WithRequest(s, q, o');
    MoveKeepsRequestOk(s, s', q, s.requests[q], o');
  }

  lemma StepRequestRequests(s: State, s': State, q: Ref)
    requires StepRequest(s, s', q) && RequestsOk(s) && RequestOk(s', q, s'.requests[q])
    ensures RequestsOk(s')
  {
    StepRequestShape(s, s', q);
    FrameRequests(s, s', {q});
  }

  lemma StepRequestOwnership(s: State, s': State, q: Ref)
    requires StepRequest(s, s', q) && RequestIds(s.requests, s.uids) && Ownership(s)
    ensures RequestIds(s'.requests, s'.uids) && Ownership(s')
  {
    StepRequestShape(s, s', q);
    FrameOwnership(s, s');
  }

  lemma StepRequestMachines(s: State, s': State, q: Ref)
    requires StepRequest(s, s', q) && MachinesOk(s)
    ensures MachinesOk(s')
  {
    FrameMachines(s, s', {});
  }

  lemma StepRequestResources(s: State, s': State, q: Ref)
    requires StepRequest(s, s', q) && ResourcesOk(s)
    ensures ResourcesOk(s')
  {
    StepRequestShape(s, s', q);
    FrameResources(s, s', {});
  }

  lemma StepRequestPromises(s: State, s': State, q: Ref)
    requires StepRequest(s, s', q) && Ownership(s) && Promises(s)
    ensures Promises(s')
  {
    StepRequestShape(s, s', q);
    FramePromises(s, s');
  }

  /** Machines that were just read are as they were read. */
  lemma StepRequestPlan(cfg: Config, s: State, s': State, q: Ref)
    requires StepRequest(s, s', q) && PlanCurrent(cfg, s, s.requests[q])
    ensures PlanCurrent(cfg, s', s'.requests[q])
  {
    StepRequestShape(s, s', q);
    var o' :| RequestMove(s, q, s.requests[q], o') && s' == WithRequest(s, q, o');
    if o'.pc.QMachines? && o'.pc != s.requests[q].pc {
      assert IsBook(s, o'.pc.book);
    }
  }

  lemma StepRequestPlans(cfg: Config, s: State, s': State, q: Ref)
    requires StepRequest(s, s', q) && RequestsOk(s) && PlansCurrent(cfg, s)
    ensures PlansCurrent(cfg, s')
  {
    StepRequestShape(s, s', q);
    StepRequestPlan(cfg, s, s', q);
    FramePlans(cfg, s, s');
  }

  lemma StepRequestKeeps(cfg: Config, s: State, s': State, q: Ref)
    requires Inv(cfg, s) && StepRequest(s, s', q)
    ensures Inv(cfg, s')
  {
    StepRequestShape(s, s', q);
    MoveFactsHold(cfg, s, q);
    StepRequestOwn(s, s', q);
    StepRequestRequests(s, s', q);
    StepRequestOwnership(s, s', q);
    StepRequestMachines(s, s', q);
    StepRequestResources(s, s', q);
    StepRequestPromises(s, s', q);
    StepRequestPlans(cfg, s, s', q);
  }

  // ---- A resource appears ----------------------------------------------------------------

  lemma CreateResourceIds(s: State, s': State, q: Ref, r: Ref)
    requires CreateResource(s, s', q, r) && Identities(s)
    ensures Identities(s') && r !in s.resources
  {
  }

  lemma CreateResourceRecord(cfg: Config, s: State, s': State, q: Ref, r: Ref)
    requires CreateResource(s, s', q, r) && r !in s.resources && Record(cfg, s.rel, s.machines, s.resources)
    ensures Record(cfg, s'.rel, s'.machines, s'.resources)
  {
    FrameRecordResources(cfg, s.rel, s.machines, s.resources, s'.resources);
  }

  lemma CreateResourceResources(s: State, s': State, q: Ref, r: Ref)
    requires CreateResource(s, s', q, r) && r !in s.resources && ResourcesOk(s) && RequestOk(s, q, s.requests[q])
    ensures ResourcesOk(s')
  {
    FrameResources(s, s', {r});
  }

  lemma CreateResourceOwn(s: State, s': State, q: Ref, r: Ref)
    requires CreateResource(s, s', q, r) && r !in s.resources && RequestOk(s, q, s.requests[q])
    ensures RequestOk(s', q, s.requests[q])
  {
  }

  lemma CreateResourceShape(s: State, s': State, q: Ref, r: Ref)
    requires CreateResource(s, s', q, r) && r !in s.resources
    ensures s'.rel == s.rel && s'.version == s.version && s'.machines == s.machines && s'.requests == s.requests
    ensures r in s'.resources && s'.resources[r].owner == q && s'.resources == s.resources[r := s'.resources[r]]
    ensures s'.uids == s.uids + {r.uid} && r.uid !in s.uids && q in s.requests
  {
  }

  lemma CreateResourceRequests(s: State, s': State, q: Ref, r: Ref)
    requires CreateResource(s, s', q, r) && r !in s.resources && RequestsOk(s) && RequestOk(s', q, s.requests[q])
    ensures RequestsOk(s')
  {
    CreateResourceShape(s, s', q, r);
    FrameRequests(s, s', {q});
  }

  lemma CreateResourceOthers(s: State, s': State, q: Ref, r: Ref)
    requires CreateResource(s, s', q, r) && r !in s.resources && Ownership(s) && MachinesOk(s)
    ensures Ownership(s') && MachinesOk(s')
  {
    assert Ownership(s') by { FrameOwnership(s, s'); }
    assert MachinesOk(s') by { FrameMachines(s, s', {}); }
  }

  lemma CreateResourcePromises(s: State, s': State, q: Ref, r: Ref)
    requires CreateResource(s, s', q, r) && r !in s.resources && Ownership(s) && Promises(s)
    ensures Promises(s')
  {
    CreateResourceShape(s, s', q, r);
    FramePromises(s, s');
  }

  lemma CreateResourcePlans(cfg: Config, s: State, s': State, q: Ref, r: Ref)
    requires CreateResource(s, s', q, r) && RequestsOk(s) && PlansCurrent(cfg, s)
    ensures PlansCurrent(cfg, s')
  {
    FramePlans(cfg, s, s');
  }

  lemma CreateResourceKeeps(cfg: Config, s: State, s': State, q: Ref, r: Ref)
    requires Inv(cfg, s) && CreateResource(s, s', q, r)
    ensures Inv(cfg, s')
  {
    CreateResourceIds(s, s', q, r);
    CreateResourceRecord(cfg, s, s', q, r);
    CreateResourceResources(s, s', q, r);
    CreateResourceOwn(s, s', q, r);
    CreateResourceRequests(s, s', q, r);
    CreateResourceOthers(s, s', q, r);
    CreateResourcePromises(s, s', q, r);
    CreateResourcePlans(cfg, s, s', q, r);
  }

  // ---- A resource is deleted -------------------------------------------------------------

  /** The deletion mark on a resource of a request that is being deleted. */
  ghost predicate Marked(s: State, s': State, q: Ref, r: Ref) {
    && q in s.requests && s.requests[q].pc.QDeleting? && s.requests[q].deleting
    && r in s.resources && s.resources[r].owner == q && s.resources[r].finalizer
    && s' == WithResource(s, r, s.resources[r].(deleting := true))
  }

  lemma DeletionMarksOrTakes(cfg: Config, s: State, s': State, q: Ref, r: Ref)
    requires MachineIds(s.machines, s.uids) && ResourceIds(s.resources, s.uids) && Record(cfg, s.rel, s.machines, s.resources)
    requires RequestsOk(s) && DeleteResource(s, s', q, r)
    ensures if s.resources[r].finalizer then Marked(s, s', q, r) else Vanished(s, s', r)
    ensures s.resources[r].owner == q && s.requests[q].pc.QDeleting?
  {
    assert RequestOk(s, q, s.requests[q]);
    if !s.resources[r].finalizer && Key(r) in s.rel.resourceToMachine {
      HasValidKeysOf(s.machines, s.resources, s.uids);
      var e := BoundHasEntry(cfg, s.rel, s.machines, s.resources, r);
    }
  }

  lemma MarkResources(s: State, s': State, q: Ref, r: Ref)
    requires Marked(s, s', q, r) && ResourcesOk(s)
    ensures ResourcesOk(s')
  {
    assert ResourceOk(s, r, s.resources[r]);
    FrameResources(s, s', {r});
  }

  lemma MarkOwn(s: State, s': State, q: Ref, r: Ref)
    requires Marked(s, s', q, r) && RequestOk(s, q, s.requests[q])
    ensures RequestOk(s', q, s.requests[q])
  {
  }

  lemma MarkKeepsForOthers(s: State, s': State, q: Ref, r: Ref)
    requires Marked(s, s', q, r)
    ensures Advances(s, s') && NoForgery(s, s') && forall x :: x != q ==> ResourcesKept(s, s', x)
  {
  }

  lemma MarkRequests(s: State, s': State, q: Ref, r: Ref)
    requires Marked(s, s', q, r) && RequestsOk(s)
    ensures RequestsOk(s')
  {
    MarkOwn(s, s', q, r);
    MarkKeepsForOthers(s, s', q, r);
    FrameRequests(s, s', {q});
  }

  lemma MarkRecord(cfg: Config, s: State, s': State, q: Ref, r: Ref)
    requires Marked(s, s', q, r) && Record(cfg, s.rel, s.machines, s.resources)
    ensures Record(cfg, s'.rel, s'.machines, s'.resources)
  {
    FrameRecordResources(cfg, s.rel, s.machines, s.resources, s'.resources);
  }

  lemma MarkOthers(s: State, s': State, q: Ref, r: Ref)
    requires Marked(s, s', q, r) && Identities(s) && Ownership(s) && MachinesOk(s)
    ensures Identities(s') && Ownership(s') && MachinesOk(s')
  {
    assert Ownership(s') by { FrameOwnership(s, s'); }
    assert MachinesOk(s') by { FrameMachines(s, s', {}); }
  }

  lemma MarkPromises(s: State, s': State, q: Ref, r: Ref)
    requires Marked(s, s', q, r) && Ownership(s) && Promises(s)
    ensures Promises(s')
  {
    FramePromises(s, s');
  }

  lemma MarkPlans(cfg: Config, s: State, s': State, q: Ref, r: Ref)
    requires Marked(s, s', q, r) && RequestsOk(s) && PlansCurrent(cfg, s)
    ensures PlansCurrent(cfg, s')
  {
    FramePlans(cfg, s, s');
  }

  lemma DeleteResourceKeeps(cfg: Config, s: State, s': State, q: Ref, r: Ref)
    requires Inv(cfg, s) && DeleteResource(s, s', q, r)
    ensures Inv(cfg, s')
  {
    DeletionMarksOrTakes(cfg, s, s', q, r);
    if s.resources[r].finalizer {
      MarkOthers(s, s', q, r);
      MarkRecord(cfg, s, s', q, r);
      MarkResources(s, s', q, r);
      MarkRequests(s, s', q, r);
      MarkPromises(s, s', q, r);
      MarkPlans(cfg, s, s', q, r);
    } else {
      VanishKeeps(cfg, s, s', r);
    }
  }

  // ---- A request gives up its place and its locks ----------------------------------------

  ghost predicate Dropped(s: State, s': State, q: Ref) {
    && q in s.requests && s.requests[q].deleting && OwnsNothing(s, q)
    && s' == Commit(WithRequest(s, q, s.requests[q].(pc := QStrip)), DropRequest(s.rel, q))
  }

  lemma CommitDrops(s: State, s': State, q: Ref)
    requires RequestsOk(s) && DropCommit(s, s', q)
    ensures Dropped(s, s', q)
  {
    assert RequestOk(s, q, s.requests[q]);
  }

  lemma {:induction false} WithoutKeepsNoRepeats(list: seq<Ref>, q: Ref)
    requires NoRepeats(list)
    ensures NoRepeats(WithoutRequest(list, q))
  {
    if list != [] {
      var n := |list| - 1;
      WithoutKeepsNoRepeats(list[..n], q);
      var rest := WithoutRequest(list[..n], q);
      forall i | 0 <= i < |rest| ensures rest[i] != list[n] {
        assert rest[i] in list[..n];
      }
    }
  }

  lemma DropOwnership(s: State, s': State, q: Ref)
    requires Dropped(s, s', q) && Ownership(s)
    ensures Ownership(s')
  {
    assert AcceptedLive(s'.rel.acceptedRequests, s'.requests) by {
      WithoutKeepsNoRepeats(s.rel.acceptedRequests, q);
    }
    assert HoldersAccepted(s'.rel.machineLocks, s'.rel.acceptedRequests);
    assert EntriesOwned(s') by {
      forall k, e | k in s'.rel.machineToResources && e in s'.rel.machineToResources[k]
        ensures e.ref in s'.resources && Key(e.ref) in s'.rel.resourceToMachine && EntryOwned(s', e)
      {
        assert EntryOwned(s, e);
      }
    }
  }

  lemma DropRecord(cfg: Config, s: State, s': State, q: Ref)
    requires Dropped(s, s', q) && Record(cfg, s.rel, s.machines, s.resources)
    ensures Record(cfg, s'.rel, s'.machines, s'.resources)
  {
    SameListsKeepsRecord(cfg, s.rel, s'.rel, s.machines, s.resources);
  }

  lemma DropMachines(s: State, s': State, q: Ref)
    requires Dropped(s, s', q) && MachinesOk(s)
    ensures MachinesOk(s')
  {
    forall m | m in s.machines && s.machines[m].pc.MStrip? ensures ListOf(s'.rel, Key(m)) == [] {
      assert MachineOk(s, m, s.machines[m]);
    }
    FrameMachines(s, s', {});
  }

  lemma DropResources(s: State, s': State, q: Ref)
    requires Dropped(s, s', q) && ResourcesOk(s)
    ensures ResourcesOk(s')
  {
    FrameResources(s, s', {});
  }

  lemma DropIdentities(s: State, s': State, q: Ref)
    requires Dropped(s, s', q) && Identities(s)
    ensures Identities(s')
  {
  }

  lemma DropOwn(s: State, s': State, q: Ref)
    requires Dropped(s, s', q) && RequestOk(s, q, s.requests[q]) && s.requests[q].finalizer
    ensures RequestOk(s', q, s'.requests[q])
  {
  }

  lemma DropRequests(s: State, s': State, q: Ref)
    requires Dropped(s, s', q) && RequestsOk(s) && s.requests[q].finalizer
    ensures RequestsOk(s')
  {
    DropOwn(s, s', q);
    FrameRequests(s, s', {q});
  }

  lemma DropKeepsExclusive(s: State, s': State, q: Ref, host: Ref, owner: Ref)
    requires Dropped(s, s', q) && Exclusive(s, host, owner) && owner != q
    ensures Exclusive(s', host, owner)
  {
  }

  lemma DropEntriesAsAsked(s: State, s': State, q: Ref)
    requires Dropped(s, s', q) && EntriesAsAsked(s)
    ensures EntriesAsAsked(s')
  {
    forall k, e | k in s'.rel.machineToResources && e in s'.rel.machineToResources[k] ensures EntryAsAsked(s', e) {
      assert EntryAsAsked(s, e);
      var o, host := s.resources[e.ref], s.rel.resourceToMachine[Key(e.ref)].ref;
      if Exclusive(s, host, o.owner) {
        DropKeepsExclusive(s, s', q, host, o.owner);
      }
    }
  }

  lemma DropFulfilled(s: State, s': State, q: Ref, x: Ref)
    requires Dropped(s, s', q) && x in s.requests && Fulfilled(s, x)
    ensures Fulfilled(s', x)
  {
    if !s'.requests[x].deleting {
      forall i | 0 <= i < |s'.requests[x].request.items| ensures ItemBound(s', x, s'.requests[x].request.items[i].name) {
        assert ItemBound(s, x, s.requests[x].request.items[i].name);
      }
    }
  }

  lemma DropPromises(s: State, s': State, q: Ref)
    requires Dropped(s, s', q) && Promises(s)
    ensures Promises(s')
  {
    DropEntriesAsAsked(s, s', q);
    forall x | x in s'.rel.acceptedRequests && x in s'.requests ensures Fulfilled(s', x) {
      DropFulfilled(s, s', q, x);
    }
  }

  lemma DropPlans(cfg: Config, s: State, s': State, q: Ref)
    requires Dropped(s, s', q) && RequestsOk(s)
    ensures PlansCurrent(cfg, s')
  {
    CommitEndsPlans(cfg, s, s');
  }

  lemma DropKeeps(cfg: Config, s: State, s': State, q: Ref)
    requires Inv(cfg, s) && DropCommit(s, s', q)
    ensures Inv(cfg, s')
  {
    CommitDrops(s, s', q);
    assert s.requests[q].finalizer by {
      assert RequestOk(s, q, s.requests[q]);
    }
    DropOwnership(s, s', q);
    DropRecord(cfg, s, s', q);
    DropMachines(s, s', q);
    DropResources(s, s', q);
    DropIdentities(s, s', q);
    DropRequests(s, s', q);
    DropPromises(s, s', q);
    DropPlans(cfg, s, s', q);
  }

  // ---- A request goes --------------------------------------------------------------------

  ghost predicate Left(s: State, s': State, q: Ref) {
    && q in s.requests && OwnsNothing(s, q) && q !in s.rel.acceptedRequests
    && s' == s.(requests := s.requests - {q})
  }

  lemma GoneLeaves(s: State, s': State, q: Ref)
    requires RequestsOk(s) && ResourcesOk(s) && AcceptedLive(s.rel.acceptedRequests, s.requests) && RequestGone(s, s', q)
    ensures Left(s, s', q)
  {
    assert RequestOk(s, q, s.requests[q]);
    forall r | r in s.resources ensures s.resources[r].owner != q {
      assert ResourceOk(s, r, s.resources[r]);
    }
  }

  lemma LeaveOthers(s: State, s': State, q: Ref)
    requires Left(s, s', q) && Identities(s) && Ownership(s) && MachinesOk(s)
    ensures Identities(s') && Ownership(s') && MachinesOk(s')
  {
    assert Ownership(s') by { FrameOwnership(s, s'); }
    assert MachinesOk(s') by { FrameMachines(s, s', {}); }
  }

  lemma LeaveResources(s: State, s': State, q: Ref)
    requires Left(s, s', q) && ResourcesOk(s)
    ensures ResourcesOk(s')
  {
    FrameResources(s, s', {});
  }

  lemma LeaveRequests(s: State, s': State, q: Ref)
    requires Left(s, s', q) && RequestsOk(s)
    ensures RequestsOk(s')
  {
    FrameRequests(s, s', {});
  }

  lemma LeavePromises(s: State, s': State, q: Ref)
    requires Left(s, s', q) && Ownership(s) && Promises(s)
    ensures Promises(s')
  {
    FramePromises(s, s');
  }

  lemma LeavePlans(cfg: Config, s: State, s': State, q: Ref)
    requires Left(s, s', q) && RequestsOk(s) && PlansCurrent(cfg, s)
    ensures PlansCurrent(cfg, s')
  {
    FramePlans(cfg, s, s');
  }

  lemma RequestGoneKeeps(cfg: Config, s: State, s': State, q: Ref)
    requires Inv(cfg, s) && RequestGone(s, s', q)
    ensures Inv(cfg, s')
  {
    GoneLeaves(s, s', q);
    LeaveOthers(s, s', q);
    LeaveResources(s, s', q);
    LeaveRequests(s, s', q);
    LeavePromises(s, s', q);
    LeavePlans(cfg, s, s', q);
  }
}
