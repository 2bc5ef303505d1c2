/** When the spec of an idle machine may be edited: exactly when no acceptance in flight could place anything on it. */
module Edits {
  import opened Refs
  import opened Resources
  import opened Sizes
  import opened Capacity
  import opened Relationships
  import opened Placement
  import opened Grouping
  import opened PlacementLaws
  import opened Scheduler
  import opened Cluster
  import opened Invariants
  import opened Guarantees
  import Safety

  /** Every machine has the CPUs, devices and memory that are bound on it, each bound once. */
  ghost predicate AllSound(cfg: Config, s: State) {
    forall x :: x in s.machines ==> Sound(cfg.round, s.machines[x].machine, ListOf(s.rel, Key(x)))
  }

  ghost predicate Continues(cfg: Config, s: State, e: State) {
    exists run, steps :: RunFrom(cfg, s, run, steps) && run[|steps|] == e
  }

  /** No continuation, however long, binds what a machine does not have. */
  ghost predicate NeverExceeds(cfg: Config, s: State) {
    forall e :: Continues(cfg, s, e) ==> AllSound(cfg, e)
  }

  lemma Stays(cfg: Config, s: State)
    ensures Continues(cfg, s, s)
  {
    var run, steps: seq<Step> := [s], [];
    assert RunFrom(cfg, s, run, steps) && run[|steps|] == s;
  }

  lemma OneMore<S, T>(run: seq<S>, steps: seq<T>, next: (S, S, T) -> bool, s: S, step: T)
    requires |run| == |steps| + 1 && next(run[|run| - 1], s, step)
    requires forall i :: 0 <= i < |steps| ==> next(run[i], run[i + 1], steps[i])
    ensures var longer, more := run + [s], steps + [step];
            forall i :: 0 <= i < |more| ==> next(longer[i], longer[i + 1], more[i])
  {
  }

  lemma GoesOn(cfg: Config, s: State, e: State, step: Step, next: State)
    requires Continues(cfg, s, e) && NextBy(cfg, e, next, step)
    ensures Continues(cfg, s, next)
  {
    var run, steps :| RunFrom(cfg, s, run, steps) && run[|steps|] == e;
    OneMore(run, steps, (a: State, b: State, t: Step) => NextBy(cfg, a, b, t), next, step);
    assert RunFrom(cfg, s, run + [next], steps + [step]) && (run + [next])[|steps + [step]|] == next;
  }

  // ---- Nothing needs the machine ---------------------------------------------------------

  lemma InvNeverExceeds(cfg: Config, s: State)
    requires Inv(cfg, s)
    ensures NeverExceeds(cfg, s)
  {
    forall e | Continues(cfg, s, e) ensures AllSound(cfg, e) {
      var run, steps :| RunFrom(cfg, s, run, steps) && run[|steps|] == e;
      InvAfter(cfg, s, run, steps, |steps|);
    }
  }

  // ---- Something could be placed on it ---------------------------------------------------

  /** The resource waits for its finalizer. */
  ghost predicate CanBeFinalized(s: State, r: Ref) {
    r in s.resources && (s.resources[r].finalizer || (!s.resources[r].deleting && s.resources[r].pc.RIdle?))
  }

  lemma GetsFinalizer(cfg: Config, s: State, e: State, r: Ref) returns (f: State)
    requires Continues(cfg, s, e) && CanBeFinalized(e, r)
    ensures Continues(cfg, s, f) && f == WithResource(e, r, e.resources[r].(finalizer := true))
  {
    f := WithResource(e, r, e.resources[r].(finalizer := true));
    if e.resources[r].finalizer {
      assert f.resources == e.resources;
    } else {
      assert ResourceMove(e, r, e.resources[r], f.resources[r]) && StepResource(e, f, r);
      GoesOn(cfg, s, e, DoStepResource(r), f);
    }
  }

  /** TestResourceReconciler gets to all of them. */
  lemma {:induction false} AllGetFinalizers(cfg: Config, s: State, e: State, todo: set<Ref>) returns (f: State)
    requires Continues(cfg, s, e) && forall r :: r in todo ==> CanBeFinalized(e, r)
    ensures Continues(cfg, s, f) && f == e.(resources := f.resources) && f.resources.Keys == e.resources.Keys
    ensures forall r :: r in f.resources && (r in todo || e.resources[r].finalizer) ==> f.resources[r].finalizer
    decreases todo
  {
    if todo == {} {
      f := e;
    } else {
      var r :| r in todo;
      var next := GetsFinalizer(cfg, s, e, r);
      f := AllGetFinalizers(cfg, s, next, todo - {r});
    }
  }

  lemma ListedCanBeFinalized(s: State, q: Ref, listed: map<string, Listed>, n: string)
    requires ResourcesOk(s) && ListingOk(s, q, listed) && n in listed
    ensures CanBeFinalized(s, listed[n].resource.ref)
  {
    var r := listed[n].resource.ref;
    assert ResourceOk(s, r, s.resources[r]);
  }

  lemma ListedGetFinalizers(cfg: Config, s: State, e: State, q: Ref, listed: map<string, Listed>) returns (f: State)
    requires Continues(cfg, s, e) && ResourcesOk(e) && ListingOk(e, q, listed)
    ensures Continues(cfg, s, f) && f == e.(resources := f.resources) && Finalized(f, listed)
  {
    var todo := set n | n in listed :: listed[n].resource.ref;
    forall r | r in todo ensures CanBeFinalized(e, r) {
      var n :| n in listed && listed[n].resource.ref == r;
      ListedCanBeFinalized(e, q, listed, n);
    }
    f := AllGetFinalizers(cfg, s, e, todo);
  }

  /** The edit that leaves the machine without memory. */
  function Exhausted(o: MachineObj): MachineObj {
    var memory := if o.machine.info.Some? then o.machine.info.value.memory + 1 else 0;
    o.(machine := o.machine.(reserve := o.machine.reserve.(memory := memory)))
  }

  lemma {:induction false} PlannedIsListed(rel: RelationshipStatus, plan: seq<Placed>, i: nat)
    requires i < |plan|
    ensures ListOf(Apply(rel, plan), Key(plan[i].machine.ref)) != []
  {
    var n := |plan| - 1;
    if i < n {
      PlannedIsListed(rel, plan[..n], i);
      assert plan == plan[..n] + [plan[n]];
      ApplyConcat(rel, plan[..n], [plan[n]]);
      ApplyGrows(Apply(rel, plan[..n]), [plan[n]], Key(plan[i].machine.ref));
    }
  }

  lemma {:induction false} BoundMemoryIsNotNegative(list: seq<ResourceRef>)
    ensures BoundMemory(list) >= 0
  {
    if list != [] {
      BoundMemoryIsNotNegative(list[..|list| - 1]);
    }
  }

  lemma ExhaustedHostsNothing(cfg: Config, o: MachineObj, list: seq<ResourceRef>)
    requires Exact(cfg.round) && list != []
    ensures !Sound(cfg.round, Exhausted(o).machine, list)
  {
    BoundMemoryIsNotNegative(list);
  }

  /** The plan commits as soon as its resources hold their finalizers, whatever became of the machine. */
  lemma PlanStillCommits(cfg: Config, s: State, e: State, q: Ref, plan: seq<Placed>, hosts: map<string, Machine>) returns (f: State)
    requires Continues(cfg, s, e) && ResourcesOk(e) && q in e.requests && e.requests[q].pc.QMachines?
    requires ListingOk(e, q, e.requests[q].pc.resources) && e.requests[q].pc.snap == Now(e)
    requires var o := e.requests[q];
             && Resolved(o.request.items, ResourcesOfListing(o.pc.resources))
             && Accepts(cfg, e.rel, o.request, ResourcesOfListing(o.pc.resources), o.pc.book, plan, hosts)
    ensures Continues(cfg, s, f) && f.machines == e.machines
    ensures f.rel == Accepted(e.rel, q, plan, LocksOf(e.requests[q].request, hosts))
  {
    var o := e.requests[q];
    var ready := ListedGetFinalizers(cfg, s, e, q, o.pc.resources);
    f := Commit(WithRequest(ready, q, o.(pc := QIdle)), Accepted(e.rel, q, plan, LocksOf(o.request, hosts)));
    assert AcceptUnchecked(cfg, ready, f, q);
    assert RequestNext(cfg, ready, f, DoAccept(q));
    GoesOn(cfg, s, ready, DoAccept(q), f);
  }

  lemma EditLeaves(cfg: Config, s: State, m: Ref, q: Ref)
    requires RequestsOk(s) && ResourcesOk(s) && m in s.machines && s.machines[m].state.MachineReady? && ListOf(s.rel, Key(m)) == []
    requires q in s.requests && s.requests[q].pc.QMachines? && s.requests[q].pc.snap.version == s.version
    ensures var s1 := WithMachine(s, m, Exhausted(s.machines[m]));
            && EditUnchecked(s, s1, m) && ResourcesOk(s1) && s1.requests[q].pc.snap == Now(s1)
            && ListingOk(s1, q, s1.requests[q].pc.resources)
  {
    var s1 := WithMachine(s, m, Exhausted(s.machines[m]));
    assert RequestOk(s, q, s.requests[q]);
    forall r | r in s1.resources ensures ResourceOk(s1, r, s1.resources[r]) {
      assert ResourceOk(s, r, s.resources[r]);
    }
    var machine := s.machines[m].machine;
    assert s1 == WithMachine(s, m, s.machines[m].(machine := machine.(reserve := Exhausted(s.machines[m]).machine.reserve,
                                                                      exclusiveDisks := machine.exclusiveDisks)));
  }

  /** A state in which the plan was committed on the exhausted machine. */
  lemma PlanExceeds(cfg: Config, s1: State, f: State, q: Ref, m: Ref, o: MachineObj, plan: seq<Placed>, locks: set<string>)
    requires Exact(cfg.round) && Continues(cfg, s1, f) && UsesMachine(plan, m)
    requires m in f.machines && f.machines[m] == Exhausted(o) && f.rel == Accepted(s1.rel, q, plan, locks)
    ensures !NeverExceeds(cfg, s1)
  {
    var i :| 0 <= i < |plan| && plan[i].machine.ref == m;
    PlannedIsListed(s1.rel, plan, i);
    ExhaustedHostsNothing(cfg, o, ListOf(f.rel, Key(m)));
    assert !AllSound(cfg, f);
  }

  lemma NeededIsExceeded(cfg: Config, s: State, m: Ref) returns (s1: State)
    requires Exact(cfg.round) && RequestsOk(s) && ResourcesOk(s) && !Unneeded(cfg, s, m)
    requires m in s.machines && s.machines[m].state.MachineReady? && ListOf(s.rel, Key(m)) == []
    ensures EditUnchecked(s, s1, m) && !NeverExceeds(cfg, s1)
  {
    var q :| q in s.requests && s.requests[q].pc.QMachines? && s.requests[q].pc.snap.version == s.version
             && CouldPlaceOn(cfg, s.requests[q].request, s.requests[q].pc, m);
    s1 := WithMachine(s, m, Exhausted(s.machines[m]));
    assert EditUnchecked(s, s1, m) && ResourcesOk(s1) && s1.requests[q].pc.snap == Now(s1)
           && ListingOk(s1, q, s1.requests[q].pc.resources) by {
      EditLeaves(cfg, s, m, q);
    }
    var o := s.requests[q];
    var plan: seq<Placed>, hosts: map<string, Machine> :|
      Accepts(cfg, o.pc.snap.rel, o.request, ResourcesOfListing(o.pc.resources), o.pc.book, plan, hosts)
      && UsesMachine(plan, m);
    PlanOnExhausted(cfg, s1, q, m, s.machines[m], plan, hosts);
  }

  lemma PlanOnExhausted(cfg: Config, s1: State, q: Ref, m: Ref, o: MachineObj, plan: seq<Placed>, hosts: map<string, Machine>)
    requires Exact(cfg.round) && ResourcesOk(s1) && m in s1.machines && s1.machines[m] == Exhausted(o)
    requires q in s1.requests && s1.requests[q].pc.QMachines? && s1.requests[q].pc.snap == Now(s1)
    requires ListingOk(s1, q, s1.requests[q].pc.resources)
    requires var o := s1.requests[q];
             && Resolved(o.request.items, ResourcesOfListing(o.pc.resources))
             && Accepts(cfg, s1.rel, o.request, ResourcesOfListing(o.pc.resources), o.pc.book, plan, hosts)
    requires UsesMachine(plan, m)
    ensures !NeverExceeds(cfg, s1)
  {
    Stays(cfg, s1);
    var f := PlanStillCommits(cfg, s1, s1, q, plan, hosts);
    PlanExceeds(cfg, s1, f, q, m, o, plan, LocksOf(s1.requests[q].request, hosts));
  }

  /**
   * The spec of an idle ready machine may be edited at will without any continuation ever binding what a machine does
   * not have, if and only if no acceptance that can still commit could place anything on it.
   */
  lemma EditSafeIff(cfg: Config, s: State, m: Ref)
    requires Exact(cfg.round) && Inv(cfg, s) && m in s.machines && s.machines[m].state.MachineReady? && ListOf(s.rel, Key(m)) == []
    ensures (forall s1 :: EditUnchecked(s, s1, m) ==> NeverExceeds(cfg, s1)) <==> Unneeded(cfg, s, m)
  {
    if Unneeded(cfg, s, m) {
      forall s1 | EditUnchecked(s, s1, m) ensures NeverExceeds(cfg, s1) {
        assert MachineNext(cfg, s, s1, DoEditMachine(m));
        Safety.NextKeepsInv(cfg, s, s1, DoEditMachine(m));
        InvNeverExceeds(cfg, s1);
      }
    } else {
      var s1 := NeededIsExceeded(cfg, s, m);
    }
  }
}
