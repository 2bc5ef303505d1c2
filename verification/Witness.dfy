/** Runs that exist: what the laws about reachable states are about, and what happens without each assumption. */
module Witness {
  import opened Options
  import opened Refs
  import opened Resources
  import opened Sizes
  import opened Machines
  import opened Capacity
  import opened Relationships
  import opened Placement
  import opened Grouping
  import opened Scheduler
  import opened Cluster
  import opened Guarantees
  import Invariants
  import Safety

  // ---- Adding steps to a run -------------------------------------------------------------

  lemma OneMore<S, T>(run: seq<S>, steps: seq<T>, next: (S, S, T) -> bool, s: S, step: T)
    requires |run| == |steps| + 1 && next(run[|run| - 1], s, step)
    requires forall i :: 0 <= i < |steps| ==> next(run[i], run[i + 1], steps[i])
    ensures var longer, more := run + [s], steps + [step];
            forall i :: 0 <= i < |more| ==> next(longer[i], longer[i + 1], more[i])
  {
  }

  lemma Then(cfg: Config, s: State, step: Step, next: State)
    requires Reachable(cfg, s) && NextBy(cfg, s, next, step)
    ensures Reachable(cfg, next)
  {
    var run, steps :| IsRun(cfg, run, steps) && run[|run| - 1] == s;
    OneMore(run, steps, (a: State, b: State, t: Step) => NextBy(cfg, a, b, t), next, step);
    assert IsRun(cfg, run + [next], steps + [step]);
  }

  lemma StartIsReachable(cfg: Config) returns (s: State)
    ensures s == State(EMPTY_STATUS, 0, map[], map[], map[], {}) && Reachable(cfg, s)
  {
    s := State(EMPTY_STATUS, 0, map[], map[], map[], {});
    assert IsRun(cfg, [s], []);
  }

  lemma MoveMachine(cfg: Config, s: State, m: Ref, o: MachineObj, o': MachineObj)
    requires Reachable(cfg, WithMachine(s, m, o)) && MachineMove(WithMachine(s, m, o), o, o')
    ensures Reachable(cfg, WithMachine(s, m, o'))
  {
    var a := WithMachine(s, m, o);
    assert s.machines[m := o][m := o'] == s.machines[m := o'];
    assert MachineMove(a, o, o') && WithMachine(s, m, o') == WithMachine(a, m, o');
    Then(cfg, a, DoStepMachine(m), WithMachine(s, m, o'));
  }

  lemma MoveResource(cfg: Config, s: State, r: Ref, o: ResourceObj, o': ResourceObj)
    requires Reachable(cfg, WithResource(s, r, o)) && ResourceMove(WithResource(s, r, o), r, o, o')
    ensures Reachable(cfg, WithResource(s, r, o'))
  {
    var a := WithResource(s, r, o);
    assert s.resources[r := o][r := o'] == s.resources[r := o'];
    assert ResourceMove(a, r, o, o') && WithResource(s, r, o') == WithResource(a, r, o');
    Then(cfg, a, DoStepResource(r), WithResource(s, r, o'));
  }

  lemma MoveRequest(cfg: Config, s: State, q: Ref, o: RequestObj, o': RequestObj)
    requires Reachable(cfg, WithRequest(s, q, o)) && RequestMove(WithRequest(s, q, o), q, o, o')
    ensures Reachable(cfg, WithRequest(s, q, o'))
  {
    var a := WithRequest(s, q, o);
    assert s.requests[q := o][q := o'] == s.requests[q := o'];
    assert RequestMove(a, q, o, o') && WithRequest(s, q, o') == WithRequest(a, q, o');
    Then(cfg, a, DoStepRequest(q), WithRequest(s, q, o'));
  }

  // ---- A machine comes up ----------------------------------------------------------------

  const INFO := MachineInfo("x86_64", 0, 1, map[])

  /** One byte of memory, no CPUs, no disks. */
  function Host(m: Ref): Machine {
    Machine(m, ReserveResources(0, 0), [], Some(INFO))
  }

  function HostObj(m: Ref): MachineObj {
    MachineObj(Host(m), MachineReady, false, true, MIdle)
  }

  lemma MachineComesUp(cfg: Config, s: State, m: Ref)
    requires Reachable(cfg, s) && Fresh(s, m) && forall x :: x in s.machines ==> x.namespace != m.namespace || x.name != m.name
    ensures Reachable(cfg, WithMachine(s.(uids := s.uids + {m.uid}), m, HostObj(m)))
  {
    var base := s.(uids := s.uids + {m.uid});
    var o := MachineObj(Host(m).(info := None), MachineNew, false, false, MIdle);
    assert CreateMachine(s, WithMachine(base, m, o), m) by {
      assert o.machine.ref == m;
    }
    Then(cfg, s, DoCreateMachine(m), WithMachine(base, m, o));
    MoveMachine(cfg, base, m, o, o.(finalizer := true));
    MoveMachine(cfg, base, m, o.(finalizer := true), o.(finalizer := true, state := MachineStarting));
    MoveMachine(cfg, base, m, o.(finalizer := true, state := MachineStarting), HostObj(m));
  }

  // ---- A request for one item gets to tryRequest -----------------------------------------

  function Spec(machine: string): TestResourceSpec {
    TestResourceSpec(1, 0, map[], machine)
  }

  /** One item; if it names a logical machine, that is to be "m" alone. */
  function Request(q: Ref, r: Ref, machine: string): TestResourceRequest {
    TestResourceRequest(q, if machine == "" then [] else [MachineRequest(machine, "m", true)], [ResourceRequestItem(r.name, Spec(machine))])
  }

  lemma RequestIsDeclared(q: Ref, r: Ref, machine: string)
    ensures ItemsDeclared(Request(q, r, machine))
  {
    assert machine != "" ==> Request(q, r, machine).machines[0].name == machine;
  }

  function Waiting(request: TestResourceRequest, pc: RequestPc): RequestObj {
    RequestObj(request, RequestPending, false, true, pc)
  }

  function Made(q: Ref, r: Ref, machine: string, finalizer: bool): ResourceObj {
    ResourceObj(TestResource(r, Spec(machine)), q, ResourceNew, false, finalizer, RIdle)
  }

  function Listing(o: ResourceObj): map<string, Listed> {
    map[o.resource.ref.name := Listed(o.resource, o.state.Required?)]
  }

  /** The namespace is new: nothing is in it yet. */
  ghost predicate Unused(s: State, namespace: string) {
    (forall x :: x in s.requests ==> x.namespace != namespace) && (forall x :: x in s.resources ==> x.namespace != namespace)
  }

  lemma RequestAppears(cfg: Config, s: State, q: Ref, r: Ref, machine: string)
    requires Reachable(cfg, s) && Fresh(s, q) && Unused(s, q.namespace)
    ensures Reachable(cfg, WithRequest(s.(uids := s.uids + {q.uid}), q, Waiting(Request(q, r, machine), QListed(map[]))))
  {
    var base := s.(uids := s.uids + {q.uid});
    var o := RequestObj(Request(q, r, machine), RequestNew, false, false, QIdle);
    assert CreateRequest(s, WithRequest(base, q, o), q) by {
      RequestIsDeclared(q, r, machine);
      assert o.request.ref == q;
    }
    Then(cfg, s, DoCreateRequest(q), WithRequest(base, q, o));
    MoveRequest(cfg, base, q, o, o.(finalizer := true));
    MoveRequest(cfg, base, q, o.(finalizer := true), Waiting(o.request, QIdle));
    MoveRequest(cfg, base, q, Waiting(o.request, QIdle), Waiting(o.request, QStarted));
    assert IsListing(WithRequest(base, q, Waiting(o.request, QStarted)), q.namespace, map[]);
    MoveRequest(cfg, base, q, Waiting(o.request, QStarted), Waiting(o.request, QListed(map[])));
  }

  lemma ResourceAppears(cfg: Config, s: State, q: Ref, r: Ref, machine: string)
    requires Reachable(cfg, WithRequest(s, q, Waiting(Request(q, r, machine), QListed(map[]))))
    requires Fresh(s, r) && r.namespace == q.namespace && forall x :: x in s.resources ==> x.namespace != q.namespace
    ensures Reachable(cfg, WithRequest(WithResource(s.(uids := s.uids + {r.uid}), r, Made(q, r, machine, false)), q,
                                       Waiting(Request(q, r, machine), QIdle)))
  {
    var request := Request(q, r, machine);
    var before := WithRequest(s, q, Waiting(request, QListed(map[])));
    var base := WithResource(s.(uids := s.uids + {r.uid}), r, Made(q, r, machine, false));
    assert CreateResource(before, WithRequest(base, q, Waiting(request, QListed(map[]))), q, r) by {
      assert request.items[0].name == r.name;
    }
    Then(cfg, before, DoCreateResource(q, r), WithRequest(base, q, Waiting(request, QListed(map[]))));
    MoveRequest(cfg, base, q, Waiting(request, QListed(map[])), Waiting(request, QIdle));
  }

  lemma ResourceGetsFinalizer(cfg: Config, s: State, q: Ref, r: Ref, machine: string, o: RequestObj)
    requires Reachable(cfg, WithRequest(WithResource(s, r, Made(q, r, machine, false)), q, o))
    ensures Reachable(cfg, WithRequest(WithResource(s, r, Made(q, r, machine, true)), q, o))
  {
    var base := WithRequest(s, q, o);
    assert WithRequest(WithResource(s, r, Made(q, r, machine, false)), q, o) == WithResource(base, r, Made(q, r, machine, false));
    MoveResource(cfg, base, r, Made(q, r, machine, false), Made(q, r, machine, true));
  }

  /** The resource is the only one in the namespace of its request. */
  ghost predicate Alone(s: State, q: Ref, r: Ref) {
    && r in s.resources && s.resources[r].owner == q && s.resources[r].resource.ref == r && r.namespace == q.namespace
    && forall x :: x in s.resources && x.namespace == q.namespace ==> x == r
  }

  lemma RequestLists(cfg: Config, s: State, request: TestResourceRequest, r: Ref)
    requires Reachable(cfg, WithRequest(s, request.ref, Waiting(request, QIdle))) && Alone(s, request.ref, r)
    ensures Reachable(cfg, WithRequest(s, request.ref, Waiting(request, QListed(Listing(s.resources[r])))))
  {
    var q, listed := request.ref, Listing(s.resources[r]);
    MoveRequest(cfg, s, q, Waiting(request, QIdle), Waiting(request, QStarted));
    assert IsListing(WithRequest(s, q, Waiting(request, QStarted)), q.namespace, listed);
    MoveRequest(cfg, s, q, Waiting(request, QStarted), Waiting(request, QListed(listed)));
  }

  lemma RequestReads(cfg: Config, s: State, request: TestResourceRequest, listed: map<string, Listed>, book: map<string, Machine>)
    requires Reachable(cfg, WithRequest(s, request.ref, Waiting(request, QListed(listed)))) && |request.items| == 1
    requires |listed| == 1 && !AllRequired(listed) && request.ref !in s.rel.acceptedRequests && IsBook(s, book)
    ensures Reachable(cfg, WithRequest(s, request.ref, Waiting(request, QMachines(listed, Now(s), book))))
  {
    var q := request.ref;
    assert Now(WithRequest(s, q, Waiting(request, QListed(listed)))) == Now(s);
    MoveRequest(cfg, s, q, Waiting(request, QListed(listed)), Waiting(request, QRead(listed, Now(s))));
    assert IsBook(WithRequest(s, q, Waiting(request, QRead(listed, Now(s)))), book);
    MoveRequest(cfg, s, q, Waiting(request, QRead(listed, Now(s))), Waiting(request, QMachines(listed, Now(s), book)));
  }

  /** The store with the resource of a new request. */
  function WithItem(s: State, q: Ref, r: Ref, machine: string, finalizer: bool): State {
    WithResource(s.(uids := s.uids + {q.uid} + {r.uid}), r, Made(q, r, machine, finalizer))
  }

  lemma ItemIsAlone(s: State, q: Ref, r: Ref, machine: string, finalizer: bool)
    requires Unused(s, q.namespace) && r.namespace == q.namespace
    ensures Alone(WithItem(s, q, r, machine, finalizer), q, r)
  {
  }

  lemma ItemAppears(cfg: Config, s: State, q: Ref, r: Ref, machine: string, finalizer: bool)
    requires Reachable(cfg, s) && Fresh(s, q) && Fresh(s, r) && q.uid != r.uid && Unused(s, q.namespace) && r.namespace == q.namespace
    ensures Reachable(cfg, WithRequest(WithItem(s, q, r, machine, finalizer), q, Waiting(Request(q, r, machine), QIdle)))
  {
    RequestAppears(cfg, s, q, r, machine);
    ResourceAppears(cfg, s.(uids := s.uids + {q.uid}), q, r, machine);
    if finalizer {
      ResourceGetsFinalizer(cfg, s.(uids := s.uids + {q.uid} + {r.uid}), q, r, machine, Waiting(Request(q, r, machine), QIdle));
    }
  }

  /** The request is about to call tryRequest. */
  ghost function Trying(s: State, q: Ref, r: Ref, machine: string, finalizer: bool, book: map<string, Machine>): State {
    WithRequest(WithItem(s, q, r, machine, finalizer), q, Waiting(Request(q, r, machine), QMachines(Listing(Made(q, r, machine, finalizer)), Now(s), book)))
  }

  lemma RequestGetsToTry(cfg: Config, s: State, q: Ref, r: Ref, machine: string, finalizer: bool, book: map<string, Machine>)
    requires Reachable(cfg, s) && Fresh(s, q) && Fresh(s, r) && q.uid != r.uid && Unused(s, q.namespace) && r.namespace == q.namespace
    requires q !in s.rel.acceptedRequests && IsBook(s, book)
    ensures Reachable(cfg, Trying(s, q, r, machine, finalizer, book))
  {
    var base := WithItem(s, q, r, machine, finalizer);
    ItemAppears(cfg, s, q, r, machine, finalizer);
    ItemIsAlone(s, q, r, machine, finalizer);
    RequestLists(cfg, base, Request(q, r, machine), r);
    var listed := Listing(Made(q, r, machine, finalizer));
    assert r.name in listed && !listed[r.name].required;
    RequestReads(cfg, base, Request(q, r, machine), listed, book);
  }

  // ---- tryRequest takes it ---------------------------------------------------------------

  const BINDING := ResourceBinding(1, [], map[])

  function Plan(q: Ref, r: Ref, machine: string, m: Ref): seq<Placed> {
    [Placed(Host(m), TestResource(r, Spec(machine)), BINDING)]
  }

  function HostsOf(machine: string, m: Ref): map<string, Machine> {
    if machine == "" then map[] else map[machine := Host(m)]
  }

  /** After the commit. */
  ghost function Took(s: State, q: Ref, r: Ref, machine: string, m: Ref): State
    requires q in s.requests
  {
    Commit(WithRequest(s, q, s.requests[q].(pc := QIdle)),
           Accepted(s.rel, q, Plan(q, r, machine, m), LocksOf(Request(q, r, machine), HostsOf(machine, m))))
  }

  lemma ItemFits(cfg: Config, m: Ref, machine: string)
    requires Exact(cfg.round)
    ensures Fits(cfg, Host(m), [], Spec(machine), BINDING)
  {
    assert AvailableDisks(cfg.round, Host(m)) == map[];
    assert ServingOrder(cfg.byDevice, BINDING.disks, []);
  }

  lemma PlanIsLegal(cfg: Config, rel: RelationshipStatus, q: Ref, r: Ref, machine: string, m: Ref)
    requires Exact(cfg.round) && ListOf(rel, Key(m)) == []
    ensures Legal(cfg, rel, Plan(q, r, machine, m))
  {
    var plan := Plan(q, r, machine, m);
    ItemFits(cfg, m, machine);
    assert plan[..|plan| - 1] == [];
    assert Legal(cfg, rel, plan[..|plan| - 1]);
  }

  lemma PlanIsAccepted(cfg: Config, rel: RelationshipStatus, q: Ref, r: Ref, machine: string, m: Ref, listed: map<string, Listed>)
    requires Exact(cfg.round) && ListOf(rel, Key(m)) == [] && m.name == "m" && "m" !in rel.machineLocks
    requires listed.Keys == {r.name} && listed[r.name].resource == TestResource(r, Spec(machine))
    ensures Resolved(Request(q, r, machine).items, ResourcesOfListing(listed))
    ensures Accepts(cfg, rel, Request(q, r, machine), ResourcesOfListing(listed), map["m" := Host(m)], Plan(q, r, machine, m), HostsOf(machine, m))
  {
    var request, resources, book, plan := Request(q, r, machine), ResourcesOfListing(listed), map["m" := Host(m)], Plan(q, r, machine, m);
    PlanIsLegal(cfg, rel, q, r, machine, m);
    assert ResourcesOf(plan) == [TestResource(r, Spec(machine))] == ItemResources(request.items, resources);
    assert IsCandidate(rel, book, Host(m));
    assert Hosts(plan[0..0 + 1], Host(m), [TestResource(r, Spec(machine))]);
    if machine == "" {
      assert MachineNames(request.items) == {} && ExplicitNames(request.machines) == {};
    } else {
      assert request.items[0].spec.machine == machine;
      assert MachineNames(request.items) == {machine} == HostsOf(machine, m).Keys;
      assert DeclaredAs(request.machines, machine) == Some(request.machines[0]);
      assert request.items[..0] == [] && Naming(request.items, resources, machine) == [TestResource(r, Spec(machine))];
      assert request.machines[0].testMachineResource in ExplicitNames(request.machines);
      assert PreferredAt(cfg, rel, request, book, plan, DeclaredAs(request.machines, machine),
                         Naming(request.items, resources, machine), Host(m), 0);
    }
  }

  lemma CommitIsEnabled(cfg: Config, s: State, q: Ref, r: Ref, machine: string, m: Ref)
    requires Exact(cfg.round) && ListOf(s.rel, Key(m)) == [] && m.name == "m" && "m" !in s.rel.machineLocks
    requires q in s.requests && s.requests[q].request == Request(q, r, machine) && s.requests[q].pc.QMachines?
    requires s.requests[q].pc.snap == Now(s) && s.requests[q].pc.book == map["m" := Host(m)]
    requires s.requests[q].pc.resources.Keys == {r.name} && s.requests[q].pc.resources[r.name].resource == TestResource(r, Spec(machine))
    ensures AcceptUnchecked(cfg, s, Took(s, q, r, machine, m), q)
  {
    PlanIsAccepted(cfg, s.rel, q, r, machine, m, s.requests[q].pc.resources);
  }

  lemma TookBinds(s: State, q: Ref, r: Ref, machine: string, m: Ref)
    requires q in s.requests
    ensures var rel, e := Took(s, q, r, machine, m).rel, ResourceRef(r, BINDING);
            && Key(r) in rel.resourceToMachine && rel.resourceToMachine[Key(r)] == MachineRef(m, BINDING)
            && ListOf(rel, Key(m)) == ListOf(s.rel, Key(m)) + [e]
            && rel.acceptedRequests == s.rel.acceptedRequests + [q]
    ensures forall k :: k != Key(m) ==> ListOf(Took(s, q, r, machine, m).rel, k) == ListOf(s.rel, k)
  {
    var plan := Plan(q, r, machine, m);
    assert plan[..|plan| - 1] == [];
    assert Apply(s.rel, plan) == Bind(s.rel, m, r, BINDING);
  }

  lemma TryingCommits(cfg: Config, s: State, q: Ref, r: Ref, machine: string, m: Ref)
    requires Exact(cfg.round) && m.name == "m" && ListOf(s.rel, Key(m)) == [] && "m" !in s.rel.machineLocks
    ensures var before := Trying(s, q, r, machine, true, map["m" := Host(m)]); AcceptCommit(cfg, before, Took(before, q, r, machine, m), q)
  {
    var before := Trying(s, q, r, machine, true, map["m" := Host(m)]);
    CommitIsEnabled(cfg, before, q, r, machine, m);
    assert Finalized(before, before.requests[q].pc.resources);
  }

  /** A finalized resource is placed on the machine. */
  lemma RequestIsTaken(cfg: Config, s: State, q: Ref, r: Ref, machine: string, m: Ref)
    requires Exact(cfg.round) && m.name == "m" && ListOf(s.rel, Key(m)) == [] && "m" !in s.rel.machineLocks
    requires Reachable(cfg, Trying(s, q, r, machine, true, map["m" := Host(m)]))
    ensures var before := Trying(s, q, r, machine, true, map["m" := Host(m)]);
            NextBy(cfg, before, Took(before, q, r, machine, m), DoAccept(q)) && Reachable(cfg, Took(before, q, r, machine, m))
  {
    var before := Trying(s, q, r, machine, true, map["m" := Host(m)]);
    TryingCommits(cfg, s, q, r, machine, m);
    assert RequestNext(cfg, before, Took(before, q, r, machine, m), DoAccept(q));
    Then(cfg, before, DoAccept(q), Took(before, q, r, machine, m));
  }

  // ---- The runs --------------------------------------------------------------------------

  const M := Ref("one", "m", "1")
  const Q := Ref("q", "q", "2")
  const R := Ref("q", "r", "3")

  ghost function OneMachine(): State {
    WithMachine(State(EMPTY_STATUS, 0, map[], map[], map[], {} + {M.uid}), M, HostObj(M))
  }

  lemma OneMachineIsUp(cfg: Config)
    ensures Reachable(cfg, OneMachine()) && IsBook(OneMachine(), map["m" := Host(M)])
  {
    var s := StartIsReachable(cfg);
    MachineComesUp(cfg, s, M);
  }

  /** The request for one item on one machine, about to call tryRequest. */
  ghost function FirstTry(finalizer: bool): State {
    Trying(OneMachine(), Q, R, "", finalizer, map["m" := Host(M)])
  }

  lemma FirstTryIsReached(cfg: Config, finalizer: bool)
    ensures Reachable(cfg, FirstTry(finalizer))
  {
    OneMachineIsUp(cfg);
    RequestGetsToTry(cfg, OneMachine(), Q, R, "", finalizer, map["m" := Host(M)]);
  }

  lemma ResourceLeavesPending(cfg: Config, s: State, r: Ref, o: ResourceObj)
    requires Reachable(cfg, WithResource(s, r, o)) && !o.deleting && o.finalizer && o.state.ResourceNew? && o.pc.RIdle?
    requires Key(r) in s.rel.resourceToMachine
    ensures Reachable(cfg, WithResource(s, r, o.(state := Required)))
  {
    MoveResource(cfg, s, r, o, o.(state := ResourcePending));
    MoveResource(cfg, s, r, o.(state := ResourcePending), o.(state := ResourcePending, pc := RStarted));
    MoveResource(cfg, s, r, o.(state := ResourcePending, pc := RStarted), o.(state := ResourcePending, pc := RBound));
    MoveResource(cfg, s, r, o.(state := ResourcePending, pc := RBound), o.(state := Required));
  }

  lemma RequestBecomesReady(cfg: Config, s: State, request: TestResourceRequest, r: Ref)
    requires Reachable(cfg, WithRequest(s, request.ref, Waiting(request, QIdle))) && Alone(s, request.ref, r)
    requires |request.items| == 1 && s.resources[r].state.Required?
    ensures Reachable(cfg, WithRequest(s, request.ref, RequestObj(request, RequestReady, false, true, QIdle)))
  {
    RequestLists(cfg, s, request, r);
    assert AllRequired(Listing(s.resources[r]));
    MoveRequest(cfg, s, request.ref, Waiting(request, QListed(Listing(s.resources[r]))), RequestObj(request, RequestReady, false, true, QIdle));
  }

  /** Some run accepts a request and makes it ready: the laws about reachable states are not about nothing. */
  lemma SomeRequestBecomesReady(cfg: Config) returns (s: State)
    requires Exact(cfg.round)
    ensures Reachable(cfg, s) && Q in s.requests && s.requests[Q].state.RequestReady? && s.requests[Q].request.items != []
    ensures s.requests[Q].finalizer && s.requests[Q].pc.QIdle? && M in s.machines
    ensures s.rel.acceptedRequests == [Q] && s.rel.resourceToMachine == map[Key(R) := MachineRef(M, BINDING)]
    ensures ListOf(s.rel, Key(M)) == [ResourceRef(R, BINDING)] && s.rel.machineLocks == map[]
    ensures s.resources.Keys == {R} && Alone(s, Q, R) && s.resources[R].finalizer && s.resources[R].pc.RIdle? && s.resources[R].state.Required?
  {
    var o, request := Made(Q, R, "", true), Request(Q, R, "");
    FirstTryIsReached(cfg, true);
    RequestIsTaken(cfg, OneMachine(), Q, R, "", M);
    var taken := OneTaken();
    OneTakenIs();
    assert taken == WithResource(taken, R, o);
    ResourceLeavesPending(cfg, taken, R, o);
    var required := WithResource(taken, R, o.(state := Required));
    assert required == WithRequest(required, Q, Waiting(request, QIdle));
    RequestBecomesReady(cfg, required, request, R);
    s := WithRequest(required, Q, RequestObj(request, RequestReady, false, true, QIdle));
  }

  // ---- And gives everything back ---------------------------------------------------------

  lemma RequestIsMarked(cfg: Config, s: State, q: Ref, o: RequestObj)
    requires Reachable(cfg, WithRequest(s, q, o)) && o.finalizer && o.pc.QIdle?
    ensures Reachable(cfg, WithRequest(s, q, o.(deleting := true, pc := QDeleting(Owned(s, q)))))
  {
    MoveRequest(cfg, s, q, o, o.(deleting := true));
    assert Owned(WithRequest(s, q, o.(deleting := true)), q) == Owned(s, q);
    MoveRequest(cfg, s, q, o.(deleting := true), o.(deleting := true, pc := QDeleting(Owned(s, q))));
  }

  lemma ResourceIsMarked(cfg: Config, s: State, q: Ref, r: Ref, o: ResourceObj)
    requires Reachable(cfg, WithResource(s, r, o)) && o.finalizer
    requires q in s.requests && s.requests[q].pc.QDeleting? && r in s.requests[q].pc.owned
    ensures Reachable(cfg, WithResource(s, r, o.(deleting := true)))
  {
    var a, b := WithResource(s, r, o), WithResource(s, r, o.(deleting := true));
    assert DeleteResource(a, b, q, r) by {
      assert s.resources[r := o][r := o.(deleting := true)] == s.resources[r := o.(deleting := true)];
    }
    Then(cfg, a, DoDeleteResource(q, r), b);
  }

  /** The record without the resource. */
  ghost function Without(s: State, r: Ref): State
    requires Key(r) in s.rel.resourceToMachine
  {
    Commit(s, Release(s.rel, Key(s.rel.resourceToMachine[Key(r)].ref), r))
  }

  lemma ResourceIsReleased(cfg: Config, s: State, r: Ref, o: ResourceObj)
    requires Reachable(cfg, WithResource(s, r, o)) && o.deleting && o.finalizer && o.pc.RIdle?
    requires Key(r) in s.rel.resourceToMachine && s.rel.resourceToMachine[Key(r)].ref in s.machines
    ensures Reachable(cfg, WithResource(Without(s, r), r, o.(pc := RStrip)))
  {
    var host := s.rel.resourceToMachine[Key(r)].ref;
    assert Now(WithResource(s, r, o)) == Now(s);
    MoveResource(cfg, s, r, o, o.(pc := RRelease(Now(s))));
    assert FoundMachine(WithResource(s, r, o.(pc := RRelease(Now(s)))), host, host);
    MoveResource(cfg, s, r, o.(pc := RRelease(Now(s))), o.(pc := RFinalized(Now(s), host)));
    var a, b := WithResource(s, r, o.(pc := RFinalized(Now(s), host))), WithResource(Without(s, r), r, o.(pc := RStrip));
    assert ReleaseCommit(a, b, r) by {
      assert a.resources[r := o.(pc := RStrip)] == b.resources;
    }
    Then(cfg, a, DoRelease(r), b);
  }

  lemma ResourceGoes(cfg: Config, s: State, r: Ref, o: ResourceObj)
    requires Reachable(cfg, WithResource(s, r, o)) && o.deleting && o.pc.RStrip?
    ensures Reachable(cfg, s.(resources := s.resources - {r}))
  {
    var a, b := WithResource(s, r, o), s.(resources := s.resources - {r});
    assert a.resources - {r} == b.resources;
    assert ResourceGone(a, b, r);
    Then(cfg, a, DoResourceGone(r), b);
  }

  lemma RequestIsDropped(cfg: Config, s: State, q: Ref, o: RequestObj)
    requires Reachable(cfg, WithRequest(s, q, o)) && o.deleting && o.finalizer && Owned(s, q) == {}
    ensures Reachable(cfg, WithRequest(Commit(s, DropRequest(s.rel, q)), q, o.(pc := QStrip)))
  {
    MoveRequest(cfg, s, q, o, o.(pc := QIdle));
    assert Owned(WithRequest(s, q, o.(pc := QIdle)), q) == Owned(s, q);
    MoveRequest(cfg, s, q, o.(pc := QIdle), o.(pc := QDeleting({})));
    assert Now(WithRequest(s, q, o.(pc := QDeleting({})))) == Now(s);
    MoveRequest(cfg, s, q, o.(pc := QDeleting({})), o.(pc := QDrop(Now(s))));
    var a, b := WithRequest(s, q, o.(pc := QDrop(Now(s)))), WithRequest(Commit(s, DropRequest(s.rel, q)), q, o.(pc := QStrip));
    assert DropCommit(a, b, q) by {
      assert a.requests[q := o.(pc := QStrip)] == b.requests;
    }
    Then(cfg, a, DoDrop(q), b);
  }

  lemma RequestGoes(cfg: Config, s: State, q: Ref, o: RequestObj)
    requires Reachable(cfg, WithRequest(s, q, o)) && o.deleting && o.pc.QStrip?
    ensures Reachable(cfg, s.(requests := s.requests - {q}))
  {
    var a, b := WithRequest(s, q, o), s.(requests := s.requests - {q});
    assert a.requests - {q} == b.requests;
    assert RequestGone(a, b, q);
    Then(cfg, a, DoRequestGone(q), b);
  }

  lemma DroppedIsEmpty(s: State, q: Ref, r: Ref, m: Ref, b: ResourceBinding)
    requires s.rel.resourceToMachine == map[Key(r) := MachineRef(m, b)] && ListOf(s.rel, Key(m)) == [ResourceRef(r, b)]
    requires s.rel.acceptedRequests == [q] && s.rel.machineLocks == map[]
    ensures var rel := DropRequest(Without(s, r).rel, q);
            && rel.resourceToMachine == map[] && ListOf(rel, Key(m)) == [] && rel.acceptedRequests == [] && rel.machineLocks == map[]
  {
    assert [ResourceRef(r, b)][..0] == [] && [q][..0] == [];
    assert WithoutResource([ResourceRef(r, b)], r) == [];
    assert WithoutRequest([q], q) == [];
  }

  /** A ready request for one item can be deleted, and afterwards nothing is left of it. */
  lemma IsGivenBack(cfg: Config, s: State, q: Ref, o: RequestObj, r: Ref, m: Ref, b: ResourceBinding) returns (e: State)
    requires Reachable(cfg, WithRequest(s, q, o)) && o.finalizer && o.pc.QIdle? && m in s.machines
    requires Alone(s, q, r) && s.resources.Keys == {r} && s.resources[r].finalizer && s.resources[r].pc.RIdle?
    requires s.rel.resourceToMachine == map[Key(r) := MachineRef(m, b)] && ListOf(s.rel, Key(m)) == [ResourceRef(r, b)]
    requires s.rel.acceptedRequests == [q] && s.rel.machineLocks == map[]
    ensures Reachable(cfg, e) && q !in e.requests && r !in e.resources
    ensures e.rel.resourceToMachine == map[] && ListOf(e.rel, Key(m)) == [] && e.rel.acceptedRequests == [] && e.rel.machineLocks == map[]
  {
    var marked := o.(deleting := true, pc := QDeleting(Owned(s, q)));
    RequestIsMarked(cfg, s, q, o);
    assert r in Owned(s, q);
    var a, i := WithRequest(s, q, marked), s.resources[r];
    assert WithResource(a, r, i) == a by { assert a.resources[r := i] == a.resources; }
    ResourceIsMarked(cfg, a, q, r, i);
    ResourceIsReleased(cfg, a, r, i.(deleting := true));
    ResourceGoes(cfg, Without(a, r), r, i.(deleting := true, pc := RStrip));
    var c := Without(s, r).(resources := s.resources - {r});
    assert Without(a, r).(resources := a.resources - {r}) == WithRequest(c, q, marked);
    assert Owned(c, q) == {};
    RequestIsDropped(cfg, c, q, marked);
    RequestGoes(cfg, Commit(c, DropRequest(c.rel, q)), q, marked.(pc := QStrip));
    e := Commit(c, DropRequest(c.rel, q));
    e := e.(requests := e.requests - {q});
    DroppedIsEmpty(s, q, r, m, b);
  }

  /** Some run accepts a request, makes it ready, deletes it, and ends with the record as empty as it began. */
  lemma SomeRequestIsGivenBack(cfg: Config) returns (s: State)
    requires Exact(cfg.round)
    ensures Reachable(cfg, s) && Q !in s.requests && R !in s.resources
    ensures s.rel.resourceToMachine == map[] && ListOf(s.rel, Key(M)) == [] && s.rel.acceptedRequests == [] && s.rel.machineLocks == map[]
  {
    var ready := SomeRequestBecomesReady(cfg);
    assert ready == WithRequest(ready, Q, ready.requests[Q]) by {
      assert ready.requests[Q := ready.requests[Q]] == ready.requests;
    }
    s := IsGivenBack(cfg, ready, Q, ready.requests[Q], R, M, BINDING);
  }

  /** As coded, a run exists that binds a resource without a finalizer and then loses the resource but not its binding. */
  lemma SomeBindingLeaks(cfg: Config) returns (s: State, s1: State, s2: State, s3: State, s4: State)
    requires Exact(cfg.round)
    ensures Reachable(cfg, s) && AcceptUnchecked(cfg, s, s1, Q)
    ensures StepRequest(s1, s2, Q) && StepRequest(s2, s3, Q) && DeleteResource(s3, s4, Q, R)
    ensures R !in s4.resources && Key(R) in s4.rel.resourceToMachine
  {
    FirstTryIsReached(cfg, false);
    s, s1 := FirstTry(false), Took(FirstTry(false), Q, R, "", M);
    CommitIsEnabled(cfg, s, Q, R, "", M);
    TookBinds(s, Q, R, "", M);
    s2, s3, s4 := LeakSteps(s1, Q, R);
  }

  lemma FirstTryNeedsMachine(cfg: Config)
    requires Exact(cfg.round)
    ensures !Unneeded(cfg, FirstTry(true), M)
  {
    var o, plan := FirstTry(true).requests[Q], Plan(Q, R, "", M);
    PlanIsAccepted(cfg, EMPTY_STATUS, Q, R, "", M, o.pc.resources);
    assert plan[0].machine.ref == M;
    assert CouldPlaceOn(cfg, o.request, o.pc, M);
  }

  /** All of the machine's memory is reserved while the request is about to call tryRequest. */
  ghost function Edited(): State {
    WithMachine(FirstTry(true), M, HostObj(M).(machine := Host(M).(reserve := ReserveResources(0, 1))))
  }

  lemma EditIsIdle()
    ensures EditUnchecked(FirstTry(true), Edited(), M)
  {
    assert Host(M).(reserve := ReserveResources(0, 1)) == Host(M).(reserve := ReserveResources(0, 1), exclusiveDisks := []);
  }

  lemma EditedIsTaken(cfg: Config)
    requires Exact(cfg.round)
    ensures AcceptCommit(cfg, Edited(), Took(Edited(), Q, R, "", M), Q)
  {
    CommitIsEnabled(cfg, Edited(), Q, R, "", M);
    assert Finalized(Edited(), Edited().requests[Q].pc.resources);
  }

  lemma TookOne()
    ensures BoundMemory(ListOf(Took(Edited(), Q, R, "", M).rel, Key(M))) == 1
  {
    TookBinds(Edited(), Q, R, "", M);
    assert ListOf(Took(Edited(), Q, R, "", M).rel, Key(M)) == [ResourceRef(R, BINDING)];
    assert [ResourceRef(R, BINDING)][..0] == [];
  }

  /**
   * A spec edited between a request's read of the machines and its commit: the machine is idle and ready when it is
   * edited, and ends up with more memory bound than it has.
   */
  lemma EditOverCommits(cfg: Config) returns (s: State, s1: State, s2: State)
    requires Exact(cfg.round)
    ensures Reachable(cfg, s) && EditUnchecked(s, s1, M) && !Unneeded(cfg, s, M) && AcceptCommit(cfg, s1, s2, Q)
    ensures M in s2.machines && s2.machines[M].machine.info.Some?
    ensures var machine := s2.machines[M].machine;
            BoundMemory(ListOf(s2.rel, Key(M))) > machine.info.value.memory - machine.reserve.memory
  {
    s, s1 := FirstTry(true), Edited();
    s2 := Took(s1, Q, R, "", M);
    FirstTryIsReached(cfg, true);
    FirstTryNeedsMachine(cfg);
    EditIsIdle();
    EditedIsTaken(cfg);
    TookOne();
  }

  // ---- Two machines of one name ----------------------------------------------------------

  const M2 := Ref("two", "m", "4")
  const P := Ref("p", "p", "5")
  const S := Ref("p", "r", "6")

  /** The first request sits on the first machine. */
  ghost function OneTaken(): State {
    Took(FirstTry(true), Q, R, "", M)
  }

  lemma OneTakenIsReached(cfg: Config)
    requires Exact(cfg.round)
    ensures Reachable(cfg, OneTaken())
  {
    FirstTryIsReached(cfg, true);
    RequestIsTaken(cfg, OneMachine(), Q, R, "", M);
  }

  lemma KeysDiffer()
    ensures Key(M) != Key(M2)
  {
    if Key(M) == Key(M2) { KeyInjective(M, M2); }
  }

  lemma OneTakenIs()
    ensures var s := OneTaken();
            && s.machines.Keys == {M} && s.resources.Keys == {R} && s.requests.Keys == {Q} && s.uids == {"1", "2", "3"}
            && s.resources[R].owner == Q && s.rel.acceptedRequests == [Q] && s.rel.machineLocks == map[]
            && Key(R) in s.rel.resourceToMachine && s.rel.resourceToMachine[Key(R)].ref == M
            && ResourceRef(R, BINDING) in ListOf(s.rel, Key(M)) && ListOf(s.rel, Key(M2)) == []
  {
    TookBinds(FirstTry(true), Q, R, "", M);
    KeysDiffer();
    assert LocksOf(Request(Q, R, ""), HostsOf("", M)) == {};
  }

  ghost function TwoMachines(): State {
    WithMachine(OneTaken().(uids := OneTaken().uids + {M2.uid}), M2, HostObj(M2))
  }

  const BOOK := map["m" := Host(M2)]

  lemma SecondMachineIsUp(cfg: Config)
    requires Exact(cfg.round)
    ensures Reachable(cfg, TwoMachines()) && IsBook(TwoMachines(), BOOK)
  {
    OneTakenIsReached(cfg);
    OneTakenIs();
    MachineComesUp(cfg, OneTaken(), M2);
  }

  ghost function SecondTry(): State {
    Trying(TwoMachines(), P, S, "x", true, BOOK)
  }

  lemma SecondIsNew()
    ensures var s := TwoMachines(); Fresh(s, P) && Fresh(s, S) && Unused(s, P.namespace) && P !in s.rel.acceptedRequests
  {
    OneTakenIs();
  }

  lemma SecondTryIsReached(cfg: Config)
    requires Exact(cfg.round)
    ensures Reachable(cfg, SecondTry())
  {
    SecondMachineIsUp(cfg);
    SecondIsNew();
    RequestGetsToTry(cfg, TwoMachines(), P, S, "x", true, BOOK);
  }

  lemma SecondIsTaken(cfg: Config)
    requires Exact(cfg.round)
    ensures NextBy(cfg, SecondTry(), Took(SecondTry(), P, S, "x", M2), DoAccept(P))
  {
    SecondTryIsReached(cfg);
    OneTakenIs();
    RequestIsTaken(cfg, TwoMachines(), P, S, "x", M2);
  }

  lemma OnlyTheNameIsTaken(s: State)
    requires P in s.requests && Key(R) in s.rel.resourceToMachine && s.rel.machineLocks == map[]
    ensures var rel := Took(s, P, S, "x", M2).rel;
            && Key(R) in rel.resourceToMachine && rel.resourceToMachine[Key(R)] == s.rel.resourceToMachine[Key(R)]
            && rel.machineLocks == map["m" := P]
  {
    var plan, request, hosts := Plan(P, S, "x", M2), Request(P, S, "x"), HostsOf("x", M2);
    assert plan[..|plan| - 1] == [] && Apply(s.rel, plan) == Bind(s.rel, M2, S, BINDING);
    if Key(R) == Key(S) { KeyInjective(R, S); }
    assert "x" in hosts && DeclaredAs(request.machines, "x") == Some(request.machines[0]);
    assert LocksOf(request, hosts) == {"m"};
  }

  /** The first request sits on a machine called "m". */
  ghost predicate FirstSits(s: State) {
    && R in s.resources && s.resources[R].owner == Q && Key(R) in s.rel.resourceToMachine && HostOf(s, R) == M
    && ResourceRef(R, BINDING) in ListOf(s.rel, Key(M))
  }

  lemma FirstSitsThroughout()
    ensures FirstSits(SecondTry()) && SecondTry().rel.machineLocks == map[]
    ensures FirstSits(Took(SecondTry(), P, S, "x", M2)) && Took(SecondTry(), P, S, "x", M2).rel.machineLocks == map["m" := P]
  {
    OneTakenIs();
    KeysDiffer();
    OnlyTheNameIsTaken(SecondTry());
    TookBinds(SecondTry(), P, S, "x", M2);
  }

  lemma NothingLockedIsHeld(s: State)
    requires Invariants.EntriesOwned(s) && s.rel.machineLocks == map[]
    ensures HeldByName(s)
  {
  }

  lemma NameIsLost(s: State, s': State)
    requires FirstSits(s) && s.rel.machineLocks == map[] && FirstSits(s') && s'.rel.machineLocks == map["m" := P]
    ensures !LocksFreeNames(s, s') && !HeldByName(s')
  {
    assert !NameHeld(s', ResourceRef(R, BINDING));
  }

  /**
   * Machine names may repeat in another namespace, and locks go by names: one request sits on a machine called "m",
   * another takes a second machine called "m" for itself, and now the first one's machine counts as locked by the other.
   */
  lemma SomeNameIsShared(cfg: Config) returns (s: State, s': State)
    requires Exact(cfg.round)
    ensures Reachable(cfg, s) && NextBy(cfg, s, s', DoAccept(P)) && HeldByName(s) && !LocksFreeNames(s, s') && !HeldByName(s')
    ensures R in s'.resources && s'.resources[R].owner == Q && Key(R) in s'.rel.resourceToMachine
    ensures HostOf(s', R).name in s'.rel.machineLocks && s'.rel.machineLocks[HostOf(s', R).name] == P != Q
  {
    s, s' := SecondTry(), Took(SecondTry(), P, S, "x", M2);
    SecondTryIsReached(cfg);
    SecondIsTaken(cfg);
    FirstSitsThroughout();
    assert HeldByName(s) by {
      Safety.ReachableInv(cfg, s);
      NothingLockedIsHeld(s);
    }
    NameIsLost(s, s');
  }
}
