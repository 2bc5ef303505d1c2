/** How test workloads claim and release the nodes they share, one version-checked commit at a time. */
module Claims {
  import opened Options
  import opened Refs
  import opened Workload

  datatype NodeObj = NodeObj(version: nat, state: NodeState, image: string, claim: Option<Ref>)

  datatype Item = Item(node: string, image: string)

  /** Walking is the loop of reconcilePending, Releasing that of uninstallWorkload; read is a node as it was read. */
  datatype Pc =
    | Idle
    | Walking(next: nat, installed: nat)
    | Claiming(at: nat, counted: nat, read: NodeObj)
    | Releasing(next: nat)
    | Freeing(at: nat, read: NodeObj)

  datatype WorkloadObj = WorkloadObj(items: seq<Item>, state: WorkloadState, deleting: bool, pc: Pc)

  /** known are all workloads there ever were. */
  datatype State = State(nodes: map<string, NodeObj>, workloads: map<Ref, WorkloadObj>, known: set<Ref>)

  ghost predicate Init(s: State) {
    && s.workloads == map[] && s.known == {}
    && forall n :: n in s.nodes ==> s.nodes[n].claim.None?
  }

  function With(s: State, w: Ref, o: WorkloadObj): State {
    s.(workloads := s.workloads[w := o])
  }

  function At(s: State, w: Ref, pc: Pc): State
    requires w in s.workloads
  {
    With(s, w, s.workloads[w].(pc := pc))
  }

  /** Status().Update of a node: refused unless it is still as it was read. */
  function Commit(s: State, n: string, read: NodeObj, o: NodeObj): Option<State>
    requires n in s.nodes
  {
    if s.nodes[n].version == read.version then Some(s.(nodes := s.nodes[n := o.(version := read.version + 1)])) else None
  }

  // ---- The loops, one node at a time -----------------------------------------------------

  /** reconcilePending looks at the next node. */
  function Walk(s: State, w: Ref): State
    requires w in s.workloads && s.workloads[w].pc.Walking?
  {
    var o, i, installed := s.workloads[w], s.workloads[w].pc.next, s.workloads[w].pc.installed;
    if i >= |o.items| then
      if installed == |o.items| then With(s, w, o.(state := WorkloadRunning, pc := Idle)) else At(s, w, Idle)
    else if o.items[i].node !in s.nodes then At(s, w, Idle)
    else
      var node := s.nodes[o.items[i].node];
      if node.claim.Some? && node.claim.value != w then At(s, w, Idle)
      else
        match node.state
        case NodeUninitialized =>
          if node.image == "" then At(s, w, Claiming(i, installed, node))
          else if node.image == o.items[i].image then At(s, w, Walking(i + 1, installed))
          else At(s, w, Idle)
        case NodeReady => if node.claim == Some(w) then At(s, w, Walking(i + 1, installed + 1)) else At(s, w, Idle)
        case NodeFinish => if node.claim == Some(w) then At(s, w, Walking(i + 1, installed + 1)) else At(s, w, Idle)
        // being destroyed: wait; pending or new: a panic
        case _ => At(s, w, Idle)
  }

  function Claim(s: State, w: Ref): State
    requires w in s.workloads && s.workloads[w].pc.Claiming?
  {
    var o, pc := s.workloads[w], s.workloads[w].pc;
    if pc.at >= |o.items| || o.items[pc.at].node !in s.nodes then At(s, w, Idle)
    else
      match Commit(s, o.items[pc.at].node, pc.read, pc.read.(claim := Some(w), image := o.items[pc.at].image))
      case Some(s') => At(s', w, Walking(pc.at + 1, pc.counted))
      case None => At(s, w, Idle)
  }

  predicate CouldUninstall(state: NodeState) {
    state.NodeUninitialized? || state.NodeReady? || state.NodeFinish?
  }

  /** uninstallWorkload reads the next node; the code does not look at its claim, guarded is a release that would. */
  function ReadToFree(guarded: bool, s: State, w: Ref): State
    requires w in s.workloads && s.workloads[w].pc.Releasing?
  {
    var o, i := s.workloads[w], s.workloads[w].pc.next;
    if i >= |o.items| then s.(workloads := s.workloads - {w})
    else if o.items[i].node !in s.nodes then At(s, w, Releasing(i + 1))
    else
      var node := s.nodes[o.items[i].node];
      if !CouldUninstall(node.state) || (guarded && node.claim != None && node.claim != Some(w)) then At(s, w, Releasing(i + 1))
      else At(s, w, Freeing(i, node))
  }

  /** The outcome of the update is not looked at either. */
  function Free(s: State, w: Ref): State
    requires w in s.workloads && s.workloads[w].pc.Freeing?
  {
    var o, pc := s.workloads[w], s.workloads[w].pc;
    if pc.at >= |o.items| || o.items[pc.at].node !in s.nodes then At(s, w, Idle)
    else
      match Commit(s, o.items[pc.at].node, pc.read, pc.read.(state := NodeDestroy, claim := None))
      case Some(s') => At(s', w, Releasing(pc.at + 1))
      case None => At(s, w, Releasing(pc.at + 1))
  }

  // ---- Steps and runs --------------------------------------------------------------------

  /** NodeMoves is any other update of a node, by its own controller or a topology: none touches the claim. */
  datatype Step =
    | Create(w: Ref, items: seq<Item>) | Mark(w: Ref) | Start(w: Ref) | DoWalk(w: Ref) | DoClaim(w: Ref)
    | StartRelease(w: Ref) | DoRead(w: Ref) | DoFree(w: Ref) | Fail(w: Ref)
    | NodeMoves(n: string, state: NodeState, image: string)

  /** A step that is not enabled changes nothing. */
  function Do(guarded: bool, s: State, step: Step): State {
    match step
    case Create(w, items) =>
      if w in s.known then s else With(s, w, WorkloadObj(items, WorkloadPending, false, Idle)).(known := s.known + {w})
    case Mark(w) => if w in s.workloads then With(s, w, s.workloads[w].(deleting := true)) else s
    case Start(w) =>
      if w in s.workloads && s.workloads[w].pc.Idle? && s.workloads[w].state.WorkloadPending? && !s.workloads[w].deleting
      then At(s, w, Walking(0, 0)) else s
    case DoWalk(w) => if w in s.workloads && s.workloads[w].pc.Walking? then Walk(s, w) else s
    case DoClaim(w) => if w in s.workloads && s.workloads[w].pc.Claiming? then Claim(s, w) else s
    case StartRelease(w) =>
      if w in s.workloads && s.workloads[w].pc.Idle? && s.workloads[w].deleting then At(s, w, Releasing(0)) else s
    case DoRead(w) => if w in s.workloads && s.workloads[w].pc.Releasing? then ReadToFree(guarded, s, w) else s
    case DoFree(w) => if w in s.workloads && s.workloads[w].pc.Freeing? then Free(s, w) else s
    case Fail(w) => if w in s.workloads then At(s, w, Idle) else s
    case NodeMoves(n, state, image) =>
      if n in s.nodes then s.(nodes := s.nodes[n := s.nodes[n].(version := s.nodes[n].version + 1, state := state, image := image)]) else s
  }

  function Run(guarded: bool, s: State, steps: seq<Step>): State {
    if steps == [] then s else Do(guarded, Run(guarded, s, steps[..|steps| - 1]), steps[|steps| - 1])
  }

  /** Something is so at each step of the run. */
  ghost predicate Along(guarded: bool, s: State, steps: seq<Step>, p: (State, Step) -> bool) {
    forall k :: 0 <= k < |steps| ==> p(Run(guarded, s, steps[..k]), steps[k])
  }

  lemma AlongPrefix(guarded: bool, s: State, steps: seq<Step>, p: (State, Step) -> bool, n: nat)
    requires Along(guarded, s, steps, p) && n <= |steps|
    ensures Along(guarded, s, steps[..n], p)
  {
    forall k | 0 <= k < n ensures p(Run(guarded, s, steps[..n][..k]), steps[..n][k]) {
      assert steps[..n][..k] == steps[..k];
    }
  }

  lemma AlongLast(guarded: bool, s: State, steps: seq<Step>, p: (State, Step) -> bool)
    requires steps != [] && Along(guarded, s, steps[..|steps| - 1], p)
    requires p(Run(guarded, s, steps[..|steps| - 1]), steps[|steps| - 1])
    ensures Along(guarded, s, steps, p)
  {
    var n := |steps| - 1;
    forall k | 0 <= k < |steps| ensures p(Run(guarded, s, steps[..k]), steps[k]) {
      if k < n {
        assert steps[..n][..k] == steps[..k] && steps[..n][k] == steps[k];
      }
    }
  }

  // ---- Who may lose a node without harm --------------------------------------------------

  ghost predicate Holds(s: State, w: Ref, node: string) {
    node in s.nodes && s.nodes[node].claim == Some(w)
  }

  ghost predicate HoldsFrom(s: State, w: Ref, items: seq<Item>, i: nat) {
    forall j :: i <= j < |items| ==> Holds(s, w, items[j].node)
  }

  ghost predicate UsesBelow(items: seq<Item>, i: nat, node: string) {
    exists j :: 0 <= j < i && j < |items| && items[j].node == node
  }

  ghost predicate Busy(s: State, w: Ref) {
    w in s.workloads && s.workloads[w].state.WorkloadRunning? && !s.workloads[w].deleting
  }

  ghost predicate Uses(s: State, w: Ref, node: string)
    requires w in s.workloads
  {
    UsesBelow(s.workloads[w].items, |s.workloads[w].items|, node)
  }

  /** No two running workloads use one node. */
  ghost predicate Exclusion(s: State) {
    forall a, b, node :: Busy(s, a) && Busy(s, b) && Uses(s, a, node) && Uses(s, b, node) ==> a == b
  }

  /** The workload runs on the node, or its pass has counted the node and holds all that it has yet to count. */
  ghost predicate CountsOn(s: State, w: Ref, node: string) {
    && w in s.workloads && !s.workloads[w].deleting
    && var o := s.workloads[w];
    || (o.state.WorkloadRunning? && Uses(s, w, node))
    || (o.pc.Walking? && o.pc.installed == o.pc.next && UsesBelow(o.items, o.pc.next, node) && HoldsFrom(s, w, o.items, o.pc.next))
  }

  /** The step is the update of a release that takes the node from its holder. */
  ghost predicate TakesFrom(s: State, step: Step, holder: Ref, node: string) {
    && step.DoFree? && step.w != holder && step.w in s.workloads && s.workloads[step.w].pc.Freeing?
    && var o := s.workloads[step.w];
    && o.pc.at < |o.items| && o.items[o.pc.at].node == node
    && Holds(s, holder, node) && s.nodes[node].version == o.pc.read.version
  }

  /** Nobody who counts on a node loses it in the step. */
  ghost predicate Harmless(s: State, step: Step) {
    forall a, node :: TakesFrom(s, step, a, node) ==> !CountsOn(Do(false, s, step), a, node)
  }

  // ---- What harmless steps keep ----------------------------------------------------------

  /** A node as it was read is never newer than the node, and equal to it at the same version. */
  ghost predicate GoodRead(s: State, node: string, read: NodeObj) {
    node in s.nodes && read.version <= s.nodes[node].version && (read.version == s.nodes[node].version ==> read == s.nodes[node])
  }

  ghost predicate WorkloadOk(s: State, w: Ref, o: WorkloadObj) {
    && w in s.known
    && (o.state.WorkloadRunning? && !o.deleting ==> HoldsFrom(s, w, o.items, 0))
    && (o.pc.Walking? ==>
          && o.pc.installed <= o.pc.next <= |o.items|
          && (o.pc.installed == o.pc.next && !o.deleting && HoldsFrom(s, w, o.items, o.pc.next) ==> HoldsFrom(s, w, o.items, 0)))
    && (o.pc.Claiming? ==>
          && o.pc.counted <= o.pc.at < |o.items|
          && GoodRead(s, o.items[o.pc.at].node, o.pc.read) && (o.pc.read.claim == None || o.pc.read.claim == Some(w)))
    && (o.pc.Releasing? ==> o.deleting)
    && (o.pc.Freeing? ==> o.deleting && o.pc.at < |o.items|)
  }

  ghost predicate Inv(s: State) {
    forall w :: w in s.workloads ==> WorkloadOk(s, w, s.workloads[w])
  }

  /** Nodes only get newer. */
  ghost predicate Newer(s: State, s': State) {
    && s.known <= s'.known
    && forall n :: n in s.nodes ==>
         && n in s'.nodes && s.nodes[n].version <= s'.nodes[n].version
         && (s.nodes[n].version == s'.nodes[n].version ==> s'.nodes[n] == s.nodes[n])
  }

  /** The workload gains no node, and loses none that it counts on. */
  ghost predicate Spared(s: State, s': State, w: Ref) {
    && (forall n :: Holds(s', w, n) ==> Holds(s, w, n))
    && (forall n :: Holds(s, w, n) && !Holds(s', w, n) ==> !CountsOn(s', w, n))
  }

  lemma SparedStaysOk(s: State, s': State, w: Ref)
    requires w in s.workloads && w in s'.workloads && s'.workloads[w] == s.workloads[w]
    requires Newer(s, s') && Spared(s, s', w) && WorkloadOk(s, w, s.workloads[w])
    ensures WorkloadOk(s', w, s'.workloads[w])
  {
    var o := s.workloads[w];
    if o.state.WorkloadRunning? && !o.deleting {
      forall j | 0 <= j < |o.items| ensures Holds(s', w, o.items[j].node) {
        assert Holds(s, w, o.items[j].node) && Uses(s', w, o.items[j].node);
      }
    }
    if o.pc.Walking? && o.pc.installed == o.pc.next && !o.deleting && HoldsFrom(s', w, o.items, o.pc.next) {
      assert HoldsFrom(s, w, o.items, o.pc.next);
      forall j | 0 <= j < |o.items| ensures Holds(s', w, o.items[j].node) {
        assert Holds(s, w, o.items[j].node);
        assert j < o.pc.next ==> UsesBelow(o.items, o.pc.next, o.items[j].node);
      }
    }
  }

  lemma ActorKeepsInv(s: State, s': State, actor: Option<Ref>)
    requires Inv(s) && Newer(s, s')
    requires forall w :: w in s'.workloads && Some(w) != actor ==>
               w in s.workloads && s'.workloads[w] == s.workloads[w] && Spared(s, s', w)
    requires actor.Some? && actor.value in s'.workloads ==> WorkloadOk(s', actor.value, s'.workloads[actor.value])
    ensures Inv(s')
  {
    forall w | w in s'.workloads && Some(w) != actor ensures WorkloadOk(s', w, s'.workloads[w]) {
      SparedStaysOk(s, s', w);
    }
  }

  lemma OwnWriteKeepsInv(s: State, w: Ref, o: WorkloadObj)
    requires Inv(s) && WorkloadOk(s, w, o)
    ensures Inv(With(s, w, o))
  {
    ActorKeepsInv(s, With(s, w, o), Some(w));
  }

  /** Walk writes nothing but its own workload. */
  lemma WalkShape(s: State, w: Ref)
    requires w in s.workloads && s.workloads[w].pc.Walking?
    ensures w in Walk(s, w).workloads && Walk(s, w) == With(s, w, Walk(s, w).workloads[w])
  {
  }

  lemma WalkOwn(s: State, w: Ref)
    requires w in s.workloads && s.workloads[w].pc.Walking? && WorkloadOk(s, w, s.workloads[w])
    ensures w in Walk(s, w).workloads && WorkloadOk(s, w, Walk(s, w).workloads[w])
  {
    var o, i := s.workloads[w], s.workloads[w].pc.next;
    if i < |o.items| && Holds(s, w, o.items[i].node) && HoldsFrom(s, w, o.items, i + 1) {
      assert HoldsFrom(s, w, o.items, i);
    }
  }

  lemma WalkKeepsInv(s: State, w: Ref)
    requires Inv(s) && w in s.workloads && s.workloads[w].pc.Walking?
    ensures Inv(Walk(s, w))
  {
    WalkShape(s, w);
    WalkOwn(s, w);
    OwnWriteKeepsInv(s, w, Walk(s, w).workloads[w]);
  }

  lemma ReadKeepsInv(guarded: bool, s: State, w: Ref)
    requires Inv(s) && w in s.workloads && s.workloads[w].pc.Releasing?
    ensures Inv(ReadToFree(guarded, s, w))
  {
    assert WorkloadOk(s, w, s.workloads[w]);
    ActorKeepsInv(s, ReadToFree(guarded, s, w), Some(w));
  }

  lemma ClaimKeepsInv(s: State, w: Ref)
    requires Inv(s) && w in s.workloads && s.workloads[w].pc.Claiming?
    ensures Inv(Claim(s, w))
  {
    assert WorkloadOk(s, w, s.workloads[w]);
    ActorKeepsInv(s, Claim(s, w), Some(w));
  }

  lemma FreeSpares(s: State, w: Ref, x: Ref)
    requires w in s.workloads && s.workloads[w].pc.Freeing? && Harmless(s, DoFree(w)) && x != w
    ensures Spared(s, Free(s, w), x)
  {
    forall n | Holds(s, x, n) && !Holds(Free(s, w), x, n) ensures !CountsOn(Free(s, w), x, n) {
      assert TakesFrom(s, DoFree(w), x, n);
    }
  }

  lemma FreeKeepsInv(s: State, w: Ref)
    requires Inv(s) && w in s.workloads && s.workloads[w].pc.Freeing? && Harmless(s, DoFree(w))
    ensures Inv(Free(s, w))
  {
    assert WorkloadOk(s, w, s.workloads[w]);
    forall x | x in Free(s, w).workloads && x != w ensures Spared(s, Free(s, w), x) {
      FreeSpares(s, w, x);
    }
    ActorKeepsInv(s, Free(s, w), Some(w));
  }

  lemma CreateKeepsInv(guarded: bool, s: State, w: Ref, items: seq<Item>)
    requires Inv(s) && w !in s.known
    ensures Inv(Do(guarded, s, Create(w, items)))
  {
    ActorKeepsInv(s, Do(guarded, s, Create(w, items)), Some(w));
  }

  /** Guarded or not, a step that harms nobody keeps the invariant. */
  lemma StepKeepsInv(guarded: bool, s: State, step: Step)
    requires Inv(s) && Harmless(s, step)
    ensures Inv(Do(guarded, s, step))
  {
    match step
    case Create(w, items) => if w !in s.known { CreateKeepsInv(guarded, s, w, items); }
    case Mark(w) => if w in s.workloads { OwnWriteKeepsInv(s, w, s.workloads[w].(deleting := true)); }
    case Start(w) => if Do(guarded, s, step) != s { OwnWriteKeepsInv(s, w, s.workloads[w].(pc := Walking(0, 0))); }
    case DoWalk(w) => if w in s.workloads && s.workloads[w].pc.Walking? { WalkKeepsInv(s, w); }
    case DoClaim(w) => if w in s.workloads && s.workloads[w].pc.Claiming? { ClaimKeepsInv(s, w); }
    case StartRelease(w) => if Do(guarded, s, step) != s { OwnWriteKeepsInv(s, w, s.workloads[w].(pc := Releasing(0))); }
    case DoRead(w) => if w in s.workloads && s.workloads[w].pc.Releasing? { ReadKeepsInv(guarded, s, w); }
    case DoFree(w) => if w in s.workloads && s.workloads[w].pc.Freeing? { FreeKeepsInv(s, w); }
    case Fail(w) => if w in s.workloads { OwnWriteKeepsInv(s, w, s.workloads[w].(pc := Idle)); }
    case NodeMoves(n, state, image) => ActorKeepsInv(s, Do(guarded, s, step), None);
  }

  lemma {:induction false} InvOnRuns(guarded: bool, s: State, steps: seq<Step>)
    requires Inv(s) && Along(guarded, s, steps, Harmless)
    ensures Inv(Run(guarded, s, steps))
  {
    if steps != [] {
      var n := |steps| - 1;
      AlongPrefix(guarded, s, steps, Harmless, n);
      InvOnRuns(guarded, s, steps[..n]);
      StepKeepsInv(guarded, Run(guarded, s, steps[..n]), steps[n]);
    }
  }

  /** A running workload holds every node it uses. */
  lemma InvExcludes(s: State)
    requires Inv(s)
    ensures Exclusion(s)
    ensures forall a, node :: Busy(s, a) && Uses(s, a, node) ==> Holds(s, a, node)
  {
    forall a, node | Busy(s, a) && Uses(s, a, node) ensures Holds(s, a, node) {
      assert WorkloadOk(s, a, s.workloads[a]);
    }
  }

  // ---- When a release is limited to the holder -------------------------------------------

  /** Each release in flight has read a node that was unclaimed or its own. */
  ghost predicate OwnRead(s: State, w: Ref, o: WorkloadObj) {
    o.pc.Freeing? && o.pc.at < |o.items| ==>
      GoodRead(s, o.items[o.pc.at].node, o.pc.read) && (o.pc.read.claim == None || o.pc.read.claim == Some(w))
  }

  ghost predicate OwnReads(s: State) {
    forall w :: w in s.workloads ==> OwnRead(s, w, s.workloads[w])
  }

  lemma StepIsNewer(guarded: bool, s: State, step: Step)
    requires Inv(s)
    ensures Newer(s, Do(guarded, s, step))
  {
    if step.DoClaim? && step.w in s.workloads {
      assert WorkloadOk(s, step.w, s.workloads[step.w]);
    }
  }

  lemma OwnReadStays(s: State, s': State, w: Ref, o: WorkloadObj)
    requires Newer(s, s') && OwnRead(s, w, o)
    ensures OwnRead(s', w, o)
  {
  }

  lemma GuardReadsOwn(s: State, w: Ref)
    requires w in s.workloads && s.workloads[w].pc.Releasing? && w in ReadToFree(true, s, w).workloads
    ensures OwnRead(ReadToFree(true, s, w), w, ReadToFree(true, s, w).workloads[w])
  {
  }

  lemma ActorReadsOwn(s: State, step: Step, w: Ref)
    requires w in Do(true, s, step).workloads && (w in s.workloads ==> Do(true, s, step).workloads[w] != s.workloads[w])
    requires w in s.workloads ==> OwnRead(s, w, s.workloads[w])
    ensures OwnRead(Do(true, s, step), w, Do(true, s, step).workloads[w])
  {
    match step
    case DoWalk(x) => if x in s.workloads && s.workloads[x].pc.Walking? { WalkShape(s, x); }
    case DoRead(x) => if x in s.workloads && s.workloads[x].pc.Releasing? { GuardReadsOwn(s, x); }
    case _ =>
  }

  lemma GuardKeepsOwnReads(s: State, step: Step)
    requires Inv(s) && OwnReads(s)
    ensures OwnReads(Do(true, s, step))
  {
    var s' := Do(true, s, step);
    assert Newer(s, s') by { StepIsNewer(true, s, step); }
    forall w | w in s'.workloads ensures OwnRead(s', w, s'.workloads[w]) {
      assert w in s.workloads ==> OwnRead(s, w, s.workloads[w]);
      if w in s.workloads && s'.workloads[w] == s.workloads[w] {
        OwnReadStays(s, s', w, s.workloads[w]);
      } else {
        ActorReadsOwn(s, step, w);
      }
    }
  }

  lemma OwnReadsAreHarmless(s: State, step: Step)
    requires OwnReads(s)
    ensures Harmless(s, step)
  {
    forall a, node ensures !TakesFrom(s, step, a, node) {
      if step.DoFree? && step.w in s.workloads {
        assert OwnRead(s, step.w, s.workloads[step.w]);
      }
    }
  }

  lemma {:induction false} GuardedRunsAreHarmless(s: State, steps: seq<Step>)
    requires Inv(s) && OwnReads(s)
    ensures Inv(Run(true, s, steps)) && OwnReads(Run(true, s, steps))
  {
    if steps != [] {
      var n := |steps| - 1;
      GuardedRunsAreHarmless(s, steps[..n]);
      OwnReadsAreHarmless(Run(true, s, steps[..n]), steps[n]);
      StepKeepsInv(true, Run(true, s, steps[..n]), steps[n]);
      GuardKeepsOwnReads(Run(true, s, steps[..n]), steps[n]);
    }
  }

  /** With the guard, a running workload holds every node it uses, so no two running workloads share one, in any run. */
  lemma MutualExclusion(s: State, steps: seq<Step>, a: Ref, node: string)
    requires Init(s)
    ensures Exclusion(Run(true, s, steps))
    ensures Busy(Run(true, s, steps), a) && Uses(Run(true, s, steps), a, node) ==> Holds(Run(true, s, steps), a, node)
  {
    GuardedRunsAreHarmless(s, steps);
    InvExcludes(Run(true, s, steps));
  }

  /** The step does not start to free a node that somebody else holds. */
  ghost predicate Respectful(s: State, step: Step) {
    step.DoRead? && step.w in s.workloads && s.workloads[step.w].pc.Releasing? ==>
      var o := s.workloads[step.w];
      o.pc.next < |o.items| && o.items[o.pc.next].node in s.nodes
      && !(s.nodes[o.items[o.pc.next].node].state.NodeNew? || s.nodes[o.items[o.pc.next].node].state.NodePending?
           || s.nodes[o.items[o.pc.next].node].state.NodeDestroy?) ==>
        s.nodes[o.items[o.pc.next].node].claim in {None, Some(step.w)}
  }

  lemma RespectfulStep(s: State, step: Step)
    requires Respectful(s, step)
    ensures Do(false, s, step) == Do(true, s, step)
  {
  }

  /** The guard is all that the code lacks: where no release reaches for another's node, it runs as if guarded. */
  lemma {:induction false} RunsAsIfGuarded(s: State, steps: seq<Step>)
    requires Along(false, s, steps, Respectful)
    ensures Run(false, s, steps) == Run(true, s, steps)
  {
    if steps != [] {
      var n := |steps| - 1;
      AlongPrefix(false, s, steps, Respectful, n);
      RunsAsIfGuarded(s, steps[..n]);
      RespectfulStep(Run(false, s, steps[..n]), steps[n]);
    }
  }

  // ---- Runs that exist -------------------------------------------------------------------

  ghost predicate Reaches(guarded: bool, s: State, e: State) {
    exists steps :: Run(guarded, s, steps) == e
  }

  /** By steps none of which writes a node for a release. */
  ghost predicate Quiet(steps: seq<Step>) {
    forall k :: 0 <= k < |steps| ==> !steps[k].DoFree?
  }

  ghost predicate Quietly(guarded: bool, s: State, e: State) {
    exists steps :: Quiet(steps) && Run(guarded, s, steps) == e
  }

  lemma OneMoreStep(guarded: bool, s: State, steps: seq<Step>, step: Step)
    ensures Run(guarded, s, steps + [step]) == Do(guarded, Run(guarded, s, steps), step)
  {
    assert (steps + [step])[..|steps|] == steps;
  }

  lemma StillQuiet(steps: seq<Step>, step: Step)
    requires Quiet(steps) && !step.DoFree?
    ensures Quiet(steps + [step])
  {
  }

  lemma Then(guarded: bool, s: State, e: State, step: Step, next: State)
    requires Quietly(guarded, s, e) && Do(guarded, e, step) == next && !step.DoFree?
    ensures Quietly(guarded, s, next)
  {
    var steps :| Quiet(steps) && Run(guarded, s, steps) == e;
    OneMoreStep(guarded, s, steps, step);
    StillQuiet(steps, step);
    assert Run(guarded, s, steps + [step]) == next;
  }

  lemma Reached(guarded: bool, s: State, e: State, step: Step)
    requires Reaches(guarded, s, e)
    ensures Reaches(guarded, s, Do(guarded, e, step))
  {
    var steps :| Run(guarded, s, steps) == e;
    OneMoreStep(guarded, s, steps, step);
  }

  lemma {:induction false} RunOn(guarded: bool, s: State, a: seq<Step>, b: seq<Step>)
    ensures Run(guarded, s, a + b) == Run(guarded, Run(guarded, s, a), b)
  {
    if b == [] {
      assert a + b == a;
    } else {
      RunOn(guarded, s, a, b[..|b| - 1]);
      assert (a + b)[..|a + b| - 1] == a + b[..|b| - 1];
    }
  }

  lemma ReachedQuietly(guarded: bool, s: State, e: State, f: State)
    requires Reaches(guarded, s, e) && Quietly(guarded, e, f)
    ensures Reaches(guarded, s, f)
  {
    var a :| Run(guarded, s, a) == e;
    var b :| Quiet(b) && Run(guarded, e, b) == f;
    RunOn(guarded, s, a, b);
  }

  lemma Stays(guarded: bool, s: State)
    ensures Quietly(guarded, s, s) && Reaches(guarded, s, s)
  {
    assert Quiet([]) && Run(guarded, s, []) == s;
  }

  /** s with one workload and one node set. */
  function Scene(s: State, w: Ref, o: WorkloadObj, node: string, n: NodeObj): State {
    State(s.nodes[node := n], s.workloads[w := o], s.known + {w})
  }

  function Single(node: string, image: string): WorkloadObj {
    WorkloadObj([Item(node, image)], WorkloadPending, false, Idle)
  }

  lemma Appears(guarded: bool, s: State, e: State, w: Ref, node: string, image: string)
    requires Quietly(guarded, s, e) && w !in e.known && node in e.nodes
    ensures Quietly(guarded, s, Scene(e, w, Single(node, image), node, e.nodes[node]))
  {
    assert e.nodes[node := e.nodes[node]] == e.nodes;
    Then(guarded, s, e, Create(w, [Item(node, image)]), Scene(e, w, Single(node, image), node, e.nodes[node]));
  }

  lemma Starts(guarded: bool, s: State, e: State, w: Ref, o: WorkloadObj, node: string, n: NodeObj)
    requires Quietly(guarded, s, Scene(e, w, o, node, n)) && o.pc.Idle? && o.state.WorkloadPending? && !o.deleting
    ensures Quietly(guarded, s, Scene(e, w, o.(pc := Walking(0, 0)), node, n))
  {
    Then(guarded, s, Scene(e, w, o, node, n), Start(w), Scene(e, w, o.(pc := Walking(0, 0)), node, n));
  }

  lemma ClaimsFree(guarded: bool, s: State, e: State, w: Ref, o: WorkloadObj, node: string, n: NodeObj)
    requires Quietly(guarded, s, Scene(e, w, o, node, n)) && |o.items| == 1 && o.items[0].node == node && o.pc == Walking(0, 0)
    requires n.state.NodeUninitialized? && n.image == "" && n.claim == None
    ensures Quietly(guarded, s, Scene(e, w, o.(pc := Walking(1, 0)), node,
                                      n.(version := n.version + 1, claim := Some(w), image := o.items[0].image)))
  {
    var looking, claiming := Scene(e, w, o, node, n), Scene(e, w, o.(pc := Claiming(0, 0, n)), node, n);
    assert Walk(looking, w) == claiming;
    Then(guarded, s, looking, DoWalk(w), claiming);
    var claimed := Scene(e, w, o.(pc := Walking(1, 0)), node, n.(version := n.version + 1, claim := Some(w), image := o.items[0].image));
    assert Claim(claiming, w) == claimed;
    Then(guarded, s, claiming, DoClaim(w), claimed);
  }

  lemma CountsOwn(guarded: bool, s: State, e: State, w: Ref, o: WorkloadObj, node: string, n: NodeObj)
    requires Quietly(guarded, s, Scene(e, w, o, node, n)) && |o.items| == 1 && o.items[0].node == node && o.pc == Walking(0, 0)
    requires n.state.NodeReady? && n.claim == Some(w)
    ensures Quietly(guarded, s, Scene(e, w, o.(pc := Walking(1, 1)), node, n))
  {
    Then(guarded, s, Scene(e, w, o, node, n), DoWalk(w), Scene(e, w, o.(pc := Walking(1, 1)), node, n));
  }

  lemma Concludes(guarded: bool, s: State, e: State, w: Ref, o: WorkloadObj, node: string, n: NodeObj)
    requires Quietly(guarded, s, Scene(e, w, o, node, n)) && |o.items| == 1 && o.pc.Walking? && o.pc.next == 1
    ensures Quietly(guarded, s, Scene(e, w, o.(state := if o.pc.installed == 1 then WorkloadRunning else o.state, pc := Idle), node, n))
  {
    Then(guarded, s, Scene(e, w, o, node, n), DoWalk(w),
         Scene(e, w, o.(state := if o.pc.installed == 1 then WorkloadRunning else o.state, pc := Idle), node, n));
  }

  lemma ComesUp(guarded: bool, s: State, e: State, w: Ref, o: WorkloadObj, node: string, n: NodeObj)
    requires Quietly(guarded, s, Scene(e, w, o, node, n))
    ensures Quietly(guarded, s, Scene(e, w, o, node, n.(version := n.version + 1, state := NodeReady)))
  {
    Then(guarded, s, Scene(e, w, o, node, n), NodeMoves(node, NodeReady, n.image),
         Scene(e, w, o, node, n.(version := n.version + 1, state := NodeReady)));
  }

  /** From pending to running on one node: claim it, let it come up, look again. */
  lemma Occupies(guarded: bool, s: State, e: State, w: Ref, node: string, image: string) returns (e': State)
    requires Quietly(guarded, s, e) && w !in e.known && node in e.nodes
    requires e.nodes[node].state.NodeUninitialized? && e.nodes[node].image == "" && e.nodes[node].claim == None
    ensures Quietly(guarded, s, e') && e'.known == e.known + {w}
    ensures e'.workloads == e.workloads[w := Single(node, image).(state := WorkloadRunning)]
    ensures e'.nodes.Keys == e.nodes.Keys && e'.nodes[node].state.NodeReady? && e'.nodes[node].claim == Some(w)
  {
    var o, n := Single(node, image), e.nodes[node];
    Appears(guarded, s, e, w, node, image);
    Starts(guarded, s, e, w, o, node, n);
    ClaimsFree(guarded, s, e, w, o.(pc := Walking(0, 0)), node, n);
    var claimed := n.(version := n.version + 1, claim := Some(w), image := image);
    Concludes(guarded, s, e, w, o.(pc := Walking(1, 0)), node, claimed);
    ComesUp(guarded, s, e, w, o, node, claimed);
    var up := claimed.(version := claimed.version + 1, state := NodeReady);
    Starts(guarded, s, e, w, o, node, up);
    CountsOwn(guarded, s, e, w, o.(pc := Walking(0, 0)), node, up);
    Concludes(guarded, s, e, w, o.(pc := Walking(1, 1)), node, up);
    e' := Scene(e, w, o.(state := WorkloadRunning), node, up);
  }

  // ---- The code as it is -----------------------------------------------------------------

  /** A pass that holds all it has yet to count can end with the workload running, whatever it counted and lost. */
  lemma {:induction false} FinishesPass(s: State, e: State, a: Ref, node: string) returns (e': State)
    requires Quietly(false, s, e) && a in e.workloads && !e.workloads[a].deleting && e.workloads[a].pc.Walking?
    requires e.workloads[a].pc.installed == e.workloads[a].pc.next <= |e.workloads[a].items|
    requires HoldsFrom(e, a, e.workloads[a].items, e.workloads[a].pc.next) && node in e.nodes && e.nodes[node].claim == None
    ensures Quietly(false, s, e') && Busy(e', a) && e'.workloads[a].items == e.workloads[a].items
    ensures node in e'.nodes && e'.nodes[node].claim == None && e'.known == e.known
    decreases |e.workloads[a].items| - e.workloads[a].pc.next
  {
    var o, i := e.workloads[a], e.workloads[a].pc.next;
    if i == |o.items| {
      e' := With(e, a, o.(state := WorkloadRunning, pc := Idle));
      Then(false, s, e, DoWalk(a), e');
    } else {
      assert Holds(e, a, o.items[i].node);
      var up := Do(false, e, NodeMoves(o.items[i].node, NodeReady, ""));
      Then(false, s, e, NodeMoves(o.items[i].node, NodeReady, ""), up);
      var counted := At(up, a, Walking(i + 1, i + 1));
      Then(false, s, up, DoWalk(a), counted);
      e' := FinishesPass(s, counted, a, node);
    }
  }

  /** Once a counts on a node that nobody holds, a newcomer can come to run on it beside a. */
  lemma NewcomerJoins(s: State, a: Ref, c: Ref, node: string) returns (e: State)
    requires CountsOn(s, a, node) && node in s.nodes && s.nodes[node].claim == None && a in s.known && c !in s.known
    requires s.workloads[a].state.WorkloadRunning? || s.workloads[a].pc.next <= |s.workloads[a].items|
    ensures Quietly(false, s, e) && Busy(e, a) && Busy(e, c) && Uses(e, a, node) && Uses(e, c, node)
  {
    Stays(false, s);
    var running := s;
    if !s.workloads[a].state.WorkloadRunning? {
      running := FinishesPass(s, s, a, node);
    }
    var clean := Do(false, running, NodeMoves(node, NodeUninitialized, ""));
    Then(false, s, running, NodeMoves(node, NodeUninitialized, ""), clean);
    e := Occupies(false, s, clean, c, node, "image");
    assert e.workloads[c].items[0].node == node;
    assert e.workloads[a].items == s.workloads[a].items;
  }

  lemma HarmBreaksExclusion(s: State, step: Step, c: Ref) returns (more: seq<Step>)
    requires Inv(s) && !Harmless(s, step) && c !in s.known
    ensures Quiet(more) && !Exclusion(Run(false, Do(false, s, step), more))
  {
    var a, node :| TakesFrom(s, step, a, node) && CountsOn(Do(false, s, step), a, node);
    assert WorkloadOk(s, a, s.workloads[a]);
    var e := NewcomerJoins(Do(false, s, step), a, c, node);
    more :| Quiet(more) && Run(false, Do(false, s, step), more) == e;
  }

  /** Exclusion holds now, and as long as no release writes a node. */
  ghost predicate Excludes(s: State) {
    forall more :: Quiet(more) ==> Exclusion(Run(false, s, more))
  }

  lemma QuietIsHarmless(s: State, steps: seq<Step>)
    requires Quiet(steps)
    ensures Along(false, s, steps, Harmless)
  {
    forall k | 0 <= k < |steps| ensures Harmless(Run(false, s, steps[..k]), steps[k]) {
      assert !steps[k].DoFree?;
    }
  }

  lemma InvKeepsExclusion(s: State)
    requires Inv(s)
    ensures Excludes(s)
  {
    forall more | Quiet(more) ensures Exclusion(Run(false, s, more)) {
      QuietIsHarmless(s, more);
      InvOnRuns(false, s, more);
      InvExcludes(Run(false, s, more));
    }
  }

  /** As coded, exclusion holds at the end of every run in which no release takes a node from a workload that counts on it. */
  lemma MutualExclusionAsCoded(s: State, steps: seq<Step>)
    requires Init(s) && Along(false, s, steps, Harmless)
    ensures Exclusion(Run(false, s, steps))
  {
    InvOnRuns(false, s, steps);
    InvExcludes(Run(false, s, steps));
  }

  lemma {:induction false} UidOutside(known: set<Ref>) returns (uid: string)
    ensures forall r :: r in known ==> |r.uid| < |uid|
  {
    if known == {} {
      uid := "";
    } else {
      var r :| r in known;
      uid := UidOutside(known - {r});
      if |uid| <= |r.uid| {
        uid := r.uid + "0";
      }
    }
  }

  lemma HarmlessStepIff(s: State, step: Step)
    requires Inv(s)
    ensures Harmless(s, step) <==> Excludes(Do(false, s, step))
  {
    if Harmless(s, step) {
      StepKeepsInv(false, s, step);
      InvKeepsExclusion(Do(false, s, step));
    } else {
      var uid := UidOutside(s.known);
      var more := HarmBreaksExclusion(s, step, Ref("", "", uid));
    }
  }

  /**
   * As coded, over every run: no release took a node from a workload that counted on it, if and only if exclusion
   * holds in every state of the run and would go on holding in each if from there on no release wrote a node.
   */
  lemma {:induction false} MutualExclusionIff(s: State, steps: seq<Step>)
    requires Init(s)
    ensures Along(false, s, steps, Harmless) <==> forall k :: 0 <= k <= |steps| ==> Excludes(Run(false, s, steps[..k]))
  {
    if Along(false, s, steps, Harmless) {
      forall k | 0 <= k <= |steps| ensures Excludes(Run(false, s, steps[..k])) {
        AlongPrefix(false, s, steps, Harmless, k);
        InvOnRuns(false, s, steps[..k]);
        InvKeepsExclusion(Run(false, s, steps[..k]));
      }
    }
    if forall k :: 0 <= k <= |steps| ==> Excludes(Run(false, s, steps[..k])) {
      ExcludingIsHarmless(s, steps);
    }
  }

  lemma {:induction false} ExcludingIsHarmless(s: State, steps: seq<Step>)
    requires Init(s) && forall k :: 0 <= k <= |steps| ==> Excludes(Run(false, s, steps[..k]))
    ensures Along(false, s, steps, Harmless)
  {
    if steps != [] {
      var n := |steps| - 1;
      forall k | 0 <= k <= n ensures Excludes(Run(false, s, steps[..n][..k])) {
        assert steps[..n][..k] == steps[..k];
      }
      ExcludingIsHarmless(s, steps[..n]);
      InvOnRuns(false, s, steps[..n]);
      assert Excludes(Do(false, Run(false, s, steps[..n]), steps[n])) by {
        assert steps[..|steps|] == steps;
      }
      HarmlessStepIff(Run(false, s, steps[..n]), steps[n]);
      AlongLast(false, s, steps, Harmless);
    }
  }

  lemma StepKeepsKnown(guarded: bool, s: State, step: Step)
    requires s.workloads.Keys <= s.known
    ensures Do(guarded, s, step).workloads.Keys <= Do(guarded, s, step).known
  {
  }

  lemma {:induction false} AllAreKnown(guarded: bool, s: State, steps: seq<Step>)
    requires s.workloads.Keys <= s.known
    ensures Run(guarded, s, steps).workloads.Keys <= Run(guarded, s, steps).known
  {
    if steps != [] {
      AllAreKnown(guarded, s, steps[..|steps| - 1]);
      StepKeepsKnown(guarded, Run(guarded, s, steps[..|steps| - 1]), steps[|steps| - 1]);
    }
  }

  /**
   * From any state reached as coded: if b's release is about to read a node that could be uninstalled and that a
   * claims and runs on, then some continuation has a and any newcomer c both running on it.
   */
  lemma ReleaseEndsExclusion(s: State, e: State, a: Ref, b: Ref, c: Ref, node: string) returns (f: State)
    requires Init(s) && Reaches(false, s, e) && Busy(e, a) && Uses(e, a, node) && Holds(e, a, node)
    requires e.nodes[node].state.NodeUninitialized? || e.nodes[node].state.NodeReady? || e.nodes[node].state.NodeFinish?
    requires b in e.workloads && b != a && e.workloads[b].pc.Releasing? && e.workloads[b].pc.next < |e.workloads[b].items|
    requires e.workloads[b].items[e.workloads[b].pc.next].node == node && c !in e.known
    ensures Reaches(false, e, f) && Busy(f, a) && Busy(f, c) && Uses(f, a, node) && Uses(f, c, node)
  {
    assert a in e.known by {
      var steps :| Run(false, s, steps) == e;
      AllAreKnown(false, s, steps);
    }
    Stays(false, e);
    var read := Do(false, e, DoRead(b));
    Reached(false, e, e, DoRead(b));
    var freed := Do(false, read, DoFree(b));
    Reached(false, e, read, DoFree(b));
    f := NewcomerJoins(freed, a, c, node);
    ReachedQuietly(false, e, freed, f);
  }

  lemma IsDeleted(guarded: bool, s: State, e: State, w: Ref)
    requires Quietly(guarded, s, e) && w in e.workloads && e.workloads[w].pc.Idle?
    ensures Quietly(guarded, s, With(e, w, e.workloads[w].(deleting := true, pc := Releasing(0))))
  {
    var marked := With(e, w, e.workloads[w].(deleting := true));
    Then(guarded, s, e, Mark(w), marked);
    assert With(marked, w, marked.workloads[w].(pc := Releasing(0))) == With(e, w, e.workloads[w].(deleting := true, pc := Releasing(0)));
    Then(guarded, s, marked, StartRelease(w), With(marked, w, marked.workloads[w].(pc := Releasing(0))));
  }

  /** As coded: a runs on the node, b, which never ran, is deleted, the node is cleaned, and c runs on it as well. */
  lemma TwoRunOnOneNode(s: State, a: Ref, b: Ref, c: Ref, node: string) returns (e: State)
    requires Init(s) && a != b && a != c && b != c && node in s.nodes
    requires s.nodes[node].state.NodeUninitialized? && s.nodes[node].image == ""
    ensures Reaches(false, s, e) && Busy(e, a) && Busy(e, c) && Uses(e, a, node) && Uses(e, c, node)
  {
    Stays(false, s);
    var s1 := Occupies(false, s, s, a, node, "image");
    Appears(false, s, s1, b, node, "image");
    var s2 := Scene(s1, b, Single(node, "image"), node, s1.nodes[node]);
    IsDeleted(false, s, s2, b);
    var s3 := With(s2, b, s2.workloads[b].(deleting := true, pc := Releasing(0)));
    assert s3.workloads[a].items[0].node == node;
    ReachedQuietly(false, s, s, s3);
    e := ReleaseEndsExclusion(s, s3, a, b, c, node);
    var before :| Run(false, s, before) == s3;
    var after :| Run(false, s3, after) == e;
    RunOn(false, s, before, after);
  }

  // ---- When a release takes effect -------------------------------------------------------

  /** How many items the release of a workload has done with. */
  function Passed(pc: Pc): nat {
    match pc
    case Releasing(next) => next
    case Freeing(at, _) => at
    case _ => 0
  }

  /** The release is at a node that the workload holds. */
  ghost predicate AtHeld(s: State, step: Step, w: Ref) {
    && w in s.workloads
    && var o := s.workloads[w];
    && ((step == DoRead(w) && o.pc.Releasing?) || (step == DoFree(w) && o.pc.Freeing?))
    && Passed(o.pc) < |o.items| && Holds(s, w, o.items[Passed(o.pc)].node)
  }

  /** The node is new, pending or already being destroyed when it is read, or it changed since it was read. */
  ghost predicate Unclean(s: State, step: Step, w: Ref) {
    && AtHeld(s, step, w)
    && var o := s.workloads[w];
    && var node := s.nodes[o.items[Passed(o.pc)].node];
    && if o.pc.Releasing? then node.state.NodeNew? || node.state.NodePending? || node.state.NodeDestroy?
       else node.version != o.pc.read.version
  }

  /** Guarded or not, a release leaves a node behind that its workload holds if and only if its step there is unclean. */
  lemma LeavesBehindIff(guarded: bool, s: State, step: Step, w: Ref)
    requires AtHeld(s, step, w)
    ensures var e, i := Do(guarded, s, step), Passed(s.workloads[w].pc);
            Unclean(s, step, w) <==> Holds(e, w, s.workloads[w].items[i].node) && w in e.workloads && Passed(e.workloads[w].pc) > i
  {
  }

  /** The workload holds nodes only of items that its release has yet to deal with, and none when it is gone. */
  ghost predicate Accounted(s: State, w: Ref) {
    if w in s.workloads then
      && w in s.known
      && forall n :: Holds(s, w, n) ==>
           exists j :: Passed(s.workloads[w].pc) <= j < |s.workloads[w].items| && s.workloads[w].items[j].node == n
    else
      forall n :: !Holds(s, w, n)
  }

  lemma OthersGiveNothing(guarded: bool, s: State, step: Step, w: Ref)
    requires step.NodeMoves? || step.w != w
    ensures var s' := Do(guarded, s, step); forall n :: Holds(s', w, n) ==> Holds(s, w, n)
  {
  }

  lemma OthersWriteTheirOwn(guarded: bool, s: State, step: Step, w: Ref)
    requires step.NodeMoves? || step.w != w
    ensures var s' := Do(guarded, s, step);
            && s.known <= s'.known && (w in s'.workloads <==> w in s.workloads)
            && (w in s.workloads ==> s'.workloads[w] == s.workloads[w])
  {
  }

  lemma OthersKeepAccounted(guarded: bool, s: State, step: Step, w: Ref)
    requires Accounted(s, w) && (step.NodeMoves? || step.w != w)
    ensures Accounted(Do(guarded, s, step), w)
  {
    OthersWriteTheirOwn(guarded, s, step, w);
    OthersGiveNothing(guarded, s, step, w);
  }

  lemma ClaimKeepsAccounted(s: State, w: Ref)
    requires Accounted(s, w) && w in s.workloads && s.workloads[w].pc.Claiming?
    ensures Accounted(Claim(s, w), w)
  {
    var o, s' := s.workloads[w], Claim(s, w);
    forall n | Holds(s', w, n) ensures exists j :: 0 <= j < |o.items| && o.items[j].node == n {
      if !Holds(s, w, n) {
        assert o.items[o.pc.at].node == n;
      }
    }
  }

  /** A held node that is not that of item i is one of a later item. */
  lemma LaterItem(items: seq<Item>, i: nat, n: string)
    requires i < |items| && items[i].node != n && exists j :: i <= j < |items| && items[j].node == n
    ensures exists j :: i + 1 <= j < |items| && items[j].node == n
  {
    var j :| i <= j < |items| && items[j].node == n;
    assert i + 1 <= j;
  }

  lemma PassKeepsAccounted(s: State, s': State, w: Ref, i: nat)
    requires Accounted(s, w) && w in s.workloads && Passed(s.workloads[w].pc) == i < |s.workloads[w].items|
    requires w in s'.workloads && w in s'.known && s'.workloads[w] == s.workloads[w].(pc := Releasing(i + 1))
    requires forall n :: Holds(s', w, n) ==> Holds(s, w, n) && n != s.workloads[w].items[i].node
    ensures Accounted(s', w)
  {
    forall n | Holds(s', w, n) ensures exists j :: i + 1 <= j < |s'.workloads[w].items| && s'.workloads[w].items[j].node == n {
      LaterItem(s.workloads[w].items, i, n);
    }
  }

  lemma RestartKeepsAccounted(s: State, s': State, w: Ref)
    requires Accounted(s, w) && w in s.workloads && w in s'.workloads && s'.workloads[w].items == s.workloads[w].items
    requires Passed(s'.workloads[w].pc) <= Passed(s.workloads[w].pc) && s'.nodes == s.nodes && s'.known == s.known
    ensures Accounted(s', w)
  {
    forall n | Holds(s', w, n)
      ensures exists j :: Passed(s'.workloads[w].pc) <= j < |s'.workloads[w].items| && s'.workloads[w].items[j].node == n
    {
      assert Holds(s, w, n);
    }
  }

  lemma ReadKeepsAccounted(guarded: bool, s: State, w: Ref)
    requires Accounted(s, w) && w in s.workloads && s.workloads[w].pc.Releasing? && !Unclean(s, DoRead(w), w)
    ensures Accounted(ReadToFree(guarded, s, w), w)
  {
    var s', i := ReadToFree(guarded, s, w), s.workloads[w].pc.next;
    if i >= |s.workloads[w].items| {
      assert forall n :: Holds(s', w, n) ==> Holds(s, w, n);
    } else if s'.workloads[w].pc.Releasing? {
      PassKeepsAccounted(s, s', w, i);
    } else {
      RestartKeepsAccounted(s, s', w);
    }
  }

  lemma FreeKeepsAccounted(s: State, w: Ref)
    requires Accounted(s, w) && w in s.workloads && s.workloads[w].pc.Freeing? && !Unclean(s, DoFree(w), w)
    ensures Accounted(Free(s, w), w)
  {
    var s', i := Free(s, w), s.workloads[w].pc.at;
    if s'.workloads[w].pc.Releasing? {
      PassKeepsAccounted(s, s', w, i);
    } else {
      RestartKeepsAccounted(s, s', w);
    }
  }

  lemma CleanStepKeepsAccounted(guarded: bool, s: State, step: Step, w: Ref)
    requires Accounted(s, w) && !Unclean(s, step, w)
    ensures Accounted(Do(guarded, s, step), w)
  {
    if step.NodeMoves? || step.w != w {
      OthersKeepAccounted(guarded, s, step, w);
    } else if Do(guarded, s, step) != s {
      match step
      case Create(_, _) => assert forall n :: Holds(Do(guarded, s, step), w, n) ==> Holds(s, w, n);
      case DoWalk(_) =>
        WalkShape(s, w);
        assert Walk(s, w).workloads[w].items == s.workloads[w].items && Passed(Walk(s, w).workloads[w].pc) == 0;
        RestartKeepsAccounted(s, Walk(s, w), w);
      case DoClaim(_) => ClaimKeepsAccounted(s, w);
      case DoRead(_) => ReadKeepsAccounted(guarded, s, w);
      case DoFree(_) => FreeKeepsAccounted(s, w);
      case _ => RestartKeepsAccounted(s, Do(guarded, s, step), w);
    }
  }

  /** Guarded or not, in every run: a workload that is gone holds no node, if its release left none behind. */
  lemma {:induction false} GoneHoldsNothing(guarded: bool, s: State, steps: seq<Step>, w: Ref)
    requires Init(s) && Along(guarded, s, steps, (p: State, step: Step) => !Unclean(p, step, w))
    ensures Accounted(Run(guarded, s, steps), w)
    ensures w !in Run(guarded, s, steps).workloads ==> forall n :: !Holds(Run(guarded, s, steps), w, n)
  {
    if steps != [] {
      var n := |steps| - 1;
      AlongPrefix(guarded, s, steps, (p: State, step: Step) => !Unclean(p, step, w), n);
      GoneHoldsNothing(guarded, s, steps[..n], w);
      assert !Unclean(Run(guarded, s, steps[..n]), steps[n], w);
      CleanStepKeepsAccounted(guarded, Run(guarded, s, steps[..n]), steps[n], w);
    }
  }

  /** With the guard, what a workload that is gone still holds stays held for good. */
  lemma {:induction false} LostForGood(s: State, steps: seq<Step>, w: Ref, node: string)
    requires Inv(s) && OwnReads(s) && w in s.known && w !in s.workloads && Holds(s, w, node)
    ensures var e := Run(true, s, steps); w in e.known && w !in e.workloads && Holds(e, w, node)
  {
    if steps != [] {
      var n := |steps| - 1;
      var before := Run(true, s, steps[..n]);
      LostForGood(s, steps[..n], w, node);
      GuardedRunsAreHarmless(s, steps[..n]);
      GoneKeepsHeld(before, steps[n], w, node);
    }
  }

  lemma GoneKeepsHeld(s: State, step: Step, w: Ref, node: string)
    requires Inv(s) && OwnReads(s) && w in s.known && w !in s.workloads && Holds(s, w, node)
    ensures var e := Do(true, s, step); w in e.known && w !in e.workloads && Holds(e, w, node)
  {
    if (step.DoClaim? || step.DoFree?) && step.w in s.workloads {
      assert WorkloadOk(s, step.w, s.workloads[step.w]) && OwnRead(s, step.w, s.workloads[step.w]);
    }
  }

  /** Guarded or not, such runs exist: the node changes between the read and the update, and the workload goes without it. */
  lemma ConflictLosesRelease(guarded: bool, s: State, w: Ref, node: string) returns (e: State)
    requires Init(s) && node in s.nodes && s.nodes[node].state.NodeUninitialized? && s.nodes[node].image == ""
    ensures Reaches(guarded, s, e) && w in e.known && w !in e.workloads && Holds(e, w, node)
  {
    Stays(guarded, s);
    var s1 := Occupies(guarded, s, s, w, node, "image");
    IsDeleted(guarded, s, s1, w);
    var s2 := With(s1, w, s1.workloads[w].(deleting := true, pc := Releasing(0)));
    ReachedQuietly(guarded, s, s, s2);
    e := ReadThenConflict(guarded, s, s2, w, node);
  }

  lemma ReadThenConflict(guarded: bool, s: State, s2: State, w: Ref, node: string) returns (e: State)
    requires Reaches(guarded, s, s2) && w in s2.known && w in s2.workloads && s2.workloads[w].pc == Releasing(0)
    requires |s2.workloads[w].items| == 1 && s2.workloads[w].items[0].node == node
    requires Holds(s2, w, node) && CouldUninstall(s2.nodes[node].state)
    ensures Reaches(guarded, s, e) && w in e.known && w !in e.workloads && Holds(e, w, node)
  {
    var s3 := At(s2, w, Freeing(0, s2.nodes[node]));
    assert ReadToFree(guarded, s2, w) == s3;
    Reached(guarded, s, s2, DoRead(w));
    Reached(guarded, s, s3, NodeMoves(node, NodeReady, ""));
    e := GoesWithout(guarded, s, Do(guarded, s3, NodeMoves(node, NodeReady, "")), w, node);
  }

  lemma GoesWithout(guarded: bool, s: State, s4: State, w: Ref, node: string) returns (e: State)
    requires Reaches(guarded, s, s4) && w in s4.known && w in s4.workloads && |s4.workloads[w].items| == 1
    requires s4.workloads[w].items[0].node == node && s4.workloads[w].pc.Freeing? && s4.workloads[w].pc.at == 0
    requires Holds(s4, w, node) && s4.nodes[node].version != s4.workloads[w].pc.read.version
    ensures Reaches(guarded, s, e) && w in e.known && w !in e.workloads && Holds(e, w, node)
  {
    var s5 := At(s4, w, Releasing(1));
    assert Free(s4, w) == s5;
    Reached(guarded, s, s4, DoFree(w));
    e := Do(guarded, s5, DoRead(w));
    Reached(guarded, s, s5, DoRead(w));
  }
}
