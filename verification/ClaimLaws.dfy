/** What one pass of a test workload over its nodes does, node by node, and where a whole pass ends. */
module ClaimLaws {
  import opened Options
  import opened Refs
  import opened Workload
  import opened Claims

  // ---- One node --------------------------------------------------------------------------

  /** The node may be this workload's. */
  ghost predicate FreeOrOwn(node: NodeObj, w: Ref) {
    node.claim == None || node.claim == Some(w)
  }

  /**
   * What reconcilePending makes of the next node: one that is its own and ready or finished counts, one that is
   * uninitialized and carries the item's image is passed, one without an image is claimed, and any other ends the pass.
   */
  lemma WalkIs(s: State, w: Ref)
    requires w in s.workloads && s.workloads[w].pc.Walking? && s.workloads[w].pc.next < |s.workloads[w].items|
    ensures var o, i, counted := s.workloads[w], s.workloads[w].pc.next, s.workloads[w].pc.installed;
            var n, pc := o.items[i].node, Walk(s, w).workloads[w].pc;
            && Walk(s, w).nodes == s.nodes && Walk(s, w).workloads[w] == o.(pc := pc)
            && (n !in s.nodes ==> pc == Idle)
            && (n in s.nodes ==>
                  var node := s.nodes[n];
                  && (pc == Walking(i + 1, counted + 1) <==> node.claim == Some(w) && (node.state.NodeReady? || node.state.NodeFinish?))
                  && (pc == Walking(i + 1, counted) <==>
                        FreeOrOwn(node, w) && node.state.NodeUninitialized? && node.image != "" && node.image == o.items[i].image)
                  && (pc == Claiming(i, counted, node) <==> FreeOrOwn(node, w) && node.state.NodeUninitialized? && node.image == "")
                  && (pc.Walking? || pc.Claiming? || pc.Idle?)
                  && (pc.Walking? ==> pc == Walking(i + 1, counted + 1) || pc == Walking(i + 1, counted))
                  && (pc.Claiming? ==> pc == Claiming(i, counted, node)))
  {
  }

  /** Behind the last node the workload starts running exactly if every node counted. */
  lemma WalkEnds(s: State, w: Ref)
    requires w in s.workloads && s.workloads[w].pc.Walking? && s.workloads[w].pc.next >= |s.workloads[w].items|
    ensures var o := s.workloads[w];
            && Walk(s, w).nodes == s.nodes && Walk(s, w).workloads[w].pc == Idle
            && Walk(s, w).workloads[w].state == if o.pc.installed == |o.items| then WorkloadRunning else o.state
  {
  }

  /** A claim that finds the node as it was read writes the claim and the item's image, and one that does not writes nothing. */
  lemma ClaimIs(s: State, w: Ref)
    requires w in s.workloads && s.workloads[w].pc.Claiming? && s.workloads[w].pc.at < |s.workloads[w].items|
    requires s.workloads[w].items[s.workloads[w].pc.at].node in s.nodes
    ensures var o, item, read := s.workloads[w], s.workloads[w].items[s.workloads[w].pc.at], s.workloads[w].pc.read;
            if s.nodes[item.node].version == read.version then
              && Claim(s, w).nodes == s.nodes[item.node := NodeObj(read.version + 1, read.state, item.image, Some(w))]
              && Claim(s, w).workloads[w] == o.(pc := Walking(o.pc.at + 1, o.pc.counted))
            else
              Claim(s, w).nodes == s.nodes && Claim(s, w).workloads[w] == o.(pc := Idle)
  {
  }

  /** A release goes for a node that it holds exactly if that is uninitialized, ready or finished when it is read. */
  lemma ReadIs(guarded: bool, s: State, w: Ref)
    requires AtHeld(s, DoRead(w), w)
    ensures var o, i := s.workloads[w], s.workloads[w].pc.next;
            var node, read := s.nodes[o.items[i].node], Do(guarded, s, DoRead(w));
            && read.nodes == s.nodes && w in read.workloads
            && read.workloads[w] == o.(pc := if node.state.NodeUninitialized? || node.state.NodeReady? || node.state.NodeFinish?
                                             then Freeing(i, node) else Releasing(i + 1))
  {
  }

  /** An update that finds the node as it was read leaves it destroyed and unclaimed; either way the release goes on to the next. */
  lemma FreeIs(guarded: bool, s: State, w: Ref)
    requires AtHeld(s, DoFree(w), w)
    ensures var o, i, read := s.workloads[w], s.workloads[w].pc.at, s.workloads[w].pc.read;
            var n, freed := o.items[i].node, Do(guarded, s, DoFree(w));
            && w in freed.workloads && freed.workloads[w] == o.(pc := Releasing(i + 1))
            && freed.nodes == if s.nodes[n].version == read.version
                              then s.nodes[n := NodeObj(read.version + 1, NodeDestroy, read.image, None)] else s.nodes
  {
  }

  // ---- A whole release -------------------------------------------------------------------

  /** The steps of a release through its first n items; an update that the release has no use for changes nothing. */
  function ReleaseSteps(w: Ref, n: nat): seq<Step> {
    if n == 0 then [StartRelease(w)] else ReleaseSteps(w, n - 1) + [DoRead(w), DoFree(w)]
  }

  /** The release of the first n items gets to this node and may free it. */
  ghost predicate GetsTo(guarded: bool, s: State, w: Ref, n: nat, x: string)
    requires w in s.workloads
  {
    && x in s.nodes && UsesBelow(s.workloads[w].items, n, x)
    && (s.nodes[x].state.NodeUninitialized? || s.nodes[x].state.NodeReady? || s.nodes[x].state.NodeFinish?)
    && (guarded ==> FreeOrOwn(s.nodes[x], w))
  }

  /** The nodes when the first n items are released and nothing else moved. */
  ghost predicate Freed(guarded: bool, s: State, w: Ref, n: nat, nodes: map<string, NodeObj>)
    requires w in s.workloads
  {
    && nodes.Keys == s.nodes.Keys
    && forall x :: x in s.nodes ==>
         if GetsTo(guarded, s, w, n, x) then nodes[x].state == NodeDestroy && nodes[x].claim == None else nodes[x] == s.nodes[x]
  }

  ghost predicate ReleasedTo(guarded: bool, s: State, w: Ref, n: nat, e: State)
    requires w in s.workloads
  {
    w in e.workloads && e.workloads[w] == s.workloads[w].(pc := Releasing(n)) && Freed(guarded, s, w, n, e.nodes)
  }

  lemma RunTwo(guarded: bool, s: State, steps: seq<Step>, a: Step, b: Step)
    ensures Run(guarded, s, steps + [a, b]) == Do(guarded, Do(guarded, Run(guarded, s, steps), a), b)
  {
    var one, two := steps + [a], steps + [a, b];
    assert two[..|two| - 1] == one && one[..|one| - 1] == steps;
  }

  lemma UsesOneMore(items: seq<Item>, n: nat, x: string)
    requires n < |items|
    ensures UsesBelow(items, n + 1, x) <==> UsesBelow(items, n, x) || items[n].node == x
  {
  }

  /** Reading the next node and updating it does to the nodes what Freed says of one more item. */
  lemma ReleaseOneShape(guarded: bool, s: State, w: Ref, n: nat, e: State)
    requires w in s.workloads && n < |s.workloads[w].items| && ReleasedTo(guarded, s, w, n, e)
    ensures var y, f := s.workloads[w].items[n].node, Do(guarded, Do(guarded, e, DoRead(w)), DoFree(w));
            && w in f.workloads && f.workloads[w] == s.workloads[w].(pc := Releasing(n + 1))
            && f.nodes == if y in e.nodes && !(e.nodes[y].state.NodeNew? || e.nodes[y].state.NodePending? || e.nodes[y].state.NodeDestroy?)
                             && (guarded ==> FreeOrOwn(e.nodes[y], w))
                          then e.nodes[y := e.nodes[y].(version := e.nodes[y].version + 1, state := NodeDestroy, claim := None)]
                          else e.nodes
  {
  }

  lemma ReleaseOne(guarded: bool, s: State, w: Ref, n: nat, e: State)
    requires w in s.workloads && n < |s.workloads[w].items| && ReleasedTo(guarded, s, w, n, e)
    ensures ReleasedTo(guarded, s, w, n + 1, Do(guarded, Do(guarded, e, DoRead(w)), DoFree(w)))
  {
    ReleaseOneShape(guarded, s, w, n, e);
    var f := Do(guarded, Do(guarded, e, DoRead(w)), DoFree(w));
    forall x | x in s.nodes
      ensures if GetsTo(guarded, s, w, n + 1, x) then f.nodes[x].state == NodeDestroy && f.nodes[x].claim == None else f.nodes[x] == s.nodes[x]
    {
      UsesOneMore(s.workloads[w].items, n, x);
    }
  }

  lemma RunFirst(guarded: bool, s: State, a: Step)
    ensures Run(guarded, s, [a]) == Do(guarded, s, a)
  {
    assert [a][..0] == [];
  }

  lemma ReleaseStarts(guarded: bool, s: State, w: Ref)
    requires w in s.workloads && s.workloads[w].deleting && s.workloads[w].pc.Idle?
    ensures ReleasedTo(guarded, s, w, 0, Do(guarded, s, StartRelease(w)))
  {
  }

  lemma {:induction false} ReleaseRuns(guarded: bool, s: State, w: Ref, n: nat)
    requires w in s.workloads && s.workloads[w].deleting && s.workloads[w].pc.Idle? && n <= |s.workloads[w].items|
    ensures ReleasedTo(guarded, s, w, n, Run(guarded, s, ReleaseSteps(w, n)))
  {
    if n == 0 {
      RunFirst(guarded, s, StartRelease(w));
      ReleaseStarts(guarded, s, w);
    } else {
      ReleaseRuns(guarded, s, w, n - 1);
      ReleaseRunsOn(guarded, s, w, n - 1);
    }
  }

  lemma ReleaseRunsOn(guarded: bool, s: State, w: Ref, n: nat)
    requires w in s.workloads && n < |s.workloads[w].items| && ReleasedTo(guarded, s, w, n, Run(guarded, s, ReleaseSteps(w, n)))
    ensures ReleasedTo(guarded, s, w, n + 1, Run(guarded, s, ReleaseSteps(w, n + 1)))
  {
    var e := Run(guarded, s, ReleaseSteps(w, n));
    assert Run(guarded, s, ReleaseSteps(w, n + 1)) == Do(guarded, Do(guarded, e, DoRead(w)), DoFree(w)) by {
      RunTwo(guarded, s, ReleaseSteps(w, n), DoRead(w), DoFree(w));
    }
    ReleaseOne(guarded, s, w, n, e);
  }

  /**
   * A release that nothing interferes with: if every node that the deleted workload holds is one of its items' and is
   * uninitialized, ready or finished, then the workload goes, each of these nodes is left destroyed and unclaimed, and
   * it holds none.
   */
  lemma ReleaseFrees(guarded: bool, s: State, w: Ref)
    requires w in s.workloads && s.workloads[w].deleting && s.workloads[w].pc.Idle?
    requires forall x :: x in s.nodes && s.nodes[x].claim == Some(w) ==>
               && (exists j :: 0 <= j < |s.workloads[w].items| && s.workloads[w].items[j].node == x)
               && (s.nodes[x].state.NodeUninitialized? || s.nodes[x].state.NodeReady? || s.nodes[x].state.NodeFinish?)
    ensures var e := Run(guarded, s, ReleaseSteps(w, |s.workloads[w].items|) + [DoRead(w)]);
            && w !in e.workloads && e.nodes.Keys == s.nodes.Keys
            && (forall x :: x in s.nodes && s.nodes[x].claim == Some(w) ==> e.nodes[x].state == NodeDestroy && e.nodes[x].claim == None)
            && (forall x :: x in e.nodes ==> e.nodes[x].claim != Some(w))
  {
    var n := |s.workloads[w].items|;
    var steps := ReleaseSteps(w, n) + [DoRead(w)];
    assert steps[..|steps| - 1] == ReleaseSteps(w, n);
    ReleaseRuns(guarded, s, w, n);
    forall x | x in s.nodes && s.nodes[x].claim == Some(w) ensures GetsTo(guarded, s, w, n, x) {
    }
  }

  // ---- A whole pass over the nodes -------------------------------------------------------

  /** The steps of a pass that looks at the first n nodes. */
  function WalkSteps(w: Ref, n: nat): seq<Step> {
    if n == 0 then [Start(w)] else WalkSteps(w, n - 1) + [DoWalk(w)]
  }

  /** The item's node is there, claimed by the workload, and ready or finished. */
  ghost predicate UpAndOwn(s: State, w: Ref, n: string) {
    n in s.nodes && s.nodes[n].claim == Some(w) && (s.nodes[n].state.NodeReady? || s.nodes[n].state.NodeFinish?)
  }

  /** The pass has counted every node so far if each was up and its own, and has not counted them all otherwise. */
  ghost predicate Walked(s: State, w: Ref, n: nat, e: State)
    requires w in s.workloads
  {
    && w in e.workloads && e.nodes == s.nodes && e.workloads[w] == s.workloads[w].(pc := e.workloads[w].pc)
    && n <= |s.workloads[w].items|
    && if forall j :: 0 <= j < n ==> UpAndOwn(s, w, s.workloads[w].items[j].node) then e.workloads[w].pc == Walking(n, n)
       else !e.workloads[w].pc.Walking? || (e.workloads[w].pc.next == n && e.workloads[w].pc.installed < n)
  }

  lemma WalkOne(s: State, w: Ref, n: nat, e: State)
    requires w in s.workloads && n < |s.workloads[w].items| && Walked(s, w, n, e)
    ensures Walked(s, w, n + 1, Do(false, e, DoWalk(w)))
  {
    var y := s.workloads[w].items[n].node;
    assert (forall j :: 0 <= j < n + 1 ==> UpAndOwn(s, w, s.workloads[w].items[j].node)) <==>
           (forall j :: 0 <= j < n ==> UpAndOwn(s, w, s.workloads[w].items[j].node)) && UpAndOwn(s, w, y);
    if e.workloads[w].pc.Walking? {
      WalkIs(e, w);
    }
  }

  lemma RunOne(s: State, steps: seq<Step>, a: Step)
    ensures Run(false, s, steps + [a]) == Do(false, Run(false, s, steps), a)
  {
    assert (steps + [a])[..|steps + [a]| - 1] == steps;
  }

  lemma WalkStarts(s: State, w: Ref)
    requires w in s.workloads && !s.workloads[w].deleting && s.workloads[w].pc.Idle? && s.workloads[w].state.WorkloadPending?
    ensures Walked(s, w, 0, Do(false, s, Start(w)))
  {
  }

  lemma {:induction false} WalkRuns(s: State, w: Ref, n: nat)
    requires w in s.workloads && !s.workloads[w].deleting && s.workloads[w].pc.Idle? && s.workloads[w].state.WorkloadPending?
    requires n <= |s.workloads[w].items|
    ensures Walked(s, w, n, Run(false, s, WalkSteps(w, n)))
  {
    if n == 0 {
      RunFirst(false, s, Start(w));
      WalkStarts(s, w);
    } else {
      WalkRuns(s, w, n - 1);
      WalkRunsOn(s, w, n - 1);
    }
  }

  lemma WalkRunsOn(s: State, w: Ref, n: nat)
    requires w in s.workloads && n < |s.workloads[w].items| && Walked(s, w, n, Run(false, s, WalkSteps(w, n)))
    ensures Walked(s, w, n + 1, Run(false, s, WalkSteps(w, n + 1)))
  {
    var e := Run(false, s, WalkSteps(w, n));
    assert Run(false, s, WalkSteps(w, n + 1)) == Do(false, e, DoWalk(w)) by {
      RunOne(s, WalkSteps(w, n), DoWalk(w));
    }
    WalkOne(s, w, n, e);
  }

  /**
   * A pass that nothing interferes with makes a pending workload running if and only if every item's node is there,
   * claimed by the workload, and ready or finished.
   */
  lemma RunsIffAllUp(s: State, w: Ref)
    requires w in s.workloads && !s.workloads[w].deleting && s.workloads[w].pc.Idle? && s.workloads[w].state.WorkloadPending?
    ensures var e := Run(false, s, WalkSteps(w, |s.workloads[w].items| + 1));
            && w in e.workloads && e.nodes == s.nodes
            && (e.workloads[w].state == WorkloadRunning <==>
                  forall j :: 0 <= j < |s.workloads[w].items| ==>
                    var n := s.workloads[w].items[j].node;
                    n in s.nodes && s.nodes[n].claim == Some(w) && (s.nodes[n].state.NodeReady? || s.nodes[n].state.NodeFinish?))
  {
    var n := |s.workloads[w].items|;
    WalkRuns(s, w, n);
    RunOne(s, WalkSteps(w, n), DoWalk(w));
    assert (forall j :: 0 <= j < n ==> UpAndOwn(s, w, s.workloads[w].items[j].node)) <==>
           forall j :: 0 <= j < n ==>
             var x := s.workloads[w].items[j].node;
             x in s.nodes && s.nodes[x].claim == Some(w) && (s.nodes[x].state.NodeReady? || s.nodes[x].state.NodeFinish?);
  }
}
