/** The Ready and Updating part of a topology's reconcile, between edits by its user: is what was asked for deployed? */
module Topology {
  import opened Options
  import opened ScaleDiff

  datatype Phase = TopologyReady | TopologyUpdating

  /** Which of the calls to the control machine succeed; a call that fails changes nothing there. */
  datatype Calls = Calls(upgrade: bool, config: bool, scaleIn: bool, scaleOut: bool, migrated: bool)

  /** The stored object and what tiup has installed; done is the specification whose update last went through there. */
  datatype Topology = Topology(phase: Phase, spec: Cluster, pre: Option<Cluster>, isScaling: bool, deployed: set<Node>, done: Cluster)

  // ---- One pass --------------------------------------------------------------------------

  /** Each call that the update needs succeeds. */
  ghost predicate Succeeds(pre: Cluster, cur: Cluster, calls: Calls) {
    && (IsUpgraded(pre, cur) ==> calls.upgrade) && (ConfigModified(pre, cur) ==> calls.config)
    && (IsScaleIn(pre, cur) ==> calls.scaleIn) && (IsScaleOut(pre, cur) ==> calls.scaleOut)
  }

  /** What tiup has after an update that may stop at a call that fails. */
  ghost function UpdatedBy(pre: Cluster, cur: Cluster, net: Network, calls: Calls, deployed: set<Node>): set<Node> {
    if Succeeds(pre, cur, calls) then Patched(pre, cur, net, deployed)
    else if Succeeds(pre, cur, calls.(scaleOut := true)) then ScaledIn(pre, cur, net, deployed)
    else deployed
  }

  /** One reconcile; stored says whether its last status update was taken. */
  ghost function Reconciled(net: Network, t: Topology, calls: Calls, stored: bool): Topology {
    match t.phase
    case TopologyReady =>
      if !stored then t
      else if t.pre == None then t.(pre := Some(t.spec))
      else if t.pre != Some(t.spec) then t.(phase := TopologyUpdating)
      else t.(isScaling := t.isScaling && !calls.migrated)
    case TopologyUpdating =>
      if t.pre == None then t
      else
        var p, ok := t.pre.value, Succeeds(t.pre.value, t.spec, calls);
        var updated := t.(deployed := UpdatedBy(p, t.spec, net, calls, t.deployed), done := if ok then t.spec else t.done);
        if ok && stored then updated.(phase := TopologyReady, pre := Some(t.spec), isScaling := t.isScaling || IsScaleIn(p, t.spec))
        else updated
  }

  class TestClusterTopology {
    var phase: Phase
    var spec: Cluster
    var pre: Option<Cluster>
    var isScaling: bool
    /** What the control machine has installed. */
    var deployed: set<Node>
    ghost var done: Cluster

    ghost function View(): Topology
      reads this
    {
      Topology(phase, spec, pre, isScaling, deployed, done)
    }

    /** Only a topology that remembers what it followed is updated. */
    ghost predicate Valid()
      reads this
    {
      phase.TopologyUpdating? ==> pre.Some?
    }

    constructor (installed: Cluster, nodes: set<Node>)
      ensures Valid() && View() == Topology(TopologyReady, installed, None, false, nodes, installed)
    {
      phase, spec, pre, isScaling, deployed, done := TopologyReady, installed, None, false, nodes, installed;
    }

    /** tiup scale-in with the addresses of getScaleInNode, which leaves its default ports in the copy of pre. */
    method ScaleIn(net: Network, p: Cluster) returns (marked: Cluster)
      requires IsScaleIn(p, spec)
      modifies this`deployed
      ensures deployed == ScaledIn(p, spec, net, old(deployed)) && marked == AfterScaleIn(p, spec)
    {
      var tidbs := new Server[|p.tidb|](i requires 0 <= i < |p.tidb| => p.tidb[i]);
      var pds := new Server[|p.pd|](i requires 0 <= i < |p.pd| => p.pd[i]);
      var tikvs := new Server[|p.tikv|](i requires 0 <= i < |p.tikv| => p.tikv[i]);
      assert tidbs[..] == p.tidb && pds[..] == p.pd && tikvs[..] == p.tikv;
      var nodes := GetScaleInNode(tidbs, pds, tikvs, spec, net);
      deployed := set n | n in deployed && AddressOf(net, n) !in nodes;
      marked := p.(tidb := tidbs[..], pd := pds[..], tikv := tikvs[..]);
    }

    /** tiup scale-out with the entries of getScaleOutRoles. */
    method ScaleOut(net: Network, p: Cluster)
      modifies this`deployed
      ensures deployed == old(deployed) + AddedNodes(p, spec, net)
    {
      var tidbs := ScaleOutPart(TiDB, p.tidb, spec.tidb, net);
      var pds := ScaleOutPart(PD, p.pd, spec.pd, net);
      var tikvs := ScaleOutPart(TiKV, p.tikv, spec.tikv, net);
      var added := (set s | s in tidbs :: Node(TiDB, s)) + (set s | s in pds :: Node(PD, s)) + (set s | s in tikvs :: Node(TiKV, s));
      assert added == AddedNodes(p, spec, net) by {
        forall n ensures n in added <==> n in AddedNodes(p, spec, net) {
          match n.kind
          case TiDB =>
          case PD =>
          case TiKV =>
        }
      }
      deployed := deployed + added;
    }

    /** Upgrade, configuration, scale-in, scale-out, each where needed, in that order, up to the first that fails. */
    method UpdateTiDBCluster(net: Network, p: Cluster, calls: Calls) returns (ok: bool)
      modifies this`deployed
      ensures ok <==> Succeeds(p, spec, calls)
      ensures ok <==>
                && (p.version != spec.version ==> calls.upgrade) && (ConfigModified(p, spec) ==> calls.config)
                && (|p.tidb| > |spec.tidb| || |p.pd| > |spec.pd| || |p.tikv| > |spec.tikv| ==> calls.scaleIn)
                && (|p.tidb| < |spec.tidb| || |p.pd| < |spec.pd| || |p.tikv| < |spec.tikv| ==> calls.scaleOut)
      ensures deployed == UpdatedBy(p, spec, net, calls, old(deployed))
    {
      if IsUpgraded(p, spec) && !calls.upgrade {
        return false;
      }
      var modified := IsConfigModified(p, spec);
      if modified && !calls.config {
        return false;
      }
      var status := p;
      if IsScaleIn(p, spec) {
        if !calls.scaleIn {
          return false;
        }
        status := ScaleIn(net, p);
      }
      if IsScaleOut(status, spec) {
        if !calls.scaleOut {
          return false;
        }
        ScaleOut(net, status);
      }
      ok := true;
    }

    /** A status update that fails leaves the stored object alone. */
    method Reconcile(net: Network, calls: Calls, stored: bool)
      requires Valid()
      modifies this
      ensures Valid() && View() == Reconciled(net, old(View()), calls, stored)
      ensures old(phase).TopologyUpdating? && phase.TopologyReady? ==>
                var p := old(pre).value;
                isScaling == (old(isScaling) || |p.tidb| > |spec.tidb| || |p.pd| > |spec.pd| || |p.tikv| > |spec.tikv|)
      ensures old(phase).TopologyReady? && stored && old(pre) == Some(spec) ==> isScaling == (old(isScaling) && !calls.migrated)
    {
      match phase {
        case TopologyReady =>
          if !stored {
            return;
          }
          match pre {
            case None => pre := Some(spec);
            case Some(p) =>
              if p != spec {
                phase := TopologyUpdating;
              } else if isScaling && calls.migrated {
                isScaling := false;
              }
          }
        case TopologyUpdating =>
          var p := pre.value;
          var ok := UpdateTiDBCluster(net, p, calls);
          if !ok {
            return;
          }
          done := spec;
          if !stored {
            return;
          }
          isScaling := isScaling || IsScaleIn(p, spec);
          pre := Some(spec);
          phase := TopologyReady;
      }
    }
  }

  // ---- What the passes to come will have deployed ----------------------------------------

  /** Writing default ports into pre does not change what it stands for. */
  lemma MarkedDeploysSame(pre: Cluster, cur: Cluster, net: Network)
    ensures Deployed(AfterScaleIn(pre, cur), net) == Deployed(pre, net)
  {
    var marked := AfterScaleIn(pre, cur);
    if IsScaleIn(pre, cur) {
      forall kind: Kind, s | s in Part(pre, kind) ensures Node(kind, NodeOf(kind, s, net)) in Deployed(marked, net) {
        var i :| 0 <= i < |Part(pre, kind)| && Part(pre, kind)[i] == s;
        var t := Part(marked, kind)[i];
        assert t in Part(marked, kind) && NodeOf(kind, t, net) == NodeOf(kind, s, net);
      }
      forall kind: Kind, t | t in Part(marked, kind) ensures Node(kind, NodeOf(kind, t, net)) in Deployed(pre, net) {
        var i :| 0 <= i < |Part(marked, kind)| && Part(marked, kind)[i] == t;
        var s := Part(pre, kind)[i];
        assert s in Part(pre, kind) && NodeOf(kind, t, net) == NodeOf(kind, s, net);
      }
    }
  }

  ghost predicate OneWay(pre: Cluster, cur: Cluster) {
    !(IsScaleIn(pre, cur) && IsScaleOut(pre, cur))
  }

  ghost predicate Valid(t: Topology) {
    && (t.phase.TopologyUpdating? ==> t.pre.Some?)
    && (t.pre.Some? ==> OneWay(t.pre.value, t.spec))
  }

  ghost function Outcome(net: Network, t: Topology): set<Node> {
    if t.pre.Some? then Patched(t.pre.value, t.spec, net, t.deployed) else t.deployed
  }

  /** There is nothing left to do. */
  ghost predicate Settled(t: Topology) {
    t.phase.TopologyReady? && t.pre == Some(t.spec)
  }

  /** Repeating a patch, because its result was not stored, changes nothing. */
  lemma PatchIsIdempotent(pre: Cluster, cur: Cluster, net: Network, deployed: set<Node>)
    requires OneWay(pre, cur)
    ensures Patched(pre, cur, net, Patched(pre, cur, net, deployed)) == Patched(pre, cur, net, deployed)
  {
  }

  /** Whatever calls fail and whatever is not stored, a pass does not change what will be deployed in the end. */
  lemma PassKeepsOutcome(net: Network, t: Topology, calls: Calls, stored: bool)
    requires Valid(t)
    ensures Valid(Reconciled(net, t, calls, stored)) && Outcome(net, Reconciled(net, t, calls, stored)) == Outcome(net, t)
  {
    if t.phase.TopologyUpdating? {
      PatchIsIdempotent(t.pre.value, t.spec, net, t.deployed);
    }
  }

  // ---- Edits -----------------------------------------------------------------------------

  /** No entry of pre shares its address with an entry of cur, unless it is that entry. */
  ghost predicate KeptAsIs(pre: Cluster, cur: Cluster, net: Network) {
    forall k: Kind, l: Kind, c, e :: c in Part(cur, k) && e in Part(pre, l) && Address(k, c, net) == Address(l, e, net) ==> k == l && c == e
  }

  ghost predicate HasAddress(c: Cluster, a: string, net: Network) {
    exists k: Kind, s :: s in Part(c, k) && Address(k, s, net) == a
  }

  ghost predicate AddressedBy(done: Cluster, pre: Cluster, cur: Cluster, net: Network) {
    forall k: Kind, d :: d in Part(done, k) ==> HasAddress(pre, Address(k, d, net), net) || HasAddress(cur, Address(k, d, net), net)
  }

  /** What is in both is among what was done. */
  ghost predicate CommonDone(pre: Cluster, cur: Cluster, done: Cluster, net: Network) {
    forall k: Kind, s :: s in Part(pre, k) && s in Part(cur, k) ==> HasEntry(done, k, s, net)
  }

  /**
   * The specification cur finds a deployment of done and is followed from pre. With nothing to follow from, or with
   * sizes equal, nothing is patched; a smaller one only takes away from pre, a larger one only adds to it.
   */
  ghost predicate LandsWell(pre: Option<Cluster>, done: Cluster, cur: Cluster, net: Network) {
    if pre.Some? && IsScaleIn(pre.value, cur) then
      Covers(done, cur, net) && KeptAsIs(pre.value, cur, net) && AddressedBy(done, pre.value, cur, net)
    else if pre.Some? && IsScaleOut(pre.value, cur) then
      Covers(cur, done, net) && CommonDone(pre.value, cur, done, net)
    else
      SameEntries(done, cur, net)
  }

  lemma ScaleInLanding(pre: Cluster, done: Cluster, cur: Cluster, net: Network)
    requires AddressesDistinct(done, net) && AddressesDistinct(cur, net)
    requires Covers(done, cur, net) && KeptAsIs(pre, cur, net) && AddressedBy(done, pre, cur, net)
    ensures WithoutNodes(net, Deployed(done, net), ScaleInNodes(pre, cur, net)) == Deployed(cur, net)
  {
    var after := WithoutNodes(net, Deployed(done, net), ScaleInNodes(pre, cur, net));
    CoversIff(done, cur, net);
    forall n | n in Deployed(cur, net) ensures n in after {
      var c :| c in Part(cur, n.kind) && n == Node(n.kind, NodeOf(n.kind, c, net));
      AddressOfNode(n.kind, c, net);
      ScaleInMeans(pre, cur, net, Address(n.kind, c, net));
    }
    forall n | n in after ensures n in Deployed(cur, net) {
      var d :| d in Part(done, n.kind) && n == Node(n.kind, NodeOf(n.kind, d, net));
      AddressOfNode(n.kind, d, net);
      ScaleInMeans(pre, cur, net, Address(n.kind, d, net));
      assert HasAddress(cur, Address(n.kind, d, net), net);
      DoneAtAddress(done, cur, net, n.kind, d);
    }
  }

  /** What is done at the address of an entry of cur stands for that entry. */
  lemma DoneAtAddress(done: Cluster, cur: Cluster, net: Network, kind: Kind, d: Server)
    requires AddressesDistinct(done, net) && Covers(done, cur, net) && d in Part(done, kind) && HasAddress(cur, Address(kind, d, net), net)
    ensures Node(kind, NodeOf(kind, d, net)) in Deployed(cur, net)
  {
    var l: Kind, c :| c in Part(cur, l) && Address(l, c, net) == Address(kind, d, net);
    assert HasEntry(done, l, c, net);
    var e :| e in Part(done, l) && SameEntry(l, c, e, net);
    SameEntryIff(l, c, e, net);
    assert l == kind && e == d;
  }

  lemma ScaleInLanded(pre: Cluster, done: Cluster, cur: Cluster, net: Network)
    requires AddressesDistinct(cur, net)
    requires WithoutNodes(net, Deployed(done, net), ScaleInNodes(pre, cur, net)) == Deployed(cur, net)
    ensures Covers(done, cur, net) && KeptAsIs(pre, cur, net) && AddressedBy(done, pre, cur, net)
  {
    CoversIff(done, cur, net);
    forall k: Kind, l: Kind, c, e | c in Part(cur, k) && e in Part(pre, l) && Address(k, c, net) == Address(l, e, net)
      ensures k == l && c == e
    {
      assert Node(k, NodeOf(k, c, net)) in Deployed(cur, net);
      AddressOfNode(k, c, net);
      ScaleInMeans(pre, cur, net, Address(k, c, net));
      assert e in Part(cur, l);
    }
    forall k: Kind, d | d in Part(done, k)
      ensures HasAddress(pre, Address(k, d, net), net) || HasAddress(cur, Address(k, d, net), net)
    {
      var n := Node(k, NodeOf(k, d, net));
      AddressOfNode(k, d, net);
      ScaleInMeans(pre, cur, net, Address(k, d, net));
      assert n in Deployed(done, net);
      if n in Deployed(cur, net) {
        var c :| c in Part(cur, k) && n == Node(k, NodeOf(k, c, net));
        AddressOfNode(k, c, net);
      }
    }
  }

  lemma ScaleOutLanding(pre: Cluster, done: Cluster, cur: Cluster, net: Network)
    requires Covers(cur, done, net) && CommonDone(pre, cur, done, net)
    ensures Deployed(done, net) + AddedNodes(pre, cur, net) == Deployed(cur, net)
  {
    CoversIff(cur, done, net);
    forall n | n in Deployed(cur, net) ensures n in Deployed(done, net) + AddedNodes(pre, cur, net) {
      var c :| c in Part(cur, n.kind) && n == Node(n.kind, NodeOf(n.kind, c, net));
      AddedNodesMean(pre, cur, net, n);
      HasEntryIff(done, n.kind, c, net);
    }
    forall n | n in AddedNodes(pre, cur, net) ensures n in Deployed(cur, net) {
      AddedNodesMean(pre, cur, net, n);
    }
  }

  lemma ScaleOutLanded(pre: Cluster, done: Cluster, cur: Cluster, net: Network)
    requires AddressesDistinct(cur, net) && Deployed(done, net) + AddedNodes(pre, cur, net) == Deployed(cur, net)
    ensures Covers(cur, done, net) && CommonDone(pre, cur, done, net)
  {
    CoversIff(cur, done, net);
    forall k: Kind, s | s in Part(pre, k) && s in Part(cur, k) ensures HasEntry(done, k, s, net) {
      var n := Node(k, NodeOf(k, s, net));
      assert n in Deployed(cur, net);
      AddedNodesMean(pre, cur, net, n);
      if n in AddedNodes(pre, cur, net) {
        var c :| c in Part(cur, k) && c !in Part(pre, k) && NodeOf(k, c, net) == n.server;
        AddressOfNode(k, c, net);
        AddressOfNode(k, s, net);
      }
      HasEntryIff(done, k, s, net);
    }
  }

  /** Whatever was done before and whatever it is followed from: a specification is patched right if and only if it lands well. */
  lemma LandsWellIff(pre: Option<Cluster>, done: Cluster, cur: Cluster, net: Network)
    requires AddressesDistinct(done, net) && AddressesDistinct(cur, net) && (pre.Some? ==> OneWay(pre.value, cur))
    ensures (if pre.Some? then Patched(pre.value, cur, net, Deployed(done, net)) else Deployed(done, net)) == Deployed(cur, net)
            <==> LandsWell(pre, done, cur, net)
  {
    if pre.Some? && IsScaleIn(pre.value, cur) {
      if LandsWell(pre, done, cur, net) {
        ScaleInLanding(pre.value, done, cur, net);
      } else if Patched(pre.value, cur, net, Deployed(done, net)) == Deployed(cur, net) {
        ScaleInLanded(pre.value, done, cur, net);
      }
    } else if pre.Some? && IsScaleOut(pre.value, cur) {
      if LandsWell(pre, done, cur, net) {
        ScaleOutLanding(pre.value, done, cur, net);
      } else if Patched(pre.value, cur, net, Deployed(done, net)) == Deployed(cur, net) {
        ScaleOutLanded(pre.value, done, cur, net);
      }
    } else {
      CoversIff(done, cur, net);
      CoversIff(cur, done, net);
    }
  }

  /** An update that is followed from what is deployed lands well if it is pure, and one that does not grow only then. */
  lemma PureUpdateLands(pre: Cluster, cur: Cluster, net: Network)
    requires Accepted(net.itoa, pre, cur) && AddressesDistinct(pre, net) && AddressesDistinct(cur, net)
    ensures PureUpdate(pre, cur, net) ==> LandsWell(Some(pre), pre, cur, net)
    ensures !IsScaleOut(pre, cur) && LandsWell(Some(pre), pre, cur, net) ==> PureUpdate(pre, cur, net)
  {
    LandsWellIff(Some(pre), pre, cur, net);
    if PureUpdate(pre, cur, net) {
      UpdateIsFollowed(pre, cur, net);
    }
    if IsScaleIn(pre, cur) {
      ScaleInCorrectIff(pre, cur, net);
    }
  }

  // ---- Runs ------------------------------------------------------------------------------

  /** The user edits the specification, or a pass runs. An edit during a pass makes its status update fail. */
  datatype Event = Edit(cur: Cluster) | Pass(calls: Calls, stored: bool)

  ghost function Next(net: Network, t: Topology, event: Event): Topology {
    match event
    case Edit(cur) => t.(spec := cur)
    case Pass(calls, stored) => Reconciled(net, t, calls, stored)
  }

  ghost function After(net: Network, t: Topology, events: seq<Event>): Topology {
    if events == [] then t else Next(net, After(net, t, events[..|events| - 1]), events[|events| - 1])
  }

  /** The webhook compares an edit with what was followed last, and with nothing as long as there is no such thing. */
  ghost predicate Admitted(net: Network, t: Topology, event: Event) {
    event.Edit? ==> AddressesDistinct(event.cur, net) && (t.pre.Some? ==> Accepted(net.itoa, t.pre.value, event.cur))
  }

  ghost predicate AdmittedRun(net: Network, t: Topology, events: seq<Event>) {
    forall k :: 0 <= k < |events| ==> Admitted(net, After(net, t, events[..k]), events[k])
  }

  /** Freshly installed. */
  ghost predicate Installed(net: Network, t: Topology) {
    AddressesDistinct(t.spec, net) && t == Topology(TopologyReady, t.spec, None, false, Deployed(t.spec, net), t.spec)
  }

  ghost predicate Lands(net: Network, t: Topology, event: Event) {
    event.Edit? ==> LandsWell(t.pre, t.done, event.cur, net)
  }

  ghost predicate OnlyPasses(events: seq<Event>) {
    forall k :: 0 <= k < |events| ==> events[k].Pass?
  }

  /** However the passes to come go, when they leave nothing to do the specification is deployed. */
  ghost predicate SettlesRight(net: Network, t: Topology) {
    forall passes :: OnlyPasses(passes) && Settled(After(net, t, passes)) ==>
      After(net, t, passes).deployed == Deployed(After(net, t, passes).spec, net)
  }

  lemma {:induction false} PassesKeepOutcome(net: Network, t: Topology, passes: seq<Event>)
    requires Valid(t) && OnlyPasses(passes)
    ensures var e := After(net, t, passes); Valid(e) && Outcome(net, e) == Outcome(net, t) && e.spec == t.spec
  {
    if passes != [] {
      var n := |passes| - 1;
      PassesKeepOutcome(net, t, passes[..n]);
      PassKeepsOutcome(net, After(net, t, passes[..n]), passes[n].calls, passes[n].stored);
    }
  }

  lemma SettledIsOutcome(net: Network, t: Topology)
    requires Settled(t)
    ensures Outcome(net, t) == t.deployed
  {
  }

  /** Two passes that go well leave nothing to do. */
  lemma TwoPassesSettle(net: Network, t: Topology) returns (passes: seq<Event>)
    requires Valid(t)
    ensures OnlyPasses(passes) && Settled(After(net, t, passes))
  {
    var pass := Pass(Calls(true, true, true, true, true), true);
    passes := [pass, pass];
    assert passes[..1] == [pass] && [pass][..0] == [];
    assert After(net, t, [pass]) == Reconciled(net, t, pass.calls, true);
    assert After(net, t, passes) == Reconciled(net, Reconciled(net, t, pass.calls, true), pass.calls, true);
  }

  lemma SettlesRightIff(net: Network, t: Topology)
    requires Valid(t)
    ensures SettlesRight(net, t) <==> Outcome(net, t) == Deployed(t.spec, net)
  {
    if Outcome(net, t) == Deployed(t.spec, net) {
      forall passes | OnlyPasses(passes) && Settled(After(net, t, passes))
        ensures After(net, t, passes).deployed == Deployed(After(net, t, passes).spec, net)
      {
        PassesKeepOutcome(net, t, passes);
        SettledIsOutcome(net, After(net, t, passes));
      }
    } else {
      var passes := TwoPassesSettle(net, t);
      PassesKeepOutcome(net, t, passes);
      SettledIsOutcome(net, After(net, t, passes));
    }
  }

  /** The topology will have its specification deployed, and has that of the last update that went through. */
  ghost predicate OnCourse(net: Network, t: Topology) {
    && Valid(t) && Outcome(net, t) == Deployed(t.spec, net) && t.deployed == Deployed(t.done, net)
    && AddressesDistinct(t.spec, net) && AddressesDistinct(t.done, net)
  }

  lemma PassStaysOnCourse(net: Network, t: Topology, calls: Calls, stored: bool)
    requires OnCourse(net, t)
    ensures OnCourse(net, Reconciled(net, t, calls, stored))
  {
    PassKeepsOutcome(net, t, calls, stored);
  }

  lemma EditIff(net: Network, t: Topology, cur: Cluster)
    requires OnCourse(net, t) && Admitted(net, t, Edit(cur))
    ensures Valid(Next(net, t, Edit(cur)))
    ensures SettlesRight(net, Next(net, t, Edit(cur))) <==> LandsWell(t.pre, t.done, cur, net)
    ensures LandsWell(t.pre, t.done, cur, net) ==> OnCourse(net, Next(net, t, Edit(cur)))
  {
    LandsWellIff(t.pre, t.done, cur, net);
    SettlesRightIff(net, Next(net, t, Edit(cur)));
  }

  ghost predicate EditsLand(net: Network, t: Topology, events: seq<Event>) {
    forall k :: 0 <= k < |events| ==> Lands(net, After(net, t, events[..k]), events[k])
  }

  lemma ShorterRun(net: Network, t: Topology, events: seq<Event>, n: nat)
    requires n <= |events|
    ensures AdmittedRun(net, t, events) ==> AdmittedRun(net, t, events[..n])
    ensures EditsLand(net, t, events) ==> EditsLand(net, t, events[..n])
  {
    forall k | 0 <= k < n ensures events[..n][..k] == events[..k] {
    }
  }

  lemma {:induction false} StaysOnCourse(net: Network, t: Topology, events: seq<Event>)
    requires Installed(net, t) && AdmittedRun(net, t, events) && EditsLand(net, t, events)
    ensures OnCourse(net, After(net, t, events))
  {
    if events != [] {
      var n := |events| - 1;
      var before := After(net, t, events[..n]);
      ShorterRun(net, t, events, n);
      StaysOnCourse(net, t, events[..n]);
      match events[n]
      case Edit(cur) =>
        assert Admitted(net, before, events[n]) && Lands(net, before, events[n]);
        EditIff(net, before, cur);
      case Pass(calls, stored) => PassStaysOnCourse(net, before, calls, stored);
    }
  }

  lemma LastLands(net: Network, t: Topology, events: seq<Event>)
    requires events != [] && EditsLand(net, t, events[..|events| - 1])
    requires Lands(net, After(net, t, events[..|events| - 1]), events[|events| - 1])
    ensures EditsLand(net, t, events)
  {
    var n := |events| - 1;
    forall k | 0 <= k < |events| ensures Lands(net, After(net, t, events[..k]), events[k]) {
      if k < n {
        assert events[..n][..k] == events[..k] && events[..n][k] == events[k];
      }
    }
  }

  lemma {:induction false} RightSoLands(net: Network, t: Topology, events: seq<Event>)
    requires Installed(net, t) && AdmittedRun(net, t, events)
    requires forall k :: 0 <= k <= |events| ==> SettlesRight(net, After(net, t, events[..k]))
    ensures EditsLand(net, t, events)
  {
    if events != [] {
      var n := |events| - 1;
      var before := After(net, t, events[..n]);
      ShorterRun(net, t, events, n);
      forall k | 0 <= k <= n ensures SettlesRight(net, After(net, t, events[..n][..k])) {
        assert events[..n][..k] == events[..k];
      }
      RightSoLands(net, t, events[..n]);
      if events[n].Edit? {
        assert SettlesRight(net, Next(net, before, events[n])) by {
          assert events[..|events|] == events;
        }
        assert Admitted(net, before, events[n]);
        assert OnCourse(net, before) by { StaysOnCourse(net, t, events[..n]); }
        EditIff(net, before, events[n].cur);
      }
      LastLands(net, t, events);
    }
  }

  /**
   * Over every run of edits and passes, with whatever calls that fail and status updates that are lost: whenever
   * the topology has nothing left to do its specification is deployed, if and only if every edit lands well.
   */
  lemma DeploysSpecIff(net: Network, t: Topology, events: seq<Event>)
    requires Installed(net, t) && AdmittedRun(net, t, events)
    ensures EditsLand(net, t, events) <==> forall k :: 0 <= k <= |events| ==> SettlesRight(net, After(net, t, events[..k]))
  {
    if EditsLand(net, t, events) {
      forall k | 0 <= k <= |events| ensures SettlesRight(net, After(net, t, events[..k])) {
        ShorterRun(net, t, events, k);
        StaysOnCourse(net, t, events[..k]);
        SettlesRightIff(net, After(net, t, events[..k]));
      }
    }
    if forall k :: 0 <= k <= |events| ==> SettlesRight(net, After(net, t, events[..k])) {
      RightSoLands(net, t, events);
    }
  }

  // ---- Edits that are lost ---------------------------------------------------------------

  lemma AfterMore(net: Network, t: Topology, events: seq<Event>, event: Event)
    ensures After(net, t, events + [event]) == Next(net, After(net, t, events), event)
    ensures AdmittedRun(net, t, events) && Admitted(net, After(net, t, events), event) ==> AdmittedRun(net, t, events + [event])
  {
    var more := events + [event];
    assert more[..|events|] == events;
    forall k | 0 <= k < |events| ensures more[..k] == events[..k] && more[k] == events[k] {
    }
  }

  const ALL_WELL := Calls(true, true, true, true, true)

  /** As coded, whatever is edited before the first pass after the installation is taken for deployed. */
  lemma EditBeforeFirstPass(net: Network, t: Topology, cur: Cluster) returns (events: seq<Event>)
    requires Installed(net, t) && AddressesDistinct(cur, net)
    ensures AdmittedRun(net, t, events)
    ensures var e := After(net, t, events); Settled(e) && e.spec == cur && (e.deployed == Deployed(cur, net) <==> SameEntries(t.spec, cur, net))
  {
    assert After(net, t, []) == t;
    AfterMore(net, t, [], Edit(cur));
    AfterMore(net, t, [] + [Edit(cur)], Pass(ALL_WELL, true));
    events := [] + [Edit(cur)] + [Pass(ALL_WELL, true)];
    CoversIff(t.spec, cur, net);
    CoversIff(cur, t.spec, net);
  }

  /** The first pass, an edit, the pass that sees it, and its update, of which the status is lost. */
  lemma UpdateIsLost(net: Network, t: Topology, cur: Cluster) returns (events: seq<Event>)
    requires Installed(net, t) && AddressesDistinct(cur, net) && PureUpdate(t.spec, cur, net) && cur != t.spec
    ensures AdmittedRun(net, t, events)
    ensures After(net, t, events) == Topology(TopologyUpdating, cur, Some(t.spec), false, Deployed(cur, net), cur)
  {
    assert After(net, t, []) == t;
    AfterMore(net, t, [], Pass(ALL_WELL, true));
    var one := [] + [Pass(ALL_WELL, true)];
    assert After(net, t, one) == t.(pre := Some(t.spec));
    AfterMore(net, t, one, Edit(cur));
    AfterMore(net, t, one + [Edit(cur)], Pass(ALL_WELL, true));
    var three := one + [Edit(cur)] + [Pass(ALL_WELL, true)];
    assert After(net, t, three) == t.(phase := TopologyUpdating, spec := cur, pre := Some(t.spec));
    UpdateIsFollowed(t.spec, cur, net);
    AfterMore(net, t, three, Pass(ALL_WELL, false));
    events := three + [Pass(ALL_WELL, false)];
  }

  /** As coded, taking such an update back is admitted, and taken for done at once: what it deployed stays. */
  lemma EditAfterLostUpdate(net: Network, t: Topology, cur: Cluster) returns (events: seq<Event>)
    requires Installed(net, t) && AddressesDistinct(cur, net) && PureUpdate(t.spec, cur, net) && Accepted(net.itoa, t.spec, t.spec)
    requires !SameEntries(t.spec, cur, net)
    ensures AdmittedRun(net, t, events)
    ensures var e := After(net, t, events); Settled(e) && e.spec == t.spec && e.deployed == Deployed(cur, net) != Deployed(t.spec, net)
  {
    CoversIff(t.spec, cur, net);
    CoversIff(cur, t.spec, net);
    var lost := UpdateIsLost(net, t, cur);
    AfterMore(net, t, lost, Edit(t.spec));
    AfterMore(net, t, lost + [Edit(t.spec)], Pass(ALL_WELL, true));
    events := lost + [Edit(t.spec)] + [Pass(ALL_WELL, true)];
  }

  lemma PlainAddresses(itoa: Itoa, hosts: seq<string>)
    requires forall h :: h in hosts ==> h in ["n1", "n2"]
    ensures AddressesDistinct(OnlyTiKV(Plains(hosts)), Example(itoa))
  {
    var c, net := OnlyTiKV(Plains(hosts)), Example(itoa);
    forall k: Kind, l: Kind, s, t | s in Part(c, k) && t in Part(c, l) && Address(k, s, net) == Address(l, t, net)
      ensures k == l && s == t
    {
      var i :| 0 <= i < |hosts| && s == Plain(hosts[i]);
      var j :| 0 <= j < |hosts| && t == Plain(hosts[j]);
      assert hosts[i] in ["n1", "n2"] && hosts[j] in ["n1", "n2"];
      assert Address(k, s, net)[0] == IpOf(net, hosts[i])[0] && Address(l, t, net)[0] == IpOf(net, hosts[j])[0];
      assert "1"[0] != "2"[0];
    }
  }

  lemma SecondIsMissing(itoa: Itoa)
    ensures !SameEntries(OnlyTiKV(Plains(["n1"])), OnlyTiKV(Plains(["n1", "n2"])), Example(itoa))
  {
    var one, two, net := OnlyTiKV(Plains(["n1"])), OnlyTiKV(Plains(["n1", "n2"])), Example(itoa);
    assert two.tikv[1] == Plain("n2") && Plain("n2") in Part(two, TiKV);
    forall s | s in one.tikv ensures !SameEntry(TiKV, Plain("n2"), s, net) {
      assert s == Plain("n1");
      assert "1"[0] != "2"[0];
    }
    assert !HasEntry(one, TiKV, Plain("n2"), net);
  }

  lemma SecondIsAdmitted(itoa: Itoa)
    ensures var one, two := OnlyTiKV(Plains(["n1"])), OnlyTiKV(Plains(["n1", "n2"]));
            Accepted(itoa, one, one) && PureUpdate(one, two, Example(itoa))
  {
    var one, two := OnlyTiKV(Plains(["n1"])), OnlyTiKV(Plains(["n1", "n2"]));
    PlainImmutable(itoa, ["n1"], ["n1"]);
    PlainImmutable(itoa, ["n1"], ["n1", "n2"]);
    assert one.tikv[0] == two.tikv[0];
    assert one.tikv[0].host == one.tikv[0].host && SharesHost(one.tikv, one.tikv);
  }

  /** Both, for a cluster of one TiKV that is to have a second one. */
  lemma SomeEditsAreLost(itoa: Itoa) returns (t: Topology, early: seq<Event>, late: seq<Event>)
    ensures Installed(Example(itoa), t) && AdmittedRun(Example(itoa), t, early) && AdmittedRun(Example(itoa), t, late)
    ensures var e := After(Example(itoa), t, early); Settled(e) && e.deployed != Deployed(e.spec, Example(itoa))
    ensures var e := After(Example(itoa), t, late); Settled(e) && e.deployed != Deployed(e.spec, Example(itoa))
  {
    var one, two, net := OnlyTiKV(Plains(["n1"])), OnlyTiKV(Plains(["n1", "n2"])), Example(itoa);
    PlainAddresses(itoa, ["n1"]);
    PlainAddresses(itoa, ["n1", "n2"]);
    SecondIsMissing(itoa);
    t := Topology(TopologyReady, one, None, false, Deployed(one, net), one);
    early := EditBeforeFirstPass(net, t, two);
    SecondIsAdmitted(itoa);
    late := EditAfterLostUpdate(net, t, two);
  }
}
