/** The completion detector of TestWorkload: results are only looked at on passes where a phase changed. */
module Workload {
  import opened Options

  datatype Phase = NoPhase | PhasePending | PhaseRunning | PhaseSucceeded | PhaseFailed

  datatype NodeState = NodeNew | NodePending | NodeUninitialized | NodeReady | NodeFinish | NodeDestroy

  /** What looking up one item's node finds. */
  datatype Observed = NoNode | Node(state: NodeState, phase: Phase)

  datatype WorkloadState = WorkloadNew | WorkloadPending | WorkloadRunning | WorkloadSucceeded | WorkloadFailed

  datatype Stored = Stored(state: WorkloadState, recorded: map<string, Phase>)

  predicate Terminal(p: Phase) {
    p.PhaseSucceeded? || p.PhaseFailed?
  }

  predicate AllTerminal(phases: seq<Phase>) {
    forall i :: 0 <= i < |phases| ==> Terminal(phases[i])
  }

  predicate AllSucceeded(phases: seq<Phase>) {
    forall i :: 0 <= i < |phases| ==> phases[i].PhaseSucceeded?
  }

  /** A node that was claimed has left pending and is not being destroyed. */
  predicate Visible(o: Observed) {
    o.Node? && (o.state.NodeUninitialized? || o.state.NodeReady? || o.state.NodeFinish?)
  }

  // ---- One pass, as a function -----------------------------------------------------------

  function PhasesOf(observed: seq<Observed>): seq<Phase> {
    seq(|observed|, i requires 0 <= i < |observed| => if observed[i].Node? then observed[i].phase else NoPhase)
  }

  /** The record after the first items: each has overwritten what was under its name. */
  function Recorded(names: seq<string>, recorded: map<string, Phase>, phases: seq<Phase>): map<string, Phase>
    requires |names| == |phases|
  {
    if names == [] then recorded
    else
      var n := |names| - 1;
      Recorded(names[..n], recorded, phases[..n])[names[n] := phases[n]]
  }

  /** Item i finds no record, or another phase than its node's. */
  predicate Changes(names: seq<string>, recorded: map<string, Phase>, phases: seq<Phase>, i: nat)
    requires |names| == |phases| && i < |names|
  {
    var before := Recorded(names[..i], recorded, phases[..i]);
    names[i] !in before || before[names[i]] != phases[i]
  }

  predicate AnyChange(names: seq<string>, recorded: map<string, Phase>, phases: seq<Phase>)
    requires |names| == |phases|
  {
    exists i :: 0 <= i < |names| && Changes(names, recorded, phases, i)
  }

  function Verdict(phases: seq<Phase>, otherwise: WorkloadState): WorkloadState {
    if AllSucceeded(phases) then WorkloadSucceeded
    else if AllTerminal(phases) then WorkloadFailed
    else otherwise
  }

  /** What is stored after a pass that saw these phases. */
  function Pass(names: seq<string>, w: Stored, phases: seq<Phase>): Stored
    requires |names| == |phases|
  {
    if AnyChange(names, w.recorded, phases) then Stored(Verdict(phases, w.state), Recorded(names, w.recorded, phases)) else w
  }

  /** What a pass leaves stored: a node that is missing, new, pending or being destroyed stops it, and nothing is stored. */
  function SeenPass(names: seq<string>, w: Stored, observed: seq<Observed>): Stored
    requires |names| == |observed|
  {
    if forall i :: 0 <= i < |observed| ==> Visible(observed[i]) then Pass(names, w, PhasesOf(observed)) else w
  }

  // ---- The code --------------------------------------------------------------------------

  /** Persist asks the API server to store the object; the others leave the stored object alone. */
  datatype Outcome = Persist | Quiet | LookupFailed | Panics

  lemma PrefixSteps(names: seq<string>, recorded: map<string, Phase>, phases: seq<Phase>, i: nat)
    requires |names| == |phases| && i < |names|
    ensures Recorded(names[..i + 1], recorded, phases[..i + 1]) ==
            Recorded(names[..i], recorded, phases[..i])[names[i] := phases[i]]
  {
    assert names[..i + 1][..i] == names[..i] && phases[..i + 1][..i] == phases[..i];
  }

  lemma {:induction false} QuietKeepsRecord(names: seq<string>, recorded: map<string, Phase>, phases: seq<Phase>, k: nat)
    requires |names| == |phases| && k <= |names| && forall i :: 0 <= i < k ==> !Changes(names, recorded, phases, i)
    ensures Recorded(names[..k], recorded, phases[..k]) == recorded
  {
    if k > 0 {
      QuietKeepsRecord(names, recorded, phases, k - 1);
      PrefixSteps(names, recorded, phases, k - 1);
      assert !Changes(names, recorded, phases, k - 1);
    }
  }

  /** The i-th node is the first that is missing, new, pending or being destroyed: a missing one fails the lookup, another one panics. */
  ghost predicate StopsAtNode(observed: seq<Observed>, outcome: Outcome, i: nat) {
    && i < |observed|
    && (forall j :: 0 <= j < i ==>
          observed[j].Node? && (observed[j].state.NodeUninitialized? || observed[j].state.NodeReady? || observed[j].state.NodeFinish?))
    && (if observed[i].NoNode? then outcome.LookupFailed?
        else (observed[i].state.NodeNew? || observed[i].state.NodePending? || observed[i].state.NodeDestroy?) && outcome.Panics?)
  }

  ghost predicate StopsAt(observed: seq<Observed>, outcome: Outcome) {
    exists i :: StopsAtNode(observed, outcome, i)
  }

  /** What the loop has recorded and counted when it has looked at the first i items. */
  ghost predicate Counted(names: seq<string>, before: map<string, Phase>, phases: seq<Phase>, i: nat,
                          recorded: map<string, Phase>, phaseChanged: nat, succeeded: nat, failed: nat)
  {
    && i <= |names| == |phases|
    && recorded == Recorded(names[..i], before, phases[..i])
    && (phaseChanged == 0 <==> forall j :: 0 <= j < i ==> !Changes(names, before, phases, j))
    && succeeded + failed <= i
    && (succeeded == i <==> forall j :: 0 <= j < i ==> phases[j].PhaseSucceeded?)
    && (succeeded + failed == i <==> forall j :: 0 <= j < i ==> Terminal(phases[j]))
  }

  lemma CountedStep(names: seq<string>, before: map<string, Phase>, phases: seq<Phase>, i: nat,
                    recorded: map<string, Phase>, phaseChanged: nat, succeeded: nat, failed: nat,
                    recorded': map<string, Phase>, phaseChanged': nat, succeeded': nat, failed': nat)
    requires Counted(names, before, phases, i, recorded, phaseChanged, succeeded, failed) && i < |names|
    requires recorded' == recorded[names[i] := phases[i]] && phaseChanged <= phaseChanged'
    requires phaseChanged' == phaseChanged <==> names[i] in recorded && recorded[names[i]] == phases[i]
    requires succeeded' == succeeded + if phases[i].PhaseSucceeded? then 1 else 0
    requires failed' == failed + if phases[i].PhaseFailed? then 1 else 0
    ensures Counted(names, before, phases, i + 1, recorded', phaseChanged', succeeded', failed')
  {
    PrefixSteps(names, before, phases, i);
    assert phaseChanged' == phaseChanged <==> !Changes(names, before, phases, i);
  }

  lemma CountedAll(names: seq<string>, before: map<string, Phase>, phases: seq<Phase>,
                   recorded: map<string, Phase>, phaseChanged: nat, succeeded: nat, failed: nat)
    requires Counted(names, before, phases, |names|, recorded, phaseChanged, succeeded, failed)
    ensures recorded == Recorded(names, before, phases) && (phaseChanged == 0 <==> !AnyChange(names, before, phases))
    ensures phaseChanged == 0 ==> recorded == before
    ensures succeeded == |names| <==> AllSucceeded(phases)
    ensures succeeded + failed == |names| <==> AllTerminal(phases)
  {
    assert names[..|names|] == names && phases[..|names|] == phases;
    if phaseChanged == 0 {
      QuietKeepsRecord(names, before, phases, |names|);
    }
  }

  class TestWorkload {
    const names: seq<string>
    var state: WorkloadState
    var recorded: map<string, Phase>

    constructor (names: seq<string>, status: Stored)
      ensures this.names == names && Status() == status
    {
      this.names := names;
      state := status.state;
      recorded := status.recorded;
    }

    ghost function Status(): Stored
      reads this
    {
      Stored(state, recorded)
    }

    /** Look at one node: record its phase and say how many changes that was. */
    method Inspect(name: string, phase: Phase) returns (changes: nat)
      modifies this`recorded
      ensures recorded == old(recorded)[name := phase]
      ensures changes == 0 <==> name in old(recorded) && old(recorded)[name] == phase
    {
      changes := 0;
      if name !in recorded {
        changes := changes + 1;
        recorded := recorded[name := PhasePending];
      }
      if recorded[name] != phase {
        recorded := recorded[name := phase];
        changes := changes + 1;
      }
    }

    /** The loop over the items; it stops at the first node that is missing or in a state it must not be in. */
    method InspectAll(observed: seq<Observed>) returns (stop: Option<Outcome>, phaseChanged: nat, succeeded: nat, failed: nat)
      requires |observed| == |names|
      modifies this`recorded
      ensures stop.None? <==>
                forall i :: 0 <= i < |observed| ==>
                  observed[i].Node? && (observed[i].state.NodeUninitialized? || observed[i].state.NodeReady? || observed[i].state.NodeFinish?)
      ensures stop.Some? ==> (stop.value.LookupFailed? || stop.value.Panics?) && StopsAt(observed, stop.value)
      ensures stop.None? ==>
                var phases := PhasesOf(observed);
                && recorded == Recorded(names, old(recorded), phases)
                && (phaseChanged == 0 <==> !AnyChange(names, old(recorded), phases))
                && (succeeded == |names| <==> AllSucceeded(phases))
                && (succeeded + failed == |names| <==> AllTerminal(phases))
      ensures stop.None? && phaseChanged == 0 ==> recorded == old(recorded)
    {
      phaseChanged, succeeded, failed := 0, 0, 0;
      ghost var phases := PhasesOf(observed);
      for i := 0 to |names|
        invariant forall j :: 0 <= j < i ==> Visible(observed[j])
        invariant Counted(names, old(recorded), phases, i, recorded, phaseChanged, succeeded, failed)
      {
        if observed[i].NoNode? {
          stop := Some(LookupFailed);
          assert StopsAtNode(observed, LookupFailed, i);
          return;
        }
        if !Visible(observed[i]) {
          stop := Some(Panics);
          assert StopsAtNode(observed, Panics, i);
          return;
        }
        assert forall j :: 0 <= j < i + 1 ==> Visible(observed[j]);
        ghost var recorded0, phaseChanged0, succeeded0, failed0 := recorded, phaseChanged, succeeded, failed;
        var changes := Inspect(names[i], observed[i].phase);
        phaseChanged := phaseChanged + changes;
        match observed[i].phase {
          case PhaseSucceeded => succeeded := succeeded + 1;
          case PhaseFailed => failed := failed + 1;
          case _ =>
        }
        CountedStep(names, old(recorded), phases, i, recorded0, phaseChanged0, succeeded0, failed0,
                    recorded, phaseChanged, succeeded, failed);
      }
      stop := None;
      CountedAll(names, old(recorded), phases, recorded, phaseChanged, succeeded, failed);
    }

    method ReconcileRunning(observed: seq<Observed>) returns (outcome: Outcome)
      requires |observed| == |names|
      modifies this
      ensures (if outcome.Persist? then Status() else old(Status())) == SeenPass(names, old(Status()), observed)
      ensures outcome.Persist? || outcome.Quiet? <==>
                forall i :: 0 <= i < |observed| ==>
                  observed[i].Node? && (observed[i].state.NodeUninitialized? || observed[i].state.NodeReady? || observed[i].state.NodeFinish?)
      ensures outcome.LookupFailed? || outcome.Panics? ==> StopsAt(observed, outcome)
      ensures outcome.Quiet? ==> Status() == old(Status())
      // the end is noticed by the pass that sees it, as long as some item has had no final phase on record
      ensures NamesDistinct(names) && Unfinished(names, old(recorded)) && AtTheEnd(observed) ==>
                outcome.Persist?
                && state == if forall i :: 0 <= i < |observed| ==> observed[i].phase.PhaseSucceeded? then WorkloadSucceeded else WorkloadFailed
    {
      var stop, phaseChanged, succeeded, failed := InspectAll(observed);
      if stop.Some? {
        return stop.value;
      }
      if phaseChanged != 0 {
        if succeeded == |names| {
          state := WorkloadSucceeded;
        } else if succeeded + failed == |names| {
          state := WorkloadFailed;
        }
        outcome := Persist;
      } else {
        outcome := Quiet;
      }
      assert Status() == SeenPass(names, old(Status()), observed);
      if NamesDistinct(names) && Unfinished(names, old(recorded)) && AtTheEnd(observed) {
        EndIsStored(names, old(Status()), observed);
      }
    }
  }

  // ---- What a pass stores, item by item --------------------------------------------------

  ghost predicate NamesDistinct(names: seq<string>) {
    forall i, j :: 0 <= i < j < |names| ==> names[i] != names[j]
  }

  lemma {:induction false} RecordedAt(names: seq<string>, recorded: map<string, Phase>, phases: seq<Phase>, i: nat)
    requires |names| == |phases| && NamesDistinct(names) && i < |names|
    ensures names[i] in Recorded(names, recorded, phases) && Recorded(names, recorded, phases)[names[i]] == phases[i]
  {
    var n := |names| - 1;
    if i < n {
      RecordedAt(names[..n], recorded, phases[..n], i);
    }
  }

  /** With distinct names an item finds the record of the pass before. */
  lemma {:induction false} RecordedElsewhere(names: seq<string>, recorded: map<string, Phase>, phases: seq<Phase>, name: string)
    requires |names| == |phases| && name !in names
    ensures name in Recorded(names, recorded, phases) <==> name in recorded
    ensures name in recorded ==> Recorded(names, recorded, phases)[name] == recorded[name]
  {
    if names != [] {
      var n := |names| - 1;
      RecordedElsewhere(names[..n], recorded, phases[..n], name);
    }
  }

  /** With distinct names something changes exactly when some item's phase is not the one on record. */
  lemma ChangesIff(names: seq<string>, recorded: map<string, Phase>, phases: seq<Phase>)
    requires |names| == |phases| && NamesDistinct(names)
    ensures AnyChange(names, recorded, phases) <==>
            exists i :: 0 <= i < |names| && (names[i] !in recorded || recorded[names[i]] != phases[i])
  {
    forall i | 0 <= i < |names|
      ensures Changes(names, recorded, phases, i) <==> names[i] !in recorded || recorded[names[i]] != phases[i]
    {
      RecordedElsewhere(names[..i], recorded, phases[..i], names[i]);
    }
  }

  /** A pass that is not stopped leaves each item's phase on record, and touches no other. */
  lemma RecordIs(names: seq<string>, w: Stored, observed: seq<Observed>)
    requires |names| == |observed| && NamesDistinct(names)
    requires forall i :: 0 <= i < |observed| ==>
               observed[i].Node? && (observed[i].state.NodeUninitialized? || observed[i].state.NodeReady? || observed[i].state.NodeFinish?)
    ensures var after := SeenPass(names, w, observed);
            && (forall i :: 0 <= i < |names| ==> names[i] in after.recorded && after.recorded[names[i]] == observed[i].phase)
            && (forall n :: n !in names ==> (n in after.recorded <==> n in w.recorded)
                                            && (n in w.recorded ==> after.recorded[n] == w.recorded[n]))
  {
    var phases := PhasesOf(observed);
    ChangesIff(names, w.recorded, phases);
    forall i | 0 <= i < |names| ensures names[i] in Recorded(names, w.recorded, phases) && Recorded(names, w.recorded, phases)[names[i]] == phases[i] {
      RecordedAt(names, w.recorded, phases, i);
    }
    forall n | n !in names
      ensures n in Recorded(names, w.recorded, phases) <==> n in w.recorded
      ensures n in w.recorded ==> Recorded(names, w.recorded, phases)[n] == w.recorded[n]
    {
      RecordedElsewhere(names, w.recorded, phases, n);
    }
  }

  /** The stored state moves only if some phase is not the one on record, and then if every item has come to its end. */
  lemma StateIs(names: seq<string>, w: Stored, observed: seq<Observed>)
    requires |names| == |observed| && NamesDistinct(names)
    requires forall i :: 0 <= i < |observed| ==>
               observed[i].Node? && (observed[i].state.NodeUninitialized? || observed[i].state.NodeReady? || observed[i].state.NodeFinish?)
    ensures SeenPass(names, w, observed).state ==
            if forall i :: 0 <= i < |names| ==> names[i] in w.recorded && w.recorded[names[i]] == observed[i].phase then w.state
            else if forall i :: 0 <= i < |names| ==> observed[i].phase.PhaseSucceeded? then WorkloadSucceeded
            else if forall i :: 0 <= i < |names| ==> observed[i].phase.PhaseSucceeded? || observed[i].phase.PhaseFailed? then WorkloadFailed
            else w.state
  {
    var phases := PhasesOf(observed);
    ChangesIff(names, w.recorded, phases);
    assert forall i :: 0 <= i < |names| ==> phases[i] == observed[i].phase;
    assert AllSucceeded(phases) <==> forall i :: 0 <= i < |names| ==> observed[i].phase.PhaseSucceeded?;
    assert AllTerminal(phases) <==> forall i :: 0 <= i < |names| ==> observed[i].phase.PhaseSucceeded? || observed[i].phase.PhaseFailed?;
  }

  /** A node that is missing, new, pending or being destroyed makes the pass store nothing. */
  lemma StoppedStoresNothing(names: seq<string>, w: Stored, observed: seq<Observed>, i: nat)
    requires |names| == |observed| && i < |observed|
    requires observed[i].NoNode? || observed[i].state.NodeNew? || observed[i].state.NodePending? || observed[i].state.NodeDestroy?
    ensures SeenPass(names, w, observed) == w
  {
    assert !Visible(observed[i]);
  }

  // ---- No missed completion --------------------------------------------------------------

  ghost predicate WellSized(names: seq<string>, passes: seq<seq<Observed>>) {
    forall k :: 0 <= k < |passes| ==> |passes[k]| == |names|
  }

  /** What is stored after these passes, from the moment the workload started running. */
  ghost function After(names: seq<string>, passes: seq<seq<Observed>>): Stored
    requires WellSized(names, passes)
  {
    if passes == [] then Stored(WorkloadRunning, map[])
    else
      var n := |passes| - 1;
      var w := After(names, passes[..n]);
      if w.state.WorkloadRunning? then SeenPass(names, w, passes[n]) else w
  }

  /** The hidden invariant: while the stored state says running, some item has no final phase on record. */
  ghost predicate Unfinished(names: seq<string>, recorded: map<string, Phase>) {
    exists i :: 0 <= i < |names| && (names[i] !in recorded || !(recorded[names[i]].PhaseSucceeded? || recorded[names[i]].PhaseFailed?))
  }

  /** Every node is there, neither new, pending nor being destroyed, and shows a final phase. */
  ghost predicate AtTheEnd(observed: seq<Observed>) {
    forall i :: 0 <= i < |observed| ==>
      && observed[i].Node? && (observed[i].state.NodeUninitialized? || observed[i].state.NodeReady? || observed[i].state.NodeFinish?)
      && (observed[i].phase.PhaseSucceeded? || observed[i].phase.PhaseFailed?)
  }

  /** While some item has no final phase on record, a pass that finds every item at its end changes something and stores the result. */
  lemma EndIsStored(names: seq<string>, w: Stored, observed: seq<Observed>)
    requires |names| == |observed| && NamesDistinct(names) && Unfinished(names, w.recorded) && AtTheEnd(observed)
    ensures SeenPass(names, w, observed).recorded != w.recorded
    ensures SeenPass(names, w, observed).state ==
            if forall i :: 0 <= i < |observed| ==> observed[i].phase.PhaseSucceeded? then WorkloadSucceeded else WorkloadFailed
  {
    RecordIs(names, w, observed);
    StateIs(names, w, observed);
    var i :| 0 <= i < |names| && (names[i] !in w.recorded || !(w.recorded[names[i]].PhaseSucceeded? || w.recorded[names[i]].PhaseFailed?));
    assert observed[i].phase.PhaseSucceeded? || observed[i].phase.PhaseFailed?;
  }

  /** A pass that does not end the workload leaves some item without a final phase on record. */
  lemma PassLeavesUnfinished(names: seq<string>, w: Stored, observed: seq<Observed>)
    requires |names| == |observed| && NamesDistinct(names) && Unfinished(names, w.recorded)
    requires w.state.WorkloadRunning? && SeenPass(names, w, observed).state.WorkloadRunning?
    ensures Unfinished(names, SeenPass(names, w, observed).recorded)
  {
    if forall i :: 0 <= i < |observed| ==> Visible(observed[i]) {
      var phases := PhasesOf(observed);
      if AnyChange(names, w.recorded, phases) {
        var i :| 0 <= i < |names| && !Terminal(phases[i]);
        RecordedAt(names, w.recorded, phases, i);
      }
    }
  }

  lemma {:induction false} RunningIsUnfinished(names: seq<string>, passes: seq<seq<Observed>>)
    requires WellSized(names, passes) && names != [] && NamesDistinct(names)
    requires After(names, passes).state.WorkloadRunning?
    ensures Unfinished(names, After(names, passes).recorded)
  {
    if passes == [] {
      assert names[0] !in After(names, passes).recorded;
    } else {
      var n := |passes| - 1;
      var w := After(names, passes[..n]);
      RunningIsUnfinished(names, passes[..n]);
      PassLeavesUnfinished(names, w, passes[n]);
    }
  }

  /** The workload is running, and a pass finds every node there, neither pending nor being destroyed, with a final phase. */
  ghost predicate MeetsTheEnd(names: seq<string>, passes: seq<seq<Observed>>, observed: seq<Observed>) {
    WellSized(names, passes) && After(names, passes).state.WorkloadRunning? && |observed| == |names| && AtTheEnd(observed)
  }

  ghost predicate CompletionSeen(names: seq<string>, passes: seq<seq<Observed>>, observed: seq<Observed>)
    requires MeetsTheEnd(names, passes, observed)
  {
    SeenPass(names, After(names, passes), observed).state ==
    if forall i :: 0 <= i < |observed| ==> observed[i].phase.PhaseSucceeded? then WorkloadSucceeded else WorkloadFailed
  }

  /** A pass that sees every node at its end stores the result. */
  ghost predicate NeverMisses(names: seq<string>) {
    forall passes, observed :: MeetsTheEnd(names, passes, observed) ==> CompletionSeen(names, passes, observed)
  }

  /** No missed completion: whatever was seen before, passes that stored nothing included, the end is noticed on the pass that sees it. */
  lemma CompletionIsSeen(names: seq<string>, passes: seq<seq<Observed>>, observed: seq<Observed>)
    requires names != [] && NamesDistinct(names) && MeetsTheEnd(names, passes, observed)
    ensures SeenPass(names, After(names, passes), observed).state ==
            if forall i :: 0 <= i < |observed| ==> observed[i].phase.PhaseSucceeded? then WorkloadSucceeded else WorkloadFailed
  {
    RunningIsUnfinished(names, passes);
    EndIsStored(names, After(names, passes), observed);
  }

  function AllSucceededBut(n: nat, i: nat): seq<Phase> {
    seq(n, k => if k == i then PhaseRunning else PhaseSucceeded)
  }

  function OnReadyNodes(phases: seq<Phase>): seq<Observed> {
    seq(|phases|, k requires 0 <= k < |phases| => Node(NodeReady, phases[k]))
  }

  lemma ReadyNodesShow(names: seq<string>, w: Stored, phases: seq<Phase>)
    requires |names| == |phases|
    ensures SeenPass(names, w, OnReadyNodes(phases)) == Pass(names, w, phases)
  {
    assert forall i :: 0 <= i < |phases| ==> Visible(OnReadyNodes(phases)[i]);
    assert PhasesOf(OnReadyNodes(phases)) == phases;
  }

  /** When an item is followed by another of its name, its own phase leaves no trace. */
  lemma {:induction false} LastOfANameWins(names: seq<string>, recorded: map<string, Phase>, i: nat, j: nat, k: nat)
    requires i < j < |names| && names[i] == names[j] && k <= |names|
    ensures forall x :: x in names[..k] && (x == names[i] ==> k > j) ==>
              var after := Recorded(names[..k], recorded, AllSucceededBut(|names|, i)[..k]); x in after && after[x].PhaseSucceeded?
  {
    if k > 0 {
      LastOfANameWins(names, recorded, i, j, k - 1);
      PrefixSteps(names, recorded, AllSucceededBut(|names|, i), k - 1);
      assert names[..k] == names[..k - 1] + [names[k - 1]];
    }
  }

  lemma {:induction false} NothingChanges(names: seq<string>, recorded: map<string, Phase>, phases: seq<Phase>, k: nat)
    requires |phases| == |names| && k <= |names|
    requires forall i :: 0 <= i < |names| ==> names[i] in recorded && recorded[names[i]] == phases[i]
    ensures Recorded(names[..k], recorded, phases[..k]) == recorded
  {
    if k > 0 {
      NothingChanges(names, recorded, phases, k - 1);
      PrefixSteps(names, recorded, phases, k - 1);
    }
  }

  lemma AfterOnePass(names: seq<string>, phases: seq<Phase>)
    requires names != [] && |phases| == |names|
    ensures After(names, [OnReadyNodes(phases)]) == Stored(Verdict(phases, WorkloadRunning), Recorded(names, map[], phases))
  {
    var passes := [OnReadyNodes(phases)];
    assert WellSized(names, passes);
    assert passes[..|passes| - 1] == [];
    ReadyNodesShow(names, Stored(WorkloadRunning, map[]), phases);
    assert Recorded(names[..0], map[], phases[..0]) == map[];
    assert Changes(names, map[], phases, 0);
  }

  /** With a name used twice, two passes are enough to miss the end for good. */
  lemma DuplicateNameMisses(names: seq<string>, i: nat, j: nat)
    requires i < j < |names| && names[i] == names[j]
    ensures !NeverMisses(names)
  {
    var first := AllSucceededBut(|names|, i);
    var done := seq(|names|, k => PhaseSucceeded);
    var passes: seq<seq<Observed>> := [OnReadyNodes(first)];
    var w := After(names, passes);
    AfterOnePass(names, first);
    assert !first[i].PhaseSucceeded? && !Terminal(first[i]);
    LastOfANameWins(names, map[], i, j, |names|);
    assert names[..|names|] == names && first[..|names|] == first;
    forall k | 0 <= k < |names| ensures names[k] in w.recorded && w.recorded[names[k]] == done[k] {
      assert names[k] in names[..|names|];
    }
    forall k | 0 <= k < |names| ensures !Changes(names, w.recorded, done, k) {
      NothingChanges(names, w.recorded, done, k);
    }
    ReadyNodesShow(names, w, done);
    assert MeetsTheEnd(names, passes, OnReadyNodes(done)) && !CompletionSeen(names, passes, OnReadyNodes(done));
  }

  /** Exactly when the detector can be relied on: at least one item, and no name used twice. */
  lemma NeverMissesIff(names: seq<string>)
    ensures NeverMisses(names) <==> names != [] && NamesDistinct(names)
  {
    if names == [] {
      assert MeetsTheEnd(names, [], []) && !CompletionSeen(names, [], []);
    } else if NamesDistinct(names) {
      forall passes, observed | MeetsTheEnd(names, passes, observed) ensures CompletionSeen(names, passes, observed) {
        CompletionIsSeen(names, passes, observed);
      }
    } else {
      var i, j :| 0 <= i < j < |names| && names[i] == names[j];
      DuplicateNameMisses(names, i, j);
    }
  }
}
