/** What a granted binding means for the machine: exactness, exclusivity, conservation, release. */
module PlacementLaws {
  import opened Options
  import opened Refs
  import opened Resources
  import opened Sizes
  import opened CpuSets
  import opened Machines
  import opened Relationships
  import opened Capacity
  import opened Placement

  // ---- Exactness -------------------------------------------------------------------------

  /** Some device is of the kind asked for and large enough. */
  ghost predicate HasADevice(have: map<string, DiskResource>, want: DiskSpec) {
    exists d :: d in have && have[d].kind == want.kind && want.size <= have[d].size
  }

  ghost predicate EachHasADevice(have: map<string, DiskResource>, want: map<string, DiskSpec>) {
    forall name :: name in want ==> HasADevice(have, want[name])
  }

  /** Memory, CPUs and for each disk a device of its kind that is large enough are left on the machine. */
  ghost predicate HasRoom(cfg: Config, m: Machine, list: seq<ResourceRef>, spec: TestResourceSpec) {
    && RestOf(cfg.round, m, list).Some?
    && var left := RestOf(cfg.round, m, list).value;
    && spec.memory <= left.memory && spec.cores <= |left.idleCPUSet| && EachHasADevice(left.disks, spec.disks)
  }

  lemma OnlyDisk(want: map<string, DiskSpec>, name: string)
    requires |want| <= 1 && name in want
    ensures want.Keys == {name}
  {
    SubsetSize({name}, want.Keys);
    assert |want.Keys| == |want|;
  }

  /** A single disk is served by any device that suits it. */
  lemma OneDiskServed(byDevice: bool, have: map<string, DiskResource>, want: map<string, DiskSpec>) returns (got: map<string, DiskBinding>)
    requires |want| <= 1 && EachHasADevice(have, want)
    ensures got.Keys == want.Keys && DisksServed(byDevice, have, want, got)
  {
    if want == map[] {
      got := map[];
      assert ServingOrder(byDevice, got, []);
    } else {
      var name :| name in want;
      OnlyDisk(want, name);
      assert HasADevice(have, want[name]);
      var d :| d in have && Suits(want[name], have[d]);
      got := map[name := DiskBindingOf(want[name], d, have[d])];
      assert ServingOrder(byDevice, got, [name]);
    }
  }

  /**
   * With at most one disk the greedy test is exact: enough memory, enough CPUs and a device that is of the kind
   * asked for and large enough are all it takes, and they are needed.
   */
  lemma OneDiskFitsIff(cfg: Config, m: Machine, list: seq<ResourceRef>, spec: TestResourceSpec)
    requires |spec.disks| <= 1
    ensures CanFit(cfg, m, list, spec) <==>
            && RestOf(cfg.round, m, list).Some?
            && var rest := RestOf(cfg.round, m, list).value;
            && spec.memory <= rest.memory && spec.cores <= |rest.idleCPUSet|
            && forall n :: n in spec.disks ==>
                 exists d :: d in rest.disks && rest.disks[d].kind == spec.disks[n].kind && spec.disks[n].size <= rest.disks[d].size
  {
    FitsIffRoom(cfg, m, list, spec);
    if RestOf(cfg.round, m, list).Some? {
      EachHasADeviceIs(RestOf(cfg.round, m, list).value.disks, spec.disks);
    }
  }

  lemma FitsIffRoom(cfg: Config, m: Machine, list: seq<ResourceRef>, spec: TestResourceSpec)
    requires |spec.disks| <= 1
    ensures CanFit(cfg, m, list, spec) <==> HasRoom(cfg, m, list, spec)
  {
    if HasRoom(cfg, m, list, spec) {
      var rest := RestOf(cfg.round, m, list).value;
      var got := OneDiskServed(cfg.byDevice, rest.disks, spec.disks);
      assert Fits(cfg, m, list, spec, ResourceBinding(spec.memory, rest.idleCPUSet[..Max0(spec.cores)], got));
    }
    if CanFit(cfg, m, list, spec) {
      FittingHasRoom(cfg, m, list, spec);
    }
  }

  lemma EachHasADeviceIs(have: map<string, DiskResource>, want: map<string, DiskSpec>)
    ensures EachHasADevice(have, want) <==>
            forall n :: n in want ==> exists d :: d in have && have[d].kind == want[n].kind && want[n].size <= have[d].size
  {
    forall n | n in want
      ensures HasADevice(have, want[n]) <==> exists d :: d in have && have[d].kind == want[n].kind && want[n].size <= have[d].size
    {
    }
  }

  lemma FittingHasRoom(cfg: Config, m: Machine, list: seq<ResourceRef>, spec: TestResourceSpec)
    requires CanFit(cfg, m, list, spec)
    ensures HasRoom(cfg, m, list, spec)
  {
    var rest := RestOf(cfg.round, m, list).value;
    var b :| Fits(cfg, m, list, spec, b);
    GrantIs(cfg.byDevice, rest, spec, b);
    forall n | n in spec.disks ensures HasADevice(rest.disks, spec.disks[n]) {
    }
  }

  /** Without disks, room is all it takes. */
  lemma DiskFreeFitsIff(cfg: Config, m: Machine, list: seq<ResourceRef>, spec: TestResourceSpec)
    requires spec.disks == map[]
    ensures CanFit(cfg, m, list, spec) <==>
            && RestOf(cfg.round, m, list).Some?
            && spec.memory <= RestOf(cfg.round, m, list).value.memory
            && spec.cores <= |RestOf(cfg.round, m, list).value.idleCPUSet|
  {
    OneDiskFitsIff(cfg, m, list, spec);
  }

  /** A single disk that was not served had no suitable device. */
  lemma OneDiskStarved(byDevice: bool, have: map<string, DiskResource>, want: map<string, DiskSpec>, got: map<string, DiskBinding>, name: string)
    requires |want| <= 1 && DisksServed(byDevice, have, want, got) && Starved(byDevice, have, want, got, name)
    ensures !EachHasADevice(have, want)
  {
    OnlyDisk(want, name);
    assert got.Keys == {};
    assert !HasADevice(have, want[name]);
  }

  /** So an item with at most one disk overflows only where it cannot fit. */
  lemma OneDiskOverflowExact(cfg: Config, m: Machine, list: seq<ResourceRef>, spec: TestResourceSpec)
    requires |spec.disks| <= 1 && Overflows(cfg, m, list, spec)
    ensures !CanFit(cfg, m, list, spec)
  {
    OneDiskFitsIff(cfg, m, list, spec);
    var rest := RestOf(cfg.round, m, list);
    if rest.Some? && Roomy(rest.value, spec) {
      var name, got :| DisksServed(cfg.byDevice, rest.value.disks, spec.disks, got)
                       && Starved(cfg.byDevice, rest.value.disks, spec.disks, got, name);
      OneDiskStarved(cfg.byDevice, rest.value.disks, spec.disks, got, name);
    }
  }

  /** A full outcome of the disk loops for this request. */
  ghost predicate ServesAll(byDevice: bool, have: map<string, DiskResource>, want: map<string, DiskSpec>,
                            got: map<string, DiskBinding>)
  {
    got.Keys == want.Keys && DisksServed(byDevice, have, want, got)
  }

  ghost predicate OnDistinctDevices(got: map<string, DiskBinding>) {
    DistinctDevices(ResourceBinding(0, [], got))
  }

  /** Deleting by device, or asking for at most one disk, keeps the disks of one item apart. */
  lemma ServedOnDistinctDevices(byDevice: bool, have: map<string, DiskResource>, want: map<string, DiskSpec>,
                                got: map<string, DiskBinding>)
    requires ServesAll(byDevice, have, want, got)
    requires byDevice || |want| <= 1
    ensures OnDistinctDevices(got)
  {
    var order :| ServingOrder(byDevice, got, order);
    forall x, y | x in got && y in got && got[x].device == got[y].device ensures x == y {
      if byDevice {
        var i :| 0 <= i < |order| && order[i] == x;
        var j :| 0 <= j < |order| && order[j] == y;
      } else {
        assert x in want && y in want;
        assert want.Keys == {x} by {
          SubsetSize({x}, want.Keys);
        }
      }
    }
  }

  /** The device is of the kind that both disks ask for, and large enough for either. */
  ghost predicate DoesForBoth(have: map<string, DiskResource>, want: map<string, DiskSpec>, x: string, y: string, d: string) {
    && x in want && y in want && x != y && d in have
    && have[d].kind == want[x].kind && want[x].size <= have[d].size
    && have[d].kind == want[y].kind && want[y].size <= have[d].size
  }

  /** Some device would do for two of the requested disks. */
  ghost predicate Contended(have: map<string, DiskResource>, want: map<string, DiskSpec>) {
    exists x, y, d :: DoesForBoth(have, want, x, y, d)
  }

  lemma {:induction false} SomeOrder(names: set<string>)
    ensures exists order: seq<string> :: (forall x :: x in order <==> x in names)
                                       && forall i, j :: 0 <= i < j < |order| ==> order[i] != order[j]
  {
    if names == {} {
      assert forall x :: x in [] <==> x in names;
    } else {
      var y :| y in names;
      SomeOrder(names - {y});
      var order: seq<string> :| (forall x :: x in order <==> x in names - {y})
                              && forall i, j :: 0 <= i < j < |order| ==> order[i] != order[j];
      var longer := order + [y];
      assert forall x :: x in longer <==> x in order || x == y;
      assert forall i :: 0 <= i < |order| ==> order[i] in order;
    }
  }

  /** A suitable device for each of these disks, taken or not. */
  ghost predicate Choice(have: map<string, DiskResource>, want: map<string, DiskSpec>, names: set<string>, got: map<string, DiskBinding>)
    requires names <= want.Keys
  {
    got.Keys == names && forall name :: name in got ==> SuitablyBound(have, want[name], got[name])
  }

  /** When no disk is named like a device, any choice of suitable devices is an outcome of the code. */
  lemma AnyChoiceServes(have: map<string, DiskResource>, want: map<string, DiskSpec>, got: map<string, DiskBinding>)
    requires want.Keys !! have.Keys && Choice(have, want, want.Keys, got)
    ensures ServesAll(false, have, want, got)
  {
    SomeOrder(want.Keys);
    var order: seq<string> :| (forall n :: n in order <==> n in want.Keys)
                            && forall i, j :: 0 <= i < j < |order| ==> order[i] != order[j];
    forall i, j | 0 <= i < j < |order| ensures got[order[j]].device != order[i] {
      assert order[i] in want.Keys && order[j] in want.Keys;
      assert SuitablyBound(have, want[order[j]], got[order[j]]);
    }
    assert ServingOrder(false, got, order);
  }

  lemma {:induction false} SomeChoice(have: map<string, DiskResource>, want: map<string, DiskSpec>, names: set<string>)
    returns (got: map<string, DiskBinding>)
    requires EachHasADevice(have, want) && names <= want.Keys
    ensures Choice(have, want, names, got)
  {
    if names == {} {
      got := map[];
    } else {
      var y :| y in names;
      var fewer := SomeChoice(have, want, names - {y});
      assert HasADevice(have, want[y]);
      var d :| d in have && Suits(want[y], have[d]);
      got := fewer[y := DiskBindingOf(want[y], d, have[d])];
      assert got.Keys == names;
    }
  }

  lemma PutBothOn(have: map<string, DiskResource>, want: map<string, DiskSpec>, some: map<string, DiskBinding>,
                  x: string, y: string, d: string) returns (got: map<string, DiskBinding>)
    requires Choice(have, want, want.Keys, some) && x != y
    requires x in want && y in want && d in have && Suits(want[x], have[d]) && Suits(want[y], have[d])
    ensures Choice(have, want, want.Keys, got) && !OnDistinctDevices(got)
  {
    var withX := some[x := DiskBindingOf(want[x], d, have[d])];
    got := withX[y := DiskBindingOf(want[y], d, have[d])];
    assert forall name :: name in withX ==> name in want && SuitablyBound(have, want[name], withX[name]);
    NotDistinct(got, x, y);
  }

  lemma NotDistinct(got: map<string, DiskBinding>, x: string, y: string)
    requires x in got && y in got && x != y && got[x].device == got[y].device
    ensures !OnDistinctDevices(got)
  {
    assert x in ResourceBinding(0, [], got).disks;
  }

  /** With the code's deletion by name, contention is enough to put two disks on one device. */
  lemma ContentionCollides(have: map<string, DiskResource>, want: map<string, DiskSpec>)
    requires want.Keys !! have.Keys && EachHasADevice(have, want) && Contended(have, want)
    ensures exists got: map<string, DiskBinding> :: ServesAll(false, have, want, got) && !OnDistinctDevices(got)
  {
    var x, y, d :| DoesForBoth(have, want, x, y, d);
    var some := SomeChoice(have, want, want.Keys);
    var got := PutBothOn(have, want, some, x, y, d);
    AnyChoiceServes(have, want, got);
  }

  lemma UncontendedDistinct(have: map<string, DiskResource>, want: map<string, DiskSpec>, got: map<string, DiskBinding>)
    requires !Contended(have, want) && ServesAll(false, have, want, got)
    ensures OnDistinctDevices(got)
  {
    forall x, y | x in got.Keys && y in got.Keys && got[x].device == got[y].device ensures x == y {
      assert SuitablyBound(have, want[x], got[x]) && SuitablyBound(have, want[y], got[y]);
      var d := got[x].device;
      assert !DoesForBoth(have, want, x, y, d);
    }
  }

  lemma ServedHasADevice(have: map<string, DiskResource>, want: map<string, DiskSpec>, got: map<string, DiskBinding>)
    requires ServesAll(false, have, want, got)
    ensures EachHasADevice(have, want)
  {
    forall name | name in want ensures HasADevice(have, want[name]) {
      assert name in got && SuitablyBound(have, want[name], got[name]);
    }
  }

  /** Every way in which the code can serve the request uses distinct devices. */
  ghost predicate AlwaysDistinct(have: map<string, DiskResource>, want: map<string, DiskSpec>) {
    forall got: map<string, DiskBinding> :: ServesAll(false, have, want, got) ==> OnDistinctDevices(got)
  }

  /** Serving a disk deletes its name: some suitable device is not named like a disk served before. */
  ghost predicate FreeDevice(have: map<string, DiskResource>, want: DiskSpec, served: seq<string>) {
    exists d :: d in have && have[d].kind == want.kind && want.size <= have[d].size && d !in served
  }

  /** Each requested disk once. */
  ghost predicate OrderOf(want: map<string, DiskSpec>, order: seq<string>) {
    && (forall name :: name in order <==> name in want)
    && (forall k, l :: 0 <= k < l < |order| ==> order[k] != order[l])
  }

  /** In this order every disk finds a device, and d is still there for the i-th disk and for the j-th. */
  ghost predicate CollidesIn(have: map<string, DiskResource>, want: map<string, DiskSpec>, order: seq<string>, i: nat, j: nat, d: string) {
    && OrderOf(want, order)
    && (forall k :: 0 <= k < |order| ==> FreeDevice(have, want[order[k]], order[..k]))
    && i < j < |order| && d in have && d !in order[..j]
    && DoesForBoth(have, want, order[i], order[j], d)
  }

  /** The k-th disk is on a device that is there for it. */
  ghost predicate BoundAt(have: map<string, DiskResource>, want: map<string, DiskSpec>, got: map<string, DiskBinding>,
                          order: seq<string>, k: nat)
  {
    && k < |order| && order[k] in want && order[k] in got
    && SuitablyBound(have, want[order[k]], got[order[k]]) && got[order[k]].device !in order[..k]
  }

  lemma {:induction false} ChooseAlong(have: map<string, DiskResource>, want: map<string, DiskSpec>, order: seq<string>, n: nat)
    returns (got: map<string, DiskBinding>)
    requires OrderOf(want, order) && n <= |order| && forall k :: 0 <= k < |order| ==> FreeDevice(have, want[order[k]], order[..k])
    ensures forall name :: name in got <==> name in order[..n]
    ensures forall k :: 0 <= k < n ==> BoundAt(have, want, got, order, k)
  {
    if n == 0 {
      got := map[];
    } else {
      var fewer := ChooseAlong(have, want, order, n - 1);
      assert FreeDevice(have, want[order[n - 1]], order[..n - 1]);
      var d :| d in have && Suits(want[order[n - 1]], have[d]) && d !in order[..n - 1];
      got := fewer[order[n - 1] := DiskBindingOf(want[order[n - 1]], d, have[d])];
      assert order[..n] == order[..n - 1] + [order[n - 1]];
      forall k | 0 <= k < n ensures BoundAt(have, want, got, order, k) {
        assert k < n - 1 ==> BoundAt(have, want, fewer, order, k);
      }
    }
  }

  /** A choice of devices that are there in this order is an outcome of the code. */
  lemma ServesInOrder(have: map<string, DiskResource>, want: map<string, DiskSpec>, got: map<string, DiskBinding>, order: seq<string>)
    requires OrderOf(want, order) && got.Keys == want.Keys && forall k :: 0 <= k < |order| ==> BoundAt(have, want, got, order, k)
    ensures ServesAll(false, have, want, got)
  {
    forall name | name in got ensures SuitablyBound(have, want[name], got[name]) {
      var k :| 0 <= k < |order| && order[k] == name;
      assert BoundAt(have, want, got, order, k);
    }
    forall k, l | 0 <= k < l < |order| ensures got[order[l]].device != order[k] {
      assert BoundAt(have, want, got, order, l) && order[k] in order[..l];
    }
    assert ServingOrder(false, got, order);
  }

  lemma MovesTo(have: map<string, DiskResource>, want: map<string, DiskSpec>, got: map<string, DiskBinding>,
                order: seq<string>, l: nat, d: string) returns (got': map<string, DiskBinding>)
    requires OrderOf(want, order) && forall k :: 0 <= k < |order| ==> BoundAt(have, want, got, order, k)
    requires l < |order| && d in have && Suits(want[order[l]], have[d]) && d !in order[..l]
    ensures got' == got[order[l] := DiskBindingOf(want[order[l]], d, have[d])]
    ensures forall k :: 0 <= k < |order| ==> BoundAt(have, want, got', order, k)
  {
    got' := got[order[l] := DiskBindingOf(want[order[l]], d, have[d])];
    forall k | 0 <= k < |order| ensures BoundAt(have, want, got', order, k) {
      assert BoundAt(have, want, got, order, k);
      assert k != l ==> order[k] != order[l];
    }
  }

  lemma CollisionHappens(have: map<string, DiskResource>, want: map<string, DiskSpec>, order: seq<string>, i: nat, j: nat, d: string)
    returns (got: map<string, DiskBinding>)
    requires CollidesIn(have, want, order, i, j, d)
    ensures ServesAll(false, have, want, got) && !OnDistinctDevices(got)
  {
    var some := ChooseAlong(have, want, order, |order|);
    assert order[..|order|] == order && some.Keys == want.Keys;
    assert d !in order[..i] by { assert order[..i] <= order[..j]; }
    var withI := MovesTo(have, want, some, order, i, d);
    got := MovesTo(have, want, withI, order, j, d);
    assert order[i] in want && order[j] in want && got.Keys == want.Keys;
    ServesInOrder(have, want, got, order);
    NotDistinct(got, order[i], order[j]);
  }

  lemma ServedIsBoundAt(have: map<string, DiskResource>, want: map<string, DiskSpec>, got: map<string, DiskBinding>, order: seq<string>, k: nat)
    requires ServesAll(false, have, want, got) && ServingOrder(false, got, order) && k < |order|
    ensures BoundAt(have, want, got, order, k) && FreeDevice(have, want[order[k]], order[..k])
  {
    assert order[k] in got && SuitablyBound(have, want[order[k]], got[order[k]]);
    forall l | 0 <= l < k ensures order[l] != got[order[k]].device {
      assert got[order[k]].device != Deleted(false, order[l], got[order[l]].device);
    }
  }

  lemma SharedCollides(have: map<string, DiskResource>, want: map<string, DiskSpec>, got: map<string, DiskBinding>,
                       order: seq<string>, i: nat, j: nat)
    requires ServesAll(false, have, want, got) && ServingOrder(false, got, order) && i < j < |order|
    requires order[i] in got && order[j] in got && got[order[i]].device == got[order[j]].device
    ensures CollidesIn(have, want, order, i, j, got[order[i]].device)
  {
    ServedIsBoundAt(have, want, got, order, i);
    ServedIsBoundAt(have, want, got, order, j);
    forall k | 0 <= k < |order| ensures FreeDevice(have, want[order[k]], order[..k]) {
      ServedIsBoundAt(have, want, got, order, k);
    }
    assert OrderOf(want, order);
  }

  lemma CollisionHasOrder(have: map<string, DiskResource>, want: map<string, DiskSpec>, got: map<string, DiskBinding>)
    requires ServesAll(false, have, want, got) && !OnDistinctDevices(got)
    ensures exists order, i, j, d :: CollidesIn(have, want, order, i, j, d)
  {
    var order :| ServingOrder(false, got, order);
    var x, y :| x in got && y in got && x != y && got[x].device == got[y].device;
    var k :| 0 <= k < |order| && order[k] == x;
    var l :| 0 <= l < |order| && order[l] == y;
    if k < l {
      SharedCollides(have, want, got, order, k, l);
    } else {
      SharedCollides(have, want, got, order, l, k);
    }
  }

  /**
   * As coded, every way of serving a request puts its disks on distinct devices, unless in some order in which all can
   * be served two of them find the same device, which is named like no disk served before the second. So they do if no
   * device suits two disks; and, when disk names are not device names, only then (or if the request cannot be served).
   */
  lemma CodedDisksDistinctIff(have: map<string, DiskResource>, want: map<string, DiskSpec>)
    ensures AlwaysDistinct(have, want) <==> !exists order, i, j, d :: CollidesIn(have, want, order, i, j, d)
    ensures !Contended(have, want) ==> AlwaysDistinct(have, want)
    ensures want.Keys !! have.Keys ==>
              (AlwaysDistinct(have, want) <==> !Contended(have, want) || !EachHasADevice(have, want))
  {
    if order, i, j, d :| CollidesIn(have, want, order, i, j, d) {
      var got := CollisionHappens(have, want, order, i, j, d);
    }
    if want.Keys !! have.Keys && EachHasADevice(have, want) && Contended(have, want) {
      ContentionCollides(have, want);
    }
    forall got: map<string, DiskBinding> | ServesAll(false, have, want, got)
      ensures EachHasADevice(have, want) && (!Contended(have, want) ==> OnDistinctDevices(got))
      ensures !OnDistinctDevices(got) ==> exists order, i, j, d :: CollidesIn(have, want, order, i, j, d)
    {
      ServedHasADevice(have, want, got);
      if !Contended(have, want) {
        UncontendedDistinct(have, want, got);
      }
      if !OnDistinctDevices(got) {
        CollisionHasOrder(have, want, got);
      }
    }
  }

  /** Each requested disk once, and for each a device of its kind, large enough, named like no disk before it. */
  ghost predicate ServableIn(have: map<string, DiskResource>, want: map<string, DiskSpec>, order: seq<string>) {
    OrderOf(want, order) && forall k :: 0 <= k < |order| ==> FreeDevice(have, want[order[k]], order[..k])
  }

  lemma ServableIsServed(have: map<string, DiskResource>, want: map<string, DiskSpec>)
    ensures (exists got :: ServesAll(false, have, want, got)) <==> exists order :: ServableIn(have, want, order)
  {
    if order :| ServableIn(have, want, order) {
      var got := ChooseAlong(have, want, order, |order|);
      assert order[..|order|] == order && got.Keys == want.Keys;
      ServesInOrder(have, want, got, order);
    }
    if got :| ServesAll(false, have, want, got) {
      var order :| ServingOrder(false, got, order);
      forall k | 0 <= k < |order| ensures FreeDevice(have, want[order[k]], order[..k]) {
        ServedIsBoundAt(have, want, got, order, k);
      }
      assert OrderOf(want, order) && ServableIn(have, want, order);
    }
  }

  /** As coded, whatever the number of disks: an item can fit exactly if there is room and some order in which each disk finds a device. */
  lemma CodedFitsIff(cfg: Config, m: Machine, list: seq<ResourceRef>, spec: TestResourceSpec)
    requires !cfg.byDevice
    ensures CanFit(cfg, m, list, spec) <==>
            && RestOf(cfg.round, m, list).Some?
            && var rest := RestOf(cfg.round, m, list).value;
            && spec.memory <= rest.memory && spec.cores <= |rest.idleCPUSet|
            && exists order :: ServableIn(rest.disks, spec.disks, order)
  {
    if RestOf(cfg.round, m, list).Some? {
      var rest := RestOf(cfg.round, m, list).value;
      ServableIsServed(rest.disks, spec.disks);
      if Roomy(rest, spec) {
        if got :| ServesAll(false, rest.disks, spec.disks, got) {
          assert Fits(cfg, m, list, spec, ResourceBinding(spec.memory, rest.idleCPUSet[..Max0(spec.cores)], got));
        }
      }
      if b :| Fits(cfg, m, list, spec, b) {
        assert ServesAll(false, rest.disks, spec.disks, b.disks);
      }
    }
  }

  // ---- Soundness of a machine's list -----------------------------------------------------

  /** A bound disk says what the machine offers on its device. */
  ghost predicate DiskAsOffered(round: Rounding, m: Machine, disk: DiskBinding)
    requires m.info.Some?
  {
    && disk.device in AvailableDisks(round, m)
    && var offered := AvailableDisks(round, m)[disk.device];
    && disk.kind == offered.kind && disk.size == offered.size && disk.originPath == offered.mountPath
  }

  ghost predicate DisksAsOffered(round: Rounding, m: Machine, list: seq<ResourceRef>)
    requires m.info.Some?
  {
    forall i, x :: 0 <= i < |list| && x in list[i].binding.disks ==> DiskAsOffered(round, m, list[i].binding.disks[x])
  }

  /** What holds of every machine's list in every reachable state, whatever the disk order was. */
  ghost predicate Sound(round: Rounding, m: Machine, list: seq<ResourceRef>) {
    list != [] ==>
      && m.info.Some?
      && CpusOffered(m, list) && CpusApart(list)
      && DevicesOffered(round, m, list) && DevicesApart(list) && DisksAsOffered(round, m, list)
      && (forall i :: 0 <= i < |list| ==> StrictlyAscending(list[i].binding.cpuSet))
      && (Exact(round) ==> BoundMemory(list) <= m.info.value.memory - m.reserve.memory)
  }

  lemma GrantedCpus(round: Rounding, m: Machine, list: seq<ResourceRef>, byDevice: bool, spec: TestResourceSpec, b: ResourceBinding)
    requires m.info.Some? && RestOf(round, m, list).Some? && Grants(byDevice, RestOf(round, m, list).value, spec, b)
    ensures Elems(b.cpuSet) <= AvailableCpus(m) - BoundCpus(list)
    ensures StrictlyAscending(b.cpuSet)
  {
    RestIsDifference(round, m, list);
    var left := AvailableCpus(m) - BoundCpus(list);
    assert Enumerates(Ascending(left), left);
    assert Elems(b.cpuSet) <= Elems(Ascending(left));
  }

  lemma GrantedDevices(round: Rounding, m: Machine, list: seq<ResourceRef>, byDevice: bool, spec: TestResourceSpec, b: ResourceBinding)
    requires m.info.Some? && RestOf(round, m, list).Some? && Grants(byDevice, RestOf(round, m, list).value, spec, b)
    ensures Devices(b) <= AvailableDisks(round, m).Keys
    ensures Devices(b) !! BoundDevices(list)
  {
    RestIsDifference(round, m, list);
    forall d | d in Devices(b) ensures d in AvailableDisks(round, m).Keys && d !in BoundDevices(list) {
      var name :| name in b.disks && b.disks[name].device == d;
      assert SuitablyBound(RestOf(round, m, list).value.disks, spec.disks[name], b.disks[name]);
    }
  }

  /** What is left of a device is what the machine offers on it. */
  lemma GrantKeepsDisks(round: Rounding, m: Machine, list: seq<ResourceRef>, byDevice: bool, spec: TestResourceSpec, e: ResourceRef)
    requires m.info.Some? && RestOf(round, m, list).Some? && Grants(byDevice, RestOf(round, m, list).value, spec, e.binding)
    requires DisksAsOffered(round, m, list)
    ensures DisksAsOffered(round, m, list + [e])
  {
    GrantIs(byDevice, RestOf(round, m, list).value, spec, e.binding);
    RestIsDifference(round, m, list);
    forall x | x in e.binding.disks ensures DiskAsOffered(round, m, e.binding.disks[x]) {
      assert x in spec.disks;
    }
  }

  lemma CpusApartFromAll(list: seq<ResourceRef>, cpus: set<int>)
    requires cpus !! BoundCpus(list)
    ensures forall i :: 0 <= i < |list| ==> Elems(list[i].binding.cpuSet) !! cpus
  {
    forall i | 0 <= i < |list| ensures Elems(list[i].binding.cpuSet) !! cpus {
      BoundIsUpper(list, list[i]);
    }
  }

  lemma GrantKeepsCpus(m: Machine, list: seq<ResourceRef>, e: ResourceRef)
    requires m.info.Some? && CpusOffered(m, list) && CpusApart(list)
    requires Elems(e.binding.cpuSet) <= AvailableCpus(m) - BoundCpus(list)
    ensures CpusOffered(m, list + [e]) && CpusApart(list + [e])
  {
    CpusApartFromAll(list, Elems(e.binding.cpuSet));
  }

  lemma GrantKeepsDevices(round: Rounding, m: Machine, list: seq<ResourceRef>, e: ResourceRef)
    requires m.info.Some? && DevicesOffered(round, m, list) && DevicesApart(list)
    requires Devices(e.binding) <= AvailableDisks(round, m).Keys && Devices(e.binding) !! BoundDevices(list)
    ensures DevicesOffered(round, m, list + [e]) && DevicesApart(list + [e])
  {
    ApartFromAll(list, e);
  }

  lemma GrantKeepsMemory(cfg: Config, m: Machine, list: seq<ResourceRef>, spec: TestResourceSpec, b: ResourceBinding, r: Ref)
    requires Exact(cfg.round) && m.info.Some? && Fits(cfg, m, list, spec, b)
    ensures BoundMemory(list + [ResourceRef(r, b)]) <= m.info.value.memory - m.reserve.memory
  {
    RestMemoryExact(cfg.round, m, list);
    assert (list + [ResourceRef(r, b)])[..|list|] == list;
  }

  /** A granted binding keeps the list sound: nothing it takes was taken before. */
  lemma SoundAfterGrant(cfg: Config, m: Machine, list: seq<ResourceRef>, spec: TestResourceSpec, b: ResourceBinding, r: Ref)
    requires Sound(cfg.round, m, list) && Fits(cfg, m, list, spec, b)
    ensures Sound(cfg.round, m, list + [ResourceRef(r, b)])
  {
    var e := ResourceRef(r, b);
    assert m.info.Some? by { RestAnswersIff(cfg.round, m, list); }
    assert CpusOffered(m, list + [e]) && CpusApart(list + [e]) && StrictlyAscending(b.cpuSet) by {
      GrantedCpus(cfg.round, m, list, cfg.byDevice, spec, b);
      GrantKeepsCpus(m, list, e);
    }
    assert DevicesOffered(cfg.round, m, list + [e]) && DevicesApart(list + [e]) by {
      GrantedDevices(cfg.round, m, list, cfg.byDevice, spec, b);
      GrantKeepsDevices(cfg.round, m, list, e);
    }
    assert DisksAsOffered(cfg.round, m, list + [e]) by {
      GrantKeepsDisks(cfg.round, m, list, cfg.byDevice, spec, e);
    }
    if Exact(cfg.round) {
      GrantKeepsMemory(cfg, m, list, spec, b, r);
    }
  }

  lemma {:induction false} BoundMemoryOfFewer(list: seq<ResourceRef>, r: Ref)
    ensures BoundMemory(WithoutResource(list, r)) <= BoundMemory(list)
  {
    if list != [] {
      var n := |list| - 1;
      BoundMemoryOfFewer(list[..n], r);
      var rest := WithoutResource(list[..n], r);
      assert (rest + [list[n]])[..|rest|] == rest;
    }
  }

  /** Where the kept entries stood: a filter keeps the order. */
  ghost predicate Kept(list: seq<ResourceRef>, r: Ref, at: seq<nat>) {
    && |at| == |WithoutResource(list, r)|
    && (forall k :: 0 <= k < |at| ==> at[k] < |list| && list[at[k]] == WithoutResource(list, r)[k])
    && (forall j, k :: 0 <= j < k < |at| ==> at[j] < at[k])
  }

  lemma {:induction false} FilterPositions(list: seq<ResourceRef>, r: Ref) returns (at: seq<nat>)
    ensures Kept(list, r, at)
  {
    if list == [] {
      at := [];
    } else {
      var n := |list| - 1;
      at := FilterPositions(list[..n], r);
      if list[n].ref != r {
        at := at + [n];
      }
    }
  }

  /** Releasing keeps the list sound. */
  lemma SoundAfterRelease(round: Rounding, m: Machine, list: seq<ResourceRef>, r: Ref)
    requires Sound(round, m, list)
    ensures Sound(round, m, WithoutResource(list, r))
  {
    var fewer := WithoutResource(list, r);
    if fewer != [] {
      var at := FilterPositions(list, r);
      assert list != [];
      forall i, j | 0 <= i < j < |fewer|
        ensures Elems(fewer[i].binding.cpuSet) !! Elems(fewer[j].binding.cpuSet)
        ensures Devices(fewer[i].binding) !! Devices(fewer[j].binding)
      {
        assert list[at[i]] == fewer[i] && list[at[j]] == fewer[j] && at[i] < at[j];
      }
      forall i | 0 <= i < |fewer|
        ensures Elems(fewer[i].binding.cpuSet) <= AvailableCpus(m) && StrictlyAscending(fewer[i].binding.cpuSet)
        ensures Devices(fewer[i].binding) <= AvailableDisks(round, m).Keys
      {
        assert list[at[i]] == fewer[i];
      }
      forall i, x | 0 <= i < |fewer| && x in fewer[i].binding.disks ensures DiskAsOffered(round, m, fewer[i].binding.disks[x]) {
        assert list[at[i]] == fewer[i];
      }
      BoundMemoryOfFewer(list, r);
    }
  }

  // ---- Conservation ----------------------------------------------------------------------

  /** Rest and what is bound split what the machine offers, with nothing lost and nothing shared. */
  ghost predicate Conserved(round: Rounding, m: Machine, list: seq<ResourceRef>)
    requires m.info.Some?
  {
    && RestOf(round, m, list).Some?
    && var rest := RestOf(round, m, list).value;
    && Elems(rest.idleCPUSet) !! BoundCpus(list)
    && Elems(rest.idleCPUSet) + BoundCpus(list) == AvailableCpus(m)
    && rest.disks.Keys !! BoundDevices(list)
    && rest.disks.Keys + BoundDevices(list) == AvailableDisks(round, m).Keys
    && (Exact(round) ==> rest.memory + BoundMemory(list) == m.info.value.memory - m.reserve.memory)
    && (Exact(round) && list != [] ==> rest.memory >= 0)
  }

  /** In a sound list no entry holds a reserved CPU, and no two entries hold one CPU. */
  lemma SoundCpus(round: Rounding, m: Machine, list: seq<ResourceRef>)
    requires Sound(round, m, list) && m.info.Some?
    ensures forall e, c :: e in list && c in e.binding.cpuSet ==> 0 <= c < m.info.value.threads && m.reserve.cores <= c
    ensures forall i, j, c :: 0 <= i < j < |list| && c in list[i].binding.cpuSet ==> c !in list[j].binding.cpuSet
  {
    forall e, c | e in list && c in e.binding.cpuSet ensures 0 <= c < m.info.value.threads && m.reserve.cores <= c {
      var i :| 0 <= i < |list| && list[i] == e;
      assert c in Elems(list[i].binding.cpuSet) && c in AvailableCpus(m);
      IdleCpusAre(round, m, []);
      AscendingHas(AvailableCpus(m));
      assert c in RestOf(round, m, []).value.idleCPUSet;
    }
    forall i, j, c | 0 <= i < j < |list| && c in list[i].binding.cpuSet ensures c !in list[j].binding.cpuSet {
      assert Elems(list[i].binding.cpuSet) !! Elems(list[j].binding.cpuSet);
      assert c in Elems(list[i].binding.cpuSet);
    }
  }

  /** In a sound list every device is present and exclusive, with the size and path measured, and no two entries hold one device. */
  lemma SoundDevices(round: Rounding, m: Machine, list: seq<ResourceRef>)
    requires Sound(round, m, list) && m.info.Some?
    ensures AvailableOf(round, m).Some?
    ensures forall e, x :: e in list && x in e.binding.disks ==>
              var disk, devices := e.binding.disks[x], m.info.value.storageDevices;
              && disk.device in devices && disk.device in m.exclusiveDisks
              && disk.device in AvailableOf(round, m).value.disks && disk.kind == AvailableOf(round, m).value.disks[disk.device].kind
              && disk.size == round(devices[disk.device].total - devices[disk.device].used)
              && disk.originPath == devices[disk.device].mountPoint
    ensures forall i, j, x, y :: 0 <= i < j < |list| && x in list[i].binding.disks && y in list[j].binding.disks ==>
              list[i].binding.disks[x].device != list[j].binding.disks[y].device
  {
    OfferedIs(round, m);
    forall e, x | e in list && x in e.binding.disks ensures DiskAsOffered(round, m, e.binding.disks[x]) {
      var i :| 0 <= i < |list| && list[i] == e;
      assert DiskAsOffered(round, m, list[i].binding.disks[x]);
    }
    forall i, j, x, y | 0 <= i < j < |list| && x in list[i].binding.disks && y in list[j].binding.disks
      ensures list[i].binding.disks[x].device != list[j].binding.disks[y].device
    {
      assert Devices(list[i].binding) !! Devices(list[j].binding);
      assert list[i].binding.disks[x].device in Devices(list[i].binding);
      assert list[j].binding.disks[y].device in Devices(list[j].binding);
    }
  }

  lemma BoundIsOffered(round: Rounding, m: Machine, list: seq<ResourceRef>)
    requires m.info.Some? && CpusOffered(m, list) && DevicesOffered(round, m, list)
    ensures BoundCpus(list) <= AvailableCpus(m)
    ensures BoundDevices(list) <= AvailableDisks(round, m).Keys
  {
    var cpus, devices := AvailableCpus(m), AvailableDisks(round, m).Keys;
    forall e | e in list ensures Elems(e.binding.cpuSet) <= cpus && Devices(e.binding) <= devices {
      var i :| 0 <= i < |list| && list[i] == e;
      assert Elems(list[i].binding.cpuSet) <= cpus && Devices(list[i].binding) <= devices;
    }
    BoundIsLeast(list, cpus, devices);
  }

  lemma SplitOff<T>(all: set<T>, taken: set<T>)
    requires taken <= all
    ensures all - taken + taken == all
  {
  }

  lemma IdleSplitsCpus(round: Rounding, m: Machine, list: seq<ResourceRef>)
    requires m.info.Some? && RestOf(round, m, list).Some? && BoundCpus(list) <= AvailableCpus(m)
    ensures var idle := Elems(RestOf(round, m, list).value.idleCPUSet);
            idle !! BoundCpus(list) && idle + BoundCpus(list) == AvailableCpus(m)
  {
    RestIsDifference(round, m, list);
    var left := AvailableCpus(m) - BoundCpus(list);
    assert Enumerates(Ascending(left), left);
    SplitOff(AvailableCpus(m), BoundCpus(list));
  }

  lemma RestSplitsDisks(round: Rounding, m: Machine, list: seq<ResourceRef>)
    requires m.info.Some? && RestOf(round, m, list).Some? && BoundDevices(list) <= AvailableDisks(round, m).Keys
    ensures var disks := RestOf(round, m, list).value.disks.Keys;
            disks !! BoundDevices(list) && disks + BoundDevices(list) == AvailableDisks(round, m).Keys
  {
    RestIsDifference(round, m, list);
    SplitOff(AvailableDisks(round, m).Keys, BoundDevices(list));
  }

  /** In a sound list a CPU is idle or in some binding, never both, exactly when it is a thread that is not reserved. */
  lemma CpuIsAccountedFor(round: Rounding, m: Machine, list: seq<ResourceRef>, c: int)
    requires Sound(round, m, list) && RestOf(round, m, list).Some? && m.info.Some?
    ensures var idle := c in RestOf(round, m, list).value.idleCPUSet;
            var bound := exists e :: e in list && c in e.binding.cpuSet;
            && (idle || bound <==> 0 <= c < m.info.value.threads && m.reserve.cores <= c)
            && !(idle && bound)
  {
    IdleCpusAre(round, m, list);
    SoundCpus(round, m, list);
  }

  /** A device is left or in some binding, never both, exactly when it is present and exclusive. */
  lemma DeviceIsAccountedFor(round: Rounding, m: Machine, list: seq<ResourceRef>, d: string)
    requires Sound(round, m, list) && RestOf(round, m, list).Some? && m.info.Some?
    ensures var left := d in RestOf(round, m, list).value.disks;
            var bound := exists e, x :: e in list && x in e.binding.disks && e.binding.disks[x].device == d;
            && (left || bound <==> d in m.info.value.storageDevices && d in m.exclusiveDisks)
            && !(left && bound)
  {
    IdleDisksAre(round, m, list);
    SoundDevices(round, m, list);
  }

  lemma SoundIsConserved(round: Rounding, m: Machine, list: seq<ResourceRef>)
    requires m.info.Some? && Sound(round, m, list) && DevicesDistinct(list)
    ensures Conserved(round, m, list)
  {
    RestAnswersIff(round, m, list);
    assert CpusOffered(m, list) && DevicesOffered(round, m, list);
    BoundIsOffered(round, m, list);
    IdleSplitsCpus(round, m, list);
    RestSplitsDisks(round, m, list);
    if Exact(round) {
      RestMemoryExact(round, m, list);
    }
  }

  /** With sizes accurate to e bytes, n accepted bindings never exceed the memory by more than n*e. */
  lemma MemoryBoundUnderRounding(cfg: Config, e: int, m: Machine, list: seq<ResourceRef>, spec: TestResourceSpec, b: ResourceBinding, r: Ref)
    requires Within(cfg.round, e) && m.info.Some? && Fits(cfg, m, list, spec, b)
    ensures var bindings := list + [ResourceRef(r, b)];
            BoundMemory(bindings) <= m.info.value.memory - m.reserve.memory + |bindings| * e
  {
    RestMemoryWithin(cfg.round, e, m, list);
    var bindings := list + [ResourceRef(r, b)];
    assert bindings[..|list|] == list;
  }

  // ---- Release ---------------------------------------------------------------------------

  ghost predicate RefsDistinct(list: seq<ResourceRef>) {
    forall i, j :: 0 <= i < j < |list| ==> list[i].ref != list[j].ref
  }

  lemma {:induction false} WithoutAbsent(list: seq<ResourceRef>, r: Ref)
    requires forall e :: e in list ==> e.ref != r
    ensures WithoutResource(list, r) == list
  {
    if list != [] {
      WithoutAbsent(list[..|list| - 1], r);
    }
  }

  /** Releasing what was just allocated gives back the very list, so the very rest. */
  lemma AllocateThenRelease(round: Rounding, m: Machine, list: seq<ResourceRef>, e: ResourceRef)
    requires forall x :: x in list ==> x.ref != e.ref
    ensures WithoutResource(list + [e], e.ref) == list
    ensures RestOf(round, m, WithoutResource(list + [e], e.ref)) == RestOf(round, m, list)
  {
    WithoutAbsent(list, e.ref);
    assert (list + [e])[..|list|] == list;
  }

  /** A release removes exactly the one entry. */
  lemma {:induction false} WithoutRemovesOne(list: seq<ResourceRef>, i: nat)
    requires i < |list| && RefsDistinct(list)
    ensures multiset(list) == multiset(WithoutResource(list, list[i].ref) + [list[i]])
  {
    var n := |list| - 1;
    var head := list[..n];
    assert list == head + [list[n]];
    if i == n {
      forall e | e in head ensures e.ref != list[n].ref {
        var k :| 0 <= k < n && head[k] == e;
        assert list[k] == e;
      }
      WithoutAbsent(head, list[n].ref);
    } else {
      WithoutRemovesOne(head, i);
      assert head[i] == list[i];
    }
  }

  lemma BoundAppend(list: seq<ResourceRef>, e: ResourceRef)
    ensures BoundCpus(list + [e]) == BoundCpus(list) + Elems(e.binding.cpuSet)
    ensures BoundDevices(list + [e]) == BoundDevices(list) + Devices(e.binding)
    ensures BoundMemory(list + [e]) == BoundMemory(list) + e.binding.memory
  {
    assert (list + [e])[..|list|] == list;
  }

  lemma BoundSplitsAt(list: seq<ResourceRef>, i: nat)
    requires i < |list| && RefsDistinct(list)
    ensures var fewer := WithoutResource(list, list[i].ref);
            && BoundCpus(list) == BoundCpus(fewer) + Elems(list[i].binding.cpuSet)
            && BoundDevices(list) == BoundDevices(fewer) + Devices(list[i].binding)
            && BoundMemory(list) == BoundMemory(fewer) + list[i].binding.memory
  {
    var fewer := WithoutResource(list, list[i].ref);
    WithoutRemovesOne(list, i);
    BoundIsUnordered(list, fewer + [list[i]]);
    BoundMemoryIsUnordered(list, fewer + [list[i]]);
    BoundAppend(fewer, list[i]);
  }

  lemma Regain<T>(all: set<T>, free: set<T>, bound: set<T>, free': set<T>, bound': set<T>, part: set<T>)
    requires free + bound == all && free !! bound && free' + bound' == all && free' !! bound'
    requires bound == bound' + part && bound' !! part
    ensures free' == free + part && free !! part
  {
  }

  /** Releasing any one binding gives back exactly its CPUs, its devices and its memory. */
  lemma ReleaseRestores(round: Rounding, m: Machine, list: seq<ResourceRef>, i: nat)
    requires i < |list| && m.info.Some? && RefsDistinct(list) && Sound(round, m, list) && DevicesDistinct(list)
    ensures RestOf(round, m, list).Some? && RestOf(round, m, WithoutResource(list, list[i].ref)).Some?
    ensures var before := RestOf(round, m, list).value;
            var after := RestOf(round, m, WithoutResource(list, list[i].ref)).value;
            var b := list[i].binding;
            && Elems(after.idleCPUSet) == Elems(before.idleCPUSet) + Elems(b.cpuSet)
            && Elems(before.idleCPUSet) !! Elems(b.cpuSet)
            && after.disks.Keys == before.disks.Keys + Devices(b)
            && before.disks.Keys !! Devices(b)
            && (Exact(round) ==> after.memory == before.memory + b.memory)
  {
    var fewer := WithoutResource(list, list[i].ref);
    SoundIsConserved(round, m, list);
    SoundAfterRelease(round, m, list, list[i].ref);
    assert DevicesDistinct(fewer) by {
      forall k | 0 <= k < |fewer| ensures DistinctDevices(fewer[k].binding) {
        assert fewer[k] in list;
      }
    }
    SoundIsConserved(round, m, fewer);
    BoundSplitsAt(list, i);
    FreshShare(list, i);
    var before, after := RestOf(round, m, list).value, RestOf(round, m, fewer).value;
    Regain(AvailableCpus(m), Elems(before.idleCPUSet), BoundCpus(list),
           Elems(after.idleCPUSet), BoundCpus(fewer), Elems(list[i].binding.cpuSet));
    Regain(AvailableDisks(round, m).Keys, before.disks.Keys, BoundDevices(list),
           after.disks.Keys, BoundDevices(fewer), Devices(list[i].binding));
  }

  /** What one entry holds, no other entry of a sound list holds. */
  lemma FreshShare(list: seq<ResourceRef>, i: nat)
    requires i < |list| && RefsDistinct(list) && CpusApart(list) && DevicesApart(list)
    ensures Elems(list[i].binding.cpuSet) !! BoundCpus(WithoutResource(list, list[i].ref))
    ensures Devices(list[i].binding) !! BoundDevices(WithoutResource(list, list[i].ref))
  {
    var e := list[i];
    var fewer := WithoutResource(list, e.ref);
    var cpus := BoundCpus(fewer) - Elems(e.binding.cpuSet);
    var devices := BoundDevices(fewer) - Devices(e.binding);
    forall x | x in fewer ensures Elems(x.binding.cpuSet) <= cpus && Devices(x.binding) <= devices {
      BoundIsUpper(fewer, x);
      var j :| 0 <= j < |list| && list[j] == x;
      assert i != j;
      if i < j { assert Elems(list[i].binding.cpuSet) !! Elems(list[j].binding.cpuSet); }
    }
    BoundIsLeast(fewer, cpus, devices);
  }

  // ---- The two-disk counterexample -------------------------------------------------------

  const EXAMPLE_DEVICE := StorageDevice("ext4", 10, 0, "/data")
  const EXAMPLE_MACHINE :=
    Machine(Ref("default", "m1", "u1"), ReserveResources(1, 0), ["nvme0n1", "nvme1n1"],
            Some(MachineInfo("x86_64", 2, 100, map["nvme0n1" := EXAMPLE_DEVICE, "nvme1n1" := EXAMPLE_DEVICE])))
  const EXAMPLE_SPEC :=
    TestResourceSpec(1, 1, map["disk1" := DiskSpec("/mnt/1", NVMe, 1), "disk2" := DiskSpec("/mnt/2", NVMe, 1)], "")

  /** On the example machine both devices are free and CPU 1 is idle. */
  lemma ExampleRest(round: Rounding)
    requires Exact(round)
    ensures var rest := RestOf(round, EXAMPLE_MACHINE, []);
            && rest.Some? && rest.value.memory == 100 && |rest.value.idleCPUSet| == 1
            && "nvme0n1" in rest.value.disks
            && rest.value.disks["nvme0n1"] == DiskResource(10, NVMe, "/data")
  {
    assert AvailableCpus(EXAMPLE_MACHINE) == {1} by {
      assert Schedulable(EXAMPLE_MACHINE, 1);
    }
    assert |Ascending({1})| == 1 by {
      assert Enumerates(Ascending({1}), {1});
    }
    assert EXAMPLE_MACHINE.exclusiveDisks[0] == "nvme0n1";
    OfferedIs(round, EXAMPLE_MACHINE);
    OfferedKindIs(round, EXAMPLE_MACHINE, "nvme0n1", "", "nvme0n1", "");
  }

  /**
   * As coded, a machine with two free devices may give one of them twice to an item that asks
   * for two disks, and from then on Rest answers nothing for that machine.
   */
  lemma TwoDisksOnOneDevice(round: Rounding, r: Ref) returns (b: ResourceBinding)
    requires Exact(round)
    ensures Fits(Config(round, false), EXAMPLE_MACHINE, [], EXAMPLE_SPEC, b)
    ensures !DistinctDevices(b)
    ensures RestOf(round, EXAMPLE_MACHINE, [ResourceRef(r, b)]).None?
  {
    ExampleRest(round);
    var rest, want := RestOf(round, EXAMPLE_MACHINE, []).value, EXAMPLE_SPEC.disks;
    var disk := rest.disks["nvme0n1"];
    var got := map["disk1" := DiskBindingOf(want["disk1"], "nvme0n1", disk),
                   "disk2" := DiskBindingOf(want["disk2"], "nvme0n1", disk)];
    b := ResourceBinding(1, rest.idleCPUSet[..1], got);
    assert "disk1"[4] != "disk2"[4];
    assert "nvme0n1"[0] != "disk1"[0];
    assert ServingOrder(false, got, ["disk1", "disk2"]);
    assert got["disk1"].device == got["disk2"].device;
    assert [ResourceRef(r, b)][..0] == [];
  }
}
