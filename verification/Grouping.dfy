/** Which items must share a machine, and in which order machines are tried. */
module Grouping {
  import opened Refs
  import opened Resources
  import opened Relationships
  import Machines
  import Sorting

  /** explicitMachine is "" for an item that names no machine. */
  datatype ItemGroup = ItemGroup(explicitMachine: string, items: seq<TestResource>)

  // ---- Groups ----------------------------------------------------------------------------

  predicate Resolved(items: seq<ResourceRequestItem>, resources: map<string, TestResource>) {
    forall i :: 0 <= i < |items| ==> items[i].name in resources
  }

  /** The resources of the items that name this machine, in request order. */
  function Naming(items: seq<ResourceRequestItem>, resources: map<string, TestResource>, machine: string): seq<TestResource>
    requires Resolved(items, resources)
  {
    if items == [] then []
    else
      var n := |items| - 1;
      var before := Naming(items[..n], resources, machine);
      if items[n].spec.machine == machine then before + [resources[items[n].name]] else before
  }

  function Singletons(items: seq<ResourceRequestItem>, resources: map<string, TestResource>): seq<ItemGroup>
    requires Resolved(items, resources)
  {
    seq(|Naming(items, resources, "")|, i requires 0 <= i < |Naming(items, resources, "")| =>
      ItemGroup("", [Naming(items, resources, "")[i]]))
  }

  ghost predicate Enumerates<T(!new)>(s: seq<T>, elements: set<T>) {
    && (forall x :: x in s <==> x in elements)
    && (forall i, j :: 0 <= i < j < |s| ==> s[i] != s[j])
  }

  ghost function MachineNames(items: seq<ResourceRequestItem>): set<string> {
    set i | 0 <= i < |items| && items[i].spec.machine != "" :: items[i].spec.machine
  }

  /** One group for each machine named, in some order, and then one for each other item. */
  ghost predicate Grouped(items: seq<ResourceRequestItem>, resources: map<string, TestResource>,
                          names: seq<string>, groups: seq<ItemGroup>)
    requires Resolved(items, resources)
  {
    && Enumerates(names, MachineNames(items))
    && |groups| >= |names|
    && (forall k :: 0 <= k < |names| ==> groups[k] == ItemGroup(names[k], Naming(items, resources, names[k])))
    && groups[|names|..] == Singletons(items, resources)
  }

  /** The named groups, in whatever order the map is read. */
  method NamedGroups(named: map<string, seq<TestResource>>) returns (groups: seq<ItemGroup>, ghost names: seq<string>)
    ensures Enumerates(names, named.Keys) && |groups| == |names|
    ensures forall k :: 0 <= k < |names| ==> names[k] in named && groups[k] == ItemGroup(names[k], named[names[k]])
  {
    names := [];
    groups := [];
    var todo := named.Keys;
    while todo != {}
      invariant todo <= named.Keys
      invariant Enumerates(names, named.Keys - todo) && |groups| == |names|
      invariant forall k :: 0 <= k < |names| ==> names[k] in named && groups[k] == ItemGroup(names[k], named[names[k]])
    {
      var machine :| machine in todo;
      assert forall k :: 0 <= k < |names| ==> names[k] in names;
      groups := groups + [ItemGroup(machine, named[machine])];
      names := names + [machine];
      todo := todo - {machine};
    }
  }

  /** The items split into the map of named groups and the list of the others. */
  ghost predicate SplitUp(items: seq<ResourceRequestItem>, resources: map<string, TestResource>,
                          named: map<string, seq<TestResource>>, unnamed: seq<ItemGroup>)
    requires Resolved(items, resources)
  {
    && named.Keys == MachineNames(items)
    && (forall m :: m in named ==> named[m] == Naming(items, resources, m))
    && unnamed == Singletons(items, resources)
  }

  lemma SplitUpNamed(items: seq<ResourceRequestItem>, resources: map<string, TestResource>, i: nat,
                     named: map<string, seq<TestResource>>, unnamed: seq<ItemGroup>)
    requires i < |items| && Resolved(items, resources) && SplitUp(items[..i], resources, named, unnamed)
    requires items[i].spec.machine != ""
    ensures var machine, resource := items[i].spec.machine, resources[items[i].name];
            SplitUp(items[..i + 1], resources, named[machine := (if machine in named then named[machine] else []) + [resource]], unnamed)
  {
    NamesGrow(items, i);
    NamingGrows(items, resources, i);
  }

  lemma SplitUpUnnamed(items: seq<ResourceRequestItem>, resources: map<string, TestResource>, i: nat,
                       named: map<string, seq<TestResource>>, unnamed: seq<ItemGroup>)
    requires i < |items| && Resolved(items, resources) && SplitUp(items[..i], resources, named, unnamed)
    requires items[i].spec.machine == ""
    ensures SplitUp(items[..i + 1], resources, named, unnamed + [ItemGroup("", [resources[items[i].name]])])
  {
    NamesGrow(items, i);
    NamingGrows(items, resources, i);
  }

  method GroupCoLocatedItems(items: seq<ResourceRequestItem>, resources: map<string, TestResource>)
    returns (groups: seq<ItemGroup>, ghost names: seq<string>)
    requires Resolved(items, resources)
    ensures Grouped(items, resources, names, groups)
  {
    var named: map<string, seq<TestResource>> := map[];
    var unnamed: seq<ItemGroup> := [];
    for i := 0 to |items|
      invariant SplitUp(items[..i], resources, named, unnamed)
    {
      var machine, resource := items[i].spec.machine, resources[items[i].name];
      if machine != "" {
        SplitUpNamed(items, resources, i, named, unnamed);
        named := named[machine := (if machine in named then named[machine] else []) + [resource]];
      } else {
        SplitUpUnnamed(items, resources, i, named, unnamed);
        unnamed := unnamed + [ItemGroup("", [resource])];
      }
    }
    assert items[..|items|] == items;
    groups, names := NamedGroups(named);
    groups := groups + unnamed;
  }

  lemma NamesGrow(items: seq<ResourceRequestItem>, i: nat)
    requires i < |items|
    ensures MachineNames(items[..i + 1]) ==
            MachineNames(items[..i]) + if items[i].spec.machine != "" then {items[i].spec.machine} else {}
  {
    var longer := items[..i + 1];
    assert forall k :: 0 <= k < i ==> longer[k] == items[..i][k];
    assert longer[i] == items[i];
    forall m | m in MachineNames(items[..i]) ensures m in MachineNames(longer) {
      var k :| 0 <= k < i && items[..i][k].spec.machine == m;
      assert longer[k].spec.machine == m;
    }
  }

  lemma {:induction false} NamingMissing(items: seq<ResourceRequestItem>, resources: map<string, TestResource>, machine: string)
    requires Resolved(items, resources) && machine != "" && machine !in MachineNames(items)
    ensures Naming(items, resources, machine) == []
  {
    if items != [] {
      var n := |items| - 1;
      NamesGrow(items, n);
      assert items[..n + 1] == items;
      NamingMissing(items[..n], resources, machine);
    }
  }

  lemma NamingGrows(items: seq<ResourceRequestItem>, resources: map<string, TestResource>, i: nat)
    requires i < |items| && Resolved(items, resources)
    ensures forall m :: Naming(items[..i + 1], resources, m) ==
                        Naming(items[..i], resources, m) + if items[i].spec.machine == m then [resources[items[i].name]] else []
    ensures items[i].spec.machine != "" && items[i].spec.machine !in MachineNames(items[..i]) ==>
              Naming(items[..i], resources, items[i].spec.machine) == []
  {
    assert items[..i + 1][..i] == items[..i];
    if items[i].spec.machine != "" && items[i].spec.machine !in MachineNames(items[..i]) {
      NamingMissing(items[..i], resources, items[i].spec.machine);
    }
  }

  // ---- The groups partition the items ----------------------------------------------------

  ghost function ItemResources(items: seq<ResourceRequestItem>, resources: map<string, TestResource>): seq<TestResource>
    requires Resolved(items, resources)
  {
    seq(|items|, i requires 0 <= i < |items| => resources[items[i].name])
  }

  ghost function Members(groups: seq<ItemGroup>): seq<TestResource> {
    if groups == [] then [] else Members(groups[..|groups| - 1]) + groups[|groups| - 1].items
  }

  ghost function NamingAll(items: seq<ResourceRequestItem>, resources: map<string, TestResource>, names: seq<string>): multiset<TestResource>
    requires Resolved(items, resources)
  {
    if names == [] then multiset{}
    else NamingAll(items, resources, names[..|names| - 1]) + multiset(Naming(items, resources, names[|names| - 1]))
  }

  lemma {:induction false} NamingAllStep(items: seq<ResourceRequestItem>, resources: map<string, TestResource>, names: seq<string>)
    requires items != [] && Resolved(items, resources)
    requires forall i, j :: 0 <= i < j < |names| ==> names[i] != names[j]
    ensures var n := |items| - 1;
            NamingAll(items, resources, names) ==
            NamingAll(items[..n], resources, names) +
            (if items[n].spec.machine in names then multiset{resources[items[n].name]} else multiset{})
  {
    if names != [] {
      var k := |names| - 1;
      NamingAllStep(items, resources, names[..k]);
      assert forall x :: x in names <==> x in names[..k] || x == names[k];
      assert forall i :: 0 <= i < k ==> names[..k][i] != names[k];
    }
  }

  lemma ItemResourcesStep(items: seq<ResourceRequestItem>, resources: map<string, TestResource>)
    requires items != [] && Resolved(items, resources)
    ensures var n := |items| - 1;
            multiset(ItemResources(items, resources)) ==
            multiset(ItemResources(items[..n], resources)) + multiset{resources[items[n].name]}
  {
    var n := |items| - 1;
    assert ItemResources(items, resources) == ItemResources(items[..n], resources) + [resources[items[n].name]];
  }

  /** Over all names, "" included, the groups hold every item once. */
  lemma {:induction false} NamingCovers(items: seq<ResourceRequestItem>, resources: map<string, TestResource>, names: seq<string>)
    requires Resolved(items, resources)
    requires forall i, j :: 0 <= i < j < |names| ==> names[i] != names[j]
    requires forall i :: 0 <= i < |items| ==> items[i].spec.machine in names
    ensures NamingAll(items, resources, names) == multiset(ItemResources(items, resources))
  {
    if items == [] {
      NamingAllEmpty(resources, names);
    } else {
      var n := |items| - 1;
      NamingCovers(items[..n], resources, names);
      NamingAllStep(items, resources, names);
      ItemResourcesStep(items, resources);
      var r := multiset{resources[items[n].name]};
      assert items[n].spec.machine in names;
      assert NamingAll(items, resources, names) == multiset(ItemResources(items[..n], resources)) + r;
    }
  }

  lemma {:induction false} NamingAllEmpty(resources: map<string, TestResource>, names: seq<string>)
    ensures NamingAll([], resources, names) == multiset{}
  {
    if names != [] {
      NamingAllEmpty(resources, names[..|names| - 1]);
    }
  }

  lemma {:induction false} MembersOfNamed(items: seq<ResourceRequestItem>, resources: map<string, TestResource>,
                                         names: seq<string>, groups: seq<ItemGroup>)
    requires Resolved(items, resources) && |groups| == |names|
    requires forall k :: 0 <= k < |names| ==> groups[k] == ItemGroup(names[k], Naming(items, resources, names[k]))
    ensures multiset(Members(groups)) == NamingAll(items, resources, names)
  {
    if names != [] {
      MembersOfNamed(items, resources, names[..|names| - 1], groups[..|groups| - 1]);
    }
  }

  /** From the k-th group on, each group is one resource. */
  lemma {:induction false} MembersOfSingles(groups: seq<ItemGroup>, resources: seq<TestResource>, k: nat, i: nat)
    requires k <= i <= |groups| && |groups| - k == |resources|
    requires forall j :: k <= j < |groups| ==> groups[j].items == [resources[j - k]]
    ensures Members(groups[..i]) == Members(groups[..k]) + resources[..i - k]
  {
    if i > k {
      MembersOfSingles(groups, resources, k, i - 1);
      assert groups[..i][..i - 1] == groups[..i - 1];
      assert resources[..i - k] == resources[..i - 1 - k] + [resources[i - 1 - k]];
    }
  }

  lemma NamesCoverItems(items: seq<ResourceRequestItem>, resources: map<string, TestResource>, names: seq<string>)
    requires Resolved(items, resources) && Enumerates(names, MachineNames(items))
    ensures NamingAll(items, resources, names) + multiset(Naming(items, resources, "")) == multiset(ItemResources(items, resources))
  {
    forall i | 0 <= i < |items| ensures items[i].spec.machine in names + [""] {
      assert items[i].spec.machine == "" || items[i].spec.machine in MachineNames(items);
    }
    assert "" !in names;
    NamingCovers(items, resources, names + [""]);
    assert (names + [""])[..|names|] == names;
  }

  /** Every item is in exactly one group. */
  lemma GroupsPartitionItems(items: seq<ResourceRequestItem>, resources: map<string, TestResource>,
                             names: seq<string>, groups: seq<ItemGroup>)
    requires Resolved(items, resources) && Grouped(items, resources, names, groups)
    ensures multiset(Members(groups)) == multiset(ItemResources(items, resources))
  {
    var k := |names|;
    var singles := Naming(items, resources, "");
    assert Members(groups) == Members(groups[..k]) + singles by {
      forall j | k <= j < |groups| ensures groups[j].items == [singles[j - k]] {
        assert groups[j] == groups[k..][j - k];
      }
      MembersOfSingles(groups, singles, k, |groups|);
      assert groups[..|groups|] == groups && singles[..|singles|] == singles;
    }
    MembersOfNamed(items, resources, names, groups[..k]);
    NamesCoverItems(items, resources, names);
  }

  ghost predicate NamedBy(items: seq<ResourceRequestItem>, resources: map<string, TestResource>, machine: string, r: TestResource)
    requires Resolved(items, resources)
  {
    exists i :: 0 <= i < |items| && items[i].spec.machine == machine && resources[items[i].name] == r
  }

  /** A group is what its name says: the items naming the machine, and no others. */
  lemma {:induction false} NamingMembers(items: seq<ResourceRequestItem>, resources: map<string, TestResource>, machine: string)
    requires Resolved(items, resources)
    ensures forall r :: r in Naming(items, resources, machine) <==> NamedBy(items, resources, machine, r)
  {
    if items != [] {
      var n := |items| - 1;
      NamingMembers(items[..n], resources, machine);
      forall r | NamedBy(items[..n], resources, machine, r) ensures NamedBy(items, resources, machine, r) {
        var i :| 0 <= i < n && items[..n][i].spec.machine == machine && resources[items[..n][i].name] == r;
        assert items[i] == items[..n][i];
      }
      forall r | NamedBy(items, resources, machine, r)
        ensures NamedBy(items[..n], resources, machine, r) || (items[n].spec.machine == machine && resources[items[n].name] == r)
      {
        var i :| 0 <= i < |items| && items[i].spec.machine == machine && resources[items[i].name] == r;
        assert i < n ==> items[..n][i] == items[i];
      }
    }
  }

  /** And in request order: at tells which item each member comes from, and misses none that names the machine. */
  lemma {:induction false} NamingIs(items: seq<ResourceRequestItem>, resources: map<string, TestResource>, machine: string)
    returns (at: seq<nat>)
    requires Resolved(items, resources)
    ensures |at| == |Naming(items, resources, machine)|
    ensures forall k :: 0 <= k < |at| ==>
              && at[k] < |items| && items[at[k]].spec.machine == machine
              && Naming(items, resources, machine)[k] == resources[items[at[k]].name]
    ensures forall k, l :: 0 <= k < l < |at| ==> at[k] < at[l]
    ensures forall i :: 0 <= i < |items| && items[i].spec.machine == machine ==> i in at
  {
    if items == [] {
      at := [];
    } else {
      var n := |items| - 1;
      at := NamingIs(items[..n], resources, machine);
      assert forall i :: 0 <= i < n ==> items[..n][i] == items[i];
      if items[n].spec.machine == machine {
        at := at + [n];
      }
    }
  }

  // ---- The machines to try ---------------------------------------------------------------

  /** Machines keyed by their own names, as getMachines builds the map. */
  predicate WellNamed(machines: map<string, Machine>) {
    forall name :: name in machines ==> machines[name].ref.name == name
  }

  function Hosted(rel: RelationshipStatus, m: Machine): nat {
    |ListOf(rel, Key(m.ref))|
  }

  /** The comparator: explicitly requested machines first, then the busier machine. */
  predicate Before(explicit: set<string>, rel: RelationshipStatus, m1: Machine, m2: Machine) {
    var ok1, ok2 := m1.ref.name in explicit, m2.ref.name in explicit;
    if ok1 && !ok2 then true
    else if !ok1 && ok2 then false
    else Hosted(rel, m1) > Hosted(rel, m2)
  }

  function Comparator(explicit: set<string>, rel: RelationshipStatus): (Machine, Machine) -> bool {
    (m1, m2) => Before(explicit, rel, m1, m2)
  }

  lemma ComparatorIsStrictWeakOrder(explicit: set<string>, rel: RelationshipStatus)
    ensures Sorting.StrictWeakOrder(Comparator(explicit, rel))
  {
    var less := Comparator(explicit, rel);
    forall x, y, z | less(x, z) ensures less(x, y) || less(y, z) {
      assert Before(explicit, rel, x, z) ==> Before(explicit, rel, x, y) || Before(explicit, rel, y, z);
    }
    forall x, y, z | less(x, y) && less(y, z) ensures less(x, z) {
      assert Before(explicit, rel, x, y) && Before(explicit, rel, y, z) ==> Before(explicit, rel, x, z);
    }
  }

  ghost predicate SortedMachines(explicit: set<string>, rel: RelationshipStatus, all: map<string, Machine>, result: seq<Machine>) {
    && (forall m :: m in result <==> m.ref.name in all && all[m.ref.name] == m)
    && |result| == |all|
    && Sorting.Sorted(result, Comparator(explicit, rel))
  }

  /** In a sorted list the explicit machines come first, and counts never rise within a class. */
  lemma SortedMeans(explicit: set<string>, rel: RelationshipStatus, all: map<string, Machine>, result: seq<Machine>, p: nat, q: nat)
    requires SortedMachines(explicit, rel, all, result) && p < q < |result|
    ensures result[q].ref.name in explicit ==> result[p].ref.name in explicit
    ensures (result[p].ref.name in explicit <==> result[q].ref.name in explicit) ==>
              |ListOf(rel, Key(result[p].ref))| >= |ListOf(rel, Key(result[q].ref))|
  {
    assert !Comparator(explicit, rel)(result[q], result[p]);
  }

  /** rand.Shuffle: some permutation. */
  method Shuffle<T>(a: array<T>)
    modifies a
    ensures multiset(a[..]) == multiset(old(a[..]))
  {
    var i := a.Length;
    while i > 1
      invariant multiset(a[..]) == multiset(old(a[..]))
      invariant i <= a.Length
    {
      i := i - 1;
      assert 0 <= i <= i;
      var j: int :| 0 <= j <= i;
      a[i], a[j] := a[j], a[i];
    }
  }

  method SortMachines(all: map<string, Machine>, explicit: set<string>, rel: RelationshipStatus) returns (result: seq<Machine>)
    requires WellNamed(all)
    ensures SortedMachines(explicit, rel, all, result)
  {
    var names := Machines.Enumerate(all.Keys);
    assert forall n :: n in names <==> n in multiset(names);
    assert |names| == |multiset(names)| == |all.Keys| == |all|;
    result := [];
    for i := 0 to |names|
      invariant |result| == i
      invariant forall m :: m in result <==> m.ref.name in names[..i] && m.ref.name in all && all[m.ref.name] == m
    {
      assert names[i] in names;
      result := result + [all[names[i]]];
    }
    assert names[..|names|] == names;
    var slice := new Machine[|result|](i requires 0 <= i < |result| => result[i]);
    assert slice[..] == result;
    assert forall m :: m in result <==> m in multiset(result);
    Shuffle(slice);
    ComparatorIsStrictWeakOrder(explicit, rel);
    Sorting.SortSlice(slice, Comparator(explicit, rel));
    ghost var unsorted := result;
    result := slice[..];
    assert forall m :: m in result <==> m in multiset(result);
    assert |result| == |multiset(result)| == |multiset(unsorted)|;
  }

  /** Machines whose name carries no lock. */
  method SelectNonLockMachines(machines: map<string, Machine>, locks: map<string, Ref>) returns (result: map<string, Machine>)
    ensures result == map name | name in machines && name !in locks :: machines[name]
  {
    result := map[];
    var todo := machines.Keys;
    while todo != {}
      invariant todo <= machines.Keys
      invariant result == map name | name in machines.Keys - todo && name !in locks :: machines[name]
    {
      var key :| key in todo;
      if key !in locks {
        result := result[key := machines[key]];
      }
      todo := todo - {key};
    }
  }

  /** Those that host nothing at that moment, in the order they come in. */
  function IdleOnes(machines: seq<Machine>, rel: RelationshipStatus): seq<Machine> {
    if machines == [] then []
    else
      var n := |machines| - 1;
      IdleOnes(machines[..n], rel) + if ListOf(rel, Key(machines[n].ref)) == [] then [machines[n]] else []
  }

  /** filterMachines for an exclusive group. */
  method FilterIdle(machines: seq<Machine>, rel: RelationshipStatus) returns (result: seq<Machine>)
    ensures result == IdleOnes(machines, rel)
  {
    result := [];
    for i := 0 to |machines|
      invariant result == IdleOnes(machines[..i], rel)
    {
      assert machines[..i + 1][..i] == machines[..i];
      if |ListOf(rel, Key(machines[i].ref))| == 0 {
        result := result + [machines[i]];
      }
    }
    assert machines[..|machines|] == machines;
  }

  lemma {:induction false} IdleOnesMean(machines: seq<Machine>, rel: RelationshipStatus)
    ensures forall m :: m in IdleOnes(machines, rel) <==> m in machines && ListOf(rel, Key(m.ref)) == []
  {
    if machines != [] {
      var n := |machines| - 1;
      IdleOnesMean(machines[..n], rel);
      assert machines == machines[..n] + [machines[n]];
    }
  }

  ghost predicate StandsBefore(all: seq<Machine>, x: Machine, y: Machine) {
    exists a, b :: 0 <= a < b < |all| && all[a] == x && all[b] == y
  }

  /** What comes first in some came first in all. */
  ghost predicate KeepsOrder(some: seq<Machine>, all: seq<Machine>) {
    forall i, j :: 0 <= i < j < |some| ==> StandsBefore(all, some[i], some[j])
  }

  lemma {:induction false} IdleOnesKeepOrder(machines: seq<Machine>, rel: RelationshipStatus)
    ensures KeepsOrder(IdleOnes(machines, rel), machines)
  {
    if machines != [] {
      var n := |machines| - 1;
      var fewer, all := IdleOnes(machines[..n], rel), IdleOnes(machines, rel);
      IdleOnesKeepOrder(machines[..n], rel);
      IdleOnesMean(machines[..n], rel);
      forall i, j | 0 <= i < j < |all| ensures StandsBefore(machines, all[i], all[j]) {
        if j < |fewer| {
          assert StandsBefore(machines[..n], fewer[i], fewer[j]);
          var a, b :| 0 <= a < b < n && machines[..n][a] == fewer[i] && machines[..n][b] == fewer[j];
          assert machines[a] == all[i] && machines[b] == all[j];
        } else {
          assert fewer[i] in fewer;
          var a :| 0 <= a < n && machines[..n][a] == fewer[i];
          assert machines[a] == all[i] && machines[n] == all[j];
        }
      }
    }
  }

  // ---- What the admission webhook guarantees ---------------------------------------------

  /** Every machine an item names is declared by the request. */
  predicate ItemsDeclared(request: TestResourceRequest) {
    forall i :: 0 <= i < |request.items| && request.items[i].spec.machine != "" ==>
      exists k :: 0 <= k < |request.machines| && request.machines[k].name == request.items[i].spec.machine
  }

  /** checkItems; true is acceptance. */
  method CheckItems(request: TestResourceRequest) returns (ok: bool)
    ensures ok <==> forall i :: 0 <= i < |request.items| && request.items[i].spec.machine != "" ==>
                      exists k :: 0 <= k < |request.machines| && request.machines[k].name == request.items[i].spec.machine
    ensures ok <==> ItemsDeclared(request)
  {
    var names: set<string> := {};
    for k := 0 to |request.machines|
      invariant forall n :: n in names <==> exists j :: 0 <= j < k && request.machines[j].name == n
    {
      names := names + {request.machines[k].name};
    }
    for i := 0 to |request.items|
      invariant forall j :: 0 <= j < i && request.items[j].spec.machine != "" ==> request.items[j].spec.machine in names
    {
      if request.items[i].spec.machine != "" && request.items[i].spec.machine !in names {
        return false;
      }
    }
    return true;
  }
}
