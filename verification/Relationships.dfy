/** The one Relationship object: its status, the edits each controller makes, and its store. */
module Relationships {
  import opened Refs
  import opened Resources

  datatype RelationshipStatus = RelationshipStatus(
    machineToResources: map<string, seq<ResourceRef>>,
    resourceToMachine: map<string, MachineRef>,
    acceptedRequests: seq<Ref>,
    machineLocks: map<string, Ref>)

  const EMPTY_STATUS := RelationshipStatus(map[], map[], [], map[])

  /** A missing map entry reads as the empty list. */
  function ListOf(rel: RelationshipStatus, machineKey: string): seq<ResourceRef> {
    if machineKey in rel.machineToResources then rel.machineToResources[machineKey] else []
  }

  function WithoutResource(list: seq<ResourceRef>, resource: Ref): (r: seq<ResourceRef>)
    ensures forall e :: e in r <==> e in list && e.ref != resource
    ensures |r| <= |list|
  {
    if list == [] then []
    else
      var rest := WithoutResource(list[..|list| - 1], resource);
      if list[|list| - 1].ref == resource then rest else rest + [list[|list| - 1]]
  }

  function WithoutRequest(list: seq<Ref>, request: Ref): (r: seq<Ref>)
    ensures forall q :: q in r <==> q in list && q != request
  {
    if list == [] then []
    else
      var rest := WithoutRequest(list[..|list| - 1], request);
      if list[|list| - 1] == request then rest else rest + [list[|list| - 1]]
  }

  // ---- The edits, as functions of the status --------------------------------------------

  function Bind(rel: RelationshipStatus, machine: Ref, resource: Ref, binding: ResourceBinding): RelationshipStatus {
    rel.(machineToResources := rel.machineToResources[Key(machine) :=
                                 ListOf(rel, Key(machine)) + [ResourceRef(resource, binding)]],
         resourceToMachine := rel.resourceToMachine[Key(resource) := MachineRef(machine, binding)])
  }

  function Release(rel: RelationshipStatus, machineKey: string, resource: Ref): RelationshipStatus {
    rel.(machineToResources := rel.machineToResources[machineKey := WithoutResource(ListOf(rel, machineKey), resource)],
         resourceToMachine := rel.resourceToMachine - {Key(resource)})
  }

  function AddEntry(rel: RelationshipStatus, machineKey: string): RelationshipStatus {
    if machineKey in rel.machineToResources then rel
    else rel.(machineToResources := rel.machineToResources[machineKey := []])
  }

  function RemoveEntry(rel: RelationshipStatus, machineKey: string): RelationshipStatus {
    rel.(machineToResources := rel.machineToResources - {machineKey})
  }

  function DropRequest(rel: RelationshipStatus, request: Ref): RelationshipStatus {
    rel.(acceptedRequests := WithoutRequest(rel.acceptedRequests, request),
         machineLocks := map name | name in rel.machineLocks && rel.machineLocks[name] != request :: rel.machineLocks[name])
  }

  // ---- The controllers' code ------------------------------------------------------------

  /** Allocating len(list)-1 slots panics on an empty list, so a caller must not pass one. */
  method RefsRemove(list: seq<ResourceRef>, resource: Ref) returns (newList: seq<ResourceRef>)
    requires |list| > 0
    ensures newList == WithoutResource(list, resource)
  {
    newList := [];
    for i := 0 to |list|
      invariant newList == WithoutResource(list[..i], resource)
    {
      assert list[..i + 1][..i] == list[..i];
      if list[i].ref == resource {
        continue;
      }
      newList := newList + [list[i]];
    }
    assert list[..|list|] == list;
  }

  /** ResourceRefList.Clone */
  method Clone(list: seq<ResourceRef>) returns (resources: seq<ResourceRef>)
    ensures resources == list
  {
    resources := [];
    for i := 0 to |list|
      invariant resources == list[..i]
    {
      resources := resources + [list[i]];
    }
  }

  /** AcceptResources.IfExist */
  method IfExist(accepted: seq<Ref>, request: Ref) returns (exist: bool)
    ensures exist <==> request in accepted
  {
    for i := 0 to |accepted|
      invariant request !in accepted[..i]
    {
      if accepted[i] == request {
        return true;
      }
    }
    return false;
  }

  /** A client's copy of the stored object: edits stay local until the store takes them. */
  class Relationship {
    var machineToResources: map<string, seq<ResourceRef>>
    var resourceToMachine: map<string, MachineRef>
    var acceptedRequests: seq<Ref>
    var machineLocks: map<string, Ref>
    const resourceVersion: nat

    constructor (status: RelationshipStatus, version: nat)
      ensures Status() == status && resourceVersion == version
    {
      machineToResources := status.machineToResources;
      resourceToMachine := status.resourceToMachine;
      acceptedRequests := status.acceptedRequests;
      machineLocks := status.machineLocks;
      resourceVersion := version;
    }

    ghost function Status(): RelationshipStatus
      reads this
    {
      RelationshipStatus(machineToResources, resourceToMachine, acceptedRequests, machineLocks)
    }

    /** The edit of TestResourceReconciler on deletion. */
    method ReleaseResource(machineKey: string, resource: Ref)
      requires |ListOf(Status(), machineKey)| > 0
      modifies this
      ensures Status() == Release(old(Status()), machineKey, resource)
      ensures machineToResources.Keys == old(machineToResources).Keys && machineKey in machineToResources
      ensures forall k :: k in machineToResources && k != machineKey ==> machineToResources[k] == old(machineToResources)[k]
      ensures forall e :: e in machineToResources[machineKey] <==> e in old(machineToResources)[machineKey] && e.ref != resource
      ensures resourceToMachine == old(resourceToMachine) - {Key(resource)}
      ensures acceptedRequests == old(acceptedRequests) && machineLocks == old(machineLocks)
    {
      var newList := RefsRemove(machineToResources[machineKey], resource);
      machineToResources := machineToResources[machineKey := newList];
      resourceToMachine := resourceToMachine - {Key(resource)};
    }

    /** The edit of MachineReconciler for a ready machine. */
    method EnsureEntry(machineKey: string) returns (changed: bool)
      modifies this
      ensures Status() == AddEntry(old(Status()), machineKey)
      ensures machineToResources == if changed then old(machineToResources)[machineKey := []] else old(machineToResources)
      ensures resourceToMachine == old(resourceToMachine) && acceptedRequests == old(acceptedRequests) && machineLocks == old(machineLocks)
      ensures changed <==> machineKey !in old(machineToResources)
    {
      changed := machineKey !in machineToResources;
      if changed {
        machineToResources := machineToResources[machineKey := []];
      }
    }

    /** The edit of MachineReconciler for a machine shutting down; refused while it hosts anything. */
    method DeleteEntry(machineKey: string) returns (removed: bool)
      modifies this
      ensures removed <==> ListOf(old(Status()), machineKey) == []
      ensures Status() == if removed then RemoveEntry(old(Status()), machineKey) else old(Status())
      ensures removed <==> (machineKey in old(machineToResources) ==> old(machineToResources)[machineKey] == [])
      ensures machineToResources == if removed then old(machineToResources) - {machineKey} else old(machineToResources)
      ensures resourceToMachine == old(resourceToMachine) && acceptedRequests == old(acceptedRequests) && machineLocks == old(machineLocks)
    {
      if machineKey in machineToResources && |machineToResources[machineKey]| != 0 {
        return false;
      }
      machineToResources := machineToResources - {machineKey};
      removed := true;
    }

    /** AcceptResources.Remove */
    method RemoveAccepted(request: Ref)
      modifies this`acceptedRequests
      ensures acceptedRequests == WithoutRequest(old(acceptedRequests), request)
    {
      var newAccepted := [];
      for i := 0 to |acceptedRequests|
        invariant acceptedRequests == old(acceptedRequests)
        invariant newAccepted == WithoutRequest(acceptedRequests[..i], request)
      {
        assert acceptedRequests[..i + 1][..i] == acceptedRequests[..i];
        if acceptedRequests[i] != request {
          newAccepted := newAccepted + [acceptedRequests[i]];
        }
      }
      assert acceptedRequests[..|acceptedRequests|] == acceptedRequests;
      acceptedRequests := newAccepted;
    }

    /** The edit of reconcileDeletion: leave the accept list and give up every lock. */
    method DropAcceptedRequest(request: Ref)
      modifies this
      ensures Status() == DropRequest(old(Status()), request)
      ensures forall q :: q in acceptedRequests <==> q in old(acceptedRequests) && q != request
      ensures forall n :: n in machineLocks <==> n in old(machineLocks) && old(machineLocks)[n] != request
      ensures forall n :: n in machineLocks ==> machineLocks[n] == old(machineLocks)[n]
      ensures machineToResources == old(machineToResources) && resourceToMachine == old(resourceToMachine)
    {
      RemoveAccepted(request);
      var toClean: seq<string> := [];
      var todo := machineLocks.Keys;
      while todo != {}
        invariant todo <= machineLocks.Keys
        invariant forall name :: name in toClean <==> name in machineLocks.Keys - todo && machineLocks[name] == request
      {
        var name :| name in todo;
        if machineLocks[name] == request {
          toClean := toClean + [name];
        }
        todo := todo - {name};
      }
      ghost var locks := machineLocks;
      for i := 0 to |toClean|
        invariant machineLocks == map name | name in locks && name !in toClean[..i] :: locks[name]
        invariant resourceToMachine == old(resourceToMachine) && machineToResources == old(machineToResources)
        invariant acceptedRequests == WithoutRequest(old(acceptedRequests), request)
      {
        machineLocks := machineLocks - {toClean[i]};
      }
      assert toClean[..|toClean|] == toClean;
    }
  }

  /** The API server's copy, with optimistic concurrency on the resource version. */
  class Store {
    var status: RelationshipStatus
    var version: nat

    constructor ()
      ensures status == EMPTY_STATUS && version == 0
    {
      status := EMPTY_STATUS;
      version := 0;
    }

    method Get() returns (rel: Relationship)
      ensures fresh(rel) && rel.Status() == status && rel.resourceVersion == version
    {
      rel := new Relationship(status, version);
    }

    /** Status().Update: refused unless nothing was committed since the copy was read. */
    method Update(rel: Relationship) returns (ok: bool)
      modifies this
      ensures ok <==> rel.resourceVersion == old(version)
      ensures status == if ok then rel.Status() else old(status)
      ensures version == if ok then old(version) + 1 else old(version)
    {
      ok := rel.resourceVersion == version;
      if ok {
        status := RelationshipStatus(rel.machineToResources, rel.resourceToMachine, rel.acceptedRequests, rel.machineLocks);
        version := version + 1;
      }
    }
  }
}
