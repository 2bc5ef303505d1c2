/** The records of api/v1 that the scheduler reads and writes. Sizes are integers of bytes;
    a requested size parses, so it is not negative. */
module Resources {
  import opened Options
  import opened Refs

  datatype DiskKind = NVMe | OtherKind

  datatype StorageDevice = StorageDevice(filesystem: string, total: int, used: int, mountPoint: string)

  datatype MachineInfo =
    MachineInfo(architecture: string, threads: int, memory: int, storageDevices: map<string, StorageDevice>)

  datatype ReserveResources = ReserveResources(cores: int, memory: int)

  datatype Machine =
    Machine(ref: Ref, reserve: ReserveResources, exclusiveDisks: seq<string>, info: Option<MachineInfo>)

  datatype DiskResource = DiskResource(size: int, kind: DiskKind, mountPath: string)

  datatype AvailableResource =
    AvailableResource(memory: int, idleCPUSet: seq<int>, disks: map<string, DiskResource>)

  datatype DiskSpec = DiskSpec(mountPath: string, kind: DiskKind, size: int)

  /** machine is the logical machine name of the request, "" when the item names none. */
  datatype TestResourceSpec =
    TestResourceSpec(memory: nat, cores: int, disks: map<string, DiskSpec>, machine: string)

  datatype TestResource = TestResource(ref: Ref, spec: TestResourceSpec)

  datatype DiskBinding =
    DiskBinding(kind: DiskKind, size: int, device: string, originPath: string, mountPath: string)

  datatype ResourceBinding =
    ResourceBinding(memory: nat, cpuSet: seq<int>, disks: map<string, DiskBinding>)

  datatype ResourceRef = ResourceRef(ref: Ref, binding: ResourceBinding)

  datatype MachineRef = MachineRef(ref: Ref, binding: ResourceBinding)

  /** testMachineResource is "" unless the request asks for one particular machine. */
  datatype MachineRequest = MachineRequest(name: string, testMachineResource: string, exclusive: bool)

  datatype ResourceRequestItem = ResourceRequestItem(name: string, spec: TestResourceSpec)

  datatype TestResourceRequest =
    TestResourceRequest(ref: Ref, machines: seq<MachineRequest>, items: seq<ResourceRequestItem>)
}

/** Byte sizes are stored as formatted strings, so every subtraction goes through a rounding. */
module Sizes {
  type Rounding = int -> int

  function Sub(round: Rounding, a: int, b: int): int {
    round(a - b)
  }

  ghost predicate Exact(round: Rounding) {
    forall x :: round(x) == x
  }

  /** Formatting and parsing a size moves it by at most e bytes. */
  ghost predicate Within(round: Rounding, e: int) {
    forall x :: x - e <= round(x) <= x + e
  }
}
