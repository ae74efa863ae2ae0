/** The cgroup BPF attach-type mapping of include/linux/bpf-cgroup-types.h
    (with CONFIG_CGROUP_BPF). */
module BpfCgroupTypes {

  /** `enum bpf_attach_type` of the BPF user ABI: its 23 cgroup attach types
      by name, and every other attach type (socket, tracing, ...) as
      `BpfOtherAttachType`, identified by an opaque number. The numeric
      values are defined outside this header and play no part here. */
  datatype BpfAttachType =
    | BpfCgroupInetIngress
    | BpfCgroupInetEgress
    | BpfCgroupInetSockCreate
    | BpfCgroupSockOps
    | BpfCgroupDevice
    | BpfCgroupInet4Bind
    | BpfCgroupInet6Bind
    | BpfCgroupInet4Connect
    | BpfCgroupInet6Connect
    | BpfCgroupInet4PostBind
    | BpfCgroupInet6PostBind
    | BpfCgroupUdp4Sendmsg
    | BpfCgroupUdp6Sendmsg
    | BpfCgroupSysctl
    | BpfCgroupUdp4Recvmsg
    | BpfCgroupUdp6Recvmsg
    | BpfCgroupGetsockopt
    | BpfCgroupSetsockopt
    | BpfCgroupInet4Getpeername
    | BpfCgroupInet6Getpeername
    | BpfCgroupInet4Getsockname
    | BpfCgroupInet6Getsockname
    | BpfCgroupInetSockRelease
    | BpfOtherAttachType(id: nat)

  // ---- enum cgroup_bpf_attach_type ----

  const CGROUP_BPF_ATTACH_TYPE_INVALID: int := -1
  const CGROUP_INET_INGRESS: int := 0
  const CGROUP_INET_EGRESS: int := 1
  const CGROUP_INET_SOCK_CREATE: int := 2
  const CGROUP_SOCK_OPS: int := 3
  const CGROUP_DEVICE: int := 4
  const CGROUP_INET4_BIND: int := 5
  const CGROUP_INET6_BIND: int := 6
  const CGROUP_INET4_CONNECT: int := 7
  const CGROUP_INET6_CONNECT: int := 8
  const CGROUP_INET4_POST_BIND: int := 9
  const CGROUP_INET6_POST_BIND: int := 10
  const CGROUP_UDP4_SENDMSG: int := 11
  const CGROUP_UDP6_SENDMSG: int := 12
  const CGROUP_SYSCTL: int := 13
  const CGROUP_UDP4_RECVMSG: int := 14
  const CGROUP_UDP6_RECVMSG: int := 15
  const CGROUP_GETSOCKOPT: int := 16
  const CGROUP_SETSOCKOPT: int := 17
  const CGROUP_INET4_GETPEERNAME: int := 18
  const CGROUP_INET6_GETPEERNAME: int := 19
  const CGROUP_INET4_GETSOCKNAME: int := 20
  const CGROUP_INET6_GETSOCKNAME: int := 21
  const CGROUP_INET_SOCK_RELEASE: int := 22
  const MAX_CGROUP_BPF_ATTACH_TYPE: int := 23

  /** The values of `enum cgroup_bpf_attach_type`. */
  type CgroupBpfAttachType = x: int | CGROUP_BPF_ATTACH_TYPE_INVALID <= x < MAX_CGROUP_BPF_ATTACH_TYPE

  /** `to_cgroup_bpf_attach_type(attach_type)`: each cgroup attach type goes
      to the identically named cgroup constant (the `CGROUP_ATYPE` cases),
      every other attach type to CGROUP_BPF_ATTACH_TYPE_INVALID. */
  function ToCgroupBpfAttachType(attachType: BpfAttachType): (r: CgroupBpfAttachType)
    ensures r == CGROUP_BPF_ATTACH_TYPE_INVALID <==> attachType.BpfOtherAttachType?
  {
    match attachType
    case BpfCgroupInetIngress => CGROUP_INET_INGRESS
    case BpfCgroupInetEgress => CGROUP_INET_EGRESS
    case BpfCgroupInetSockCreate => CGROUP_INET_SOCK_CREATE
    case BpfCgroupSockOps => CGROUP_SOCK_OPS
    case BpfCgroupDevice => CGROUP_DEVICE
    case BpfCgroupInet4Bind => CGROUP_INET4_BIND
    case BpfCgroupInet6Bind => CGROUP_INET6_BIND
    case BpfCgroupInet4Connect => CGROUP_INET4_CONNECT
    case BpfCgroupInet6Connect => CGROUP_INET6_CONNECT
    case BpfCgroupInet4PostBind => CGROUP_INET4_POST_BIND
    case BpfCgroupInet6PostBind => CGROUP_INET6_POST_BIND
    case BpfCgroupUdp4Sendmsg => CGROUP_UDP4_SENDMSG
    case BpfCgroupUdp6Sendmsg => CGROUP_UDP6_SENDMSG
    case BpfCgroupSysctl => CGROUP_SYSCTL
    case BpfCgroupUdp4Recvmsg => CGROUP_UDP4_RECVMSG
    case BpfCgroupUdp6Recvmsg => CGROUP_UDP6_RECVMSG
    case BpfCgroupGetsockopt => CGROUP_GETSOCKOPT
    case BpfCgroupSetsockopt => CGROUP_SETSOCKOPT
    case BpfCgroupInet4Getpeername => CGROUP_INET4_GETPEERNAME
    case BpfCgroupInet6Getpeername => CGROUP_INET6_GETPEERNAME
    case BpfCgroupInet4Getsockname => CGROUP_INET4_GETSOCKNAME
    case BpfCgroupInet6Getsockname => CGROUP_INET6_GETSOCKNAME
    case BpfCgroupInetSockRelease => CGROUP_INET_SOCK_RELEASE
    case BpfOtherAttachType(_) => CGROUP_BPF_ATTACH_TYPE_INVALID
  }

  /** The cgroup attach types in the order `enum cgroup_bpf_attach_type`
      lists their counterparts, starting from CGROUP_INET_INGRESS = 0. */
  const CgroupAttachOrder: seq<BpfAttachType> := [
    BpfCgroupInetIngress,
    BpfCgroupInetEgress,
    BpfCgroupInetSockCreate,
    BpfCgroupSockOps,
    BpfCgroupDevice,
    BpfCgroupInet4Bind,
    BpfCgroupInet6Bind,
    BpfCgroupInet4Connect,
    BpfCgroupInet6Connect,
    BpfCgroupInet4PostBind,
    BpfCgroupInet6PostBind,
    BpfCgroupUdp4Sendmsg,
    BpfCgroupUdp6Sendmsg,
    BpfCgroupSysctl,
    BpfCgroupUdp4Recvmsg,
    BpfCgroupUdp6Recvmsg,
    BpfCgroupGetsockopt,
    BpfCgroupSetsockopt,
    BpfCgroupInet4Getpeername,
    BpfCgroupInet6Getpeername,
    BpfCgroupInet4Getsockname,
    BpfCgroupInet6Getsockname,
    BpfCgroupInetSockRelease
  ]

  /** The enum order has one entry per cgroup constant, none of them the
      catch-all. */
  lemma CgroupAttachOrderShape()
    ensures |CgroupAttachOrder| == MAX_CGROUP_BPF_ATTACH_TYPE
    ensures forall i :: 0 <= i < |CgroupAttachOrder| ==> !CgroupAttachOrder[i].BpfOtherAttachType?
  {
  }

  /** The mapping agrees with the enum order: the `i`-th cgroup attach type
      goes to `i`. */
  lemma MappingFollowsEnumOrder(i: int)
    requires 0 <= i < MAX_CGROUP_BPF_ATTACH_TYPE
    ensures ToCgroupBpfAttachType(CgroupAttachOrder[i]) == i
  {
  }

  /** Every valid result names the attach type it came from: the mapping is
      the inverse of the enum order on cgroup attach types. */
  lemma EnumOrderInvertsMapping(attachType: BpfAttachType)
    requires !attachType.BpfOtherAttachType?
    ensures 0 <= ToCgroupBpfAttachType(attachType) < |CgroupAttachOrder|
    ensures CgroupAttachOrder[ToCgroupBpfAttachType(attachType)] == attachType
  {
  }

  /** The mapping is injective on the cgroup attach types. */
  lemma {:induction false} MappingInjective(a: BpfAttachType, b: BpfAttachType)
    requires !a.BpfOtherAttachType? && !b.BpfOtherAttachType?
    requires ToCgroupBpfAttachType(a) == ToCgroupBpfAttachType(b)
    ensures a == b
  {
    EnumOrderInvertsMapping(a);
    EnumOrderInvertsMapping(b);
  }

  /** `cgroup_bpf_enabled(atype)`: the static key of a valid attach type in
      `cgroup_bpf_enabled_key[MAX_CGROUP_BPF_ATTACH_TYPE]`. The same bound
      serves the `effective`, `progs` and `flags` arrays of `struct cgroup_bpf`. */
  function CgroupBpfEnabled(enabledKey: seq<bool>, atype: int): (on: bool)
    requires |enabledKey| == MAX_CGROUP_BPF_ATTACH_TYPE
    requires 0 <= atype < MAX_CGROUP_BPF_ATTACH_TYPE
    ensures on == enabledKey[atype]
  {
    enabledKey[atype]
  }

  /** Every result other than CGROUP_BPF_ATTACH_TYPE_INVALID is an in-bounds
      index of the per-attach-type arrays. */
  lemma ValidResultIndexesArrays(attachType: BpfAttachType, enabledKey: seq<bool>)
    requires |enabledKey| == MAX_CGROUP_BPF_ATTACH_TYPE
    requires ToCgroupBpfAttachType(attachType) != CGROUP_BPF_ATTACH_TYPE_INVALID
    ensures 0 <= ToCgroupBpfAttachType(attachType) < |enabledKey|
  {
  }

  // ---- for_each_cgroup_storage_type ----

  /** The storage types `for_each_cgroup_storage_type(stype)` visits, in
      visiting order. `MAX_BPF_CGROUP_STORAGE_TYPE` is defined outside this
      header and is a parameter. */
  method ForEachCgroupStorageType(maxStorageType: nat) returns (visited: seq<nat>)
    ensures |visited| == maxStorageType
    ensures forall i :: 0 <= i < |visited| ==> visited[i] == i
  {
    visited := [];
    var stype := 0;
    while stype < maxStorageType
      invariant stype <= maxStorageType
      invariant |visited| == stype
      invariant forall i :: 0 <= i < stype ==> visited[i] == i
    {
      visited := visited + [stype];
      stype := stype + 1;
    }
  }

  /** The visiting order is strictly increasing, so no storage type is
      visited twice. */
  lemma StorageTypesIncreasing(visited: seq<nat>, maxStorageType: nat)
    requires |visited| == maxStorageType
    requires forall i :: 0 <= i < |visited| ==> visited[i] == i
    ensures forall i, j :: 0 <= i < j < |visited| ==> visited[i] < visited[j]
  {
  }
}
