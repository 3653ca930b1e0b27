/**
  The operations of the provider, day-2 and mirror contracts (operations.py:11-101, 152-178, 1445), and the risk they are
  planned under.
 */
module Contracts {
  import opened Risk
  import Text

  const DAY2_OPERATIONS := [
    "cluster.worker.add", "cluster.worker.remove", "cluster.worker.replace", "cluster.node.cordon", "cluster.node.uncordon",
    "cluster.node.drain", "cluster.workload.restart", "cluster.workload.scale", "cluster.addon.install", "cluster.addon.upgrade",
    "cluster.helm.apply", "cluster.gitops.sync", "cluster.kubernetes.upgrade", "cluster.cilium.upgrade", "cluster.backup.velero",
    "cluster.backup.schedule", "cluster.etcd.snapshot", "cluster.etcd.restore", "cluster.restore", "cluster.certificate.rotate",
    "cluster.node.maintenance", "cluster.decommission", "cluster.infrastructure.scale", "cluster.template.clone",
    "cluster.disaster-recovery"
  ]

  const MACHINE_ACTIONS := [
    "vm.create", "vm.update", "vm.delete", "vm.power", "vm.clone", "network.attach", "snapshot.create", "snapshot.restore"
  ]

  const REDFISH_ACTIONS := [
    "power.set", "boot.set", "boot-order.apply", "secure-boot.apply", "sriov.apply", "iommu.apply", "virtual-media.insert",
    "virtual-media.eject", "bios.apply", "firmware.apply", "storage.volume.apply", "storage.volume.delete", "inventory.refresh"
  ]

  const PXE_ACTIONS := ["os.provision", "os.reimage", "os.recover", "os.decommission"]

  const HOST_NETWORK_ACTIONS := [
    "interface.configure", "interface.bond", "vlan.configure", "mtu.configure", "address.configure", "network.discover"
  ]

  const SWITCH_ACTIONS := [
    "vlan.ensure", "port.configure", "bond.ensure", "network.attach", "network.detach", "lldp.observe", "bgp.configure"
  ]

  const MIRROR_OPERATION := "artifact.mirror.apply"

  predicate Starts3(s: string, a: char, b: char, c: char) {
    |s| >= 3 && s[0] == a && s[1] == b && s[2] == c
  }

  /** The first three characters rule out every read prefix, and neither strip nor lower touches them. */
  predicate PlainStart(s: string) {
    && |s| >= 3 && PlainChar(s[0]) && PlainChar(s[1]) && PlainChar(s[2])
    && !Starts3(s, 'g', 'e', 't') && !Starts3(s, 'l', 'i', 's') && !Starts3(s, 'r', 'e', 'a') && !Starts3(s, 'd', 'e', 's')
    && !Starts3(s, 'd', 'i', 's') && !Starts3(s, 'h', 'e', 'a') && !Starts3(s, 'l', 'o', 'g') && !Starts3(s, 's', 't', 'a')
    && !Starts3(s, 'i', 'n', 's')
  }

  lemma {:induction false} StripRightKeepsStart(s: string, k: nat)
    requires k < |s| && !Text.IsSpace(s[k])
    ensures |Text.StripRight(s)| > k
  {
    if Text.IsSpace(s[|s| - 1]) {
      StripRightKeepsStart(s[..|s| - 1], k);
    }
  }

  lemma ReadPrefixStart(s: string, p: string)
    requires p in READ_PREFIXES && p <= s
    ensures !PlainStart(s)
  {
    assert |p| >= 3 && p[0] == s[0] && p[1] == s[1] && p[2] == s[2];
  }

  lemma PlainStartNeedsApproval(operation: string)
    requires PlainStart(operation)
    ensures ApprovalRequired(Classify(PlannedOperation(operation))) && !HasReadPrefix(PlannedOperation(operation))
  {
    var planned := PlannedOperation(operation);
    assert planned[0] == operation[0] && planned[1] == operation[1] && planned[2] == operation[2];
    assert Text.StripLeft(planned) == planned;
    StripRightKeepsStart(planned, 2);
    var op := Lower(Text.Strip(planned));
    assert op[0] == operation[0] && op[1] == operation[1] && op[2] == operation[2];
    forall p | p in READ_PREFIXES
      ensures !(p <= op)
    {
      if p <= op {
        ReadPrefixStart(op, p);
      }
    }
    PlannedNeedsApprovalIff(operation);
  }

  lemma ClusterStart(op: string)
    requires op in DAY2_OPERATIONS
    ensures PlainStart(op)
  {
    assert DAY2_OPERATIONS == DAY2_OPERATIONS[..9] + DAY2_OPERATIONS[9..17] + DAY2_OPERATIONS[17..21] + DAY2_OPERATIONS[21..];
    if op in DAY2_OPERATIONS[..9] {
      NodeStart(op);
    } else if op in DAY2_OPERATIONS[9..17] {
      ReleaseStart(op);
    } else if op in DAY2_OPERATIONS[17..21] {
      RestoreStart(op);
    } else {
      FleetStart(op);
    }
  }

  lemma NodeStart(op: string)
    requires op in DAY2_OPERATIONS[..9]
    ensures PlainStart(op)
  {
    assert op[0] == 'c' && op[1] == 'l' && op[2] == 'u';
  }

  lemma ReleaseStart(op: string)
    requires op in DAY2_OPERATIONS[9..17]
    ensures PlainStart(op)
  {
    assert op[0] == 'c' && op[1] == 'l' && op[2] == 'u';
  }

  lemma RestoreStart(op: string)
    requires op in DAY2_OPERATIONS[17..21]
    ensures PlainStart(op)
  {
    assert op[0] == 'c' && op[1] == 'l' && op[2] == 'u';
  }

  lemma FleetStart(op: string)
    requires op in DAY2_OPERATIONS[21..]
    ensures PlainStart(op)
  {
    assert op[0] == 'c' && op[1] == 'l' && op[2] == 'u';
  }

  lemma MachineStart(op: string)
    requires op in MACHINE_ACTIONS || op in PXE_ACTIONS || op == MIRROR_OPERATION
    ensures PlainStart(op)
  {
  }

  lemma RedfishStart(op: string)
    requires op in REDFISH_ACTIONS
    ensures PlainStart(op)
  {
  }

  lemma NetworkStart(op: string)
    requires op in HOST_NETWORK_ACTIONS || op in SWITCH_ACTIONS
    ensures PlainStart(op)
  {
  }

  ghost predicate ContractOperation(op: string) {
    || op in DAY2_OPERATIONS || op in MACHINE_ACTIONS || op in REDFISH_ACTIONS || op in PXE_ACTIONS
    || op in HOST_NETWORK_ACTIONS || op in SWITCH_ACTIONS || op == MIRROR_OPERATION
  }

  /** Every operation of the contracts is planned as one that needs approval. */
  lemma ContractOperationsNeedApproval(operation: string)
    requires ContractOperation(operation)
    ensures ApprovalRequired(Classify(PlannedOperation(operation))) && !HasReadPrefix(PlannedOperation(operation))
  {
    if operation in DAY2_OPERATIONS {
      ClusterStart(operation);
    } else if operation in REDFISH_ACTIONS {
      RedfishStart(operation);
    } else if operation in HOST_NETWORK_ACTIONS || operation in SWITCH_ACTIONS {
      NetworkStart(operation);
    } else {
      MachineStart(operation);
    }
    PlainStartNeedsApproval(operation);
  }

  /** Creating a machine takes one approval. */
  lemma CreateIsHigh()
    ensures Classify("vm.create") == High
  {
    var op := "vm.create";
    assert Text.StripLeft(op) == op && Text.StripRight(op) == op;
    assert Lower(op) == op by {
      assert forall i | 0 <= i < |op| :: LowerChar(op[i]) == op[i];
    }
    forall p | p in READ_PREFIXES
      ensures !(p <= op)
    {
      if p <= op {
        ReadPrefixStart(op, p);
      }
    }
  }

  // ---- One by one ---------------------------------------------------------------------------------------

  /** The operations of the contracts that two people must approve. */
  const TWO_PERSON_OPERATIONS := {
    "cluster.etcd.restore", "cluster.restore", "cluster.decommission", "cluster.disaster-recovery", "vm.delete",
    "snapshot.restore", "storage.volume.delete", "os.decommission"
  }

  lemma WorkersAreHarmless(op: string)
    requires op in {"cluster.worker.add", "cluster.worker.remove", "cluster.worker.replace", "cluster.infrastructure.scale"}
    ensures Harmless(op)
  {
    if op == "cluster.worker.add" {
      forall i: nat | i < |op|
        ensures QuietAt(op, i) && PlainChar(op[i])
      {
      }
    } else if op == "cluster.worker.remove" {
      forall i: nat | i < |op|
        ensures QuietAt(op, i) && PlainChar(op[i])
      {
      }
    } else if op == "cluster.worker.replace" {
      forall i: nat | i < |op|
        ensures QuietAt(op, i) && PlainChar(op[i])
      {
      }
    } else {
      forall i: nat | i < |op|
        ensures QuietAt(op, i) && PlainChar(op[i])
      {
      }
    }
  }

  lemma NodesAreHarmless(op: string)
    requires op in {"cluster.node.cordon", "cluster.node.uncordon", "cluster.node.drain", "cluster.node.maintenance"}
    ensures Harmless(op)
  {
    if op == "cluster.node.cordon" {
      forall i: nat | i < |op|
        ensures QuietAt(op, i) && PlainChar(op[i])
      {
      }
    } else if op == "cluster.node.uncordon" {
      forall i: nat | i < |op|
        ensures QuietAt(op, i) && PlainChar(op[i])
      {
      }
    } else if op == "cluster.node.drain" {
      forall i: nat | i < |op|
        ensures QuietAt(op, i) && PlainChar(op[i])
      {
      }
    } else {
      forall i: nat | i < |op|
        ensures QuietAt(op, i) && PlainChar(op[i])
      {
      }
    }
  }

  lemma WorkloadsAreHarmless(op: string)
    requires op in {"cluster.workload.restart", "cluster.workload.scale", "cluster.addon.install", "cluster.addon.upgrade"}
    ensures Harmless(op)
  {
    if op == "cluster.workload.restart" {
      forall i: nat | i < |op|
        ensures QuietAt(op, i) && PlainChar(op[i])
      {
      }
    } else if op == "cluster.workload.scale" {
      forall i: nat | i < |op|
        ensures QuietAt(op, i) && PlainChar(op[i])
      {
      }
    } else if op == "cluster.addon.install" {
      forall i: nat | i < |op|
        ensures QuietAt(op, i) && PlainChar(op[i])
      {
      }
    } else {
      forall i: nat | i < |op|
        ensures QuietAt(op, i) && PlainChar(op[i])
      {
      }
    }
  }

  lemma ReleasesAreHarmless(op: string)
    requires op in {"cluster.helm.apply", "cluster.gitops.sync", "cluster.kubernetes.upgrade", "cluster.cilium.upgrade"}
    ensures Harmless(op)
  {
    if op == "cluster.helm.apply" {
      forall i: nat | i < |op|
        ensures QuietAt(op, i) && PlainChar(op[i])
      {
      }
    } else if op == "cluster.gitops.sync" {
      forall i: nat | i < |op|
        ensures QuietAt(op, i) && PlainChar(op[i])
      {
      }
    } else if op == "cluster.kubernetes.upgrade" {
      forall i: nat | i < |op|
        ensures QuietAt(op, i) && PlainChar(op[i])
      {
      }
    } else {
      forall i: nat | i < |op|
        ensures QuietAt(op, i) && PlainChar(op[i])
      {
      }
    }
  }

  lemma BackupsAreHarmless(op: string)
    requires op in {"cluster.backup.velero", "cluster.backup.schedule", "cluster.etcd.snapshot"}
    ensures Harmless(op)
  {
    if op == "cluster.backup.velero" {
      forall i: nat | i < |op|
        ensures QuietAt(op, i) && PlainChar(op[i])
      {
      }
    } else if op == "cluster.backup.schedule" {
      forall i: nat | i < |op|
        ensures QuietAt(op, i) && PlainChar(op[i])
      {
      }
    } else {
      forall i: nat | i < |op|
        ensures QuietAt(op, i) && PlainChar(op[i])
      {
      }
    }
  }

  lemma CopiesAreHarmless(op: string)
    requires op in {"cluster.certificate.rotate", "cluster.template.clone"}
    ensures Harmless(op)
  {
    if op == "cluster.certificate.rotate" {
      forall i: nat | i < |op|
        ensures QuietAt(op, i) && PlainChar(op[i])
      {
      }
    } else {
      forall i: nat | i < |op|
        ensures QuietAt(op, i) && PlainChar(op[i])
      {
      }
    }
  }

  lemma BootsAreHarmless(op: string)
    requires op in {"power.set", "boot.set", "boot-order.apply", "secure-boot.apply", "sriov.apply", "iommu.apply"}
    ensures Harmless(op)
  {
    if op == "power.set" {
      forall i: nat | i < |op|
        ensures QuietAt(op, i) && PlainChar(op[i])
      {
      }
    } else if op == "boot.set" {
      forall i: nat | i < |op|
        ensures QuietAt(op, i) && PlainChar(op[i])
      {
      }
    } else if op == "boot-order.apply" {
      forall i: nat | i < |op|
        ensures QuietAt(op, i) && PlainChar(op[i])
      {
      }
    } else if op == "secure-boot.apply" {
      forall i: nat | i < |op|
        ensures QuietAt(op, i) && PlainChar(op[i])
      {
      }
    } else if op == "sriov.apply" {
      forall i: nat | i < |op|
        ensures QuietAt(op, i) && PlainChar(op[i])
      {
      }
    } else {
      forall i: nat | i < |op|
        ensures QuietAt(op, i) && PlainChar(op[i])
      {
      }
    }
  }

  lemma MediaAreHarmless(op: string)
    requires op in {"virtual-media.insert", "virtual-media.eject", "bios.apply", "firmware.apply", "storage.volume.apply"}
    ensures Harmless(op)
  {
    if op == "virtual-media.insert" {
      forall i: nat | i < |op|
        ensures QuietAt(op, i) && PlainChar(op[i])
      {
      }
    } else if op == "virtual-media.eject" {
      forall i: nat | i < |op|
        ensures QuietAt(op, i) && PlainChar(op[i])
      {
      }
    } else if op == "bios.apply" {
      forall i: nat | i < |op|
        ensures QuietAt(op, i) && PlainChar(op[i])
      {
      }
    } else if op == "firmware.apply" {
      forall i: nat | i < |op|
        ensures QuietAt(op, i) && PlainChar(op[i])
      {
      }
    } else {
      forall i: nat | i < |op|
        ensures QuietAt(op, i) && PlainChar(op[i])
      {
      }
    }
  }

  lemma SystemsAreHarmless(op: string)
    requires op in {"inventory.refresh", "os.provision", "os.reimage", "os.recover", "artifact.mirror.apply"}
    ensures Harmless(op)
  {
    if op == "inventory.refresh" {
      forall i: nat | i < |op|
        ensures QuietAt(op, i) && PlainChar(op[i])
      {
      }
    } else if op == "os.provision" {
      forall i: nat | i < |op|
        ensures QuietAt(op, i) && PlainChar(op[i])
      {
      }
    } else if op == "os.reimage" {
      forall i: nat | i < |op|
        ensures QuietAt(op, i) && PlainChar(op[i])
      {
      }
    } else if op == "os.recover" {
      forall i: nat | i < |op|
        ensures QuietAt(op, i) && PlainChar(op[i])
      {
      }
    } else {
      forall i: nat | i < |op|
        ensures QuietAt(op, i) && PlainChar(op[i])
      {
      }
    }
  }

  lemma InterfacesAreHarmless(op: string)
    requires op in {"interface.configure", "interface.bond", "vlan.configure"}
    ensures Harmless(op)
  {
    if op == "interface.configure" {
      forall i: nat | i < |op|
        ensures QuietAt(op, i) && PlainChar(op[i])
      {
      }
    } else if op == "interface.bond" {
      forall i: nat | i < |op|
        ensures QuietAt(op, i) && PlainChar(op[i])
      {
      }
    } else {
      forall i: nat | i < |op|
        ensures QuietAt(op, i) && PlainChar(op[i])
      {
      }
    }
  }

  lemma AddressesAreHarmless(op: string)
    requires op in {"mtu.configure", "address.configure", "network.discover"}
    ensures Harmless(op)
  {
    if op == "mtu.configure" {
      forall i: nat | i < |op|
        ensures QuietAt(op, i) && PlainChar(op[i])
      {
      }
    } else if op == "address.configure" {
      forall i: nat | i < |op|
        ensures QuietAt(op, i) && PlainChar(op[i])
      {
      }
    } else {
      forall i: nat | i < |op|
        ensures QuietAt(op, i) && PlainChar(op[i])
      {
      }
    }
  }

  lemma PortsAreHarmless(op: string)
    requires op in {"vlan.ensure", "port.configure", "bond.ensure", "network.detach", "lldp.observe", "bgp.configure"}
    ensures Harmless(op)
  {
    if op == "vlan.ensure" {
      forall i: nat | i < |op|
        ensures QuietAt(op, i) && PlainChar(op[i])
      {
      }
    } else if op == "port.configure" {
      forall i: nat | i < |op|
        ensures QuietAt(op, i) && PlainChar(op[i])
      {
      }
    } else if op == "bond.ensure" {
      forall i: nat | i < |op|
        ensures QuietAt(op, i) && PlainChar(op[i])
      {
      }
    } else if op == "network.detach" {
      forall i: nat | i < |op|
        ensures QuietAt(op, i) && PlainChar(op[i])
      {
      }
    } else if op == "lldp.observe" {
      forall i: nat | i < |op|
        ensures QuietAt(op, i) && PlainChar(op[i])
      {
      }
    } else {
      forall i: nat | i < |op|
        ensures QuietAt(op, i) && PlainChar(op[i])
      {
      }
    }
  }

  /** Every contract operation that is not among the two-person ones is harmless. */
  lemma ContractIsHarmless(op: string)
    requires ContractOperation(op) && op !in TWO_PERSON_OPERATIONS
    ensures Harmless(op)
  {
    if op in DAY2_OPERATIONS {
      DayTwoIsHarmless(op);
    } else if op in REDFISH_ACTIONS {
      RedfishIsHarmless(op);
    } else if op in MACHINE_ACTIONS {
      MachinesAreHarmless(op);
    } else if op in HOST_NETWORK_ACTIONS {
      HostNetworkIsHarmless(op);
    } else if op in SWITCH_ACTIONS {
      SwitchIsHarmless(op);
    } else {
      SystemsAreHarmless(op);
    }
  }

  lemma DayTwoIsHarmless(op: string)
    requires op in DAY2_OPERATIONS && op !in TWO_PERSON_OPERATIONS
    ensures Harmless(op)
  {
    if op in {"cluster.worker.add", "cluster.worker.remove", "cluster.worker.replace", "cluster.infrastructure.scale"} {
      WorkersAreHarmless(op);
    } else if op in {"cluster.node.cordon", "cluster.node.uncordon", "cluster.node.drain", "cluster.node.maintenance"} {
      NodesAreHarmless(op);
    } else if op in {"cluster.workload.restart", "cluster.workload.scale", "cluster.addon.install", "cluster.addon.upgrade"} {
      WorkloadsAreHarmless(op);
    } else if op in {"cluster.helm.apply", "cluster.gitops.sync", "cluster.kubernetes.upgrade", "cluster.cilium.upgrade"} {
      ReleasesAreHarmless(op);
    } else if op in {"cluster.certificate.rotate", "cluster.template.clone"} {
      CopiesAreHarmless(op);
    } else {
      BackupsAreHarmless(op);
    }
  }

  lemma RedfishIsHarmless(op: string)
    requires op in REDFISH_ACTIONS && op !in TWO_PERSON_OPERATIONS
    ensures Harmless(op)
  {
    if op in {"power.set", "boot.set", "boot-order.apply", "secure-boot.apply", "sriov.apply", "iommu.apply"} {
      BootsAreHarmless(op);
    } else if op == "inventory.refresh" {
      SystemsAreHarmless(op);
    } else {
      MediaAreHarmless(op);
    }
  }

  lemma HostNetworkIsHarmless(op: string)
    requires op in HOST_NETWORK_ACTIONS
    ensures Harmless(op)
  {
    if op in {"interface.configure", "interface.bond", "vlan.configure"} {
      InterfacesAreHarmless(op);
    } else {
      AddressesAreHarmless(op);
    }
  }

  lemma SwitchIsHarmless(op: string)
    requires op in SWITCH_ACTIONS
    ensures Harmless(op)
  {
    if op == "network.attach" {
      MachinesAreHarmless(op);
    } else {
      PortsAreHarmless(op);
    }
  }

  /** Where a two-person operation of the contracts holds its marker. */
  lemma TwoPersonMarker(op: string) returns (part: string)
    requires op in TWO_PERSON_OPERATIONS
    ensures part in TWO_PERSON_MARKERS && Contains(op, part)
  {
    var i: nat;
    if op == "cluster.etcd.restore" {
      i, part := 13, "restore";
    } else if op == "cluster.restore" {
      i, part := 8, "restore";
    } else if op == "cluster.decommission" {
      i, part := 8, "decommission";
    } else if op == "cluster.disaster-recovery" {
      i, part := 8, "disaster-recovery";
    } else if op == "snapshot.restore" {
      i, part := 9, "restore";
    } else if op == "os.decommission" {
      i, part := 3, "decommission";
    } else {
      i, part := 0, op;
    }
    assert op[i..] == part;
    assert At(op, i, part);
  }

  /** Of the contracts' operations exactly these eight are planned under CRITICAL risk, and every other under HIGH. */
  lemma ContractRisk(operation: string)
    requires ContractOperation(operation)
    ensures Classify(PlannedOperation(operation)) == if operation in TWO_PERSON_OPERATIONS then Critical else High
  {
    var planned := PlannedOperation(operation);
    ContractOperationsNeedApproval(operation);
    if operation in TWO_PERSON_OPERATIONS {
      var part := TwoPersonMarker(operation);
      ContainsMore(operation, ".apply", part);
      MarkedIsCritical(planned, part);
    } else {
      ContractIsHarmless(operation);
      ApplyIsHarmless(operation);
      HarmlessIsKept(planned);
      QuietIsNotCritical(planned);
      HoldsMarkerIff(planned);
      CriticalIff(planned);
    }
  }
}
