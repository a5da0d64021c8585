/** The provider spec of a Machine, the actuator's validation of it, and the
    instance request built from it. */
module ProviderSpec {
  import opened Options

  const MAX_ADDITIONAL_SUBNETS := 10

  datatype Subnet = Subnet(subnetId: string, isPhysical: bool)

  datatype DpuService = DpuService(serviceId: string, version: string)

  datatype InfiniBand = InfiniBand(partitionId: string, device: string, isPhysical: bool, deviceInstance: Option<int>)

  datatype NvLinkAttachment = NvLinkAttachment(partitionId: string, deviceInstance: Option<int>)

  datatype Spec = Spec(
    siteId: string,
    tenantId: string,
    instanceTypeId: string,
    machineId: string,
    allowUnhealthyMachine: bool,
    vpcId: string,
    subnetId: string,
    additionalSubnets: seq<Subnet>,
    operatingSystemId: string,
    networkSecurityGroupId: string,
    userData: string,
    sshKeyGroupIds: seq<string>,
    labels: map<string, string>,
    description: string,
    alwaysBootWithCustomIpxe: bool,
    infiniBands: seq<InfiniBand>,
    nvLinks: seq<NvLinkAttachment>,
    dpuServices: seq<DpuService>)

  datatype SpecError =
    | BothTargets
    | NoTarget
    | NoSite
    | NoTenant
    | NoVpc
    | NoSubnet
    | TooManySubnets

  /** validateProviderSpec of the actuator: the first failing check. */
  function Validate(spec: Spec): Option<SpecError> {
    if spec.instanceTypeId != "" && spec.machineId != "" then Some(BothTargets)
    else if spec.instanceTypeId == "" && spec.machineId == "" then Some(NoTarget)
    else if spec.siteId == "" then Some(NoSite)
    else if spec.tenantId == "" then Some(NoTenant)
    else if spec.vpcId == "" then Some(NoVpc)
    else if spec.subnetId == "" then Some(NoSubnet)
    else if |spec.additionalSubnets| > MAX_ADDITIONAL_SUBNETS then Some(TooManySubnets)
    else None
  }

  datatype Interface = Interface(subnetId: string, isPhysical: bool)

  datatype BootSource = OperatingSystem(id: string) | IpxeScript(text: string)

  datatype InfiniBandRequest = InfiniBandRequest(
    partitionId: Option<string>, device: Option<string>, isPhysical: Option<bool>, deviceInstance: Option<int>)

  datatype NvLinkRequest = NvLinkRequest(partitionId: Option<string>, deviceInstance: Option<int>)

  /** Everything in a request but the interfaces; `None` fields are not sent. */
  datatype Header = Header(
    name: string,
    tenantId: string,
    vpcId: string,
    phoneHomeEnabled: bool,
    instanceTypeId: Option<string>,
    machineId: Option<string>,
    allowUnhealthyMachine: Option<bool>,
    userData: Option<string>,
    boot: BootSource,
    sshKeyGroupIds: seq<string>,
    labels: map<string, string>,
    networkSecurityGroupId: Option<string>,
    description: Option<string>,
    alwaysBootWithCustomIpxe: Option<bool>)

  datatype Request = Request(
    header: Header,
    interfaces: seq<Interface>,
    infiniBands: seq<InfiniBandRequest>,
    nvLinks: seq<NvLinkRequest>)

  const FALLBACK_SCRIPT := "#!ipxe\necho Booting via NICo"

  /** A flag is sent only when it is set. */
  function IfSet(flag: bool): Option<bool> {
    if flag then Some(true) else None
  }

  /** The requests that a spec allows: the primary subnet first and virtual,
      then the additional subnets in order; the chosen target and boot source;
      every attachment in order; and each option exactly if it is given. */
  ghost predicate Requests(name: string, spec: Spec, req: Request) {
    && req.header == HeaderOf(name, spec)
    && |req.interfaces| == 1 + |spec.additionalSubnets|
    && req.interfaces[0] == Interface(spec.subnetId, false)
    && (forall i :: 0 <= i < |spec.additionalSubnets| ==>
          req.interfaces[i + 1] == Interface(spec.additionalSubnets[i].subnetId, spec.additionalSubnets[i].isPhysical))
    && |req.infiniBands| == |spec.infiniBands|
    && (forall i :: 0 <= i < |spec.infiniBands| ==> req.infiniBands[i] == InfiniBandOf(spec.infiniBands[i]))
    && |req.nvLinks| == |spec.nvLinks|
    && (forall i :: 0 <= i < |spec.nvLinks| ==>
          req.nvLinks[i] == NvLinkRequest(NonEmpty(spec.nvLinks[i].partitionId), spec.nvLinks[i].deviceInstance))
  }

  function HeaderOf(name: string, spec: Spec): Header {
    Header(
      name, spec.tenantId, spec.vpcId, true,
      NonEmpty(spec.instanceTypeId), NonEmpty(spec.machineId), IfSet(spec.allowUnhealthyMachine),
      NonEmpty(spec.userData),
      if spec.operatingSystemId != "" then OperatingSystem(spec.operatingSystemId) else IpxeScript(FALLBACK_SCRIPT),
      spec.sshKeyGroupIds, spec.labels, NonEmpty(spec.networkSecurityGroupId), NonEmpty(spec.description),
      IfSet(spec.alwaysBootWithCustomIpxe))
  }

  function InfiniBandOf(ib: InfiniBand): InfiniBandRequest {
    InfiniBandRequest(NonEmpty(ib.partitionId), NonEmpty(ib.device), IfSet(ib.isPhysical), ib.deviceInstance)
  }

  method BuildInstanceRequest(name: string, spec: Spec) returns (req: Request)
    ensures Requests(name, spec, req)
  {
    var interfaces := [Interface(spec.subnetId, false)];
    for i := 0 to |spec.additionalSubnets|
      invariant |interfaces| == 1 + i
      invariant interfaces[0] == Interface(spec.subnetId, false)
      invariant forall j :: 0 <= j < i ==>
                  interfaces[j + 1]
                  == Interface(spec.additionalSubnets[j].subnetId, spec.additionalSubnets[j].isPhysical)
    {
      var subnet := spec.additionalSubnets[i];
      interfaces := interfaces + [Interface(subnet.subnetId, subnet.isPhysical)];
    }
    var header := BuildHeader(name, spec);
    var infiniBands := RequestInfiniBands(spec.infiniBands);
    var nvLinks := RequestNvLinks(spec.nvLinks);
    req := Request(header, interfaces, infiniBands, nvLinks);
  }

  method BuildHeader(name: string, spec: Spec) returns (header: Header)
    ensures header == HeaderOf(name, spec)
  {
    header := Header(name, spec.tenantId, spec.vpcId, true, None, None, None, None,
                     IpxeScript(FALLBACK_SCRIPT), [], map[], None, None, None);
    if spec.instanceTypeId != "" {
      header := header.(instanceTypeId := Some(spec.instanceTypeId));
    }
    if spec.machineId != "" {
      header := header.(machineId := Some(spec.machineId));
    }
    if spec.allowUnhealthyMachine {
      header := header.(allowUnhealthyMachine := Some(true));
    }
    if spec.userData != "" {
      header := header.(userData := Some(spec.userData));
    }
    if spec.operatingSystemId != "" {
      header := header.(boot := OperatingSystem(spec.operatingSystemId));
    }
    header := AddOptions(header, spec);
  }

  /** The second half of the optional fields. */
  method AddOptions(base: Header, spec: Spec) returns (header: Header)
    requires base.sshKeyGroupIds == [] && base.labels == map[] && base.networkSecurityGroupId == None
    requires base.description == None && base.alwaysBootWithCustomIpxe == None
    ensures header == base.(sshKeyGroupIds := spec.sshKeyGroupIds, labels := spec.labels,
                            networkSecurityGroupId := NonEmpty(spec.networkSecurityGroupId),
                            description := NonEmpty(spec.description),
                            alwaysBootWithCustomIpxe := IfSet(spec.alwaysBootWithCustomIpxe))
  {
    header := base;
    if spec.sshKeyGroupIds != [] {
      header := header.(sshKeyGroupIds := spec.sshKeyGroupIds);
    }
    if spec.labels != map[] {
      header := header.(labels := spec.labels);
    }
    if spec.networkSecurityGroupId != "" {
      header := header.(networkSecurityGroupId := Some(spec.networkSecurityGroupId));
    }
    if spec.description != "" {
      header := header.(description := Some(spec.description));
    }
    if spec.alwaysBootWithCustomIpxe {
      header := header.(alwaysBootWithCustomIpxe := Some(true));
    }
  }

  method RequestInfiniBands(attachments: seq<InfiniBand>) returns (requests: seq<InfiniBandRequest>)
    ensures |requests| == |attachments|
    ensures forall i :: 0 <= i < |attachments| ==> requests[i] == InfiniBandOf(attachments[i])
  {
    requests := [];
    for i := 0 to |attachments|
      invariant |requests| == i
      invariant forall j :: 0 <= j < i ==> requests[j] == InfiniBandOf(attachments[j])
    {
      var ib := attachments[i];
      var req := InfiniBandRequest(None, None, None, None);
      if ib.partitionId != "" {
        req := req.(partitionId := Some(ib.partitionId));
      }
      if ib.device != "" {
        req := req.(device := Some(ib.device));
      }
      if ib.isPhysical {
        req := req.(isPhysical := Some(true));
      }
      if ib.deviceInstance.Some? {
        req := req.(deviceInstance := ib.deviceInstance);
      }
      requests := requests + [req];
    }
  }

  method RequestNvLinks(attachments: seq<NvLinkAttachment>) returns (requests: seq<NvLinkRequest>)
    ensures |requests| == |attachments|
    ensures forall i :: 0 <= i < |attachments| ==>
              requests[i] == NvLinkRequest(NonEmpty(attachments[i].partitionId), attachments[i].deviceInstance)
  {
    requests := [];
    for i := 0 to |attachments|
      invariant |requests| == i
      invariant forall j :: 0 <= j < i ==>
                  requests[j] == NvLinkRequest(NonEmpty(attachments[j].partitionId), attachments[j].deviceInstance)
    {
      var req := NvLinkRequest(None, None);
      if attachments[i].partitionId != "" {
        req := req.(partitionId := Some(attachments[i].partitionId));
      }
      if attachments[i].deviceInstance.Some? {
        req := req.(deviceInstance := attachments[i].deviceInstance);
      }
      requests := requests + [req];
    }
  }

  /** What an allowed request says, field by field. */
  lemma RequestFields(name: string, spec: Spec, req: Request)
    requires Requests(name, spec, req)
    ensures var h := req.header;
            && h.name == name && h.tenantId == spec.tenantId && h.vpcId == spec.vpcId && h.phoneHomeEnabled
            && h.instanceTypeId == (if spec.instanceTypeId == "" then None else Some(spec.instanceTypeId))
            && h.machineId == (if spec.machineId == "" then None else Some(spec.machineId))
            && h.allowUnhealthyMachine == (if spec.allowUnhealthyMachine then Some(true) else None)
            && h.userData == (if spec.userData == "" then None else Some(spec.userData))
            && h.boot == (if spec.operatingSystemId == "" then IpxeScript("#!ipxe\necho Booting via NICo")
                          else OperatingSystem(spec.operatingSystemId))
            && h.sshKeyGroupIds == spec.sshKeyGroupIds && h.labels == spec.labels
            && h.networkSecurityGroupId == (if spec.networkSecurityGroupId == "" then None
                  else Some(spec.networkSecurityGroupId))
            && h.description == (if spec.description == "" then None else Some(spec.description))
            && h.alwaysBootWithCustomIpxe == (if spec.alwaysBootWithCustomIpxe then Some(true) else None)
    ensures |req.interfaces| == 1 + |spec.additionalSubnets| && req.interfaces[0] == Interface(spec.subnetId, false)
    ensures forall i :: 0 <= i < |spec.additionalSubnets| ==>
              req.interfaces[i + 1]
              == Interface(spec.additionalSubnets[i].subnetId, spec.additionalSubnets[i].isPhysical)
    ensures |req.infiniBands| == |spec.infiniBands| && |req.nvLinks| == |spec.nvLinks|
    ensures forall i :: 0 <= i < |spec.infiniBands| ==>
              var ib := spec.infiniBands[i];
              req.infiniBands[i] == InfiniBandRequest(if ib.partitionId == "" then None else Some(ib.partitionId),
                                                      if ib.device == "" then None else Some(ib.device),
                                                      if ib.isPhysical then Some(true) else None, ib.deviceInstance)
    ensures forall i :: 0 <= i < |spec.nvLinks| ==>
              var link := spec.nvLinks[i];
              req.nvLinks[i] == NvLinkRequest(if link.partitionId == "" then None else Some(link.partitionId),
                                              link.deviceInstance)
  {
  }

  /** The specs that pass: exactly one target, the four other IDs given, and at
      most ten additional subnets. */
  lemma ValidIff(spec: Spec)
    ensures Validate(spec) == None <==>
            && (spec.instanceTypeId == "" <==> spec.machineId != "")
            && spec.siteId != "" && spec.tenantId != "" && spec.vpcId != "" && spec.subnetId != ""
            && |spec.additionalSubnets| <= 10
  {
  }

  /** A valid spec requests 1 to 11 interfaces and exactly one target. */
  lemma ValidSpecRequest(name: string, spec: Spec, req: Request)
    requires Validate(spec) == None && Requests(name, spec, req)
    ensures 1 <= |req.interfaces| <= 11
    ensures req.header.instanceTypeId.Some? <==> req.header.machineId.None?
    ensures req.interfaces[0].subnetId != "" && req.header.tenantId != "" && req.header.vpcId != ""
  {
  }
}
