/** The admission webhook of Machines, and what it guarantees along a chain of
    admitted versions. */
module Webhook {
  import opened Options
  import opened ProviderSpec

  /** providerSpec.value of a Machine: missing, not decodable as a spec, or a spec. */
  datatype Value = Absent | Malformed | Given(spec: Spec)

  /** The old object of an update request. */
  datatype OldObject = NoOld | Undecodable | Old(value: Value)

  datatype Response = Allowed | Denied | Errored

  /** All six identifying fields empty: not a NICo spec. */
  predicate Blank(spec: Spec) {
    spec.siteId == "" && spec.tenantId == "" && spec.vpcId == ""
    && spec.subnetId == "" && spec.instanceTypeId == "" && spec.machineId == ""
  }

  /** The webhook's own copy of validateProviderSpec. */
  function ValidateForAdmission(spec: Spec): Option<SpecError> {
    if spec.instanceTypeId != "" && spec.machineId != "" then Some(BothTargets)
    else if spec.instanceTypeId == "" && spec.machineId == "" then Some(NoTarget)
    else if spec.siteId == "" then Some(NoSite)
    else if spec.tenantId == "" then Some(NoTenant)
    else if spec.vpcId == "" then Some(NoVpc)
    else if spec.subnetId == "" then Some(NoSubnet)
    else if |spec.additionalSubnets| > 10 then Some(TooManySubnets)
    else None
  }

  predicate OptionalUuid(text: string, isUuid: string -> bool) {
    text == "" || isUuid(text)
  }

  predicate ValidUuids(spec: Spec, isUuid: string -> bool) {
    && isUuid(spec.siteId) && isUuid(spec.tenantId) && isUuid(spec.vpcId) && isUuid(spec.subnetId)
    && OptionalUuid(spec.instanceTypeId, isUuid)
    && OptionalUuid(spec.machineId, isUuid)
    && OptionalUuid(spec.operatingSystemId, isUuid)
    && OptionalUuid(spec.networkSecurityGroupId, isUuid)
    && (forall subnet :: subnet in spec.additionalSubnets ==> isUuid(subnet.subnetId))
    && (forall service :: service in spec.dpuServices ==> service.serviceId != "" && isUuid(service.serviceId))
  }

  predicate SameIdentity(a: Spec, b: Spec) {
    a.siteId == b.siteId && a.tenantId == b.tenantId
  }

  /** Handle, for a request whose new object decodes (`None`: it does not). */
  function Handle(decoded: Option<Value>, old_: OldObject, isUuid: string -> bool): Response {
    match decoded
    case None => Errored
    case Some(Absent) => Allowed
    case Some(Malformed) => Denied
    case Some(Given(spec)) =>
      if Blank(spec) then Allowed
      else if ValidateForAdmission(spec).Some? then Denied
      else if !ValidUuids(spec, isUuid) then Denied
      else
        match old_
        case NoOld => Allowed
        case Undecodable => Errored
        case Old(value) => if value.Given? && !SameIdentity(value.spec, spec) then Denied else Allowed
  }

  /** Each version after the first was admitted as an update of the one before it. */
  ghost predicate AdmittedChain(versions: seq<Value>, isUuid: string -> bool) {
    forall i :: 0 < i < |versions| ==> Handle(Some(versions[i]), Old(versions[i - 1]), isUuid) == Allowed
  }

  ghost predicate NeverRemoved(versions: seq<Value>, i: nat, j: nat)
    requires j < |versions|
  {
    forall k :: i <= k <= j ==> versions[k] != Absent
  }

  /** As long as providerSpec.value is not removed, a later version has the same
      site and tenant or is blank, and a blank spec stays blank. */
  lemma {:induction false} ChainKeepsIdentity(versions: seq<Value>, i: nat, j: nat, isUuid: string -> bool)
    requires AdmittedChain(versions, isUuid) && i <= j < |versions|
    requires versions[i].Given? && NeverRemoved(versions, i, j)
    ensures versions[j].Given?
    ensures SameIdentity(versions[i].spec, versions[j].spec) || Blank(versions[j].spec)
    ensures Blank(versions[i].spec) ==> Blank(versions[j].spec)
    decreases j
  {
    if i < j {
      ChainKeepsIdentity(versions, i, j - 1, isUuid);
      assert Handle(Some(versions[j]), Old(versions[j - 1]), isUuid) == Allowed;
    }
  }

  /** Identity changes exactly through a removal: two admitted versions with
      different non-empty sites or tenants have a version without a value between them. */
  lemma IdentityChangesOnlyByRemoval(versions: seq<Value>, i: nat, j: nat, isUuid: string -> bool)
    requires AdmittedChain(versions, isUuid) && i <= j < |versions|
    requires versions[i].Given? && versions[j].Given? && !Blank(versions[j].spec)
    requires !SameIdentity(versions[i].spec, versions[j].spec)
    ensures exists k :: i < k < j && versions[k] == Absent
  {
    if NeverRemoved(versions, i, j) {
      ChainKeepsIdentity(versions, i, j, isUuid);
    }
  }

  /** Any two valid specs are joined by such a chain. */
  lemma RemovalUnlocksIdentity(a: Spec, b: Spec, isUuid: string -> bool)
    requires ValidateForAdmission(b) == None && ValidUuids(b, isUuid)
    ensures AdmittedChain([Given(a), Absent, Given(b)], isUuid)
  {
  }

  /** Every admitted non-blank spec passes the actuator's own validation, so the
      request built from it has 1 to 11 interfaces and exactly one target. */
  lemma AdmittedSpecIsServed(spec: Spec, old_: OldObject, isUuid: string -> bool, name: string, req: Request)
    requires Handle(Some(Given(spec)), old_, isUuid) == Allowed && !Blank(spec)
    requires Requests(name, spec, req)
    ensures Validate(spec) == None
    ensures 1 <= |req.interfaces| <= 11
    ensures req.header.instanceTypeId.Some? <==> req.header.machineId.None?
    ensures req.interfaces[0] == Interface(spec.subnetId, false)
    ensures forall i :: 0 <= i < |req.interfaces| ==> isUuid(req.interfaces[i].subnetId)
  {
    ValidSpecRequest(name, spec, req);
    forall i | 0 < i < |req.interfaces| ensures isUuid(req.interfaces[i].subnetId) {
      assert spec.additionalSubnets[i - 1] in spec.additionalSubnets;
    }
  }

  /** The requests that are admitted, field by field. */
  lemma AdmittedIff(decoded: Option<Value>, old_: OldObject, isUuid: string -> bool)
    ensures Handle(decoded, old_, isUuid) == Allowed <==>
            && decoded.Some?
            && (|| decoded.value.Absent?
                || (decoded.value.Given?
                    && var s := decoded.value.spec;
                       || (s.siteId == "" && s.tenantId == "" && s.vpcId == "" && s.subnetId == ""
                           && s.instanceTypeId == "" && s.machineId == "")
                       || (&& (s.instanceTypeId == "" <==> s.machineId != "")
                           && s.siteId != "" && s.tenantId != "" && s.vpcId != "" && s.subnetId != ""
                           && |s.additionalSubnets| <= 10
                           && isUuid(s.siteId) && isUuid(s.tenantId) && isUuid(s.vpcId) && isUuid(s.subnetId)
                           && (s.instanceTypeId != "" ==> isUuid(s.instanceTypeId))
                           && (s.machineId != "" ==> isUuid(s.machineId))
                           && (s.operatingSystemId != "" ==> isUuid(s.operatingSystemId))
                           && (s.networkSecurityGroupId != "" ==> isUuid(s.networkSecurityGroupId))
                           && (forall i :: 0 <= i < |s.additionalSubnets| ==> isUuid(s.additionalSubnets[i].subnetId))
                           && (forall i :: 0 <= i < |s.dpuServices| ==>
                                 s.dpuServices[i].serviceId != "" && isUuid(s.dpuServices[i].serviceId))
                           && !old_.Undecodable?
                           && (old_.Old? && old_.value.Given? ==>
                                 old_.value.spec.siteId == s.siteId && old_.value.spec.tenantId == s.tenantId))))
  {
    if decoded.Some? && decoded.value.Given? {
      UuidsByPosition(decoded.value.spec, isUuid);
    }
  }

  lemma UuidsByPosition(s: Spec, isUuid: string -> bool)
    ensures (forall subnet :: subnet in s.additionalSubnets ==> isUuid(subnet.subnetId))
            <==> forall i :: 0 <= i < |s.additionalSubnets| ==> isUuid(s.additionalSubnets[i].subnetId)
    ensures (forall service :: service in s.dpuServices ==> service.serviceId != "" && isUuid(service.serviceId))
            <==> forall i :: 0 <= i < |s.dpuServices| ==>
                 s.dpuServices[i].serviceId != "" && isUuid(s.dpuServices[i].serviceId)
  {
  }

  /** What is not admitted is denied, except for objects that cannot be decoded:
      those are errors. */
  lemma ErroredIff(decoded: Option<Value>, old_: OldObject, isUuid: string -> bool)
    ensures Handle(decoded, old_, isUuid) == Errored <==>
            || decoded.None?
            || (old_.Undecodable? && decoded.value.Given?
                && Handle(decoded, NoOld, isUuid) == Allowed && Handle(decoded, Undecodable, isUuid) != Allowed)
  {
  }
}
