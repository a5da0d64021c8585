/** The periodic sync of NICo machines to BareMetalHosts. */
module HostSync {
  import opened Options
  import opened SkuCache
  import opened HostMapper

  const MACHINE_ID_LABEL := "infra.nvidia.com/machine-id"
  const SITE_ID_LABEL := "infra.nvidia.com/site-id"

  datatype HostSpec = HostSpec(online: bool, externallyProvisioned: bool, bmcAddress: string, bootMac: string)

  /** What the sync writes; the hardware annotation is kept as the value it encodes. */
  datatype Content = Content(spec: HostSpec, labels: map<string, string>, hardware: HardwareDetails)

  /** A stored BareMetalHost: the content, and everything else about it. */
  datatype StoredHost = StoredHost(content: Content, rest: string)

  type Hosts = map<string, StoredHost>

  function HostName(id: string): string {
    "nico-" + id
  }

  lemma HostNameInjective(a: string, b: string)
    ensures HostName(a) == HostName(b) <==> a == b
  {
    assert HostName(a)[5..] == a && HostName(b)[5..] == b;
  }

  predicate IsOnline(status: MachineState) {
    status.Ready? || status.InUse?
  }

  /** MachineToBaremetalHost, without the name. */
  function ContentOf(m: NicoMachine, sku: Option<Sku>): Content {
    var meta := MetadataOf(m);
    Content(
      HostSpec(m.status.Some? ==> IsOnline(m.status.value), true,
               if meta.bmcIp.Some? then "redfish+https://" + meta.bmcIp.value + "/redfish/v1/Systems/1" else "",
               if meta.nics != [] && meta.nics[0].mac.Some? then meta.nics[0].mac.value else ""),
      if m.siteId.Some? then map[MACHINE_ID_LABEL := OrEmpty(m.id), SITE_ID_LABEL := m.siteId.value]
      else map[MACHINE_ID_LABEL := OrEmpty(m.id)],
      Details(m, sku))
  }

  method MachineToBaremetalHost(m: NicoMachine, sku: Option<Sku>) returns (name: string, content: Content)
    ensures name == HostName(OrEmpty(m.id)) && content == ContentOf(m, sku)
    ensures m.id.Some? ==> name == "nico-" + m.id.value
    ensures content.spec.online <==> m.status == None || m.status == Some(Ready) || m.status == Some(InUse)
    ensures content.spec.externallyProvisioned
    ensures content.spec.bmcAddress
            == if m.metadata.Some? && m.metadata.value.bmcIp.Some?
               then "redfish+https://" + m.metadata.value.bmcIp.value + "/redfish/v1/Systems/1" else ""
    ensures content.spec.bootMac
            == if m.metadata.Some? && m.metadata.value.nics != [] && m.metadata.value.nics[0].mac.Some?
               then m.metadata.value.nics[0].mac.value else ""
    ensures m.id.Some? && m.siteId.None? ==> content.labels == map["infra.nvidia.com/machine-id" := m.id.value]
    ensures m.id.Some? && m.siteId.Some? ==>
              content.labels == map["infra.nvidia.com/machine-id" := m.id.value,
                                  "infra.nvidia.com/site-id" := m.siteId.value]
  {
    name := HostName(OrEmpty(m.id));
    var labels := map[MACHINE_ID_LABEL := OrEmpty(m.id)];
    var spec := HostSpec(true, true, "", "");
    if m.siteId.Some? {
      labels := labels[SITE_ID_LABEL := m.siteId.value];
    }
    if m.status.Some? {
      spec := spec.(online := IsOnline(m.status.value));
    }
    if m.metadata.Some? {
      var meta := m.metadata.value;
      if meta.bmcIp.Some? {
        spec := spec.(bmcAddress := "redfish+https://" + meta.bmcIp.value + "/redfish/v1/Systems/1");
      }
      if meta.nics != [] {
        if meta.nics[0].mac.Some? {
          spec := spec.(bootMac := meta.nics[0].mac.value);
        }
      }
    }
    var hardware := BuildHardwareDetails(m, sku);
    content := Content(spec, labels, hardware);
  }

  // ---------- one sync ----------

  datatype Write = Applied | Failed | AppliedButFailed

  /** How the calls for one listed machine go; `rest` is what the server adds to a new object. */
  datatype Fate = Fate(readable: bool, write: Write, rest: string)

  predicate TakesEffect(fate: Fate) {
    fate.readable && !fate.write.Failed?
  }

  function SkuFor(skus: Option<SkuMap>, id: string): Option<Sku> {
    if skus.Some? then Lookup(skus.value, id) else None
  }

  function Desired(m: NicoMachine, skus: Option<SkuMap>): Content {
    ContentOf(m, SkuFor(skus, OrEmpty(m.id)))
  }

  function SyncOne(hosts: Hosts, m: NicoMachine, skus: Option<SkuMap>, fate: Fate): Hosts {
    if m.id.None? || !TakesEffect(fate) then hosts
    else
      var name := HostName(m.id.value);
      hosts[name := StoredHost(Desired(m, skus), if name in hosts then hosts[name].rest else fate.rest)]
  }

  function SyncAll(hosts: Hosts, machines: seq<NicoMachine>, skus: Option<SkuMap>, fates: seq<Fate>): Hosts
    requires |fates| == |machines|
  {
    if machines == [] then hosts
    else
      var n := |machines| - 1;
      SyncOne(SyncAll(hosts, machines[..n], skus, fates[..n]), machines[n], skus, fates[n])
  }

  class HostReconciler {
    const cache: Cache
    var hosts: Hosts

    constructor (cache: Cache, hosts: Hosts)
      ensures this.cache == cache && this.hosts == hosts
    {
      this.cache, this.hosts := cache, hosts;
    }

    /** syncMachine, up to the BareMetalHost write; false on error. */
    method SyncMachine(m: NicoMachine, skus: Option<SkuMap>, fate: Fate) returns (ok: bool)
      requires m.id.Some?
      modifies this`hosts
      ensures hosts == SyncOne(old(hosts), m, skus, fate)
      ensures ok <==> fate.readable && fate.write.Applied?
    {
      var name, content := MachineToBaremetalHost(m, SkuFor(skus, OrEmpty(m.id)));
      if !fate.readable {
        return false;
      }
      if name !in hosts {
        if !fate.write.Failed? {
          hosts := hosts[name := StoredHost(content, fate.rest)];
        }
      } else {
        var existing := hosts[name].(content := content);
        if !fate.write.Failed? {
          hosts := hosts[name := existing];
        }
      }
      return fate.write.Applied?;
    }

    /** sync; `None` stands for an unavailable machine list. */
    method Sync(listing: Option<seq<NicoMachine>>, call: Call, fates: seq<Fate>) returns (skus: Option<SkuMap>)
      requires listing.Some? ==> |fates| == |listing.value|
      modifies this`hosts, cache
      ensures listing.None? ==> hosts == old(hosts) && cache.cache == old(cache.cache)
      ensures listing.Some? ==>
                && CallOk(call, old(cache.cache), old(cache.expiry), cache.cache, cache.expiry, skus)
                && hosts == SyncAll(old(hosts), listing.value, skus, fates)
    {
      if listing.None? {
        return None;
      }
      skus := cache.GetSkuMap(call);
      SyncMachines(listing.value, skus, fates);
    }

    /** The loop of sync over the listed machines; one that fails does not stop it. */
    method SyncMachines(machines: seq<NicoMachine>, skus: Option<SkuMap>, fates: seq<Fate>)
      requires |fates| == |machines|
      modifies this`hosts
      ensures hosts == SyncAll(old(hosts), machines, skus, fates)
    {
      for i := 0 to |machines|
        invariant hosts == SyncAll(old(hosts), machines[..i], skus, fates[..i])
      {
        assert machines[..i + 1][..i] == machines[..i] && fates[..i + 1][..i] == fates[..i];
        if machines[i].id.Some? {
          var _ := SyncMachine(machines[i], skus, fates[i]);
        }
      }
      assert machines[..|machines|] == machines && fates[..|machines|] == fates;
    }
  }

  // ---------- convergence ----------

  /** The last listed entry of a machine whose write took effect. */
  function LastEffective(machines: seq<NicoMachine>, fates: seq<Fate>, id: string): (r: Option<nat>)
    requires |fates| == |machines|
    ensures r.Some? ==> r.value < |machines| && machines[r.value].id == Some(id) && TakesEffect(fates[r.value])
    ensures forall i :: 0 <= i < |machines| && machines[i].id == Some(id) && TakesEffect(fates[i])
              ==> r.Some? && i <= r.value
  {
    if machines == [] then None
    else
      var n := |machines| - 1;
      if machines[n].id == Some(id) && TakesEffect(fates[n]) then Some(n)
      else LastEffective(machines[..n], fates[..n], id)
  }

  /** The same for one listed machine. */
  lemma SyncOneResult(hosts: Hosts, m: NicoMachine, skus: Option<SkuMap>, fate: Fate, id: string)
    ensures var name, hosts' := HostName(id), SyncOne(hosts, m, skus, fate);
            if m.id == Some(id) && TakesEffect(fate) then
              && name in hosts' && hosts'[name].content == Desired(m, skus)
              && (name in hosts ==> hosts'[name].rest == hosts[name].rest)
            else
              && (name in hosts' <==> name in hosts) && (name in hosts ==> hosts'[name] == hosts[name])
  {
    if m.id.Some? {
      HostNameInjective(m.id.value, id);
    }
  }

  /** What a sync leaves under a name: the content of the last effective entry
      of that machine, or the old host untouched. The rest of an existing host is kept. */
  lemma {:induction false} SyncResult(hosts: Hosts, machines: seq<NicoMachine>, skus: Option<SkuMap>,
                                     fates: seq<Fate>, id: string)
    requires |fates| == |machines|
    ensures var last, hosts' := LastEffective(machines, fates, id), SyncAll(hosts, machines, skus, fates);
            && (last.Some? ==>
                  && HostName(id) in hosts'
                  && hosts'[HostName(id)].content == Desired(machines[last.value], skus)
                  && (HostName(id) in hosts ==> hosts'[HostName(id)].rest == hosts[HostName(id)].rest))
            && (last.None? ==>
                  && (HostName(id) in hosts' <==> HostName(id) in hosts)
                  && (HostName(id) in hosts ==> hosts'[HostName(id)] == hosts[HostName(id)]))
  {
    if machines != [] {
      var n := |machines| - 1;
      SyncResult(hosts, machines[..n], skus, fates[..n], id);
      SyncOneResult(SyncAll(hosts, machines[..n], skus, fates[..n]), machines[n], skus, fates[n], id);
    }
  }

  /** Names that belong to no listed machine are untouched. */
  lemma {:induction false} UnlistedUntouched(hosts: Hosts, machines: seq<NicoMachine>, skus: Option<SkuMap>,
                                           fates: seq<Fate>, name: string)
    requires |fates| == |machines|
    requires forall m :: m in machines && m.id.Some? ==> HostName(m.id.value) != name
    ensures var hosts' := SyncAll(hosts, machines, skus, fates);
            && (name in hosts' <==> name in hosts)
            && (name in hosts ==> hosts'[name] == hosts[name])
  {
    if machines != [] {
      var n := |machines| - 1;
      UnlistedUntouched(hosts, machines[..n], skus, fates[..n], name);
      assert machines[n] in machines;
    }
  }

  /** After a sync in which the writes of a listed machine succeeded, its host
      has exactly the content made from its last listed entry. */
  lemma Convergence(hosts: Hosts, machines: seq<NicoMachine>, skus: Option<SkuMap>, fates: seq<Fate>, j: nat)
    requires |fates| == |machines| && j < |machines| && machines[j].id.Some?
    requires fates[j].readable && !fates[j].write.Failed?
    requires forall i :: j < i < |machines| ==> machines[i].id != machines[j].id
    ensures var id := machines[j].id.value;
            var hosts' := SyncAll(hosts, machines, skus, fates);
            && "nico-" + id in hosts'
            && hosts'["nico-" + id].content
               == ContentOf(machines[j], if skus.Some? && id in skus.value then Some(skus.value[id]) else None)
  {
    var id := machines[j].id.value;
    DesiredContent(machines[j], skus, id);
    LastIs(machines, fates, j);
    SyncLeaves(hosts, machines, skus, fates, id, HostName(id), j, Desired(machines[j], skus));
  }

  lemma {:induction false} LastIs(machines: seq<NicoMachine>, fates: seq<Fate>, j: nat)
    requires |fates| == |machines| && j < |machines| && machines[j].id.Some? && TakesEffect(fates[j])
    requires forall i :: j < i < |machines| ==> machines[i].id != machines[j].id
    ensures LastEffective(machines, fates, machines[j].id.value) == Some(j)
  {
  }

  lemma SyncLeaves(hosts: Hosts, machines: seq<NicoMachine>, skus: Option<SkuMap>, fates: seq<Fate>,
                   id: string, name: string, j: nat, content: Content)
    requires |fates| == |machines| && j < |machines| && LastEffective(machines, fates, id) == Some(j)
    requires name == HostName(id) && content == Desired(machines[j], skus)
    ensures var hosts' := SyncAll(hosts, machines, skus, fates); name in hosts' && hosts'[name].content == content
  {
    SyncResult(hosts, machines, skus, fates, id);
  }

  lemma DesiredContent(m: NicoMachine, skus: Option<SkuMap>, id: string)
    requires m.id == Some(id)
    ensures HostName(id) == "nico-" + id
    ensures Desired(m, skus) == ContentOf(m, if skus.Some? && id in skus.value then Some(skus.value[id]) else None)
  {
  }

  /** How the calls for other machines go does not change a machine's host. */
  lemma Isolation(hosts: Hosts, machines: seq<NicoMachine>, skus: Option<SkuMap>,
                  fates: seq<Fate>, fates': seq<Fate>, id: string)
    requires |fates| == |fates'| == |machines|
    requires forall i :: 0 <= i < |machines| && machines[i].id == Some(id) ==> fates[i] == fates'[i]
    ensures var a, b := SyncAll(hosts, machines, skus, fates), SyncAll(hosts, machines, skus, fates');
            && (HostName(id) in a <==> HostName(id) in b)
            && (HostName(id) in a ==> a[HostName(id)] == b[HostName(id)])
    decreases |machines|
  {
    if machines != [] {
      var n := |machines| - 1;
      Isolation(hosts, machines[..n], skus, fates[..n], fates'[..n], id);
      if machines[n].id.Some? {
        HostNameInjective(machines[n].id.value, id);
      }
    }
  }

  /** Repeating a sync with the same inputs changes nothing, whichever writes failed. */
  lemma SyncSettles(hosts: Hosts, machines: seq<NicoMachine>, skus: Option<SkuMap>, fates: seq<Fate>)
    requires |fates| == |machines|
    ensures var once := SyncAll(hosts, machines, skus, fates);
            SyncAll(once, machines, skus, fates) == once
  {
    var once := SyncAll(hosts, machines, skus, fates);
    var twice := SyncAll(once, machines, skus, fates);
    forall name | name in once || name in twice
      ensures name in once && name in twice && once[name] == twice[name]
    {
      if m :| m in machines && m.id.Some? && HostName(m.id.value) == name {
        SyncResult(hosts, machines, skus, fates, m.id.value);
        SyncResult(once, machines, skus, fates, m.id.value);
      } else {
        UnlistedUntouched(once, machines, skus, fates, name);
      }
    }
  }
}
