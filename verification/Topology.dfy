/** Topology labels copied from an instance to its Machine. */
module Topology {
  import opened Options
  import opened Provider

  datatype LabelKey =
    | Zone
    | InstanceType
    | MachineId
    | NvLinkPartition
    | NvLinkDomain
    | InfiniBandPartition
    | UserLabel(name: string)

  type Labels = map<LabelKey, string>

  /** The labels an instance calls for; the empty text stands for an unknown value. */
  function Wanted(inst: Instance, instanceType: string): seq<(LabelKey, string)> {
    var link := if inst.nvLinks == [] then NvLink(None, None) else inst.nvLinks[0];
    var partition := if inst.infiniBands == [] then None else inst.infiniBands[0];
    [(Zone, OrEmpty(inst.siteId)),
     (InstanceType, instanceType),
     (MachineId, OrEmpty(inst.machineId)),
     (NvLinkPartition, OrEmpty(link.partition)),
     (NvLinkDomain, OrEmpty(link.domain)),
     (InfiniBandPartition, OrEmpty(partition))]
  }

  function Put(labels: Labels, entry: (LabelKey, string)): Labels {
    if entry.1 == "" then labels else labels[entry.0 := entry.1]
  }

  function PutAll(labels: Labels, entries: seq<(LabelKey, string)>): Labels {
    if entries == [] then labels else Put(PutAll(labels, entries[..|entries| - 1]), entries[|entries| - 1])
  }

  function WithTopology(labels: Labels, inst: Instance, instanceType: string): Labels {
    PutAll(labels, Wanted(inst, instanceType))
  }

  ghost predicate DistinctKeys(entries: seq<(LabelKey, string)>) {
    forall i, j :: 0 <= i < j < |entries| ==> entries[i].0 != entries[j].0
  }

  lemma {:induction false} PutAllLeaves(labels: Labels, entries: seq<(LabelKey, string)>, key: LabelKey)
    requires forall e :: e in entries ==> e.0 != key
    ensures key in PutAll(labels, entries) <==> key in labels
    ensures key in labels ==> PutAll(labels, entries)[key] == labels[key]
  {
    if entries != [] {
      PutAllLeaves(labels, entries[..|entries| - 1], key);
    }
  }

  lemma {:induction false} PutAllSets(labels: Labels, entries: seq<(LabelKey, string)>, k: nat)
    requires DistinctKeys(entries) && k < |entries| && entries[k].1 != ""
    ensures entries[k].0 in PutAll(labels, entries) && PutAll(labels, entries)[entries[k].0] == entries[k].1
  {
    var n := |entries| - 1;
    if k < n {
      PutAllSets(labels, entries[..n], k);
    }
  }

  /** Which value of the instance goes into which label, and which labels stay. */
  lemma WantedByKey(before: Labels, inst: Instance, instanceType: string)
    ensures var after := WithTopology(before, inst, instanceType);
            && LabelIs(before, after, Zone, OrEmpty(inst.siteId))
            && LabelIs(before, after, InstanceType, instanceType)
            && LabelIs(before, after, MachineId, OrEmpty(inst.machineId))
            && LabelIs(before, after, NvLinkPartition,
                       if inst.nvLinks == [] then "" else OrEmpty(inst.nvLinks[0].partition))
            && LabelIs(before, after, NvLinkDomain, if inst.nvLinks == [] then "" else OrEmpty(inst.nvLinks[0].domain))
            && LabelIs(before, after, InfiniBandPartition,
                       if inst.infiniBands == [] then "" else OrEmpty(inst.infiniBands[0]))
            && forall name :: LabelIs(before, after, UserLabel(name), "")
  {
    var entries := Wanted(inst, instanceType);
    LabelFrom(before, entries, 0);
    LabelFrom(before, entries, 1);
    LabelFrom(before, entries, 2);
    LabelFrom(before, entries, 3);
    LabelFrom(before, entries, 4);
    LabelFrom(before, entries, 5);
    forall name | true ensures LabelIs(before, PutAll(before, entries), UserLabel(name), "") {
      PutAllLeaves(before, entries, UserLabel(name));
    }
  }

  /** A label has this value, or its old one where the value is empty. */
  predicate LabelIs(before: Labels, after: Labels, key: LabelKey, value: string) {
    if value != "" then key in after && after[key] == value
    else (key in after <==> key in before) && (key in before ==> after[key] == before[key])
  }

  lemma LabelFrom(before: Labels, entries: seq<(LabelKey, string)>, k: nat)
    requires DistinctKeys(entries) && k < |entries|
    ensures LabelIs(before, PutAll(before, entries), entries[k].0, entries[k].1)
  {
    if entries[k].1 != "" {
      PutAllSets(before, entries, k);
    } else {
      EmptyPutsNothing(before, entries, k);
    }
  }

  lemma {:induction false} EmptyPutsNothing(before: Labels, entries: seq<(LabelKey, string)>, k: nat)
    requires DistinctKeys(entries) && k < |entries| && entries[k].1 == ""
    ensures LabelIs(before, PutAll(before, entries), entries[k].0, "")
  {
    var n := |entries| - 1;
    if k == n {
      PutAllLeaves(before, entries[..n], entries[k].0);
    } else {
      EmptyPutsNothing(before, entries[..n], k);
    }
  }

  /** The labels written out: each known, non-empty value of the instance under
      its own key, everything else as it was. */
  lemma TopologyByKey(before: Labels, after: Labels, inst: Instance, instanceType: string)
    requires after == WithTopology(before, inst, instanceType)
    ensures inst.siteId.Some? && inst.siteId.value != "" ==>
              Zone in after && after[Zone] == inst.siteId.value
    ensures instanceType != "" ==> InstanceType in after && after[InstanceType] == instanceType
    ensures inst.machineId.Some? && inst.machineId.value != "" ==>
              MachineId in after && after[MachineId] == inst.machineId.value
    ensures inst.nvLinks != [] && inst.nvLinks[0].partition.Some? && inst.nvLinks[0].partition.value != "" ==>
              NvLinkPartition in after && after[NvLinkPartition] == inst.nvLinks[0].partition.value
    ensures inst.nvLinks != [] && inst.nvLinks[0].domain.Some? && inst.nvLinks[0].domain.value != "" ==>
              NvLinkDomain in after && after[NvLinkDomain] == inst.nvLinks[0].domain.value
    ensures inst.infiniBands != [] && inst.infiniBands[0].Some? && inst.infiniBands[0].value != "" ==>
              InfiniBandPartition in after && after[InfiniBandPartition] == inst.infiniBands[0].value
    ensures forall key: LabelKey ::
              (|| key.UserLabel?
               || (key.Zone? && (inst.siteId == None || inst.siteId == Some("")))
               || (key.MachineId? && (inst.machineId == None || inst.machineId == Some("")))
               || (key.InstanceType? && instanceType == "")
               || ((key.NvLinkPartition? || key.NvLinkDomain?) && inst.nvLinks == [])
               || (key.InfiniBandPartition? && inst.infiniBands == []))
              ==> (key in after <==> key in before) && (key in before ==> after[key] == before[key])
  {
    WantedByKey(before, inst, instanceType);
  }

  /** setTopologyLabels: every known, non-empty value ends up in its label, and
      a change is reported exactly when some label changed. */
  method SetTopologyLabels(before: Labels, inst: Instance, instanceType: string) returns (after: Labels, changed: bool)
    ensures after == WithTopology(before, inst, instanceType)
    ensures changed <==> after != before
  {
    ghost var entries := Wanted(inst, instanceType);
    after, changed := before, false;
    after, changed := Set(before, entries, 0, after, changed, Zone, inst.siteId);
    after, changed := Set(before, entries, 1, after, changed, InstanceType, Some(instanceType));
    after, changed := Set(before, entries, 2, after, changed, MachineId, inst.machineId);
    var link := if inst.nvLinks == [] then NvLink(None, None) else inst.nvLinks[0];
    after, changed := Set(before, entries, 3, after, changed, NvLinkPartition, link.partition);
    after, changed := Set(before, entries, 4, after, changed, NvLinkDomain, link.domain);
    var partition := if inst.infiniBands == [] then None else inst.infiniBands[0];
    after, changed := Set(before, entries, 5, after, changed, InfiniBandPartition, partition);
    assert entries[..6] == entries;
  }

  /** One use of the `set` closure, for entry k of the wanted labels; an
      unknown or empty value sets nothing. */
  method Set(ghost before: Labels, ghost entries: seq<(LabelKey, string)>, ghost k: nat,
             labels: Labels, changed: bool, key: LabelKey, value: Option<string>)
    returns (labels': Labels, changed': bool)
    requires DistinctKeys(entries) && k < |entries| && entries[k] == (key, OrEmpty(value))
    requires labels == PutAll(before, entries[..k]) && (changed <==> labels != before)
    ensures labels' == PutAll(before, entries[..k + 1]) && (changed' <==> labels' != before)
  {
    assert entries[..k + 1][..k] == entries[..k];
    PutAllLeaves(before, entries[..k], key);
    labels', changed' := labels, changed;
    if value.Some? {
      if value.value != "" && (key !in labels || labels[key] != value.value) {
        labels', changed' := labels[key := value.value], true;
      }
    }
  }

  /** Labels already in place call for no further write. */
  lemma LabelsSettle(labels: Labels, inst: Instance, instanceType: string)
    ensures var once := WithTopology(labels, inst, instanceType);
            WithTopology(once, inst, instanceType) == once
  {
    var entries := Wanted(inst, instanceType);
    PutAllSettles(labels, entries, |entries|);
    assert entries[..|entries|] == entries;
  }

  lemma {:induction false} PutAllSettles(labels: Labels, entries: seq<(LabelKey, string)>, n: nat)
    requires DistinctKeys(entries) && n <= |entries|
    ensures PutAll(PutAll(labels, entries), entries[..n]) == PutAll(labels, entries)
  {
    if n > 0 {
      PutAllSettles(labels, entries, n - 1);
      assert entries[..n][..n - 1] == entries[..n - 1];
      if entries[n - 1].1 != "" {
        PutAllSets(labels, entries, n - 1);
      }
    }
  }
}
