/** The SKU index of the BareMetalHost sync and its time-limited cache. */
module SkuCache {
  import opened Options

  /** skuCacheTTL in seconds. */
  const TTL := 300

  datatype Cpu = Cpu(model: Option<string>, count: Option<int>)

  datatype Memory = Memory(capacityMb: Option<int>, count: Option<int>)

  datatype Storage = Storage(vendor: Option<string>, model: Option<string>, capacityMb: Option<int>)

  datatype Components = Components(cpus: seq<Cpu>, memory: seq<Memory>, storage: seq<Storage>)

  datatype Sku = Sku(id: string, machineIds: seq<string>, components: Option<Components>)

  type SkuMap = map<string, Sku>

  /** The last SKU that lists a machine. */
  function Scan(skus: seq<Sku>, machineId: string): Option<Sku> {
    if skus == [] then None
    else if machineId in skus[|skus| - 1].machineIds then Some(skus[|skus| - 1])
    else Scan(skus[..|skus| - 1], machineId)
  }

  function Lookup(index: SkuMap, machineId: string): Option<Sku> {
    if machineId in index then Some(index[machineId]) else None
  }

  /** A map that answers every machine as the scan does. */
  ghost predicate Indexes(index: SkuMap, skus: seq<Sku>) {
    forall machineId :: Lookup(index, machineId) == Scan(skus, machineId)
  }

  /** The scan by position: nothing is found iff no SKU lists the machine. */
  lemma {:induction false} ScanNothing(skus: seq<Sku>, machineId: string)
    ensures Scan(skus, machineId) == None <==> forall k :: 0 <= k < |skus| ==> machineId !in skus[k].machineIds
  {
    if skus != [] {
      var n := |skus| - 1;
      ScanNothing(skus[..n], machineId);
      assert forall k :: 0 <= k < n ==> skus[..n][k] == skus[k];
    }
  }

  /** The SKU found lists the machine, and no later one does. */
  lemma {:induction false} ScanByPosition(skus: seq<Sku>, machineId: string) returns (k: nat)
    requires Scan(skus, machineId).Some?
    ensures k < |skus| && Scan(skus, machineId) == Some(skus[k]) && machineId in skus[k].machineIds
    ensures forall j :: k < j < |skus| ==> machineId !in skus[j].machineIds
  {
    var n := |skus| - 1;
    if machineId in skus[n].machineIds {
      k := n;
    } else {
      k := ScanByPosition(skus[..n], machineId);
      assert forall j :: k < j < n ==> skus[..n][j] == skus[j];
    }
  }

  /** A map that answers as the scan does, by position: it knows exactly the
      machines that some SKU lists, each with the last SKU listing it. */
  lemma IndexByPosition(index: SkuMap, skus: seq<Sku>)
    requires Indexes(index, skus)
    ensures forall id :: id in index <==> exists k :: 0 <= k < |skus| && id in skus[k].machineIds
    ensures forall id :: id in index ==>
              exists k :: 0 <= k < |skus| && index[id] == skus[k] && id in skus[k].machineIds
                          && forall j :: k < j < |skus| ==> id !in skus[j].machineIds
  {
    forall id | true
      ensures id in index <==> exists k :: 0 <= k < |skus| && id in skus[k].machineIds
      ensures id in index ==>
                exists k :: 0 <= k < |skus| && index[id] == skus[k] && id in skus[k].machineIds
                            && forall j :: k < j < |skus| ==> id !in skus[j].machineIds
    {
      assert Lookup(index, id) == Scan(skus, id);
      ScanNothing(skus, id);
      if id in index {
        var k := ScanByPosition(skus, id);
        assert index[id] == skus[k];
      }
    }
  }

  method BuildIndex(skus: seq<Sku>) returns (index: SkuMap)
    ensures Indexes(index, skus)
    ensures forall id :: id in index <==> exists k :: 0 <= k < |skus| && id in skus[k].machineIds
    ensures forall id :: id in index ==>
              exists k :: 0 <= k < |skus| && index[id] == skus[k] && id in skus[k].machineIds
                          && forall j :: k < j < |skus| ==> id !in skus[j].machineIds
  {
    index := map[];
    for i := 0 to |skus|
      invariant Indexes(index, skus[..i])
    {
      ghost var before := index;
      for j := 0 to |skus[i].machineIds|
        invariant forall id :: Lookup(index, id) ==
                    if id in skus[i].machineIds[..j] then Some(skus[i]) else Lookup(before, id)
      {
        assert skus[i].machineIds[..j + 1] == skus[i].machineIds[..j] + [skus[i].machineIds[j]];
        index := index[skus[i].machineIds[j] := skus[i]];
      }
      assert skus[i].machineIds[..|skus[i].machineIds|] == skus[i].machineIds;
      assert skus[..i + 1][..i] == skus[..i];
    }
    assert skus[..|skus|] == skus;
    IndexByPosition(index, skus);
  }

  // ---------- calls and their history ----------

  /** One call of getSkuMap: the clock when it starts, what the fetch would
      answer (`None`: unavailable), and the clock when the expiry is set. */
  datatype Call = Call(now: int, reply: Option<seq<Sku>>, later: int)

  /** What one call promises about the cache before and after it and about its result. */
  ghost predicate CallOk(call: Call, cache: Option<SkuMap>, expiry: int,
                         cache': Option<SkuMap>, expiry': int, result: Option<SkuMap>)
  {
    if cache.Some? && call.now < expiry then
      cache' == cache && expiry' == expiry && result == cache
    else if call.reply.None? then
      cache' == cache && expiry' == expiry && result == None
    else
      result.Some? && Indexes(result.value, call.reply.value) && cache' == result && expiry' == call.later + TTL
  }

  class Cache {
    var cache: Option<SkuMap>
    var expiry: int

    constructor ()
      ensures cache == None
    {
      cache, expiry := None, 0;
    }

    /** getSkuMap. */
    method GetSkuMap(call: Call) returns (result: Option<SkuMap>)
      modifies this
      ensures CallOk(call, old(cache), old(expiry), cache, expiry, result)
      ensures old(cache).Some? && call.now < old(expiry) ==>
                result == old(cache) && cache == old(cache) && expiry == old(expiry)
      ensures !(old(cache).Some? && call.now < old(expiry)) && call.reply.None? ==>
                result == None && cache == old(cache) && expiry == old(expiry)
      ensures !(old(cache).Some? && call.now < old(expiry)) && call.reply.Some? ==>
                result.Some? && cache == result && expiry == call.later + 300
    {
      if cache.Some? && call.now < expiry {
        return cache;
      }
      if call.reply.None? {
        return None;
      }
      var index := BuildIndex(call.reply.value);
      cache, expiry := Some(index), call.later + TTL;
      return Some(index);
    }
  }

  /** A history of calls: cache and expiry before call i are caches[i] and
      expiries[i]; the clock never runs backwards. */
  ghost predicate History(calls: seq<Call>, caches: seq<Option<SkuMap>>, expiries: seq<int>,
                          results: seq<Option<SkuMap>>) {
    && |caches| == |expiries| == |calls| + 1 && |results| == |calls|
    && caches[0] == None
    && (forall i :: 0 <= i < |calls| ==>
          CallOk(calls[i], caches[i], expiries[i], caches[i + 1], expiries[i + 1], results[i]))
    && (forall i :: 0 <= i < |calls| ==> calls[i].now <= calls[i].later)
    && (forall i :: 0 < i < |calls| ==> calls[i - 1].later <= calls[i].now)
  }

  /** Call i fetched, successfully. */
  ghost predicate Fetched(calls: seq<Call>, caches: seq<Option<SkuMap>>, expiries: seq<int>, i: nat)
    requires i < |calls| && |caches| == |expiries| == |calls| + 1
  {
    calls[i].reply.Some? && !(caches[i].Some? && calls[i].now < expiries[i])
  }

  /** The cached map, if any, comes from an earlier successful fetch and expires TTL after it. */
  ghost predicate CameFrom(calls: seq<Call>, caches: seq<Option<SkuMap>>, expiries: seq<int>, i: nat, n: nat)
    requires n <= |calls| && |caches| == |expiries| == |calls| + 1
  {
    i < n && Fetched(calls, caches, expiries, i)
    && caches[n].Some? && Indexes(caches[n].value, calls[i].reply.value) && expiries[n] == calls[i].later + TTL
  }

  lemma {:induction false} CacheHasOrigin(calls: seq<Call>, caches: seq<Option<SkuMap>>, expiries: seq<int>,
                                          results: seq<Option<SkuMap>>, n: nat) returns (i: nat)
    requires History(calls, caches, expiries, results) && n <= |calls| && caches[n].Some?
    ensures CameFrom(calls, caches, expiries, i, n)
  {
    var k := n - 1;
    assert CallOk(calls[k], caches[k], expiries[k], caches[n], expiries[n], results[k]);
    if Fetched(calls, caches, expiries, k) {
      i := k;
    } else {
      i := CacheHasOrigin(calls, caches, expiries, results, k);
    }
  }

  /** Every map handed out answers each machine with the last SKU listing it in
      one successful fetch: that of this very call, or one whose expiry was set
      less than the time limit ago. */
  lemma CacheRefinesScan(calls: seq<Call>, caches: seq<Option<SkuMap>>, expiries: seq<int>,
                         results: seq<Option<SkuMap>>, n: nat) returns (i: nat)
    requires History(calls, caches, expiries, results) && n < |calls| && results[n].Some?
    ensures i <= n && Fetched(calls, caches, expiries, i)
    ensures var index, skus := results[n].value, calls[i].reply.value;
            && (forall id :: id in index <==> exists k :: 0 <= k < |skus| && id in skus[k].machineIds)
            && (forall id :: id in index ==>
                  exists k :: 0 <= k < |skus| && index[id] == skus[k] && id in skus[k].machineIds
                              && forall j :: k < j < |skus| ==> id !in skus[j].machineIds)
    ensures i < n ==> 0 <= calls[n].now - calls[i].later < 300
  {
    assert CallOk(calls[n], caches[n], expiries[n], caches[n + 1], expiries[n + 1], results[n]);
    if Fetched(calls, caches, expiries, n) {
      i := n;
    } else {
      i := CacheHasOrigin(calls, caches, expiries, results, n);
      ClockRuns(calls, caches, expiries, results, i, n);
    }
    IndexByPosition(results[n].value, calls[i].reply.value);
  }

  lemma {:induction false} ClockRuns(calls: seq<Call>, caches: seq<Option<SkuMap>>, expiries: seq<int>,
                                     results: seq<Option<SkuMap>>, i: nat, n: nat)
    requires History(calls, caches, expiries, results) && i < n < |calls|
    ensures calls[i].later <= calls[n].now
    decreases n
  {
    if i < n - 1 {
      ClockRuns(calls, caches, expiries, results, i, n - 1);
    }
  }

  /** No map is handed out exactly when the fetch fails and nothing fresh is
      cached; the cache then stays as it was. */
  lemma NoMapOnlyOnFailedRefresh(calls: seq<Call>, caches: seq<Option<SkuMap>>, expiries: seq<int>,
                                 results: seq<Option<SkuMap>>, n: nat)
    requires History(calls, caches, expiries, results) && n < |calls|
    ensures results[n] == None <==> calls[n].reply == None && (caches[n] == None || expiries[n] <= calls[n].now)
    ensures results[n] == None ==> caches[n + 1] == caches[n] && expiries[n + 1] == expiries[n]
  {
    assert CallOk(calls[n], caches[n], expiries[n], caches[n + 1], expiries[n + 1], results[n]);
  }
}
