/**
 * The WAN circuit metrics report: the monitor-metrics request body, whose
 * filter is filled in one optional dimension at a time, and the list of
 * WAN interface ids gathered from the site-ports output.
 */
module CircuitMetrics {
  import opened Wrappers
  import opened Json
  import Scan
  import Docs
  import SiteBandwidth

  /** A keyword argument that was passed and is not empty. */
  predicate Given(o: Option<string>) {
    o.Some? && o.value != ""
  }

  /** What the optional dimensions alone put under `k` in the filter. */
  function Selected(site: Option<string>, waninterface: Option<string>, path: Option<string>,
                    direction: Option<string>, k: string): Option<Value>
  {
    if k == "site" && Given(site) then Some(List([Str(site.value)]))
    else if k == "waninterface" && Given(waninterface) then Some(List([Str(waninterface.value)]))
    else if k == "path" && Given(path) then Some(List([Str(path.value)]))
    else if k == "direction" && Given(direction) then Some(Str(direction.value))
    else None
  }

  /**
   * The filter `build_metrics_payload` fills in: each given dimension (site,
   * WAN interface and path as one-element lists, direction as it is), then
   * `extra_filter` applied last so that its entries override.
   */
  method FilterOf(site: Option<string>, waninterface: Option<string>, path: Option<string>,
                  direction: Option<string>, extraFilter: seq<Field>)
    returns (filter: seq<Field>)
    requires UniqueKeys(extraFilter)
    ensures UniqueKeys(filter)
    ensures forall k | k in Keys(extraFilter) :: Find(filter, k) == Find(extraFilter, k)
    ensures forall k | k !in Keys(extraFilter) :: Find(filter, k) == Selected(site, waninterface, path, direction, k)
  {
    filter := [];
    if Given(site) {
      filter := Assign(filter, "site", List([Str(site.value)]));
    }
    assert UniqueKeys(filter) && forall k :: Find(filter, k) == Selected(site, None, None, None, k);
    ghost var f1 := filter;
    if Given(waninterface) {
      filter := Assign(filter, "waninterface", List([Str(waninterface.value)]));
    }
    AddedWan(site, waninterface, f1, filter);
    ghost var f2 := filter;
    if Given(path) {
      filter := Assign(filter, "path", List([Str(path.value)]));
    }
    AddedPath(site, waninterface, path, f2, filter);
    ghost var f3 := filter;
    if Given(direction) {
      filter := Assign(filter, "direction", Str(direction.value));
    }
    AddedDirection(site, waninterface, path, direction, f3, filter);
    if extraFilter != [] {
      forall k | k in Keys(extraFilter)
        ensures Find(Docs.Overlay(extraFilter, filter), k) == Find(extraFilter, k)
      {
        Docs.OverlayRightBiased(extraFilter, filter, k);
      }
      filter := Docs.Overlay(extraFilter, filter);
    }
  }

  /** Each optional dimension decides its own key only. */
  lemma SelectedKeys(site: Option<string>, waninterface: Option<string>, path: Option<string>, direction: Option<string>, k: string)
    ensures k != "waninterface" ==> Selected(site, waninterface, None, None, k) == Selected(site, None, None, None, k)
    ensures k != "path" ==> Selected(site, waninterface, path, None, k) == Selected(site, waninterface, None, None, k)
    ensures k != "direction" ==> Selected(site, waninterface, path, direction, k) == Selected(site, waninterface, path, None, k)
    ensures Selected(site, None, None, None, "waninterface") == None
    ensures Selected(site, waninterface, None, None, "path") == None
    ensures Selected(site, waninterface, path, None, "direction") == None
    ensures Selected(site, waninterface, None, None, "waninterface") == if Given(waninterface) then Some(List([Str(waninterface.value)])) else None
    ensures Selected(site, waninterface, path, None, "path") == if Given(path) then Some(List([Str(path.value)])) else None
    ensures Selected(site, waninterface, path, direction, "direction") == if Given(direction) then Some(Str(direction.value)) else None
  {
    assert "waninterface"[0] == 'w' && "path"[0] == 'p' && "direction"[0] == 'd' && "site"[0] == 's';
  }

  /** One dimension added to a filter that held the earlier ones: the key is set when given, and nothing else moves. */
  lemma AddedKey(before: seq<Field>, after: seq<Field>, key: string, given: bool, v: Value,
                 was: string -> Option<Value>, now: string -> Option<Value>)
    requires UniqueKeys(before) && forall k :: Find(before, k) == was(k)
    requires after == if given then Assign(before, key, v) else before
    requires was(key) == None && now(key) == (if given then Some(v) else None)
    requires forall k | k != key :: now(k) == was(k)
    ensures UniqueKeys(after) && forall k :: Find(after, k) == now(k)
  {
  }

  lemma AddedWan(site: Option<string>, waninterface: Option<string>, before: seq<Field>, after: seq<Field>)
    requires UniqueKeys(before) && forall k :: Find(before, k) == Selected(site, None, None, None, k)
    requires after == if Given(waninterface) then Assign(before, "waninterface", List([Str(waninterface.value)])) else before
    ensures UniqueKeys(after) && forall k :: Find(after, k) == Selected(site, waninterface, None, None, k)
  {
    forall k {
      SelectedKeys(site, waninterface, None, None, k);
    }
    AddedKey(before, after, "waninterface", Given(waninterface), if Given(waninterface) then List([Str(waninterface.value)]) else Null,
             k => Selected(site, None, None, None, k), k => Selected(site, waninterface, None, None, k));
  }

  lemma AddedPath(site: Option<string>, waninterface: Option<string>, path: Option<string>, before: seq<Field>, after: seq<Field>)
    requires UniqueKeys(before) && forall k :: Find(before, k) == Selected(site, waninterface, None, None, k)
    requires after == if Given(path) then Assign(before, "path", List([Str(path.value)])) else before
    ensures UniqueKeys(after) && forall k :: Find(after, k) == Selected(site, waninterface, path, None, k)
  {
    forall k {
      SelectedKeys(site, waninterface, path, None, k);
    }
    AddedKey(before, after, "path", Given(path), if Given(path) then List([Str(path.value)]) else Null,
             k => Selected(site, waninterface, None, None, k), k => Selected(site, waninterface, path, None, k));
  }

  lemma AddedDirection(site: Option<string>, waninterface: Option<string>, path: Option<string>, direction: Option<string>,
                       before: seq<Field>, after: seq<Field>)
    requires UniqueKeys(before) && forall k :: Find(before, k) == Selected(site, waninterface, path, None, k)
    requires after == if Given(direction) then Assign(before, "direction", Str(direction.value)) else before
    ensures UniqueKeys(after) && forall k :: Find(after, k) == Selected(site, waninterface, path, direction, k)
  {
    forall k {
      SelectedKeys(site, waninterface, path, direction, k);
    }
    AddedKey(before, after, "direction", Given(direction), if Given(direction) then Str(direction.value) else Null,
             k => Selected(site, waninterface, path, None, k), k => Selected(site, waninterface, path, direction, k));
  }

  /** `build_metrics_payload`: the fixed top-level keys, `view or {}`, and the filter above. */
  method BuildMetricsPayload(startTime: string, endTime: string, metrics: Value, interval: string, view: Value,
                             site: Option<string>, waninterface: Option<string>, path: Option<string>,
                             direction: Option<string>, extraFilter: seq<Field>)
    returns (payload: Value)
    requires UniqueKeys(extraFilter)
    ensures KeysOf(payload) == ["start_time", "end_time", "interval", "metrics", "view", "filter"]
    ensures Get(payload, "start_time") == Some(Str(startTime)) && Get(payload, "end_time") == Some(Str(endTime))
    ensures Get(payload, "interval") == Some(Str(interval)) && Get(payload, "metrics") == Some(metrics)
    ensures Get(payload, "view") == Some(if Truthy(view) then view else Obj([]))
    ensures At(payload, "filter").Obj? && UniqueKeys(At(payload, "filter").fields)
    ensures forall k | k in Keys(extraFilter) :: Get(At(payload, "filter"), k) == Find(extraFilter, k)
    ensures forall k | k !in Keys(extraFilter) ::
              Get(At(payload, "filter"), k) == Selected(site, waninterface, path, direction, k)
  {
    var filter := FilterOf(site, waninterface, path, direction, extraFilter);
    payload := SiteBandwidth.MetricsPayload(Str(startTime), Str(endTime), Str(interval), metrics,
                                            if Truthy(view) then view else Obj([]), Obj(filter));
  }

  // ---- WAN interface ids from the site-ports output ----

  /** `item.get("site_wan_interface_ids") or []`, kept only when it is a list. */
  function WanIdsOf(item: Value): seq<Value> {
    var ids := if Truthy(At(item, "site_wan_interface_ids")) then At(item, "site_wan_interface_ids") else List([]);
    if ids.List? then ids.items else []
  }

  /** Every item's ids, in item order, before de-duplication. */
  function AllWanIds(items: seq<Value>): seq<Value>
    decreases |items|
  {
    if items == [] then []
    else AllWanIds(items[..|items| - 1]) + WanIdsOf(items[|items| - 1])
  }

  lemma {:induction false} AllWanIdsHas(items: seq<Value>, i: nat, j: nat)
    requires i < |items| && j < |WanIdsOf(items[i])|
    ensures WanIdsOf(items[i])[j] in AllWanIds(items)
    decreases |items|
  {
    if i < |items| - 1 {
      var front := items[..|items| - 1];
      assert front[i] == items[i];
      AllWanIdsHas(front, i, j);
    }
  }

  /** Every id the gathered list holds was listed by some item. */
  lemma {:induction false} AllWanIdsFrom(items: seq<Value>, x: Value)
    requires x in AllWanIds(items)
    ensures exists i | 0 <= i < |items| :: x in WanIdsOf(items[i])
    decreases |items|
  {
    var front := items[..|items| - 1];
    var last := items[|items| - 1];
    if x in AllWanIds(front) {
      AllWanIdsFrom(front, x);
      var i :| 0 <= i < |front| && x in WanIdsOf(front[i]);
      assert front[i] == items[i];
    } else {
      assert x in WanIdsOf(items[|items| - 1]);
    }
  }

  /**
   * The gathered ids, first occurrence first, with no repeats: exactly the
   * ids some item lists.
   */
  lemma GatheredIds(items: seq<Value>, x: Value)
    ensures x in Scan.Dedup(AllWanIds(items)) <==> exists i, j | 0 <= i < |items| && 0 <= j < |WanIdsOf(items[i])| :: WanIdsOf(items[i])[j] == x
    ensures Scan.NoDup(Scan.Dedup(AllWanIds(items)))
  {
    var all := AllWanIds(items);
    var d := Scan.Dedup(all);
    if x in d {
      var k :| 0 <= k < |d| && d[k] == x;
      AllWanIdsFrom(items, x);
      var i :| 0 <= i < |items| && x in WanIdsOf(items[i]);
      var j :| 0 <= j < |WanIdsOf(items[i])| && WanIdsOf(items[i])[j] == x;
    }
    if exists i, j | 0 <= i < |items| && 0 <= j < |WanIdsOf(items[i])| :: WanIdsOf(items[i])[j] == x {
      var i, j :| 0 <= i < |items| && 0 <= j < |WanIdsOf(items[i])| && WanIdsOf(items[i])[j] == x;
      AllWanIdsHas(items, i, j);
      var k :| 0 <= k < |all| && all[k] == x;
      assert all[k] in d;
    }
  }

  /** The gathering loop (`wan_ids.extend(ids)`) followed by the `seen`-set de-duplication. */
  method CollectWanIds(items: seq<Value>) returns (r: Result<seq<Value>>)
    ensures (exists i | 0 <= i < |items| :: !items[i].Obj?) ==> r == Raise("AttributeError")
    ensures (forall i | 0 <= i < |items| :: items[i].Obj?) ==>
              (r == Raise("TypeError") <==> exists j | 0 <= j < |AllWanIds(items)| :: !Hashable(AllWanIds(items)[j]))
    ensures r.Ok? <==> (forall i | 0 <= i < |items| :: items[i].Obj?) &&
                       forall j | 0 <= j < |AllWanIds(items)| :: Hashable(AllWanIds(items)[j])
    ensures r.Ok? ==> r.value == Scan.Dedup(AllWanIds(items))
  {
    var wanIds: seq<Value> := [];
    var i := 0;
    while i < |items|
      invariant 0 <= i <= |items|
      invariant forall j | 0 <= j < i :: items[j].Obj?
      invariant wanIds == AllWanIds(items[..i])
    {
      var item := items[i];
      if !item.Obj? {
        return Raise("AttributeError");
      }
      assert items[..i + 1][..i] == items[..i];
      var ids := if Truthy(At(item, "site_wan_interface_ids")) then At(item, "site_wan_interface_ids") else List([]);
      if ids.List? {
        wanIds := wanIds + ids.items;
      }
      i := i + 1;
    }
    assert items[..i] == items;
    // `x in seen` raises on the first id a set cannot hold
    var k := 0;
    while k < |wanIds|
      invariant 0 <= k <= |wanIds|
      invariant forall j | 0 <= j < k :: Hashable(wanIds[j])
    {
      if !Hashable(wanIds[k]) {
        return Raise("TypeError");
      }
      k := k + 1;
    }
    var unique := Scan.DedupLoop(wanIds);
    r := Ok(unique);
  }
}
