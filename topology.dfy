/**
 * The site / topology report: the WAN-label lookup, the labels each
 * interface of a site carries, the AIOps site-health map with its fallback
 * walk over the response, the health suffix printed after each site, and
 * the service-link / stub-link switches of the command line.
 */
module Topology {
  import opened Wrappers
  import opened Json
  import Text
  import Scan
  import Inventory

  /** `[(str(x), v) for x in xs]`: each element tagged with the same value. */
  function Tagged(xs: seq<Value>, v: string): (r: seq<(string, string)>)
    ensures |r| == |xs|
    ensures forall j | 0 <= j < |xs| :: r[j] == (PyStr(xs[j]), v)
  {
    seq(|xs|, j requires 0 <= j < |xs| => (PyStr(xs[j]), v))
  }

  lemma TaggedSnoc(xs: seq<Value>, j: nat, v: string)
    requires j < |xs|
    ensures Tagged(xs[..j + 1], v) == Tagged(xs[..j], v) + [(PyStr(xs[j]), v)]
  {
  }

  // ---- get_wan_label_lookup ----

  /** `str(it.get("id", ""))` */
  function LabelId(it: Value): string {
    if Has(it, "id") then PyStr(At(it, "id")) else ""
  }

  /** How a label reads in the report: `Name (code)` when both are set and differ, else whichever is set, else its id. */
  function LabelDisplay(name: string, code: string, lid: string): (r: string)
    ensures name != "" && code != "" && name != code ==> r == name + " (" + code + ")"
    ensures name == code || code == "" ==> r == (if name != "" then name else lid)
    ensures name == "" ==> r == (if code != "" then code else lid)
    ensures lid != "" ==> r != ""
  {
    if name != "" && code != "" && name != code then name + " (" + code + ")"
    else if name != "" then name
    else if code != "" then code
    else lid
  }

  /** The `lookup[lid] = disp` assignment one label makes. */
  function LabelEntry(it: Value): (string, string) {
    (LabelId(it), LabelDisplay(Inventory.NameText(it, "name"), Inventory.NameText(it, "label"), LabelId(it)))
  }

  predicate HasLabelId(it: Value) {
    LabelId(it) != ""
  }

  /** The assignments of the lookup loop, in item order; labels without an id make none. */
  function LabelEntries(items: seq<Value>): (r: seq<(string, string)>)
    ensures forall i | 0 <= i < |r| :: r[i].0 != "" && r[i].1 != ""
    decreases |items|
  {
    if items == [] then []
    else
      var last := items[|items| - 1];
      LabelEntries(items[..|items| - 1]) + (if HasLabelId(last) then [LabelEntry(last)] else [])
  }

  /** Every label with an id makes its assignment. */
  lemma {:induction false} LabelEntriesCover(items: seq<Value>, i: nat)
    requires i < |items| && HasLabelId(items[i])
    ensures LabelEntry(items[i]) in LabelEntries(items)
    decreases |items|
  {
    if i < |items| - 1 {
      var front := items[..|items| - 1];
      assert front[i] == items[i];
      LabelEntriesCover(front, i);
    }
  }

  /**
   * `get_wan_label_lookup` on the fetched labels: the map from label id to
   * its display; reading a label that is not a dict raises.
   */
  function LabelLookup(items: seq<Value>): (r: Result<map<string, string>>)
    ensures r.Raise? <==> exists i | 0 <= i < |items| :: !items[i].Obj?
    ensures r.Raise? ==> r.error == "AttributeError"
    ensures r.Ok? ==> "" !in r.value && forall k | k in r.value :: r.value[k] != ""
  {
    if forall i | 0 <= i < |items| :: items[i].Obj? then
      var ps := LabelEntries(items);
      Scan.AssignedValues(ps, NonEmpty);
      Ok(Scan.Assigned(ps))
    else Raise("AttributeError")
  }

  predicate NonEmpty(s: string) {
    s != ""
  }

  /** Every label with an id is in the lookup, and the last label with that id decides its display. */
  lemma {:induction false} LabelLookupLastWins(items: seq<Value>, i: nat)
    requires LabelLookup(items).Ok?
    requires i < |items| && HasLabelId(items[i])
    requires forall j | i < j < |items| :: LabelId(items[j]) != LabelId(items[i])
    ensures LabelId(items[i]) in LabelLookup(items).value
    ensures LabelLookup(items).value[LabelId(items[i])] == LabelEntry(items[i]).1
  {
    LabelEntriesCover(items, i);
    EntriesLastWins(items, i);
  }

  lemma {:induction false} EntriesLastWins(items: seq<Value>, i: nat)
    requires i < |items| && HasLabelId(items[i])
    requires forall j | i < j < |items| :: LabelId(items[j]) != LabelId(items[i])
    ensures LabelId(items[i]) in Scan.Assigned(LabelEntries(items))
    ensures Scan.Assigned(LabelEntries(items))[LabelId(items[i])] == LabelEntry(items[i]).1
    decreases |items|
  {
    var front := items[..|items| - 1];
    var last := items[|items| - 1];
    var e := LabelEntries(front);
    assert LabelEntries(items) == e + (if HasLabelId(last) then [LabelEntry(last)] else []);
    if i == |items| - 1 {
      Scan.AssignedSnoc(e, LabelEntry(last));
    } else {
      assert front[i] == items[i];
      EntriesLastWins(front, i);
      var k := LabelId(items[i]);
      assert Scan.Assigned(e)[k] == LabelEntry(items[i]).1;
      if HasLabelId(last) {
        assert LabelId(last) != k;
        Scan.AssignedSnoc(e, LabelEntry(last));
        assert Scan.Assigned(LabelEntries(items)) == Scan.Assigned(e)[LabelId(last) := LabelEntry(last).1];
      } else {
        assert LabelEntries(items) == e;
      }
    }
  }

  lemma LabelEntriesStep(items: seq<Value>, i: nat)
    requires i < |items|
    ensures LabelEntries(items[..i + 1]) ==
            LabelEntries(items[..i]) + (if HasLabelId(items[i]) then [LabelEntry(items[i])] else [])
  {
    assert items[..i + 1][..i] == items[..i];
  }

  /** One turn of the lookup loop. */
  method AddLabel(lookup: map<string, string>, ghost done: seq<(string, string)>, it: Value) returns (m: map<string, string>)
    requires lookup == Scan.Assigned(done)
    ensures m == Scan.Assigned(done + (if HasLabelId(it) then [LabelEntry(it)] else []))
  {
    var lid := if Has(it, "id") then PyStr(At(it, "id")) else "";
    var name := Inventory.NameText(it, "name");
    var code := Inventory.NameText(it, "label");
    if lid != "" {
      var disp := LabelDisplay(name, code, lid);
      Scan.AssignedSnoc(done, (lid, disp));
      m := lookup[lid := disp];
    } else {
      assert done + [] == done;
      m := lookup;
    }
  }

  /** The loop of `get_wan_label_lookup`. */
  method GetWanLabelLookup(items: seq<Value>) returns (r: Result<map<string, string>>)
    ensures r == LabelLookup(items)
  {
    var lookup: map<string, string> := map[];
    var i := 0;
    while i < |items|
      invariant 0 <= i <= |items|
      invariant forall j | 0 <= j < i :: items[j].Obj?
      invariant lookup == Scan.Assigned(LabelEntries(items[..i]))
    {
      var it := items[i];
      if !it.Obj? {
        return Raise("AttributeError");
      }
      assert forall j | 0 <= j < i + 1 :: items[j].Obj?;
      LabelEntriesStep(items, i);
      lookup := AddLabel(lookup, LabelEntries(items[..i]), it);
      i := i + 1;
    }
    assert items[..i] == items;
    r := Ok(lookup);
  }

  // ---- get_site_interface_labels_map ----

  /** `label_lookup.get(label_id, f"label_id:{label_id}")` */
  function LabelFor(lid: string, lookup: map<string, string>): (r: string)
    ensures lid in lookup ==> r == lookup[lid]
    ensures lid !in lookup ==> r == "label_id:" + lid
  {
    if lid in lookup then lookup[lid] else "label_id:" + lid
  }

  /** `wi.get("interface_ids", []) or []`, ready to iterate; `None` where iterating raises. */
  function InterfaceIds(wi: Value): Option<seq<Value>> {
    var v := At(wi, "interface_ids");
    if Truthy(v) then Iterate(v) else Some([])
  }

  /** The `(interface id, label)` pairs one WAN interface contributes, or what reading it raises. */
  function WanPairs(wi: Value, lookup: map<string, string>): (r: Result<seq<(string, string)>>)
    ensures r.Raise? <==> !wi.Obj? || (Inventory.NameText(wi, "label_id") != "" && InterfaceIds(wi).None?)
    ensures r.Ok? && Inventory.NameText(wi, "label_id") == "" ==> r.value == []
    ensures r.Ok? && Inventory.NameText(wi, "label_id") != "" ==>
              r.value == Tagged(InterfaceIds(wi).value, LabelFor(Inventory.NameText(wi, "label_id"), lookup))
  {
    if !wi.Obj? then Raise("AttributeError")
    else
      var lid := Inventory.NameText(wi, "label_id");
      if lid == "" then Ok([])
      else match InterfaceIds(wi)
        case None => Raise("TypeError")
        case Some(ids) => Ok(Tagged(ids, LabelFor(lid, lookup)))
  }

  /** The pairs of all WAN interfaces in order; the first one that raises ends the scan. */
  function AllPairs(items: seq<Value>, lookup: map<string, string>): (r: Result<seq<(string, string)>>)
    ensures r.Ok? <==> forall i | 0 <= i < |items| :: WanPairs(items[i], lookup).Ok?
    decreases |items|
  {
    if items == [] then Ok([])
    else
      assert forall i | 0 <= i < |items| - 1 :: items[..|items| - 1][i] == items[i];
      var front :- AllPairs(items[..|items| - 1], lookup);
      var more :- WanPairs(items[|items| - 1], lookup);
      Ok(front + more)
  }

  /** The scan of one more interface: its pairs appended, or what reading it raises. */
  lemma AllPairsStep(items: seq<Value>, lookup: map<string, string>, i: nat, done: seq<(string, string)>)
    requires i < |items| && AllPairs(items[..i], lookup) == Ok(done)
    ensures WanPairs(items[i], lookup).Raise? ==> AllPairs(items[..i + 1], lookup) == WanPairs(items[i], lookup)
    ensures WanPairs(items[i], lookup).Ok? ==> AllPairs(items[..i + 1], lookup) == Ok(done + WanPairs(items[i], lookup).value)
  {
    assert items[..i + 1][..i] == items[..i];
  }

  /** Once a prefix raises, the whole scan raises the same way. */
  lemma {:induction false} AllPairsRaise(items: seq<Value>, lookup: map<string, string>, n: nat)
    requires n <= |items| && AllPairs(items[..n], lookup).Raise?
    ensures AllPairs(items, lookup) == AllPairs(items[..n], lookup)
    decreases |items|
  {
    if n < |items| {
      var front := items[..|items| - 1];
      assert front[..n] == items[..n];
      AllPairsRaise(front, lookup, n);
    } else {
      assert items[..n] == items;
    }
  }

  /** `mapping.setdefault(iid, []).append(disp)` for each pair in turn. */
  function Grouped(ps: seq<(string, string)>): (r: map<string, seq<string>>)
    ensures forall k | k in r :: 0 < |r[k]| <= |ps|
    decreases |ps|
  {
    if ps == [] then map[]
    else
      var m := Grouped(ps[..|ps| - 1]);
      var (k, d) := ps[|ps| - 1];
      m[k := (if k in m then m[k] else []) + [d]]
  }

  /** The labels paired with `k`, in order. */
  function LabelsOf(ps: seq<(string, string)>, k: string): (r: seq<string>)
    ensures |r| <= |ps|
    decreases |ps|
  {
    if ps == [] then []
    else
      var last := ps[|ps| - 1];
      LabelsOf(ps[..|ps| - 1], k) + (if last.0 == k then [last.1] else [])
  }

  /** An interface is in the map exactly when some pair names it, and its list is its labels in order. */
  lemma {:induction false} GroupedIsLabelsOf(ps: seq<(string, string)>, k: string)
    ensures k in Grouped(ps) <==> LabelsOf(ps, k) != []
    ensures k in Grouped(ps) ==> Grouped(ps)[k] == LabelsOf(ps, k)
    decreases |ps|
  {
    if ps != [] {
      GroupedIsLabelsOf(ps[..|ps| - 1], k);
    }
  }

  lemma GroupedSnoc(ps: seq<(string, string)>, p: (string, string))
    ensures Grouped(ps + [p]) == var m := Grouped(ps); m[p.0 := (if p.0 in m then m[p.0] else []) + [p.1]]
  {
    assert (ps + [p])[..|ps|] == ps;
  }

  /** `get_site_interface_labels_map` on the WAN interfaces of a site. */
  function InterfaceLabels(items: seq<Value>, lookup: map<string, string>): (r: Result<map<string, seq<string>>>)
    ensures r.Raise? <==> AllPairs(items, lookup).Raise?
    ensures r.Ok? ==> forall k | k in r.value :: r.value[k] == LabelsOf(AllPairs(items, lookup).value, k) != []
  {
    match AllPairs(items, lookup)
    case Raise(e) => Raise(e)
    case Ok(ps) =>
      var m := Grouped(ps);
      assert forall k | k in m :: m[k] == LabelsOf(ps, k) != [] by {
        forall k | k in m ensures m[k] == LabelsOf(ps, k) != [] {
          GroupedIsLabelsOf(ps, k);
        }
      }
      Ok(m)
  }

  /** One more interface id tagged with `disp` appends `disp` under that id. */
  lemma AppendStep(done: seq<(string, string)>, ids: seq<Value>, j: nat, disp: string)
    requires j < |ids|
    ensures var m, iid := Grouped(done + Tagged(ids[..j], disp)), PyStr(ids[j]);
            Grouped(done + Tagged(ids[..j + 1], disp)) == m[iid := (if iid in m then m[iid] else []) + [disp]]
  {
    TaggedSnoc(ids, j, disp);
    assert done + Tagged(ids[..j + 1], disp) == (done + Tagged(ids[..j], disp)) + [(PyStr(ids[j]), disp)];
    GroupedSnoc(done + Tagged(ids[..j], disp), (PyStr(ids[j]), disp));
  }

  /** The inner loop: append `disp` under each interface id. */
  method AppendLabel(mapping: map<string, seq<string>>, ghost done: seq<(string, string)>, ids: seq<Value>, disp: string)
    returns (m: map<string, seq<string>>)
    requires mapping == Grouped(done)
    ensures m == Grouped(done + Tagged(ids, disp))
  {
    m := mapping;
    var j := 0;
    assert done + Tagged(ids[..0], disp) == done;
    while j < |ids|
      invariant 0 <= j <= |ids|
      invariant m == Grouped(done + Tagged(ids[..j], disp))
    {
      var iid := PyStr(ids[j]);
      AppendStep(done, ids, j, disp);
      m := m[iid := (if iid in m then m[iid] else []) + [disp]];
      j := j + 1;
    }
    assert ids[..j] == ids;
  }

  /** The loop of `get_site_interface_labels_map`. */
  method GetSiteInterfaceLabelsMap(items: seq<Value>, lookup: map<string, string>) returns (r: Result<map<string, seq<string>>>)
    ensures r == InterfaceLabels(items, lookup)
  {
    var mapping: map<string, seq<string>> := map[];
    ghost var done: seq<(string, string)> := [];
    var i := 0;
    while i < |items|
      invariant 0 <= i <= |items|
      invariant AllPairs(items[..i], lookup) == Ok(done)
      invariant mapping == Grouped(done)
    {
      AllPairsStep(items, lookup, i, done);
      var err;
      ghost var done';
      err, mapping, done' := WanLabels(items[i], lookup, mapping, done);
      if err.Some? {
        AllPairsRaise(items, lookup, i + 1);
        return Raise(err.value);
      }
      done := done';
      i := i + 1;
    }
    assert items[..i] == items;
    r := Ok(mapping);
  }

  /** One turn of the loop: the interface's labels appended under each of its ids, or what reading it raises. */
  method WanLabels(wi: Value, lookup: map<string, string>, mapping: map<string, seq<string>>, ghost done: seq<(string, string)>)
      returns (err: Option<string>, m: map<string, seq<string>>, ghost done': seq<(string, string)>)
    requires mapping == Grouped(done)
    ensures err.Some? <==> WanPairs(wi, lookup).Raise?
    ensures err.Some? ==> WanPairs(wi, lookup) == Raise(err.value)
    ensures err.None? ==> done' == done + WanPairs(wi, lookup).value && m == Grouped(done')
  {
    m, done' := mapping, done;
    if !wi.Obj? {
      return Some("AttributeError"), m, done';
    }
    var lid := Inventory.NameText(wi, "label_id");
    if lid != "" {
      var disp := LabelFor(lid, lookup);
      var ids := InterfaceIds(wi);
      if ids.None? {
        return Some("TypeError"), m, done';
      }
      m := AppendLabel(mapping, done, ids.value, disp);
      done' := done + Tagged(ids.value, disp);
    } else {
      assert done + [] == done;
    }
    err := None;
  }

  // ---- get_aiops_site_health_map ----

  /** The three health states the map may hold. */
  predicate IsStatus(s: string) {
    s == "good" || s == "fair" || s == "poor"
  }

  /** The reporting window: both ends as given, or the last six hours when either is missing. */
  function HealthWindow(start: Option<string>, end: Option<string>, sixHoursAgo: string, now: string): (r: (string, string))
    ensures start.Some? && start.value != "" && end.Some? && end.value != "" ==> r == (start.value, end.value)
    ensures start.None? || start.value == "" || end.None? || end.value == "" ==> r == (sixHoursAgo, now)
  {
    if start.None? || start.value == "" || end.None? || end.value == "" then (sixHoursAgo, now)
    else (start.value, end.value)
  }

  /** The AIOps site-health request body. */
  function HealthRequest(start: Option<string>, end: Option<string>, sixHoursAgo: string, now: string): (r: Value)
    ensures KeysOf(r) == ["start_time", "end_time", "interval", "filter", "view"]
    ensures Get(r, "start_time") == Some(Str(HealthWindow(start, end, sixHoursAgo, now).0))
    ensures Get(r, "end_time") == Some(Str(HealthWindow(start, end, sixHoursAgo, now).1))
    ensures At(At(r, "filter"), "site_health") == List([Str("good"), Str("fair"), Str("poor")])
  {
    var w := HealthWindow(start, end, sixHoursAgo, now);
    Obj([
      Field("start_time", Str(w.0)),
      Field("end_time", Str(w.1)),
      Field("interval", Str("5min")),
      Field("filter", Obj([Field("site_health", List([Str("good"), Str("fair"), Str("poor")]))])),
      Field("view", Str("summary"))
    ])
  }

  predicate IsHealthBucket(x: Value) {
    x.Obj? && At(x, "type") == Str("site_health")
  }

  /** The first `site_health` entry of `data["data"]`, when that is a list. */
  function HealthBucket(data: Value): (r: Option<Value>)
    ensures r.Some? ==> IsHealthBucket(r.value) && At(data, "data").List? && r.value in At(data, "data").items
    ensures r.None? <==> !(data.Obj? && At(data, "data").List?) || forall x | x in At(data, "data").items :: !IsHealthBucket(x)
  {
    if data.Obj? && At(data, "data").List? then
      var arr := At(data, "data").items;
      match Scan.FirstIndex(arr, IsHealthBucket)
      case None => None
      case Some(i) => Some(arr[i])
    else None
  }

  /** `((bucket.get(status) or {}).get("site_ids")) or []`, ready to iterate, or what reading it raises. */
  function StatusIds(bucket: Value, status: string): (r: Result<seq<Value>>)
    ensures !Truthy(At(bucket, status)) ==> r == Ok([])
    ensures At(At(bucket, status), "site_ids").List? ==> r == Ok(At(At(bucket, status), "site_ids").items)
  {
    var holder := if Truthy(At(bucket, status)) then At(bucket, status) else Obj([]);
    if !holder.Obj? then Raise("AttributeError")
    else
      var ids := At(holder, "site_ids");
      if !Truthy(ids) then Ok([])
      else match Iterate(ids)
        case None => Raise("TypeError")
        case Some(xs) => Ok(xs)
  }

  /** The assignments the bucket loop makes, good, fair, then poor; the first state whose ids cannot be read ends it. */
  function BucketPairs(bucket: Value): (r: Result<seq<(string, string)>>)
    ensures r.Ok? ==> forall i | 0 <= i < |r.value| :: IsStatus(r.value[i].1)
    ensures r.Ok? <==> StatusIds(bucket, "good").Ok? && StatusIds(bucket, "fair").Ok? && StatusIds(bucket, "poor").Ok?
  {
    match StatusIds(bucket, "good")
    case Raise(e) => Raise(e)
    case Ok(good) =>
      match StatusIds(bucket, "fair")
      case Raise(e) => Raise(e)
      case Ok(fair) =>
        match StatusIds(bucket, "poor")
        case Raise(e) => Raise(e)
        case Ok(poor) => Ok(Tagged(good, "good") + Tagged(fair, "fair") + Tagged(poor, "poor"))
  }

  /** The site-health map the bucket gives, or what reading it raises; no bucket gives an empty map. */
  function BucketMap(data: Value): (r: Result<map<string, string>>)
    ensures r.Ok? ==> forall k | k in r.value :: IsStatus(r.value[k])
    ensures HealthBucket(data).None? ==> r == Ok(map[])
  {
    match HealthBucket(data)
    case None => Ok(map[])
    case Some(b) =>
      var ps :- BucketPairs(b);
      Scan.AssignedValues(ps, IsStatus);
      Ok(Scan.Assigned(ps))
  }

  /** `sid` is among the `site_ids` read for one state. */
  predicate Listed(ids: seq<Value>, sid: string) {
    exists j | 0 <= j < |ids| :: PyStr(ids[j]) == sid
  }

  /**
   * The states are assigned good, fair, poor in turn, so a site listed under
   * several keeps the last of them; a site is mapped exactly when it is listed.
   */
  lemma Precedence(good: seq<Value>, fair: seq<Value>, poor: seq<Value>, sid: string)
    ensures var m := Scan.Assigned(Tagged(good, "good") + Tagged(fair, "fair") + Tagged(poor, "poor"));
      (sid in m <==> Listed(good, sid) || Listed(fair, sid) || Listed(poor, sid)) &&
      (Listed(poor, sid) ==> sid in m && m[sid] == "poor") &&
      (Listed(fair, sid) && !Listed(poor, sid) ==> sid in m && m[sid] == "fair") &&
      (Listed(good, sid) && !Listed(fair, sid) && !Listed(poor, sid) ==> sid in m && m[sid] == "good")
  {
    var g, f, p := Tagged(good, "good"), Tagged(fair, "fair"), Tagged(poor, "poor");
    TaggedListed(good, "good", sid);
    TaggedListed(fair, "fair", sid);
    TaggedListed(poor, "poor", sid);
    if Listed(poor, sid) {
      Scan.AssignedSuffix(g + f, p, sid, "poor");
    } else {
      Scan.AssignedSkip(g + f, p, sid);
      FairOrGood(g, f, sid, Listed(fair, sid), Listed(good, sid));
    }
  }

  lemma FairOrGood(g: seq<(string, string)>, f: seq<(string, string)>, sid: string, inFair: bool, inGood: bool)
    requires inFair <==> exists j | 0 <= j < |f| :: f[j].0 == sid
    requires inGood <==> exists j | 0 <= j < |g| :: g[j].0 == sid
    requires forall j | 0 <= j < |f| :: f[j].1 == "fair"
    requires forall j | 0 <= j < |g| :: g[j].1 == "good"
    ensures sid in Scan.Assigned(g + f) <==> inFair || inGood
    ensures inFair ==> sid in Scan.Assigned(g + f) && Scan.Assigned(g + f)[sid] == "fair"
    ensures !inFair && inGood ==> sid in Scan.Assigned(g + f) && Scan.Assigned(g + f)[sid] == "good"
  {
    if inFair {
      Scan.AssignedSuffix(g, f, sid, "fair");
    } else {
      Scan.AssignedSkip(g, f, sid);
      assert g == [] + g;
      if inGood {
        Scan.AssignedSuffix([], g, sid, "good");
      } else {
        Scan.AssignedSkip([], g, sid);
        assert Scan.Assigned<string, string>([]) == map[];
      }
    }
  }

  lemma TaggedListed(ids: seq<Value>, v: string, sid: string)
    ensures Listed(ids, sid) <==> exists j | 0 <= j < |Tagged(ids, v)| :: Tagged(ids, v)[j].0 == sid
    ensures forall j | 0 <= j < |Tagged(ids, v)| :: Tagged(ids, v)[j].1 == v
  {
    if Listed(ids, sid) {
      var j :| 0 <= j < |ids| && PyStr(ids[j]) == sid;
      assert Tagged(ids, v)[j].0 == sid;
    }
  }

  /** Which state the bucket gives a site: the last listing it, and none when no state lists it. */
  lemma BucketPrecedence(bucket: Value, sid: string)
    requires BucketPairs(bucket).Ok?
    ensures var m := Scan.Assigned(BucketPairs(bucket).value);
      var good, fair, poor := StatusIds(bucket, "good").value, StatusIds(bucket, "fair").value, StatusIds(bucket, "poor").value;
      (sid in m <==> Listed(good, sid) || Listed(fair, sid) || Listed(poor, sid)) &&
      (Listed(poor, sid) ==> sid in m && m[sid] == "poor") &&
      (Listed(fair, sid) && !Listed(poor, sid) ==> sid in m && m[sid] == "fair") &&
      (Listed(good, sid) && !Listed(fair, sid) && !Listed(poor, sid) ==> sid in m && m[sid] == "good")
  {
    Precedence(StatusIds(bucket, "good").value, StatusIds(bucket, "fair").value, StatusIds(bucket, "poor").value, sid);
  }

  /** The inner loop of the bucket scan: `site_health[str(sid)] = status` for every listed site. */
  method AssignAll(sites: map<string, string>, ghost done: seq<(string, string)>, ids: seq<Value>, status: string)
    returns (m: map<string, string>)
    requires sites == Scan.Assigned(done)
    ensures m == Scan.Assigned(done + Tagged(ids, status))
  {
    m := sites;
    var j := 0;
    assert done + Tagged(ids[..0], status) == done;
    while j < |ids|
      invariant 0 <= j <= |ids|
      invariant m == Scan.Assigned(done + Tagged(ids[..j], status))
    {
      TaggedSnoc(ids, j, status);
      assert done + Tagged(ids[..j + 1], status) == (done + Tagged(ids[..j], status)) + [(PyStr(ids[j]), status)];
      Scan.AssignedSnoc(done + Tagged(ids[..j], status), (PyStr(ids[j]), status));
      m := m[PyStr(ids[j]) := status];
      j := j + 1;
    }
    assert ids[..j] == ids;
  }

  /** The `for status in ("good", "fair", "poor")` loop over the bucket, written out state by state. */
  method BucketAssign(bucket: Value) returns (r: Result<map<string, string>>)
    ensures r == (match BucketPairs(bucket) case Ok(ps) => Ok(Scan.Assigned(ps)) case Raise(e) => Raise(e))
  {
    var good := StatusIds(bucket, "good");
    if good.Raise? {
      return Raise(good.error);
    }
    var fair := StatusIds(bucket, "fair");
    if fair.Raise? {
      return Raise(fair.error);
    }
    var poor := StatusIds(bucket, "poor");
    if poor.Raise? {
      return Raise(poor.error);
    }
    var m := AssignAll(map[], [], good.value, "good");
    assert [] + Tagged(good.value, "good") == Tagged(good.value, "good");
    m := AssignAll(m, Tagged(good.value, "good"), fair.value, "fair");
    m := AssignAll(m, Tagged(good.value, "good") + Tagged(fair.value, "fair"), poor.value, "poor");
    r := Ok(m);
  }

  /** The values of `d` under each of `keys`. */
  function AtEach(d: Value, keys: seq<string>): (r: seq<Value>)
    ensures |r| == |keys| && forall i | 0 <= i < |keys| :: r[i] == At(d, keys[i])
  {
    seq(|keys|, i requires 0 <= i < |keys| => At(d, keys[i]))
  }

  const SiteIdKeys: seq<string> := ["site_id", "site", "id"]
  const HealthKeys: seq<string> := ["site_health", "status", "health"]

  /** The assignment the fallback walk makes at one dict, if any. */
  function WalkEntry(d: Value): (r: Option<(string, string)>)
    ensures r.Some? ==> IsStatus(r.value.1)
    ensures r.Some? <==> Truthy(FirstTruthy(AtEach(d, SiteIdKeys))) && FirstTruthy(AtEach(d, HealthKeys)).Str? &&
                         IsStatus(Text.Fold(FirstTruthy(AtEach(d, HealthKeys)).s))
  {
    var sid := FirstTruthy(AtEach(d, SiteIdKeys));
    var sh := FirstTruthy(AtEach(d, HealthKeys));
    if Truthy(sid) && sh.Str? && IsStatus(Text.Fold(sh.s)) then Some((PyStr(sid), Text.Fold(sh.s))) else None
  }

  /** The assignments of the walk over a run of dicts, in order. */
  function WalkPairs(ds: seq<Value>): (r: seq<(string, string)>)
    ensures |r| <= |ds|
    ensures forall i | 0 <= i < |r| :: IsStatus(r[i].1)
    decreases |ds|
  {
    if ds == [] then []
    else WalkStep(ds[0]) + WalkPairs(ds[1..])
  }

  /** The walk's assignment at one dict, as a run of at most one pair. */
  function WalkStep(d: Value): (r: seq<(string, string)>)
    ensures |r| <= 1 && forall i | 0 <= i < |r| :: IsStatus(r[i].1)
  {
    match WalkEntry(d)
    case Some(p) => [p]
    case None => []
  }

  lemma {:induction false} WalkPairsAppend(a: seq<Value>, b: seq<Value>)
    ensures WalkPairs(a + b) == WalkPairs(a) + WalkPairs(b)
    decreases |a|
  {
    if a != [] {
      assert (a + b)[0] == a[0] && (a + b)[1..] == a[1..] + b;
      WalkPairsAppend(a[1..], b);
      assert WalkPairs(a + b) == WalkStep(a[0]) + (WalkPairs(a[1..]) + WalkPairs(b));
      Scan.AppendAssoc(WalkStep(a[0]), WalkPairs(a[1..]), WalkPairs(b));
    } else {
      assert a + b == b;
    }
  }

  /**
   * `get_aiops_site_health_map` on the response: the bucket's map, or the
   * fallback walk's when the bucket gives nothing.
   */
  function HealthMap(data: Value): (r: Result<map<string, string>>)
    ensures r.Ok? ==> forall k | k in r.value :: IsStatus(r.value[k])
    ensures r.Raise? <==> BucketMap(data).Raise?
    ensures BucketMap(data).Ok? && |BucketMap(data).value| > 0 ==> r == BucketMap(data)
  {
    var fromBucket :- BucketMap(data);
    if |fromBucket| > 0 then Ok(fromBucket)
    else
      var ps := WalkPairs(Dicts(data));
      WalkStatuses(Dicts(data));
      Scan.AssignedValues(ps, IsStatus);
      Ok(Scan.Assigned(ps))
  }

  /** The walk only ever assigns good, fair or poor. */
  lemma {:induction false} WalkStatuses(ds: seq<Value>)
    ensures forall i | 0 <= i < |WalkPairs(ds)| :: IsStatus(WalkPairs(ds)[i].1)
    decreases |ds|
  {
    if ds != [] {
      WalkStatuses(ds[1..]);
      StatusesAppend(WalkStep(ds[0]), WalkPairs(ds[1..]));
    }
  }

  lemma StatusesAppend(a: seq<(string, string)>, b: seq<(string, string)>)
    requires forall i | 0 <= i < |a| :: IsStatus(a[i].1)
    requires forall i | 0 <= i < |b| :: IsStatus(b[i].1)
    ensures forall i | 0 <= i < |a + b| :: IsStatus((a + b)[i].1)
  {
  }

  /** Without a usable bucket, each site's state is the last one the walk finds for it. */
  lemma WalkLastWins(data: Value, i: nat)
    requires BucketMap(data) == Ok(map[])
    requires i < |WalkPairs(Dicts(data))|
    requires forall j | i < j < |WalkPairs(Dicts(data))| :: WalkPairs(Dicts(data))[j].0 != WalkPairs(Dicts(data))[i].0
    ensures HealthMap(data).Ok?
    ensures HealthMap(data).value[WalkPairs(Dicts(data))[i].0] == WalkPairs(Dicts(data))[i].1
  {
    Scan.LastWins(WalkPairs(Dicts(data)), i);
  }

  /** The recursive `_walk`, assigning into the map as it goes. */
  method Walk(obj: Value, sites: map<string, string>, ghost done: seq<(string, string)>) returns (m: map<string, string>)
    requires sites == Scan.Assigned(done)
    ensures m == Scan.Assigned(done + WalkPairs(Dicts(obj)))
    decreases obj, 2
  {
    match obj
    case Obj(_) =>
      m := WalkDict(obj, sites, done);
    case List(xs) =>
      m := WalkItems(xs, sites, done);
    case _ =>
      assert done + WalkPairs([]) == done;
      m := sites;
  }

  /** `_walk` on a dict: its own entry assigned when it has one, then each of its values walked. */
  method WalkDict(obj: Value, sites: map<string, string>, ghost done: seq<(string, string)>) returns (m: map<string, string>)
    requires obj.Obj? && sites == Scan.Assigned(done)
    ensures m == Scan.Assigned(done + WalkPairs(Dicts(obj)))
    decreases obj, 1
  {
    m := sites;
    var entry := WalkEntry(obj);
    ghost var step := WalkStep(obj);
    if entry.Some? {
      assert step == [entry.value];
      Scan.AssignedSnoc(done, entry.value);
      m := m[entry.value.0 := entry.value.1];
    } else {
      assert done + step == done;
    }
    m := WalkFields(obj.fields, m, done + step);
    assert Dicts(obj) == [obj] + DictsInFields(obj.fields);
    WalkPairsCons(obj, DictsInFields(obj.fields));
    Append3(done, step, WalkPairs(DictsInFields(obj.fields)));
  }

  /** `for v in obj.values(): _walk(v)` */
  method WalkFields(fs: seq<Field>, sites: map<string, string>, ghost done: seq<(string, string)>) returns (m: map<string, string>)
    requires sites == Scan.Assigned(done)
    ensures m == Scan.Assigned(done + WalkPairs(DictsInFields(fs)))
    decreases fs, 0
  {
    m := sites;
    ghost var acc := done;
    var i := 0;
    assert fs[..0] == [];
    while i < |fs|
      invariant 0 <= i <= |fs|
      invariant acc == done + WalkPairs(DictsInFields(fs[..i]))
      invariant m == Scan.Assigned(acc)
    {
      assert fs[i] in fs;
      m := Walk(fs[i].val, m, acc);
      FieldsStep(fs, i);
      Append3(done, WalkPairs(DictsInFields(fs[..i])), WalkPairs(Dicts(fs[i].val)));
      acc := acc + WalkPairs(Dicts(fs[i].val));
      i := i + 1;
    }
    assert fs[..i] == fs;
  }

  /** `for it in obj: _walk(it)` */
  method WalkItems(xs: seq<Value>, sites: map<string, string>, ghost done: seq<(string, string)>) returns (m: map<string, string>)
    requires sites == Scan.Assigned(done)
    ensures m == Scan.Assigned(done + WalkPairs(DictsInList(xs)))
    decreases xs, 0
  {
    m := sites;
    ghost var acc := done;
    var i := 0;
    assert xs[..0] == [];
    while i < |xs|
      invariant 0 <= i <= |xs|
      invariant acc == done + WalkPairs(DictsInList(xs[..i]))
      invariant m == Scan.Assigned(acc)
    {
      assert xs[i] in xs;
      m := Walk(xs[i], m, acc);
      ItemsStep(xs, i);
      Append3(done, WalkPairs(DictsInList(xs[..i])), WalkPairs(Dicts(xs[i])));
      acc := acc + WalkPairs(Dicts(xs[i]));
      i := i + 1;
    }
    assert xs[..i] == xs;
  }

  lemma WalkPairsCons(d: Value, ds: seq<Value>)
    ensures WalkPairs([d] + ds) == WalkStep(d) + WalkPairs(ds)
  {
    assert ([d] + ds)[0] == d && ([d] + ds)[1..] == ds;
  }

  lemma Append3(a: seq<(string, string)>, b: seq<(string, string)>, c: seq<(string, string)>)
    ensures (a + b) + c == a + (b + c)
  {
  }

  lemma FieldsStep(fs: seq<Field>, i: nat)
    requires i < |fs|
    ensures WalkPairs(DictsInFields(fs[..i + 1])) == WalkPairs(DictsInFields(fs[..i])) + WalkPairs(Dicts(fs[i].val))
  {
    DictsInFieldsSnoc(fs, i);
    WalkPairsAppend(DictsInFields(fs[..i]), Dicts(fs[i].val));
  }

  lemma ItemsStep(xs: seq<Value>, i: nat)
    requires i < |xs|
    ensures WalkPairs(DictsInList(xs[..i + 1])) == WalkPairs(DictsInList(xs[..i])) + WalkPairs(Dicts(xs[i]))
  {
    DictsInListSnoc(xs, i);
    WalkPairsAppend(DictsInList(xs[..i]), Dicts(xs[i]));
  }

  /** The body of `get_aiops_site_health_map` after the request. */
  method GetAiopsSiteHealthMap(data: Value) returns (r: Result<map<string, string>>)
    ensures r == HealthMap(data)
  {
    var siteHealth: map<string, string> := map[];
    var bucket := HealthBucket(data);
    if bucket.Some? {
      var fromBucket := BucketAssign(bucket.value);
      if fromBucket.Raise? {
        return fromBucket;
      }
      siteHealth := fromBucket.value;
    }
    if |siteHealth| == 0 {
      assert [] + WalkPairs(Dicts(data)) == WalkPairs(Dicts(data));
      siteHealth := Walk(data, map[], []);
    }
    r := Ok(siteHealth);
  }

  // ---- health_suffix ----

  /** The text printed after a site: nothing without a health map, `n/a` for an unmapped site, else the state capitalised. */
  function HealthSuffix(siteId: string, healthMap: map<string, string>): (r: string)
    ensures |healthMap| == 0 ==> r == ""
    ensures |healthMap| > 0 && (siteId !in healthMap || healthMap[siteId] == "") ==> r == "  [Health: n/a]"
    ensures |healthMap| > 0 && siteId in healthMap && healthMap[siteId] != "" ==>
              r == "  [Health: " + Text.Capitalize(healthMap[siteId]) + "]"
  {
    if |healthMap| == 0 then ""
    else if siteId !in healthMap || healthMap[siteId] == "" then "  [Health: n/a]"
    else "  [Health: " + Text.Capitalize(healthMap[siteId]) + "]"
  }

  /** With a map the health lookup built, every mapped site prints as Good, Fair or Poor. */
  lemma HealthSuffixOfMap(data: Value, siteId: string)
    requires HealthMap(data).Ok? && siteId in HealthMap(data).value
    ensures HealthSuffix(siteId, HealthMap(data).value) in ["  [Health: Good]", "  [Health: Fair]", "  [Health: Poor]"]
  {
    var st := HealthMap(data).value[siteId];
    CapitalizedStatus(st);
  }

  lemma CapitalizedStatus(st: string)
    requires IsStatus(st)
    ensures st != "" && "  [Health: " + Text.Capitalize(st) + "]" in ["  [Health: Good]", "  [Health: Fair]", "  [Health: Poor]"]
  {
    var c := Text.Capitalize(st);
    assert c[0] == Text.UpperChar(st[0]) && c[1..] == Text.Lower(st[1..]);
    if st == "good" {
      assert c == "Good";
      assert "  [Health: " + c + "]" == "  [Health: Good]";
    } else if st == "fair" {
      assert c == "Fair";
      assert "  [Health: " + c + "]" == "  [Health: Fair]";
    } else {
      assert c == "Poor";
      assert "  [Health: " + c + "]" == "  [Health: Poor]";
    }
  }

  // ---- command line ----

  /** The service-link and stub-link switches: each is on unless its `--no-` flag is given. */
  function LinkSwitches(noServicelinks: bool, servicelinks: bool, noStubLinks: bool, stubLinks: bool): (r: (bool, bool))
    ensures r == (!noServicelinks, !noStubLinks)
  {
    var incSl := if noServicelinks then false else if servicelinks || !noServicelinks then true else true;
    var incStub := if noStubLinks then false else if stubLinks || !noStubLinks then true else true;
    (incSl, incStub)
  }
}
