/**
 * The label and health helpers of the site / element / label / health
 * report (scm_sdwan_get-sites-elements-labels-health.py): the label strings
 * of a WAN interface, the site rows of a health response, the status of one
 * health row and the health suffix printed after a site.
 */
module LabelsHealth {
  import opened Wrappers
  import opened Json
  import Scan

  /** One entry of the WAN-label catalog: its friendly name and its short code, both already strings. */
  datatype LabelMeta = LabelMeta(name: string, code: string)

  /** `add_label_by_id`: the text one label ID contributes. */
  function LabelDisplay(lid: string, labels: map<string, LabelMeta>): (r: string)
    ensures lid !in labels ==> r == "label_id:" + lid
    ensures lid in labels && labels[lid].code != "" && labels[lid].code != labels[lid].name ==>
      r == labels[lid].name + " (" + labels[lid].code + ")"
    ensures lid in labels && (labels[lid].code == "" || labels[lid].code == labels[lid].name) ==>
      r == if labels[lid].name != "" then labels[lid].name else labels[lid].code
  {
    if lid !in labels then "label_id:" + lid
    else
      var meta := labels[lid];
      if meta.code != "" && meta.code != meta.name then meta.name + " (" + meta.code + ")"
      else if meta.name != "" then meta.name
      else meta.code
  }

  /** The texts of the truthy IDs of a list, in order. */
  function ListDisplays(xs: seq<Value>, labels: map<string, LabelMeta>): (r: seq<string>)
    ensures |r| <= |xs|
    decreases |xs|
  {
    if xs == [] then []
    else
      var last := xs[|xs| - 1];
      ListDisplays(xs[..|xs| - 1], labels) + (if Truthy(last) then [LabelDisplay(PyStr(last), labels)] else [])
  }

  /** What one label field contributes: each truthy ID of a list, or the value itself when it is a truthy scalar. */
  function FieldDisplays(v: Value, labels: map<string, LabelMeta>): seq<string> {
    if v.List? then ListDisplays(v.items, labels)
    else if Truthy(v) then [LabelDisplay(PyStr(v), labels)]
    else []
  }

  /** `wan_obj.get("link") or {}`; `None` where `.get` on it raises AttributeError. */
  function LinkOf(wan: Value): Option<Value> {
    var link := At(wan, "link");
    if !Truthy(link) then Some(Obj([]))
    else if link.Obj? then Some(link)
    else None
  }

  /** The label texts before de-duplication: `label_id`, then `link.label_id`, then `link.labels`. */
  function RawLabels(wan: Value, link: Value, labels: map<string, LabelMeta>): seq<string> {
    FieldDisplays(At(wan, "label_id"), labels) + FieldDisplays(At(link, "label_id"), labels) +
    FieldDisplays(At(link, "labels"), labels)
  }

  predicate NonEmpty(s: string) {
    s != ""
  }

  /** `_label_strings_from_wan`: the non-empty label texts, first occurrences only. */
  function LabelStrings(wan: Value, labels: map<string, LabelMeta>): Result<seq<string>> {
    match LinkOf(wan)
    case None => Raise("AttributeError")
    case Some(link) => Ok(Scan.Dedup(Scan.Filter(RawLabels(wan, link, labels), NonEmpty)))
  }

  /** The label strings carry no duplicates and no empty string, keep first-occurrence order, and cover every non-empty raw text. */
  lemma LabelStringsUnique(wan: Value, labels: map<string, LabelMeta>, link: Value)
    requires LinkOf(wan) == Some(link)
    ensures var r := LabelStrings(wan, labels).value;
      var raw := Scan.Filter(RawLabels(wan, link, labels), NonEmpty);
      Scan.NoDup(r) && (forall i | 0 <= i < |r| :: r[i] != "") &&
      (forall i, j | 0 <= i < j < |r| :: Scan.Pos(raw, r[i]) < Scan.Pos(raw, r[j])) &&
      (forall s | s in RawLabels(wan, link, labels) && s != "" :: s in r)
  {
    var raw := Scan.Filter(RawLabels(wan, link, labels), NonEmpty);
    var r := Scan.Dedup(raw);
    forall i, j | 0 <= i < j < |r| ensures Scan.Pos(raw, r[i]) < Scan.Pos(raw, r[j]) {
      Scan.DedupFirstOccurrence(raw, i, j);
    }
    forall s | s in RawLabels(wan, link, labels) && s != "" ensures s in r {
      Scan.FilterMembers(RawLabels(wan, link, labels), NonEmpty, s);
    }
  }

  /** Appends the texts of one label field to `acc`, as the script's loops do. */
  method AddFieldLabels(v: Value, labels: map<string, LabelMeta>, acc: seq<string>) returns (out: seq<string>)
    ensures out == acc + FieldDisplays(v, labels)
  {
    out := acc;
    if v.List? {
      var xs := v.items;
      var i := 0;
      while i < |xs|
        invariant 0 <= i <= |xs|
        invariant out == acc + ListDisplays(xs[..i], labels)
      {
        assert xs[..i + 1][..i] == xs[..i];
        if Truthy(xs[i]) {
          out := out + [LabelDisplay(PyStr(xs[i]), labels)];
        }
        i := i + 1;
      }
      assert xs[..i] == xs;
    } else if Truthy(v) {
      out := out + [LabelDisplay(PyStr(v), labels)];
    }
  }

  /** `_label_strings_from_wan` step by step: collect, then the `seen`-set de-duplication. */
  method LabelStringsFromWan(wan: Value, labels: map<string, LabelMeta>) returns (r: Result<seq<string>>)
    ensures r == LabelStrings(wan, labels)
  {
    var link := LinkOf(wan);
    if link.None? {
      return Raise("AttributeError");
    }
    var collected := CollectLabels(wan, link.value, labels);
    var uniq := DedupLabels(collected);
    return Ok(uniq);
  }

  /** The three collecting passes: `label_id`, then `link.label_id`, then `link.labels`. */
  method CollectLabels(wan: Value, link: Value, labels: map<string, LabelMeta>) returns (collected: seq<string>)
    ensures collected == RawLabels(wan, link, labels)
  {
    collected := AddFieldLabels(At(wan, "label_id"), labels, []);
    collected := AddFieldLabels(At(link, "label_id"), labels, collected);
    collected := AddFieldLabels(At(link, "labels"), labels, collected);
  }

  /** The closing loop: non-empty texts, each kept the first time it is seen. */
  method DedupLabels(collected: seq<string>) returns (uniq: seq<string>)
    ensures uniq == Scan.Dedup(Scan.Filter(collected, NonEmpty))
  {
    var seen: set<string> := {};
    uniq := [];
    var i := 0;
    while i < |collected|
      invariant 0 <= i <= |collected|
      invariant uniq == Scan.Dedup(Scan.Filter(collected[..i], NonEmpty))
      invariant forall x :: x in seen <==> x in uniq
    {
      Scan.FilterStep(collected, NonEmpty, i);
      ghost var before := Scan.Filter(collected[..i], NonEmpty);
      var x := collected[i];
      if x == "" {
        assert Scan.Filter(collected[..i + 1], NonEmpty) == before;
      } else {
        assert Scan.Filter(collected[..i + 1], NonEmpty) == before + [x];
        Scan.DedupSnoc(before, x);
        if x !in seen {
          uniq := uniq + [x];
          seen := seen + {x};
        }
      }
      i := i + 1;
    }
    assert collected[..i] == collected;
  }

  // ---- _health_items_from_response ----

  const ItemKeys: seq<string> := ["items", "data", "sites", "results"]
  const SiteKeys: seq<string> := ["site_id", "siteId", "site"]

  predicate HasSiteKey(d: Value) {
    Has(d, "site_id") || Has(d, "siteId") || Has(d, "site")
  }

  /**
   * `_health_items_from_response`: a dict gives the first list among
   * `items`, `data`, `sites`, `results`, or else every dict inside it that
   * has a site key, in the walk's pre-order; a list is taken as is; anything
   * else gives nothing.
   */
  function HealthItems(data: Value): (r: seq<Value>)
    ensures data.Obj? ==> forall i | 0 <= i < |ItemKeys| && At(data, ItemKeys[i]).List? &&
                                    (forall j | 0 <= j < i :: !At(data, ItemKeys[j]).List?) ::
                            r == At(data, ItemKeys[i]).items
    ensures data.Obj? && (forall i | 0 <= i < |ItemKeys| :: !At(data, ItemKeys[i]).List?) ==>
      forall i | 0 <= i < |r| :: r[i].Obj? && HasSiteKey(r[i])
    ensures data.Obj? && (forall i | 0 <= i < |ItemKeys| :: !At(data, ItemKeys[i]).List?) ==>
      r == Scan.Filter(Dicts(data), HasSiteKey) &&
      forall x :: x in r <==> x.Obj? && Within(x, data) && HasSiteKey(x)
    ensures data.List? ==> r == data.items
    ensures !data.Obj? && !data.List? ==> r == []
  {
    if data.Obj? then
      var isList := k => At(data, k).List?;
      match Scan.FirstIndex(ItemKeys, isList)
      case Some(i) =>
        Scan.FirstIndexUnique(ItemKeys, isList, i);
        At(data, ItemKeys[i]).items
      case None =>
        DictsAreDicts(data);
        var r := Scan.Filter(Dicts(data), HasSiteKey);
        assert forall x :: x in r <==> x.Obj? && Within(x, data) && HasSiteKey(x) by {
          forall x
            ensures x in r <==> x.Obj? && Within(x, data) && HasSiteKey(x)
          {
            Scan.FilterMembers(Dicts(data), HasSiteKey, x);
            DictsWithin(x, data);
          }
        }
        r
    else if data.List? then data.items
    else []
  }

  // ---- _extract_health_status ----

  const StatusKeys: seq<string> := ["status", "site_health", "state", "health"]

  predicate NonEmptyStr(v: Value) {
    v.Str? && v.s != ""
  }

  /** `_extract_health_status`: the first non-empty string among the four status keys. */
  function ExtractHealthStatus(item: Value): (r: Option<string>)
    ensures forall i | 0 <= i < |StatusKeys| && NonEmptyStr(At(item, StatusKeys[i])) &&
                       (forall j | 0 <= j < i :: !NonEmptyStr(At(item, StatusKeys[j]))) ::
              r == Some(At(item, StatusKeys[i]).s)
    ensures r.None? <==> forall i | 0 <= i < |StatusKeys| :: !NonEmptyStr(At(item, StatusKeys[i]))
  {
    var good := k => NonEmptyStr(At(item, k));
    match Scan.FirstIndex(StatusKeys, good)
    case Some(i) =>
      Scan.FirstIndexUnique(StatusKeys, good, i);
      Some(At(item, StatusKeys[i]).s)
    case None => None
  }

  // ---- _health_str_for_site ----

  /**
   * `_health_str_for_site` on its branches that print no score: `None` is
   * returned exactly where the script formats a floating-point score.
   */
  function HealthStrForSite(siteId: string, healthMap: Value): (r: Option<string>)
    ensures !Truthy(healthMap) ==> r == Some("")
    ensures Truthy(healthMap) && !Truthy(At(healthMap, siteId)) ==> r == Some("  [Health: n/a]")
    ensures Truthy(healthMap) && Truthy(At(healthMap, siteId)) ==>
      (r.None? <==> At(At(healthMap, siteId), "score") != Null)
    ensures Truthy(healthMap) && Truthy(At(healthMap, siteId)) && At(At(healthMap, siteId), "score") == Null ==>
      r == Some(if Truthy(At(At(healthMap, siteId), "status"))
                then "  [Health: " + PyStr(At(At(healthMap, siteId), "status")) + "]"
                else "  [Health: n/a]")
  {
    if !Truthy(healthMap) then Some("")
    else
      var h := At(healthMap, siteId);
      if !Truthy(h) then Some("  [Health: n/a]")
      else
        var status := At(h, "status");
        var score := At(h, "score");
        if Truthy(status) && score != Null then None
        else if Truthy(status) then Some("  [Health: " + PyStr(status) + "]")
        else if score != Null then None
        else Some("  [Health: n/a]")
  }
}
