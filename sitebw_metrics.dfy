/**
 * The site bandwidth report: the site named on the command line is found
 * by name (an exact, case-insensitive match preferred, else a substring
 * match) and a monitor-metrics request body is built for it.
 */
module SiteBandwidth {
  import opened Wrappers
  import opened Json
  import Text
  import Scan
  import Inventory

  /** A site's `name`, trimmed and lower-cased. */
  function FoldedName(s: Value): string {
    Text.Fold(Inventory.NameText(s, "name"))
  }

  predicate NameIs(s: Value, norm: string) {
    FoldedName(s) == norm
  }

  predicate NameHas(s: Value, norm: string) {
    Text.Contains(FoldedName(s), norm)
  }

  function IsExact(norm: string): Value -> bool {
    s => NameIs(s, norm)
  }

  function HasPart(norm: string): Value -> bool {
    s => NameHas(s, norm)
  }

  /** `[s for s in sites if name == norm]` */
  function ExactMatches(sites: seq<Value>, norm: string): seq<Value> {
    Scan.Filter(sites, IsExact(norm))
  }

  /** `[s for s in sites if norm in name]` */
  function ContainsMatches(sites: seq<Value>, norm: string): seq<Value> {
    Scan.Filter(sites, HasPart(norm))
  }

  /** `str(s.get("id") or s.get("site_id"))` */
  function SiteIdText(s: Value): string {
    PyStr(FirstTruthy([At(s, "id"), At(s, "site_id")]))
  }

  /** How an ambiguous candidate is listed: its name (or `?`) and its id. */
  function OptionText(s: Value): string {
    (if Has(s, "name") then PyStr(At(s, "name")) else "?") + " (" + SiteIdText(s) + ")"
  }

  function OptionTexts(sites: seq<Value>): (r: seq<string>)
    ensures |r| == |sites| && forall i | 0 <= i < |sites| :: r[i] == OptionText(sites[i])
  {
    seq(|sites|, i requires 0 <= i < |sites| => OptionText(sites[i]))
  }

  /** What `resolve_site_id_by_name` ends with: the site id, the message it exits with, or what it raises. */
  datatype Resolution =
    | Failed(error: string)
    | Resolved(id: string)
    | NotFound(message: string)
    | Ambiguous(candidates: seq<Value>, message: string)

  /**
   * `resolve_site_id_by_name` on the loaded sites: a single exact match
   * wins; otherwise a single substring match; no substring match at all is
   * "not found"; anything else lists the exact matches, or failing those
   * the substring matches. The first comprehension reads every site's
   * name, so a site that is not a dict, or whose name is truthy but not a
   * string, raises an AttributeError before anything is matched.
   */
  function ResolveSiteIdByName(sites: seq<Value>, siteName: string): (r: Resolution)
    ensures r.Failed? <==> exists s | s in sites :: !Inventory.Readable(s, "name")
    ensures r.Failed? ==> r.error == "AttributeError"
    ensures var exact := ExactMatches(sites, Text.Fold(siteName));
            !r.Failed? && |exact| == 1 ==> r == Resolved(SiteIdText(exact[0]))
    ensures var exact, contains := ExactMatches(sites, Text.Fold(siteName)), ContainsMatches(sites, Text.Fold(siteName));
            !r.Failed? && |exact| != 1 && |contains| == 1 ==> r == Resolved(SiteIdText(contains[0]))
    ensures r.NotFound? <==> !r.Failed? && ContainsMatches(sites, Text.Fold(siteName)) == []
    ensures r.NotFound? ==> r.message == "Site \"" + siteName + "\" not found."
    ensures var exact, contains := ExactMatches(sites, Text.Fold(siteName)), ContainsMatches(sites, Text.Fold(siteName));
            r.Ambiguous? ==> r.candidates == (if exact != [] then exact else contains) && |r.candidates| >= 2
    ensures r.Ambiguous? ==> r.message == "Multiple sites matched:\n  - " + Text.Join(OptionTexts(r.candidates), "\n  - ")
  {
    var norm := Text.Fold(siteName);
    var exact := ExactMatches(sites, norm);
    var contains := ContainsMatches(sites, norm);
    ExactIsContained(sites, norm);
    if exists s | s in sites :: !Inventory.Readable(s, "name") then Failed("AttributeError")
    else if |exact| == 1 then Resolved(SiteIdText(exact[0]))
    else if |contains| == 1 then Resolved(SiteIdText(contains[0]))
    else if contains == [] && exact == [] then NotFound("Site \"" + siteName + "\" not found.")
    else
      var candidates := if exact != [] then exact else contains;
      Ambiguous(candidates, "Multiple sites matched:\n  - " + Text.Join(OptionTexts(candidates), "\n  - "))
  }

  /** A site whose name equals the query also contains it, so there are never fewer substring matches than exact ones. */
  lemma ExactIsContained(sites: seq<Value>, norm: string)
    ensures ExactMatches(sites, norm) != [] ==> ContainsMatches(sites, norm) != []
  {
    var exact := ExactMatches(sites, norm);
    if exact != [] {
      var s := exact[0];
      Scan.FilterMembers(sites, IsExact(norm), s);
      Text.ContainsSelf(norm);
      Scan.FilterMembers(sites, HasPart(norm), s);
    }
  }

  /** A resolved id belongs to a loaded site whose name contains the query. */
  lemma ResolvedIsCandidate(sites: seq<Value>, siteName: string)
    requires ResolveSiteIdByName(sites, siteName).Resolved?
    ensures exists s | s in sites :: NameHas(s, Text.Fold(siteName)) && ResolveSiteIdByName(sites, siteName).id == SiteIdText(s)
  {
    var norm := Text.Fold(siteName);
    var exact := ExactMatches(sites, norm);
    var contains := ContainsMatches(sites, norm);
    if |exact| == 1 {
      var s := exact[0];
      Scan.FilterMembers(sites, IsExact(norm), s);
      Text.ContainsSelf(norm);
    } else {
      var s := contains[0];
      Scan.FilterMembers(sites, HasPart(norm), s);
    }
  }

  /** A request body with the six top-level keys of the monitor-metrics API, in this order. */
  function MetricsPayload(startTime: Value, endTime: Value, interval: Value, metrics: Value, view: Value, filter: Value): (r: Value)
    ensures KeysOf(r) == ["start_time", "end_time", "interval", "metrics", "view", "filter"]
    ensures Get(r, "start_time") == Some(startTime) && Get(r, "end_time") == Some(endTime)
    ensures Get(r, "interval") == Some(interval) && Get(r, "metrics") == Some(metrics)
    ensures Get(r, "view") == Some(view) && Get(r, "filter") == Some(filter)
  {
    var fs := [Field("start_time", startTime), Field("end_time", endTime), Field("interval", interval),
               Field("metrics", metrics), Field("view", view), Field("filter", filter)];
    IndexOfIs(fs, "start_time", 0);
    IndexOfIs(fs, "end_time", 1);
    IndexOfIs(fs, "interval", 2);
    IndexOfIs(fs, "metrics", 3);
    IndexOfIs(fs, "view", 4);
    IndexOfIs(fs, "filter", 5);
    Obj(fs)
  }

  /**
   * `build_metrics_payload`: a missing or empty end defaults to now, a
   * missing or empty start to three hours ago (both clock readings are
   * parameters); one metric, and a filter naming the one site.
   */
  function BuildMetricsPayload(siteId: string, start: Option<string>, end: Option<string>, interval: string,
                               metricName: string, statistic: string, unit: string,
                               viewIndividual: string, viewSummary: bool,
                               now: string, threeHoursAgo: string): (r: Value)
    ensures KeysOf(r) == ["start_time", "end_time", "interval", "metrics", "view", "filter"]
    ensures Get(r, "start_time") == Some(Str(if start.Some? && start.value != "" then start.value else threeHoursAgo))
    ensures Get(r, "end_time") == Some(Str(if end.Some? && end.value != "" then end.value else now))
    ensures Get(r, "interval") == Some(Str(interval))
    ensures At(r, "metrics") == List([Obj([Field("name", Str(metricName)), Field("statistics", List([Str(statistic)])),
                                           Field("unit", Str(unit))])])
    ensures At(r, "view") == Obj([Field("individual", Str(viewIndividual)), Field("summary", Bool(viewSummary))])
    ensures At(At(r, "filter"), "site") == List([Str(siteId)]) && KeysOf(At(r, "filter")) == ["site"]
  {
    var endTime := if end.Some? && end.value != "" then end.value else now;
    var startTime := if start.Some? && start.value != "" then start.value else threeHoursAgo;
    var filter := [Field("site", List([Str(siteId)]))];
    IndexOfIs(filter, "site", 0);
    MetricsPayload(Str(startTime), Str(endTime), Str(interval),
                   List([Obj([Field("name", Str(metricName)), Field("statistics", List([Str(statistic)])), Field("unit", Str(unit))])]),
                   Obj([Field("individual", Str(viewIndividual)), Field("summary", Bool(viewSummary))]),
                   Obj(filter))
  }
}
