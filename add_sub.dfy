/**
 * The parameter-file sub-interface adder: the site, the device (among the
 * elements of that site) and the parent interface are resolved by exact
 * name or display name, and the loaded request body gets the parent's id.
 */
module AddSub {
  import opened Wrappers
  import opened Json
  import Scan

  /** `item.get("name") == target or item.get("display_name") == target` on a dict. */
  predicate NamedExactly(item: Value, target: string) {
    item.Obj? && (At(item, "name") == Str(target) || At(item, "display_name") == Str(target))
  }

  /** The first position from `i` that ends the scan: a match, or an entry that is not a dict. */
  function ScanEnd(items: seq<Value>, target: string, i: nat): (k: nat)
    requires i <= |items|
    ensures i <= k <= |items|
    ensures forall j | i <= j < k :: items[j].Obj? && !NamedExactly(items[j], target)
    ensures k < |items| ==> !items[k].Obj? || NamedExactly(items[k], target)
    decreases |items| - i
  {
    if i == |items| || !items[i].Obj? || NamedExactly(items[i], target) then i
    else ScanEnd(items, target, i + 1)
  }

  /**
   * `find_id_by_name`: `str(id)` of the first item named (or display-named)
   * exactly `target`, None when none is; an entry that is not a dict,
   * reached before a match, raises.
   */
  function FindIdByName(items: seq<Value>, target: string): (r: Result<Option<string>>)
    ensures forall i | 0 <= i < |items| && NamedExactly(items[i], target) &&
                       (forall j | 0 <= j < i :: items[j].Obj? && !NamedExactly(items[j], target)) ::
              r == Ok(Some(PyStr(At(items[i], "id"))))
    ensures (forall i | 0 <= i < |items| :: items[i].Obj? && !NamedExactly(items[i], target)) ==> r == Ok(None)
    ensures r.Raise? <==> exists i | 0 <= i < |items| :: !items[i].Obj? &&
                            forall j | 0 <= j < i :: !NamedExactly(items[j], target)
  {
    var k := ScanEnd(items, target, 0);
    if k == |items| then Ok(None)
    else if !items[k].Obj? then Raise("AttributeError")
    else Ok(Some(PyStr(At(items[k], "id"))))
  }

  /** A match without an `id` still resolves, to the text `None`, which the script takes as found. */
  lemma MissingIdIsFound(target: string)
    ensures FindIdByName([Obj([Field("name", Str(target))])], target) == Ok(Some("None"))
  {
    var item := Obj([Field("name", Str(target))]);
    assert NamedExactly(item, target);
    assert At(item, "id") == Null;
  }

  function OnSite(siteId: string): Value -> bool {
    (e: Value) => e.Obj? && PyStr(At(e, "site_id")) == siteId
  }

  /**
   * `[e for e in items if str(e.get("site_id")) == site_id]`: the elements
   * of the resolved site, in list order; an entry that is not a dict raises.
   */
  function SiteElements(elements: seq<Value>, siteId: string): (r: Result<seq<Value>>)
    ensures r.Raise? <==> exists i | 0 <= i < |elements| :: !elements[i].Obj?
    ensures r.Ok? ==> forall e :: e in r.value <==> e in elements && PyStr(At(e, "site_id")) == siteId
    ensures r.Ok? ==> |r.value| <= |elements|
  {
    if exists i | 0 <= i < |elements| :: !elements[i].Obj? then Raise("AttributeError")
    else
      var kept := Scan.Filter(elements, OnSite(siteId));
      assert forall e :: e in kept <==> e in elements && PyStr(At(e, "site_id")) == siteId by {
        forall e ensures e in kept <==> e in elements && PyStr(At(e, "site_id")) == siteId {
          Scan.FilterMembers(elements, OnSite(siteId), e);
        }
      }
      Ok(kept)
  }

  /** How `main` ends: one of the three "not found" returns, or the three resolved ids. */
  datatype Resolution =
    | SiteMissing
    | DeviceMissing
    | ParentMissing
    | Resolved(siteId: string, elementId: string, parentId: string)

  /** `if not x`: no id, or the empty text. */
  predicate Missing(x: Option<string>) {
    x.None? || x.value == ""
  }

  /**
   * The three resolutions of `main`: the site by name, the device among the
   * elements whose `site_id` is that site, then the parent among that
   * device's interfaces (`interfacesOf` stands for the GET).
   */
  function Resolve(sites: seq<Value>, elements: seq<Value>, interfacesOf: (string, string) -> seq<Value>,
                   site: string, device: string, iface: string): (r: Result<Resolution>)
    ensures FindIdByName(sites, site).Ok? && Missing(FindIdByName(sites, site).value) ==> r == Ok(SiteMissing)
    ensures r.Ok? && r.value.Resolved? ==>
              FindIdByName(sites, site) == Ok(Some(r.value.siteId)) &&
              SiteElements(elements, r.value.siteId).Ok? &&
              FindIdByName(SiteElements(elements, r.value.siteId).value, device) == Ok(Some(r.value.elementId)) &&
              FindIdByName(interfacesOf(r.value.siteId, r.value.elementId), iface) == Ok(Some(r.value.parentId))
    ensures r.Ok? && r.value.Resolved? ==> r.value.siteId != "" && r.value.elementId != "" && r.value.parentId != ""
    ensures FindIdByName(sites, site).Raise? ==> r == Raise(FindIdByName(sites, site).error)
    ensures var s := FindIdByName(sites, site);
            s.Ok? && !Missing(s.value) ==>
              var own := SiteElements(elements, s.value.value);
              (own.Raise? ==> r == Raise(own.error)) &&
              (own.Ok? ==>
                var d := FindIdByName(own.value, device);
                (d.Raise? ==> r == Raise(d.error)) &&
                (d.Ok? && Missing(d.value) ==> r == Ok(DeviceMissing)) &&
                (d.Ok? && !Missing(d.value) ==>
                  var p := FindIdByName(interfacesOf(s.value.value, d.value.value), iface);
                  (p.Raise? ==> r == Raise(p.error)) &&
                  (p.Ok? && Missing(p.value) ==> r == Ok(ParentMissing)) &&
                  (p.Ok? && !Missing(p.value) ==> r == Ok(Resolved(s.value.value, d.value.value, p.value.value)))))
  {
    var siteId :- FindIdByName(sites, site);
    if Missing(siteId) then Ok(SiteMissing)
    else
      var own :- SiteElements(elements, siteId.value);
      var elementId :- FindIdByName(own, device);
      if Missing(elementId) then Ok(DeviceMissing)
      else
        var parentId :- FindIdByName(interfacesOf(siteId.value, elementId.value), iface);
        if Missing(parentId) then Ok(ParentMissing)
        else Ok(Resolved(siteId.value, elementId.value, parentId.value))
  }

  /**
   * `payload["parent"] = parent_id` on the loaded body: `parent` is the
   * resolved id whatever the file held, and nothing else changes; a body
   * that is not a dict raises a TypeError.
   */
  function WithParent(payload: Value, parentId: string): (r: Result<Value>)
    ensures r.Raise? <==> !payload.Obj?
    ensures r.Ok? ==> Get(r.value, "parent") == Some(Str(parentId))
    ensures r.Ok? ==> forall k | k != "parent" :: Get(r.value, k) == Get(payload, k)
    ensures r.Ok? && "parent" in KeysOf(payload) ==> KeysOf(r.value) == KeysOf(payload)
    ensures r.Ok? && "parent" !in KeysOf(payload) ==> KeysOf(r.value) == KeysOf(payload) + ["parent"]
  {
    if payload.Obj? then Ok(Obj(Assign(payload.fields, "parent", Str(parentId)))) else Raise("TypeError")
  }

  /** A Python expression in a dict literal: a constant, a nested dict, or a bare name looked up when evaluated. */
  datatype Expr =
    | Const(v: Value)
    | Name(id: string)
    | Dict(entries: seq<Entry>)

  /** `"key": value` in a dict literal. */
  datatype Entry = Entry(key: string, val: Expr)

  /** The names a module sees without defining them; `null`, `true` and `false` are not among them. */
  const Builtins: map<string, Value> := map["None" := Null, "True" := Bool(true), "False" := Bool(false)]

  /**
   * Evaluating a literal: entries left to right, and the first bare name
   * that is not bound raises a NameError.
   */
  function Eval(x: Expr): (r: Result<Value>)
    ensures r.Raise? ==> r.error == "NameError"
    ensures x.Name? ==> (r.Ok? <==> x.id in Builtins)
  {
    match x
    case Const(v) => Ok(v)
    case Name(id) => if id in Builtins then Ok(Builtins[id]) else Raise("NameError")
    case Dict(entries) =>
      var fs :- EvalEntries(entries);
      Ok(Obj(fs))
  }

  function EvalEntries(entries: seq<Entry>): (r: Result<seq<Field>>)
    ensures r.Raise? ==> r.error == "NameError"
    ensures r.Ok? ==> |r.value| == |entries|
  {
    if entries == [] then Ok([])
    else
      var v :- Eval(entries[0].val);
      var rest :- EvalEntries(entries[1..]);
      Ok([Field(entries[0].key, v)] + rest)
  }

  /** The first entries of the example body at lines 98-106, up to its first `null`. */
  const BodyHead: seq<Entry> := [
    Entry("parent", Const(Str("1741294034078022545"))),
    Entry("type", Const(Str("subinterface"))),
    Entry("used_for", Const(Str("lan"))),
    Entry("power_usage_threshold", Const(Int(0))),
    Entry("mtu", Const(Int(0))),
    Entry("name", Const(Str(""))),
    Entry("description", Const(Str("transfer vlan 110"))),
    Entry("attached_lan_networks", Name("null"))
  ]

  /** Entries that all evaluate raise exactly where an entry of theirs does. */
  lemma {:induction false} EntriesStopAt(entries: seq<Entry>, i: nat)
    requires i < |entries| && Eval(entries[i].val).Raise?
    requires forall j | 0 <= j < i :: Eval(entries[j].val).Ok?
    ensures EvalEntries(entries) == Raise("NameError")
  {
    if i > 0 {
      EntriesStopAt(entries[1..], i - 1);
    }
  }

  /**
   * `main` as written: after the three lookups succeed and the parameters
   * file is loaded into `loaded`, `payload` is rebound to the dict literal
   * `literal`, which gets the parent id and is POSTed; a run that stops at a
   * lookup posts nothing.
   */
  function SubInterfaceBody(res: Resolution, loaded: Value, literal: Expr): (r: Result<Option<Value>>)
    ensures !res.Resolved? ==> r == Ok(None)
    ensures res.Resolved? && r.Ok? ==> r.value.Some? && Get(r.value.value, "parent") == Some(Str(res.parentId))
  {
    if !res.Resolved? then Ok(None)
    else
      var payload :- Eval(literal);
      var body :- WithParent(payload, res.parentId);
      Ok(Some(body))
  }

  /**
   * As written, every resolved run raises a NameError before anything is
   * POSTed, whatever the parameters file holds and whatever the literal
   * holds after its first `null`.
   */
  lemma ResolvedRunRaises(res: Resolution, loaded: Value, rest: seq<Entry>)
    requires res.Resolved?
    ensures SubInterfaceBody(res, loaded, Dict(BodyHead + rest)) == Raise("NameError")
  {
    var entries := BodyHead + rest;
    forall j | 0 <= j < 7
      ensures Eval(entries[j].val).Ok?
    {
      assert entries[j] == BodyHead[j];
    }
    assert entries[7] == Entry("attached_lan_networks", Name("null"));
    EntriesStopAt(entries, 7);
  }

  /**
   * The evidently intended `main`: the body loaded from the parameters file
   * gets the resolved parent id and is POSTed.
   */
  function IntendedBody(res: Resolution, loaded: Value): (r: Result<Option<Value>>)
    ensures !res.Resolved? ==> r == Ok(None)
    ensures res.Resolved? ==> (r.Ok? <==> loaded.Obj?)
    ensures res.Resolved? && r.Ok? ==>
              r.value.Some? && Get(r.value.value, "parent") == Some(Str(res.parentId)) &&
              forall k | k != "parent" :: Get(r.value.value, k) == Get(loaded, k)
  {
    if !res.Resolved? then Ok(None)
    else
      var body :- WithParent(loaded, res.parentId);
      Ok(Some(body))
  }
}
