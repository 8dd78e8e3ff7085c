/**
 * Inventory handling the monitoring and provisioning scripts share: filling
 * in `id` / `name` on inventory objects, reading the site list out of a
 * response, the branch / gateway split, and the case-insensitive lookup of
 * an object by one of its name fields.
 */
module Inventory {
  import opened Wrappers
  import opened Json
  import Text
  import Scan

  /** `(o.get(key) or "")` as text. */
  function NameText(o: Value, key: string): (r: string)
    ensures !Truthy(At(o, key)) ==> r == ""
    ensures At(o, key).Str? ==> r == At(o, key).s
  {
    if Truthy(At(o, key)) then PyStr(At(o, key)) else ""
  }

  /** A value Python's `in` can search: an int, bool or None raises TypeError instead. */
  predicate Container(o: Value) {
    o.Obj? || o.Str? || o.List?
  }

  /** `key in o` on a container: a key test on a dict, a substring test on a string, an item test on a list. */
  predicate In(o: Value, key: string) {
    match o
    case Obj(_) => Has(o, key)
    case Str(s) => Text.Contains(s, key)
    case List(items) => Str(key) in items
    case _ => false
  }

  /** `o[dst] = o[src]` with `src` known to be in `o`: only a dict accepts a string index. */
  function Copy(o: Value, dst: string, src: string): (r: Result<Value>)
    ensures o.Obj? ==> r == Ok(Put(o, dst, At(o, src)))
    ensures !o.Obj? ==> r == Raise("TypeError")
  {
    if o.Obj? then Ok(Put(o, dst, At(o, src))) else Raise("TypeError")
  }

  /**
   * When `normalize_id_name` raises on a list: it reads `o["site_id"]` or
   * `o["element_id"]` because `"id"` is not an item, or `o["display_name"]`
   * because `"name"` is not an item.
   */
  predicate ListClash(items: seq<Value>) {
    (Str("id") !in items && (Str("site_id") in items || Str("element_id") in items))
    || (Str("name") !in items && Str("display_name") in items)
  }

  /** The first statement of `normalize_id_name`: a missing `id` from `site_id`, else from `element_id`. */
  function IdStep(o: Value): (r: Result<Value>)
    requires Container(o)
    ensures o.Obj? ==> r.Ok? && r.value.Obj?
    ensures r.Ok? ==> forall k | k != "id" :: Get(r.value, k) == Get(o, k)
    ensures r.Ok? ==> forall k | k != "id" :: Has(r.value, k) == Has(o, k)
    ensures r.Ok? && Has(o, "id") ==> Get(r.value, "id") == Get(o, "id")
    ensures r.Ok? && o.Obj? && !Has(o, "id") && Has(o, "site_id") ==> Get(r.value, "id") == Get(o, "site_id")
    ensures r.Ok? && o.Obj? && !Has(o, "id") && !Has(o, "site_id") && Has(o, "element_id") ==> Get(r.value, "id") == Get(o, "element_id")
    ensures r.Ok? && !Has(o, "id") && !Has(o, "site_id") && !Has(o, "element_id") ==> Get(r.value, "id") == None
    ensures !o.Obj? ==> (r.Raise? <==> !In(o, "id") && (In(o, "site_id") || In(o, "element_id"))) && (r.Ok? ==> r.value == o)
    ensures r.Raise? ==> r.error == "TypeError"
  {
    if In(o, "id") then Ok(o)
    else if In(o, "site_id") then Copy(o, "id", "site_id")
    else if In(o, "element_id") then Copy(o, "id", "element_id")
    else Ok(o)
  }

  /** The second statement of `normalize_id_name`: a missing `name` from `display_name`. */
  function NameStep(o: Value): (r: Result<Value>)
    requires Container(o)
    ensures o.Obj? ==> r.Ok? && r.value.Obj?
    ensures r.Ok? ==> forall k | k != "name" :: Get(r.value, k) == Get(o, k)
    ensures r.Ok? && Has(o, "name") ==> Get(r.value, "name") == Get(o, "name")
    ensures r.Ok? && o.Obj? && !Has(o, "name") && Has(o, "display_name") ==> Get(r.value, "name") == Get(o, "display_name")
    ensures r.Ok? && !Has(o, "name") && !Has(o, "display_name") ==> Get(r.value, "name") == None
    ensures !o.Obj? ==> (r.Raise? <==> !In(o, "name") && In(o, "display_name")) && (r.Ok? ==> r.value == o)
    ensures r.Raise? ==> r.error == "TypeError"
  {
    if !In(o, "name") && In(o, "display_name") then Copy(o, "name", "display_name")
    else Ok(o)
  }

  /** In a string, finding `site_id` or `element_id` finds `id`, and finding `display_name` finds `name`. */
  lemma TextSearches(o: Value)
    ensures o.Str? ==> (In(o, "site_id") ==> In(o, "id")) && (In(o, "element_id") ==> In(o, "id"))
    ensures o.Str? ==> (In(o, "display_name") ==> In(o, "name"))
  {
    if o.Str? {
      Text.ContainsWithin(o.s, "site_id", "id", 5);
      Text.ContainsWithin(o.s, "element_id", "id", 8);
      Text.ContainsWithin(o.s, "display_name", "name", 8);
    }
  }

  /**
   * `normalize_id_name`: on a dict a missing `id` is taken from `site_id`,
   * else from `element_id`, and a missing `name` from `display_name`; nothing
   * present is overwritten. On any other value Python's `in` decides: an int,
   * bool or None raises TypeError; a string is never changed, because
   * `site_id` and `element_id` contain `id` and `display_name` contains
   * `name`; a list is unchanged unless a copy is called for, and then its
   * string index raises TypeError.
   */
  function Normalized(o: Value): (r: Result<Value>)
    ensures o.Obj? ==> r.Ok? && r.value.Obj?
    ensures r.Ok? && Has(o, "id") ==> Get(r.value, "id") == Get(o, "id")
    ensures r.Ok? && o.Obj? && !Has(o, "id") && Has(o, "site_id") ==> Get(r.value, "id") == Get(o, "site_id")
    ensures r.Ok? && o.Obj? && !Has(o, "id") && !Has(o, "site_id") && Has(o, "element_id") ==> Get(r.value, "id") == Get(o, "element_id")
    ensures r.Ok? && !Has(o, "id") && !Has(o, "site_id") && !Has(o, "element_id") ==> Get(r.value, "id") == None
    ensures r.Ok? && Has(o, "name") ==> Get(r.value, "name") == Get(o, "name")
    ensures r.Ok? && o.Obj? && !Has(o, "name") && Has(o, "display_name") ==> Get(r.value, "name") == Get(o, "display_name")
    ensures r.Ok? && !Has(o, "name") && !Has(o, "display_name") ==> Get(r.value, "name") == None
    ensures r.Ok? ==> forall k | k != "id" && k != "name" :: Get(r.value, k) == Get(o, k)
    ensures o.Int? || o.Bool? || o.Null? ==> r == Raise("TypeError")
    ensures o.Str? ==> r == Ok(o)
    ensures o.List? ==> (r.Raise? <==> ListClash(o.items)) && (r.Ok? ==> r.value == o)
    ensures r.Raise? ==> r.error == "TypeError"
  {
    if !Container(o) then Raise("TypeError")
    else
      TextSearches(o);
      match IdStep(o)
      case Raise(e) => Raise(e)
      case Ok(withId) => NameStep(withId)
  }

  /** Normalising what normalised without raising changes nothing more. */
  lemma NormalizeIdempotent(o: Value)
    ensures Normalized(o).Ok? ==> Normalized(Normalized(o).value) == Normalized(o)
  {
    if o.Obj? {
      var r := Normalized(o).value;
      assert Has(r, "id") <==> Has(o, "id") || Has(o, "site_id") || Has(o, "element_id");
      assert Has(r, "name") <==> Has(o, "name") || Has(o, "display_name");
    }
  }

  /**
   * The `for s in sites: normalize_id_name(s)` loop over a fetched list: every
   * entry before the first one that raises is normalised in place, and that
   * entry's error ends the loop.
   */
  method NormalizeAll(a: array<Value>) returns (r: Result<()>)
    modifies a
    ensures r.Ok? <==> forall i | 0 <= i < a.Length :: Normalized(old(a[i])).Ok?
    ensures r.Ok? ==> forall i | 0 <= i < a.Length :: Normalized(old(a[i])) == Ok(a[i])
    ensures r.Raise? ==> exists k | 0 <= k < a.Length ::
              Normalized(old(a[k])) == Raise(r.error) &&
              (forall j | 0 <= j < k :: Normalized(old(a[j])) == Ok(a[j])) &&
              (forall j | k <= j < a.Length :: a[j] == old(a[j]))
  {
    ghost var before := a[..];
    var i := 0;
    while i < a.Length
      invariant 0 <= i <= a.Length
      invariant forall j | 0 <= j < i :: Normalized(before[j]) == Ok(a[j])
      invariant forall j | i <= j < a.Length :: a[j] == before[j]
    {
      var n := Normalized(a[i]);
      if n.Raise? {
        return Raise(n.error);
      }
      a[i] := n.value;
      i := i + 1;
    }
    return Ok(());
  }

  /** The list of objects in a response: its `items` list, the response itself when it is a list, else nothing. */
  function ItemsOf(data: Value): (r: seq<Value>)
    ensures data.List? ==> r == data.items
    ensures data.Obj? && At(data, "items").List? ==> r == At(data, "items").items
    ensures !data.List? && !(data.Obj? && At(data, "items").List?) ==> r == []
  {
    if data.Obj? && At(data, "items").List? then At(data, "items").items
    else if data.List? then data.items
    else []
  }

  // ---- classify_sites ----

  /** `s.get("branch_gateway", False)` taken as a condition. */
  predicate IsGateway(s: Value) {
    Truthy(At(s, "branch_gateway"))
  }

  predicate IsBranch(s: Value) {
    !IsGateway(s)
  }

  /**
   * What `classify_sites` returns: (branches, gateways), each in input order;
   * `s.get` on a site that is not a dict raises AttributeError.
   */
  function Classified(sites: seq<Value>): Result<(seq<Value>, seq<Value>)> {
    if forall s | s in sites :: s.Obj? then Ok((Scan.Filter(sites, IsBranch), Scan.Filter(sites, IsGateway)))
    else Raise("AttributeError")
  }

  /**
   * The split succeeds exactly when every site is a dict; then every site
   * lands in exactly one list, and in the gateways iff its flag is truthy.
   */
  lemma ClassifyPartition(sites: seq<Value>)
    ensures Classified(sites).Ok? <==> forall s | s in sites :: s.Obj?
    ensures Classified(sites).Raise? ==> Classified(sites).error == "AttributeError"
    ensures Classified(sites).Ok? ==>
              multiset(Classified(sites).value.0) + multiset(Classified(sites).value.1) == multiset(sites)
    ensures Classified(sites).Ok? ==> forall s | s in sites :: s in Classified(sites).value.1 <==> IsGateway(s)
    ensures Classified(sites).Ok? ==> forall s | s in sites :: s in Classified(sites).value.0 <==> !IsGateway(s)
    ensures Classified(sites).Ok? ==> forall s | s in Classified(sites).value.1 :: s in sites && IsGateway(s)
    ensures Classified(sites).Ok? ==> forall s | s in Classified(sites).value.0 :: s in sites && !IsGateway(s)
  {
    if Classified(sites).Ok? {
      Scan.FilterSplit(sites, IsGateway, IsBranch);
      forall s
        ensures s in Classified(sites).value.1 <==> s in sites && IsGateway(s)
        ensures s in Classified(sites).value.0 <==> s in sites && !IsGateway(s)
      {
        Scan.FilterMembers(sites, IsBranch, s);
        Scan.FilterMembers(sites, IsGateway, s);
      }
    }
  }

  /** The loop of `classify_sites`, appending each site to one of two lists until a site is not a dict. */
  method ClassifySites(sites: seq<Value>) returns (r: Result<(seq<Value>, seq<Value>)>)
    ensures r == Classified(sites)
  {
    var branches, gateways := [], [];
    var i := 0;
    while i < |sites|
      invariant 0 <= i <= |sites|
      invariant forall j | 0 <= j < i :: sites[j].Obj?
      invariant branches == Scan.Filter(sites[..i], IsBranch)
      invariant gateways == Scan.Filter(sites[..i], IsGateway)
    {
      if !sites[i].Obj? {
        return Raise("AttributeError");
      }
      Scan.FilterStep(sites, IsBranch, i);
      Scan.FilterStep(sites, IsGateway, i);
      if IsGateway(sites[i]) {
        gateways := gateways + [sites[i]];
      } else {
        branches := branches + [sites[i]];
      }
      i := i + 1;
    }
    assert sites[..i] == sites;
    return Ok((branches, gateways));
  }

  // ---- find_item ----

  /** The fields `find_item` compares in sdwan_add-sub-vlan.py ... */
  const VlanKeys: seq<string> := ["name", "display_name", "model_name"]
  /** ... and in sdwan_ion_shell_delete.py. */
  const ShellKeys: seq<string> := ["name", "display_name"]

  /** `(item.get(k) or '').lower() == target` for one of `keys`. */
  predicate Matches(item: Value, target: string, keys: seq<string>) {
    exists i | 0 <= i < |keys| :: Text.Lower(NameText(item, keys[i])) == target
  }

  /** `(item.get(k) or '').lower()` can be evaluated: the item is a dict and the field is falsy or a string. */
  predicate Readable(item: Value, key: string) {
    item.Obj? && (!Truthy(At(item, key)) || At(item, key).Str?)
  }

  /**
   * One item of the `find_item` loop: the fields are compared in order, and
   * the first that matches returns before a later one is read. A field that
   * cannot be read raises an AttributeError; `Ok(false)` passes the item over.
   */
  function Probe(item: Value, target: string, keys: seq<string>): (r: Result<bool>)
    ensures r.Raise? ==> r.error == "AttributeError"
    ensures r == Ok(true) ==> Matches(item, target, keys)
    decreases |keys|
  {
    if keys == [] then Ok(false)
    else if !Readable(item, keys[0]) then Raise("AttributeError")
    else if Text.Lower(NameText(item, keys[0])) == target then Ok(true)
    else
      var r := Probe(item, target, keys[1..]);
      assert forall i | 1 <= i < |keys| :: keys[i] == keys[1..][i - 1];
      r
  }

  /** An item is passed over exactly when every compared field is readable and none matches. */
  lemma {:induction false} ProbePassesOver(item: Value, target: string, keys: seq<string>)
    ensures Probe(item, target, keys) == Ok(false) <==> (forall i | 0 <= i < |keys| :: Readable(item, keys[i])) && !Matches(item, target, keys)
    decreases |keys|
  {
    if keys != [] {
      ProbePassesOver(item, target, keys[1..]);
      assert forall i | 1 <= i < |keys| :: keys[i] == keys[1..][i - 1];
    }
  }

  /** The `find_item` loop over `items` for the folded name `target`: the first item that matches or raises ends it. */
  function Search(items: seq<Value>, target: string, keys: seq<string>): (r: Result<Option<Value>>)
    ensures r.Ok? && r.value.Some? ==> r.value.value in items && Probe(r.value.value, target, keys) == Ok(true)
    ensures r.Raise? ==> r.error == "AttributeError"
    decreases |items|
  {
    if items == [] then Ok(None)
    else
      match Probe(items[0], target, keys)
      case Raise(e) => Raise(e)
      case Ok(found) => if found then Ok(Some(items[0])) else Search(items[1..], target, keys)
  }

  /** The loop runs to the end, and the script exits, exactly when every item is passed over. */
  lemma {:induction false} SearchExhausts(items: seq<Value>, target: string, keys: seq<string>)
    ensures Search(items, target, keys) == Ok(None) <==> forall i | 0 <= i < |items| :: Probe(items[i], target, keys) == Ok(false)
    decreases |items|
  {
    if items != [] {
      SearchExhausts(items[1..], target, keys);
      assert forall i | 1 <= i < |items| :: items[i] == items[1..][i - 1];
    }
  }

  /** Otherwise the loop ends at the first item not passed over: it is returned if it matches, and raises if not. */
  lemma {:induction false} SearchStopsAtFirst(items: seq<Value>, target: string, keys: seq<string>, i: nat)
    requires i < |items| && Probe(items[i], target, keys) != Ok(false)
    requires forall j | 0 <= j < i :: Probe(items[j], target, keys) == Ok(false)
    ensures Probe(items[i], target, keys) == Ok(true) ==> Search(items, target, keys) == Ok(Some(items[i]))
    ensures Probe(items[i], target, keys).Raise? ==> Search(items, target, keys) == Raise("AttributeError")
    decreases i
  {
    if i > 0 {
      assert Probe(items[0], target, keys) == Ok(false);
      assert forall j | 0 <= j < i - 1 :: items[1..][j] == items[j + 1];
      SearchStopsAtFirst(items[1..], target, keys, i - 1);
    }
  }

  /**
   * `find_item`: the first item, in list order, one of whose name fields,
   * lower-cased, equals the trimmed, lower-cased name; `None` where the
   * script exits. An item reached before a match that is not a dict, or
   * whose compared field is truthy but not a string, raises AttributeError.
   */
  function FindItem(items: seq<Value>, name: string, keys: seq<string>): (r: Result<Option<Value>>)
    ensures r.Ok? && r.value.Some? ==> r.value.value in items && Matches(r.value.value, Text.Fold(name), keys)
    ensures r.Raise? ==> r.error == "AttributeError"
  {
    Search(items, Text.Fold(name), keys)
  }

  /** Over items whose name fields are all readable, nothing raises: a match is found or the script exits. */
  lemma ReadableNeverRaises(items: seq<Value>, name: string, keys: seq<string>)
    requires forall i, k | 0 <= i < |items| && k in keys :: Readable(items[i], k)
    ensures FindItem(items, name, keys).Ok?
    ensures FindItem(items, name, keys) == Ok(None) <==> forall i | 0 <= i < |items| :: !Matches(items[i], Text.Fold(name), keys)
  {
    SearchReadable(items, Text.Fold(name), keys);
  }

  lemma {:induction false} SearchReadable(items: seq<Value>, target: string, keys: seq<string>)
    requires forall i, k | 0 <= i < |items| && k in keys :: Readable(items[i], k)
    ensures Search(items, target, keys).Ok?
    ensures Search(items, target, keys) == Ok(None) <==> forall i | 0 <= i < |items| :: !Matches(items[i], target, keys)
    decreases |items|
  {
    if items != [] {
      ProbeReadable(items[0], target, keys);
      ProbePassesOver(items[0], target, keys);
      var rest := items[1..];
      assert forall i | 0 <= i < |rest| :: rest[i] == items[i + 1];
      SearchReadable(rest, target, keys);
    }
  }

  lemma {:induction false} ProbeReadable(item: Value, target: string, keys: seq<string>)
    requires forall k | k in keys :: Readable(item, k)
    ensures !Probe(item, target, keys).Raise?
    decreases |keys|
  {
    if keys != [] {
      ProbeReadable(item, target, keys[1..]);
    }
  }

  /**
   * For example, the ion-shell lookup ignores `model_name`: an object named
   * only by its model is not found there, though the sub-interface lookup
   * finds it.
   */
  lemma ModelNameOnlyForVlan(model: string, name: string)
    requires model != "" && Text.Fold(name) == Text.Lower(model)
    ensures FindItem([Obj([Field("model_name", Str(model))])], name, ShellKeys) == Ok(None)
    ensures FindItem([Obj([Field("model_name", Str(model))])], name, VlanKeys) == Ok(Some(Obj([Field("model_name", Str(model))])))
  {
    ModelMissedByShell(model, name);
    ModelFoundByVlan(model, name);
  }

  lemma ModelMissedByShell(model: string, name: string)
    requires model != "" && Text.Fold(name) == Text.Lower(model)
    ensures FindItem([Obj([Field("model_name", Str(model))])], name, ShellKeys) == Ok(None)
  {
    var items := [Obj([Field("model_name", Str(model))])];
    ModelOnlyTexts(model);
    var target := Text.Fold(name);
    assert |target| > 0 && Text.Lower("") == "";
    assert Readable(items[0], "name") && Readable(items[0], "display_name");
    assert ShellKeys[1..] == ["display_name"] && ShellKeys[1..][1..] == [];
    assert Probe(items[0], target, ["display_name"]) == Ok(false);
    assert Probe(items[0], target, ShellKeys) == Ok(false);
    assert items[1..] == [] && Search([], target, ShellKeys) == Ok(None);
    assert Search(items, target, ShellKeys) == Ok(None);
  }

  lemma ModelFoundByVlan(model: string, name: string)
    requires Text.Fold(name) == Text.Lower(model)
    ensures FindItem([Obj([Field("model_name", Str(model))])], name, VlanKeys) == Ok(Some(Obj([Field("model_name", Str(model))])))
  {
    var items := [Obj([Field("model_name", Str(model))])];
    ModelOnlyTexts(model);
    var target := Text.Fold(name);
    assert VlanKeys[1..] == ["display_name", "model_name"] && VlanKeys[1..][1..] == ["model_name"];
    assert Probe(items[0], target, VlanKeys) == Ok(true);
  }

  /** The name fields of an object that only has a `model_name`. */
  lemma ModelOnlyTexts(model: string)
    ensures NameText(Obj([Field("model_name", Str(model))]), "name") == ""
    ensures NameText(Obj([Field("model_name", Str(model))]), "display_name") == ""
    ensures NameText(Obj([Field("model_name", Str(model))]), "model_name") == model
  {
  }
}
