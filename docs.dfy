/**
 * Helpers over configuration documents: reading a collection out of the
 * exported YAML (`extractfromyaml`), the right-biased overlay used to build
 * PUT payloads (`update_payload`), the `[]`-to-None normalisation before
 * comparing (`update_rule`, `update_stack`), metadata removal (`cleandata`,
 * `strip_metadata`).
 */
module Docs {
  import opened Wrappers
  import opened Json
  import opened Kinds
  import Text
  import Scan

  /** `list(entry.keys())[0]`, `body = entry[k]`, `body["name"] = k`. */
  function Unwrap(entry: Value): (r: Result<(string, Value)>)
    ensures r.Ok? <==> entry.Obj? && entry.fields != [] && entry.fields[0].val.Obj?
    ensures r.Ok? ==> r.value.0 == entry.fields[0].key && r.value.1 == Put(entry.fields[0].val, "name", Str(entry.fields[0].key))
  {
    if !entry.Obj? then Raise("AttributeError")
    else if entry.fields == [] then Raise("IndexError")
    else if !entry.fields[0].val.Obj? then Raise("TypeError")
    else Ok((entry.fields[0].key, Put(entry.fields[0].val, "name", Str(entry.fields[0].key))))
  }

  /** Every stored object is a dict whose `name` is the key it is stored under. */
  ghost predicate NamedByKey(m: seq<Field>) {
    forall k :: Find(m, k).Some? ==> Find(m, k).value.Obj? && Get(Find(m, k).value, "name") == Some(Str(k))
  }

  /**
   * The loop of `extractfromyaml`: each wrapper's body stored under its first
   * key, later wrappers overwriting earlier ones. The performance variant
   * (`skipFalsy`) passes over empty wrappers.
   */
  function Collect(entries: seq<Value>, skipFalsy: bool): (r: Result<seq<Field>>)
    ensures r.Ok? ==> UniqueKeys(r.value) && NamedByKey(r.value)
    decreases |entries|
  {
    if entries == [] then Ok([])
    else match Collect(entries[..|entries| - 1], skipFalsy)
      case Raise(e) => Raise(e)
      case Ok(clean) =>
        var last := entries[|entries| - 1];
        if skipFalsy && !Truthy(last) then Ok(clean)
        else match Unwrap(last)
          case Raise(e) => Raise(e)
          case Ok((k, body)) => Ok(Assign(clean, k, body))
  }

  /** The body the last wrapper for `k` contributes. */
  function LastBody(entries: seq<Value>, k: string, skipFalsy: bool): Option<Value>
    decreases |entries|
  {
    if entries == [] then None
    else
      var last := entries[|entries| - 1];
      var u := Unwrap(last);
      if !(skipFalsy && !Truthy(last)) && u.Ok? && u.value.0 == k then Some(u.value.1)
      else LastBody(entries[..|entries| - 1], k, skipFalsy)
  }

  /** A later wrapper with the same name replaces an earlier one; names nobody uses are absent. */
  lemma {:induction false} CollectLastWins(entries: seq<Value>, k: string, skipFalsy: bool)
    requires Collect(entries, skipFalsy).Ok?
    ensures Find(Collect(entries, skipFalsy).value, k) == LastBody(entries, k, skipFalsy)
    decreases |entries|
  {
    if entries != [] {
      CollectLastWins(entries[..|entries| - 1], k, skipFalsy);
    }
  }

  /** The collections `extractfromyaml` knows, the performance ones read leniently. */
  predicate StrictKey(key: string) {
    key in StrictKeys()
  }

  /** The keys of the four strictly-read domains at all three levels. */
  function StrictKeys(): (r: set<string>)
    ensures forall d: Domain, l: Level :: d != Performance ==> DocKey(d, l) in r
  {
    set d <- [Path, Qos, Nat, Security], l <- [Stacks, Sets, Rules] :: DocKey(d, l)
  }

  predicate LenientKey(key: string) {
    key == DocKey(Performance, Sets) || key == DocKey(Performance, Stacks)
  }

  /**
   * `extractfromyaml(doc, key)`: `None` when the document lacks the key (and
   * for a key it has no branch for), else the name-keyed map of its wrappers.
   */
  function ExtractFromYaml(doc: Value, key: string): (r: Result<Option<seq<Field>>>)
    ensures !doc.Obj? ==> r.Raise?
    ensures doc.Obj? && !Has(doc, key) ==> r == Ok(None)
    ensures r.Ok? && r.value.Some? ==> UniqueKeys(r.value.value) && NamedByKey(r.value.value)
  {
    if !doc.Obj? then Raise("AttributeError")
    else if !Has(doc, key) then Ok(None)
    else if !StrictKey(key) && !LenientKey(key) then Ok(None)
    else match Iterate(At(doc, key))
      case None => Raise("TypeError")
      case Some(entries) =>
        match Collect(entries, LenientKey(key))
        case Raise(e) => Raise(e)
        case Ok(m) => Ok(Some(m))
  }

  /** `update_payload` as a value: every source entry assigned into `dest`, in source order. */
  function Overlay(src: seq<Field>, dest: seq<Field>): (r: seq<Field>)
    ensures forall k :: k !in Keys(src) ==> Find(r, k) == Find(dest, k)
    ensures |Keys(r)| >= |Keys(dest)| && Keys(r)[..|dest|] == Keys(dest)
    ensures UniqueKeys(dest) ==> UniqueKeys(r)
    decreases |src|
  {
    if src == [] then dest
    else
      var front := src[..|src| - 1];
      var last := src[|src| - 1];
      assert Keys(src) == Keys(front) + [last.key];
      Assign(Overlay(front, dest), last.key, last.val)
  }

  /** Overlaying one more source field assigns it over the shorter overlay. */
  lemma OverlayStep(src: seq<Field>, dest: seq<Field>, i: nat)
    requires i < |src|
    ensures Overlay(src[..i + 1], dest) == Assign(Overlay(src[..i], dest), src[i].key, src[i].val)
  {
    assert src[..i + 1][..i] == src[..i];
  }

  lemma FindSnoc(fs: seq<Field>, x: Field, k: string)
    requires k in Keys(fs)
    ensures Find(fs + [x], k) == Find(fs, k)
  {
    var i := IndexOf(fs, k);
    IndexOfIs(fs + [x], k, i);
  }

  /** With a well-formed source, every source key gets the source's value. */
  lemma {:induction false} OverlayRightBiased(src: seq<Field>, dest: seq<Field>, k: string)
    requires UniqueKeys(src)
    requires k in Keys(src)
    ensures Find(Overlay(src, dest), k) == Find(src, k)
    decreases |src|
  {
    var front := src[..|src| - 1];
    var last := src[|src| - 1];
    assert src == front + [last];
    assert Keys(src) == Keys(front) + [last.key];
    if k != last.key {
      assert k in Keys(front);
      OverlayRightBiased(front, dest, k);
      FindSnoc(front, last, k);
    } else {
      assert k !in Keys(front);
      IndexOfIs(src, k, |front|);
    }
  }

  /** `update_payload(source, dest)`: a TypeError when either side is not a dict that can take the keys. */
  function Payload(source: Value, dest: Value): (r: Result<Value>)
    ensures r.Ok? <==> source.Obj? && (dest.Obj? || source.fields == [])
    ensures r.Ok? && dest.Obj? ==> r.value == Obj(Overlay(source.fields, dest.fields))
  {
    if !source.Obj? then Raise("AttributeError")
    else if source.fields == [] then Ok(dest)
    else if !dest.Obj? then Raise("TypeError")
    else Ok(Obj(Overlay(source.fields, dest.fields)))
  }

  /** Every source key takes the source's value; every other key keeps the destination's. */
  lemma PayloadGets(source: Value, dest: Value)
    requires Payload(source, dest).Ok? && UniqueKeys(source.fields)
    ensures forall k :: Get(Payload(source, dest).value, k) == if Has(source, k) then Get(source, k) else Get(dest, k)
  {
    if source.fields != [] {
      forall k ensures Get(Payload(source, dest).value, k) == if Has(source, k) then Get(source, k) else Get(dest, k) {
        if k in Keys(source.fields) {
          OverlayRightBiased(source.fields, dest.fields, k);
        }
      }
    }
  }

  /** The loop of `update_payload`, assigning source entries into `dest` one by one. */
  method UpdatePayload(source: Value, dest: Value) returns (r: Result<Value>)
    ensures r == Payload(source, dest)
  {
    if !source.Obj? {
      return Raise("AttributeError");
    }
    if source.fields == [] {
      return Ok(dest);
    }
    if !dest.Obj? {
      return Raise("TypeError");
    }
    var src := source.fields;
    var fs := dest.fields;
    var i := 0;
    while i < |src|
      invariant 0 <= i <= |src|
      invariant fs == Overlay(src[..i], dest.fields)
    {
      OverlayStep(src, dest.fields, i);
      fs := Assign(fs, src[i].key, src[i].val);
      i := i + 1;
    }
    assert src[..|src|] == src;
    return Ok(Obj(fs));
  }

  /** A value `len()` accepts and finds empty. */
  predicate EmptyLen(v: Value) {
    Len(v) == Some(0)
  }

  /** The `paths_allowed` loop of `update_rule`: empty entries become None. */
  function NoneIfEmpty(fs: seq<Field>): (r: Result<seq<Field>>)
    ensures r.Ok? <==> forall i :: 0 <= i < |fs| ==> fs[i].val == Null || Len(fs[i].val).Some?
    ensures r.Ok? ==> |r.value| == |fs| && forall i :: 0 <= i < |fs| ==>
              r.value[i].key == fs[i].key && r.value[i].val == (if EmptyLen(fs[i].val) then Null else fs[i].val)
    decreases |fs|
  {
    if fs == [] then Ok([])
    else
      var v := fs[0].val;
      var rest := NoneIfEmpty(fs[1..]);
      if v != Null && Len(v).None? then Raise("TypeError")
      else if rest.Raise? then rest
      else
        var r := [Field(fs[0].key, if EmptyLen(v) then Null else v)] + rest.value;
        assert forall i :: 1 <= i < |fs| ==> fs[i] == fs[1..][i - 1];
        Ok(r)
  }

  /** `update_rule`: a copy of the rule whose empty `paths_allowed` lists are None. */
  function UpdateRule(rule: Value): (r: Result<Value>)
    ensures r.Ok? <==> rule.Obj? && At(rule, "paths_allowed").Obj? && NoneIfEmpty(At(rule, "paths_allowed").fields).Ok?
    ensures r.Ok? ==> forall k | k != "paths_allowed" :: Get(r.value, k) == Get(rule, k)
    ensures r.Ok? ==> Get(r.value, "paths_allowed") == Some(Obj(NoneIfEmpty(At(rule, "paths_allowed").fields).value))
  {
    if !rule.Obj? then Raise("AttributeError")
    else
      var pa := At(rule, "paths_allowed");
      if !pa.Obj? then Raise("AttributeError")
      else match NoneIfEmpty(pa.fields)
        case Raise(e) => Raise(e)
        case Ok(fs) => Ok(Put(rule, "paths_allowed", Obj(fs)))
  }

  /** Normalising twice changes nothing more. */
  lemma UpdateRuleIdempotent(rule: Value)
    requires UpdateRule(rule).Ok?
    ensures UpdateRule(UpdateRule(rule).value) == UpdateRule(rule)
  {
    var r := UpdateRule(rule).value;
    var fs := NoneIfEmpty(At(rule, "paths_allowed").fields).value;
    assert At(r, "paths_allowed") == Obj(fs);
    var again := NoneIfEmpty(fs);
    assert again.Ok?;
    assert again.value == fs;
    assert Put(r, "paths_allowed", Obj(fs)) == r by {
      assert r.Obj? && r.fields == Assign(rule.fields, "paths_allowed", Obj(fs));
      assert Assign(r.fields, "paths_allowed", Obj(fs)) == r.fields;
    }
  }

  /** `update_stack`: a copy whose empty `policyset_ids` is None; a missing or unsized one raises. */
  function UpdateStack(stack: Value): (r: Result<Value>)
    ensures r.Ok? <==> stack.Obj? && Len(At(stack, "policyset_ids")).Some?
    ensures r.Ok? ==> forall k | k != "policyset_ids" :: Get(r.value, k) == Get(stack, k)
    ensures r.Ok? ==> At(r.value, "policyset_ids") == if EmptyLen(At(stack, "policyset_ids")) then Null else At(stack, "policyset_ids")
  {
    if !stack.Obj? then Raise("AttributeError")
    else
      var ids := At(stack, "policyset_ids");
      if Len(ids).None? then Raise("TypeError")
      else if Len(ids) == Some(0) then Ok(Put(stack, "policyset_ids", Null))
      else Ok(stack)
  }

  /** A stack with members is sent as it is. */
  lemma UpdateStackKeepsMembers(stack: Value)
    requires stack.Obj? && At(stack, "policyset_ids").List? && At(stack, "policyset_ids").items != []
    ensures UpdateStack(stack) == Ok(stack)
  {
  }

  /** The metadata keys the exporters and restore tools drop. */
  const DeleteKeys: seq<string> :=
    ["_created_on_utc", "_debug", "_error", "_etag", "_info", "_schema", "_updated_on_utc", "_warning",
     "_request_id", "_content_length", "_status_code", "id"]

  /** The push engine's list, which also drops `name`. */
  const PushDeleteKeys: seq<string> := DeleteKeys + ["name"]

  /** The entries whose key is not in `keys`, in order. */
  function Without(fs: seq<Field>, keys: seq<string>): (r: seq<Field>)
    ensures |r| <= |fs|
    ensures forall i :: 0 <= i < |r| ==> r[i] in fs && r[i].key !in keys
    decreases |fs|
  {
    if fs == [] then []
    else
      var rest := Without(fs[1..], keys);
      if fs[0].key in keys then rest else [fs[0]] + rest
  }

  /** A listed key is gone; any other key keeps its value. */
  lemma {:induction false} WithoutFind(fs: seq<Field>, keys: seq<string>, k: string)
    ensures Find(Without(fs, keys), k) == if k in keys then None else Find(fs, k)
    decreases |fs|
  {
    if fs != [] {
      WithoutFind(fs[1..], keys, k);
      assert fs == [fs[0]] + fs[1..];
      FindCons(fs[0], fs[1..], k);
      if fs[0].key !in keys {
        FindCons(fs[0], Without(fs[1..], keys), k);
      }
    }
  }

  /** The comprehension `cleandata`: non-dicts unchanged, dicts copied without the metadata keys. */
  function Cleaned(data: Value, keys: seq<string>): (r: Value)
    ensures !data.Obj? ==> r == data
    ensures data.Obj? ==> r.Obj? && forall k :: Get(r, k) == if k in keys then None else Get(data, k)
  {
    if data.Obj? then
      var r := Obj(Without(data.fields, keys));
      forall k ensures Get(r, k) == if k in keys then None else Get(data, k) {
        WithoutFind(data.fields, keys, k);
      }
      r
    else data
  }

  lemma {:induction false} RemoveWithout(fs: seq<Field>, ks: seq<string>, k: string)
    ensures Remove(Without(fs, ks), k) == Without(fs, ks + [k])
    decreases |fs|
  {
    if fs != [] {
      RemoveWithout(fs[1..], ks, k);
      var w := Without(fs, ks);
      if fs[0].key !in ks {
        assert w[1..] == Without(fs[1..], ks);
      }
    }
  }

  lemma {:induction false} WithoutNothing(fs: seq<Field>)
    ensures Without(fs, []) == fs
    decreases |fs|
  {
    if fs != [] {
      WithoutNothing(fs[1..]);
    }
  }

  /** Deletes each of `keys` that the dict holds, one key at a time. */
  method DeleteEach(fs: seq<Field>, keys: seq<string>) returns (r: seq<Field>)
    ensures r == Without(fs, keys)
  {
    var tmp := Obj(fs);
    var i := 0;
    WithoutNothing(fs);
    while i < |keys|
      invariant 0 <= i <= |keys|
      invariant tmp == Obj(Without(fs, keys[..i]))
    {
      var key := keys[i];
      ghost var w := Without(fs, keys[..i]);
      RemoveWithout(fs, keys[..i], key);
      if Has(tmp, key) {
        tmp := Drop(tmp, key);
      } else {
        assert Remove(w, key) == w;
      }
      assert tmp == Obj(Remove(w, key));
      Scan.TakeStep(keys, i);
      i := i + 1;
    }
    assert keys[..|keys|] == keys;
    return tmp.fields;
  }

  /** The push engine's `cleandata`: deletes each listed key present in the dict, in place. */
  method CleanData(data: Value) returns (r: Result<Value>)
    ensures !data.Obj? ==> r.Raise?
    ensures data.Obj? ==> r == Ok(Cleaned(data, PushDeleteKeys))
  {
    if !data.Obj? {
      return Raise("AttributeError");
    }
    var fs := DeleteEach(data.fields, PushDeleteKeys);
    return Ok(Obj(fs));
  }

  /** The two `cleandata`s agree except that the push engine's also drops `name`. */
  lemma CleanDataVariants(data: Value)
    requires data.Obj?
    ensures Cleaned(data, PushDeleteKeys) == Cleaned(Cleaned(data, DeleteKeys), ["name"])
  {
    RemoveWithout(data.fields, DeleteKeys, "name");
    WithoutOne(Without(data.fields, DeleteKeys), "name");
  }

  lemma {:induction false} WithoutOne(fs: seq<Field>, k: string)
    ensures Without(fs, [k]) == Remove(fs, k)
    decreases |fs|
  {
    if fs != [] {
      WithoutOne(fs[1..], k);
    }
  }

  /** `strip_metadata`: every dict loses its `_`-keys, at every depth. */
  function Strip(v: Value): Value
    decreases v
  {
    match v
    case Obj(fs) => Obj(StripFields(fs))
    case List(items) => List(StripItems(items))
    case _ => v
  }

  function StripFields(fs: seq<Field>): (r: seq<Field>)
    ensures |r| <= |fs|
    decreases fs
  {
    if fs == [] then []
    else
      var rest := StripFields(fs[1..]);
      if Text.StartsWith(fs[0].key, "_") then rest else [Field(fs[0].key, Strip(fs[0].val))] + rest
  }

  function StripItems(items: seq<Value>): (r: seq<Value>)
    ensures |r| == |items|
    decreases items
  {
    if items == [] then [] else [Strip(items[0])] + StripItems(items[1..])
  }

  /** No dict key starting with `_`, at any depth. */
  predicate NoMetadata(v: Value)
    decreases v
  {
    match v
    case Obj(fs) => NoMetadataFields(fs)
    case List(items) => NoMetadataItems(items)
    case _ => true
  }

  predicate NoMetadataFields(fs: seq<Field>)
    decreases fs
  {
    fs == [] || (!Text.StartsWith(fs[0].key, "_") && NoMetadata(fs[0].val) && NoMetadataFields(fs[1..]))
  }

  predicate NoMetadataItems(items: seq<Value>)
    decreases items
  {
    items == [] || (NoMetadata(items[0]) && NoMetadataItems(items[1..]))
  }

  /** The output carries no metadata key anywhere, and a clean document is its own stripping. */
  lemma {:induction false} StripClean(v: Value)
    ensures NoMetadata(Strip(v))
    ensures NoMetadata(v) ==> Strip(v) == v
    decreases v
  {
    match v
    case Obj(fs) => StripFieldsClean(fs);
    case List(items) => StripItemsClean(items);
    case _ =>
  }

  lemma {:induction false} StripFieldsClean(fs: seq<Field>)
    ensures NoMetadataFields(StripFields(fs))
    ensures NoMetadataFields(fs) ==> StripFields(fs) == fs
    decreases fs
  {
    if fs != [] {
      StripFieldsClean(fs[1..]);
      StripClean(fs[0].val);
      var rest := StripFields(fs[1..]);
      if !Text.StartsWith(fs[0].key, "_") {
        assert ([Field(fs[0].key, Strip(fs[0].val))] + rest)[1..] == rest;
      }
      if NoMetadataFields(fs) {
        assert fs == [fs[0]] + fs[1..];
      }
    }
  }

  lemma {:induction false} StripItemsClean(items: seq<Value>)
    ensures NoMetadataItems(StripItems(items))
    ensures NoMetadataItems(items) ==> StripItems(items) == items
    decreases items
  {
    if items != [] {
      StripItemsClean(items[1..]);
      StripClean(items[0]);
      assert ([Strip(items[0])] + StripItems(items[1..]))[1..] == StripItems(items[1..]);
      if NoMetadataItems(items) {
        assert items == [items[0]] + items[1..];
      }
    }
  }

  /** Stripping twice is stripping once. */
  lemma StripIdempotent(v: Value)
    ensures Strip(Strip(v)) == Strip(v)
  {
    StripClean(v);
    StripClean(Strip(v));
  }

  /** A key without the `_` prefix keeps its (stripped) value; list items keep their positions. */
  lemma {:induction false} StripKeeps(fs: seq<Field>, k: string)
    requires !Text.StartsWith(k, "_")
    ensures Find(StripFields(fs), k) == match Find(fs, k) case None => None case Some(x) => Some(Strip(x))
    decreases fs
  {
    if fs != [] {
      StripKeeps(fs[1..], k);
      assert fs == [fs[0]] + fs[1..];
      FindCons(fs[0], fs[1..], k);
      if !Text.StartsWith(fs[0].key, "_") {
        FindCons(Field(fs[0].key, Strip(fs[0].val)), StripFields(fs[1..]), k);
      }
    }
  }

  lemma {:induction false} StripItemsAt(items: seq<Value>, i: nat)
    requires i < |items|
    ensures StripItems(items)[i] == Strip(items[i])
    decreases items
  {
    if i > 0 {
      StripItemsAt(items[1..], i - 1);
    }
  }

  /** The resources export: exactly the stripped `sites` and `elements`. */
  function ResourcesDoc(sites: Value, elements: Value): (r: Value)
    ensures KeysOf(r) == ["sites", "elements"]
    ensures At(r, "sites") == Strip(sites) && At(r, "elements") == Strip(elements)
    ensures NoMetadata(At(r, "sites")) && NoMetadata(At(r, "elements"))
  {
    StripClean(sites);
    StripClean(elements);
    var r := Obj([Field("sites", Strip(sites)), Field("elements", Strip(elements))]);
    assert Keys(r.fields) == ["sites", "elements"];
    assert IndexOf(r.fields, "elements") == 1;
    r
  }
}
