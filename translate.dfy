/**
 * The push engine's translators: `translate_rule`, `translate_stack` and
 * `translate_set` rewrite the reference fields of a document object between
 * names (as exported) and controller IDs, in either direction.
 *
 * A scalar reference is replaced when the catalog knows it and left alone
 * otherwise. Lists are rebuilt by a loop whose body either keeps a translated
 * item, drops it, or raises; `Walk` is that loop. The NAT translator is run
 * under a bare `except`, so for it the model also keeps the half-translated
 * rule a failure leaves behind.
 */
module Translate {
  import opened Wrappers
  import opened Json
  import opened Kinds
  import opened Catalog
  import Scan
  import opened Staged

  /** N2ID: names to IDs (pushing); ID2N: IDs to names (exporting). */
  datatype Dir = N2ID | ID2N

  function Table(ix: Index, dir: Dir): (r: map<string, string>)
    ensures var back := if dir == N2ID then ix.idName else ix.nameId;
            Inverse(ix) ==> forall k | k in r :: r[k] in back && back[r[k]] == k
  {
    if dir == N2ID then ix.nameId else ix.idName
  }

  function RuleTable(ri: RuleIndex, dir: Dir): map<(string, string), string> {
    if dir == N2ID then ri.nameId else ri.idName
  }

  /** `v in table.keys()`: strings are looked up, lists and dicts are unhashable, other scalars miss. */
  function Lookup(m: map<string, string>, v: Value): (r: Result<Option<string>>)
    ensures r.Raise? <==> v.List? || v.Obj?
    ensures r.Ok? && r.value.Some? <==> v.Str? && v.s in m
    ensures r.Ok? && r.value.Some? ==> r.value.value == m[v.s]
  {
    match v
    case Str(s) => Ok(if s in m then Some(m[s]) else None)
    case List(_) => Raise("TypeError")
    case Obj(_) => Raise("TypeError")
    case _ => Ok(None)
  }

  /** A string reference the table knows. */
  predicate Known(m: map<string, string>, v: Value) {
    v.Str? && v.s in m
  }

  /** `x = rule.get(key)`; `if x in table: rule[key] = table[x]`. */
  function MapScalar(rule: Value, key: string, m: map<string, string>): (r: Result<Value>)
    ensures r.Raise? <==> At(rule, key).List? || At(rule, key).Obj?
    ensures r.Ok? && Known(m, At(rule, key)) ==> r.value == Put(rule, key, Str(m[At(rule, key).s]))
    ensures r.Ok? && !Known(m, At(rule, key)) ==> r.value == rule
    ensures r.Ok? ==> (r.value.Obj? <==> rule.Obj?) && forall k | k != key :: Get(r.value, k) == Get(rule, k)
  {
    var hit :- Lookup(m, At(rule, key));
    if hit.Some? then Ok(Put(rule, key, Str(hit.value))) else Ok(rule)
  }

  /** A prefix reference: the global table is consulted before the local one. */
  function MapPrefix(rule: Value, key: string, global: map<string, string>, local: map<string, string>): (r: Result<Value>)
    ensures r.Raise? <==> At(rule, key).List? || At(rule, key).Obj?
    ensures r.Ok? && Known(global, At(rule, key)) ==> r.value == Put(rule, key, Str(global[At(rule, key).s]))
    ensures r.Ok? && !Known(global, At(rule, key)) && Known(local, At(rule, key)) ==>
              r.value == Put(rule, key, Str(local[At(rule, key).s]))
    ensures r.Ok? && !Known(global, At(rule, key)) && !Known(local, At(rule, key)) ==> r.value == rule
    ensures r.Ok? ==> (r.value.Obj? <==> rule.Obj?) && forall k | k != key :: Get(r.value, k) == Get(rule, k)
  {
    var v := At(rule, key);
    var g :- Lookup(global, v);
    if g.Some? then Ok(Put(rule, key, Str(g.value)))
    else if Known(local, v) then Ok(Put(rule, key, Str(local[v.s])))
    else Ok(rule)
  }

  /** What a list loop's body does with one item. */
  datatype Step = Keep(v: Value) | Skip | Fail(error: string)

  /** The bodies of the translators' list loops. */
  datatype Body =
    | AppBody(apps: map<string, string>, named: bool)
    | KnownBody(global: map<string, string>, local: map<string, string>)
    | LabelBody(labels: map<string, string>)
    | OrderBody(rules: map<(string, string), string>, setId: string)
    | RecordBody(rec: seq<Field>)
    | SwapBody(idName: map<Value, string>, newIds: map<string, Value>)

  function Apply(b: Body, x: Value): (r: Step)
    ensures b.KnownBody? || b.OrderBody? || b.RecordBody? ==> (r.Fail? <==> x.List? || x.Obj?)
    ensures b.AppBody? || b.LabelBody? || b.SwapBody? ==> !r.Skip?
  {
    match b
    case AppBody(m, named) => AppStep(m, named, x)
    case KnownBody(g, l) => KnownStep(g, l, x)
    case LabelBody(m) => LabelStep(m, x)
    case OrderBody(m, setId) => OrderStep(m, setId, x)
    case RecordBody(rec) => RecordStep(rec, x)
    case SwapBody(idName, newIds) => SwapStep(idName, newIds, x)
  }

  function Prefixed(acc: seq<Value>, r: Result<seq<Value>>): Result<seq<Value>> {
    match r
    case Raise(e) => Raise(e)
    case Ok(xs) => Ok(acc + xs)
  }

  lemma PrefixedNil(r: Result<seq<Value>>)
    ensures Prefixed([], r) == r
  {
    match r {
      case Raise(_) =>
      case Ok(xs) => assert [] + xs == xs;
    }
  }

  lemma PrefixedAssoc(acc: seq<Value>, xs: seq<Value>, r: Result<seq<Value>>)
    ensures Prefixed(acc, Prefixed(xs, r)) == Prefixed(acc + xs, r)
  {
    match r {
      case Raise(_) =>
      case Ok(ys) => assert acc + (xs + ys) == (acc + xs) + ys;
    }
  }

  /** A list loop: the kept items in order, or the first item's exception. */
  function Walk(items: seq<Value>, f: Body): (r: Result<seq<Value>>)
    ensures r.Ok? <==> forall i :: 0 <= i < |items| ==> !Apply(f, items[i]).Fail?
    ensures r.Ok? ==> |r.value| <= |items|
    decreases |items|
  {
    if items == [] then Ok([])
    else
      assert forall i :: 1 <= i < |items| ==> items[i] == items[1..][i - 1];
      match Apply(f, items[0])
      case Fail(e) => Raise(e)
      case Skip => Walk(items[1..], f)
      case Keep(v) => Prefixed([v], Walk(items[1..], f))
  }

  /** The list loop, run item by item. */
  method WalkLoop(items: seq<Value>, f: Body) returns (r: Result<seq<Value>>)
    ensures r == Walk(items, f)
  {
    var acc: seq<Value> := [];
    var i := 0;
    assert items[0..] == items;
    PrefixedNil(Walk(items, f));
    while i < |items|
      invariant 0 <= i <= |items|
      invariant Walk(items, f) == Prefixed(acc, Walk(items[i..], f))
    {
      assert items[i..][1..] == items[i + 1..];
      match Apply(f, items[i]) {
        case Fail(e) =>
          return Raise(e);
        case Skip =>
        case Keep(v) =>
          PrefixedAssoc(acc, [v], Walk(items[i + 1..], f));
          acc := acc + [v];
      }
      i := i + 1;
    }
    assert acc + [] == acc;
    return Ok(acc);
  }

  /** When every item is kept, the loop is a map: same length, same order. */
  lemma {:induction false} WalkMaps(items: seq<Value>, f: Body)
    requires forall i :: 0 <= i < |items| ==> Apply(f, items[i]).Keep?
    ensures Walk(items, f).Ok? && |Walk(items, f).value| == |items|
    ensures forall i :: 0 <= i < |items| ==> Walk(items, f).value[i] == Apply(f, items[i]).v
    decreases |items|
  {
    if items != [] {
      assert forall i :: 1 <= i < |items| ==> items[i] == items[1..][i - 1];
      WalkMaps(items[1..], f);
    }
  }

  /** Every output item is what the body kept for some input item. */
  lemma {:induction false} WalkFrom(items: seq<Value>, f: Body, j: nat)
    requires Walk(items, f).Ok? && j < |Walk(items, f).value|
    ensures exists i :: 0 <= i < |items| && Apply(f, items[i]) == Keep(Walk(items, f).value[j])
    decreases |items|
  {
    var out := Walk(items, f).value;
    assert forall i :: 1 <= i < |items| ==> items[i] == items[1..][i - 1];
    match Apply(f, items[0])
    case Skip =>
      WalkFrom(items[1..], f, j);
      var i :| 0 <= i < |items[1..]| && Apply(f, items[1..][i]) == Keep(out[j]);
      assert Apply(f, items[i + 1]) == Keep(out[j]);
    case Keep(v) =>
      if j > 0 {
        WalkFrom(items[1..], f, j - 1);
        var i :| 0 <= i < |items[1..]| && Apply(f, items[1..][i]) == Keep(Walk(items[1..], f).value[j - 1]);
        assert Apply(f, items[i + 1]) == Keep(out[j]);
      } else {
        assert Apply(f, items[0]) == Keep(out[0]);
      }
  }

  /** The loop over `a`, continued over `b` when it did not raise. */
  function Then(r: Result<seq<Value>>, b: seq<Value>, f: Body): Result<seq<Value>> {
    match r
    case Raise(e) => Raise(e)
    case Ok(xs) => Prefixed(xs, Walk(b, f))
  }

  /** The loop over a concatenation is the loop over each part, outputs in the same order. */
  lemma {:induction false} WalkAppend(a: seq<Value>, b: seq<Value>, f: Body)
    ensures Walk(a + b, f) == Then(Walk(a, f), b, f)
    decreases |a|
  {
    if a == [] {
      assert a + b == b;
      PrefixedNil(Walk(b, f));
    } else {
      assert (a + b)[0] == a[0];
      assert (a + b)[1..] == a[1..] + b;
      WalkAppend(a[1..], b, f);
      var w1 := Walk(a[1..], f);
      if Apply(f, a[0]).Keep? && w1.Ok? {
        PrefixedAssoc([Apply(f, a[0]).v], w1.value, Walk(b, f));
      }
    }
  }

  /** App lists: a known entry is translated, an unknown one passes through with a warning naming the rule. */
  function AppStep(m: map<string, string>, named: bool, x: Value): (s: Step)
    ensures !s.Skip?
    ensures s.Keep? && Known(m, x) ==> s.v == Str(m[x.s])
    ensures s.Keep? && !Known(m, x) ==> s.v == x
    ensures s.Fail? <==> x.List? || x.Obj? || (!Known(m, x) && !named)
  {
    match Lookup(m, x)
    case Raise(e) => Fail(e)
    case Ok(Some(y)) => Keep(Str(y))
    case Ok(None) => if named then Keep(x) else Fail("KeyError")
  }

  /** Security prefix and zone lists: a known entry is translated (global table first), an unknown one dropped. */
  function KnownStep(global: map<string, string>, local: map<string, string>, x: Value): (s: Step)
    ensures s.Fail? <==> x.List? || x.Obj?
    ensures s.Keep? <==> Known(global, x) || Known(local, x)
    ensures s.Keep? ==> s.v == Str(if x.s in global then global[x.s] else local[x.s])
  {
    match Lookup(global, x)
    case Raise(e) => Fail(e)
    case Ok(Some(y)) => Keep(Str(y))
    case Ok(None) => if Known(local, x) then Keep(Str(local[x.s])) else Skip
  }

  /** WAN-interface paths: each must be a dict; a known `label` is translated. */
  function LabelStep(m: map<string, string>, x: Value): (s: Step)
    ensures !s.Skip?
    ensures s.Fail? <==> !x.Obj? || At(x, "label").List? || At(x, "label").Obj?
    ensures s.Keep? && Known(m, At(x, "label")) ==> s.v == Put(x, "label", Str(m[At(x, "label").s]))
    ensures s.Keep? && !Known(m, At(x, "label")) ==> s.v == x
  {
    if !x.Obj? then Fail("AttributeError")
    else match Lookup(m, At(x, "label"))
      case Raise(e) => Fail(e)
      case Ok(Some(y)) => Keep(Put(x, "label", Str(y)))
      case Ok(None) => Keep(x)
  }

  /** Rule-order lists: a rule known under `(set id, entry)` is translated, others dropped. */
  function OrderStep(m: map<(string, string), string>, setId: string, x: Value): (s: Step)
    ensures s.Fail? <==> x.List? || x.Obj?
    ensures s.Keep? <==> x.Str? && (setId, x.s) in m
    ensures s.Keep? ==> s.v == Str(m[(setId, x.s)])
  {
    match x
    case Str(s) => if (setId, s) in m then Keep(Str(m[(setId, s)])) else Skip
    case List(_) => Fail("TypeError")
    case Obj(_) => Fail("TypeError")
    case _ => Skip
  }

  /** Rule-order names resolved through the ids recorded during the push; names not recorded are dropped. */
  function RecordStep(rec: seq<Field>, x: Value): (s: Step)
    ensures s.Fail? <==> x.List? || x.Obj?
    ensures s.Keep? <==> x.Str? && Find(rec, x.s).Some?
    ensures s.Keep? ==> s.v == Find(rec, x.s).value
  {
    match x
    case Str(n) => if Find(rec, n).Some? then Keep(Find(rec, n).value) else Skip
    case List(_) => Fail("TypeError")
    case Obj(_) => Fail("TypeError")
    case _ => Skip
  }

  /**
   * The stack member swap of the NAT and Performance pushers: an entry is
   * read as a set id of this run (`str(item)`), turned into its name, and the
   * name into the id recorded for it; anything unknown stays as it was.
   */
  function SwapStep(idName: map<Value, string>, newIds: map<string, Value>, x: Value): (s: Step)
    ensures !s.Skip?
    ensures s.Fail? <==> Str(PyStr(x)) !in idName && (x.List? || x.Obj?)
    ensures s.Keep? && Str(PyStr(x)) in idName ==>
              s.v == (if idName[Str(PyStr(x))] in newIds then newIds[idName[Str(PyStr(x))]] else x)
    ensures s.Keep? && Str(PyStr(x)) !in idName && x.Str? ==> s.v == (if x.s in newIds then newIds[x.s] else x)
  {
    var key := Str(PyStr(x));
    var itemName := if key in idName then Str(idName[key]) else x;
    match itemName
    case Str(n) => Keep(if n in newIds then newIds[n] else x)
    case List(_) => Fail("TypeError")
    case Obj(_) => Fail("TypeError")
    case _ => Keep(x)
  }

  /** `xs = rule.get(key)`; `if xs is not None: rule[key] = <loop over xs>`. */
  function MapList(rule: Value, key: string, f: Body): (r: Result<Value>)
    ensures At(rule, key) == Null ==> r == Ok(rule)
    ensures At(rule, key) != Null && Iterate(At(rule, key)).None? ==> r.Raise?
    ensures r.Ok? && At(rule, key) != Null ==>
              Iterate(At(rule, key)).Some? && Walk(Iterate(At(rule, key)).value, f).Ok? &&
              r.value == Put(rule, key, List(Walk(Iterate(At(rule, key)).value, f).value))
    ensures r.Ok? ==> (r.value.Obj? <==> rule.Obj?)
  {
    match ListOf(At(rule, key), f)
    case Raise(e) => Raise(e)
    case Ok(None) => Ok(rule)
    case Ok(Some(ys)) => Ok(Put(rule, key, ys))
  }

  /** What a list loop writes back for the list `xs`: nothing for None, else the kept items. */
  function ListOf(xs: Value, f: Body): Result<Option<Value>> {
    if xs == Null then Ok(None)
    else match Iterate(xs)
      case None => Raise("TypeError")
      case Some(items) =>
        var ys :- Walk(items, f);
        Ok(Some(List(ys)))
  }

  /** `paths_allowed[key]`: the loop's output, `[]` when the list is absent. */
  function PathList(pa: Value, key: string, m: map<string, string>): (r: Result<Value>)
    ensures r.Ok? && At(pa, key) == Null ==> r.value == Put(pa, key, List([]))
    ensures r.Ok? && At(pa, key) != Null ==>
              Iterate(At(pa, key)).Some? && Walk(Iterate(At(pa, key)).value, LabelBody(m)).Ok? &&
              r.value == Put(pa, key, List(Walk(Iterate(At(pa, key)).value, LabelBody(m)).value))
  {
    var xs := At(pa, key);
    if xs == Null then Ok(Put(pa, key, List([])))
    else match Iterate(xs)
      case None => Raise("TypeError")
      case Some(items) =>
        var ys :- Walk(items, LabelBody(m));
        Ok(Put(pa, key, List(ys)))
  }

  /** Labels in `paths_allowed`: the three path lists, each always written back. */
  function PathsAllowed(rule: Value, m: map<string, string>): (r: Result<Value>)
    ensures At(rule, "paths_allowed") == Null ==> r == Ok(Put(rule, "paths_allowed", Null))
    ensures At(rule, "paths_allowed") != Null && !At(rule, "paths_allowed").Obj? ==> r.Raise?
    ensures r.Ok? ==> (r.value.Obj? <==> rule.Obj?) && forall k | k != "paths_allowed" :: Get(r.value, k) == Get(rule, k)
  {
    var pa :- PathsAllowedOf(At(rule, "paths_allowed"), m);
    Ok(Put(rule, "paths_allowed", pa))
  }

  /** What is written back to `paths_allowed`: None as it is, a dict with its three lists translated. */
  function PathsAllowedOf(pa: Value, m: map<string, string>): Result<Value> {
    if pa == Null then Ok(Null)
    else if !pa.Obj? then Raise("AttributeError")
    else
      var pa1 :- PathList(pa, "active_paths", m);
      var pa2 :- PathList(pa1, "backup_paths", m);
      PathList(pa2, "l3_failure_paths", m)
  }

  /** Service labels in `service_context`, which is always written back. */
  function ServiceContext(rule: Value, m: map<string, string>): (r: Result<Value>)
    ensures At(rule, "service_context") == Null ==> r == Ok(Put(rule, "service_context", Null))
    ensures At(rule, "service_context") != Null && !At(rule, "service_context").Obj? ==> r.Raise?
    ensures r.Ok? ==> (r.value.Obj? <==> rule.Obj?) && forall k | k != "service_context" :: Get(r.value, k) == Get(rule, k)
  {
    var sc :- ServiceContextOf(At(rule, "service_context"), m);
    Ok(Put(rule, "service_context", sc))
  }

  /** What is written back to `service_context`: None as it is, a dict with its two labels translated. */
  function ServiceContextOf(sc: Value, m: map<string, string>): Result<Value> {
    if sc == Null then Ok(Null)
    else if !sc.Obj? then Raise("AttributeError")
    else
      var sc1 :- MapScalar(sc, "active_service_label_id", m);
      MapScalar(sc1, "backup_service_label_id", m)
  }

  /** The app loop of a rule; a miss reads `rule["name"]` for its warning. */
  function Apps(t: Tables, dir: Dir, rule: Value): (r: Result<Value>)
    ensures At(rule, "app_def_ids") == Null ==> r == Ok(rule)
    ensures r.Ok? ==> (r.value.Obj? <==> rule.Obj?) && forall k | k != "app_def_ids" :: Get(r.value, k) == Get(rule, k)
  {
    MapList(rule, "app_def_ids", AppBody(Table(RefIx(t, AppDefs), dir), Has(rule, "name")))
  }

  /** The fields `translate_rule` rewrites in a path rule. */
  const PathKeys: seq<string> :=
    ["network_context_id", "source_prefixes_id", "destination_prefixes_id", "service_context", "app_def_ids", "paths_allowed"]

  /** `translate_rule` for a path rule: its six steps in order. */
  function PathRule(t: Tables, dir: Dir, rule: Value): (r: Result<Value>)
    ensures !rule.Obj? ==> r.Raise?
  {
    if !rule.Obj? then Raise("AttributeError") else Stages(PathSteps(t, dir), rule, |PathKeys|)
  }

  /** The `i`-th step of a path rule, which rewrites `PathKeys[i]`. */
  function PathStep(t: Tables, dir: Dir, i: nat, r: Value): (r': Result<Value>)
    ensures i < |PathKeys| && r'.Ok? ==> (r'.value.Obj? <==> r.Obj?) && forall k | k != PathKeys[i] :: Get(r'.value, k) == Get(r, k)
  {
    var g, l := Table(RefIx(t, NwGlobalPrefixes), dir), Table(RefIx(t, NwLocalPrefixes), dir);
    if i == 0 then MapScalar(r, PathKeys[0], Table(RefIx(t, NetworkContexts), dir))
    else if i == 1 then MapPrefix(r, PathKeys[1], g, l)
    else if i == 2 then MapPrefix(r, PathKeys[2], g, l)
    else if i == 3 then ServiceContext(r, Table(RefIx(t, ServiceLabels), dir))
    else if i == 4 then Apps(t, dir, r)
    else PathsAllowed(r, Table(RefIx(t, WanLabels), dir))
  }

  function PathSteps(t: Tables, dir: Dir): (nat, Value) -> Result<Value> {
    (i: nat, r: Value) => PathStep(t, dir, i, r)
  }

  /** A step's outcome on its own key depends only on what the rule holds there. */
  lemma MapScalarLocal(a: Value, b: Value, key: string, m: map<string, string>)
    requires a.Obj? && b.Obj? && Get(a, key) == Get(b, key)
    ensures MapScalar(a, key, m).Ok? <==> MapScalar(b, key, m).Ok?
    ensures MapScalar(a, key, m).Ok? ==> Get(MapScalar(a, key, m).value, key) == Get(MapScalar(b, key, m).value, key)
  {
  }

  lemma MapPrefixLocal(a: Value, b: Value, key: string, g: map<string, string>, l: map<string, string>)
    requires a.Obj? && b.Obj? && Get(a, key) == Get(b, key)
    ensures MapPrefix(a, key, g, l).Ok? <==> MapPrefix(b, key, g, l).Ok?
    ensures MapPrefix(a, key, g, l).Ok? ==> Get(MapPrefix(a, key, g, l).value, key) == Get(MapPrefix(b, key, g, l).value, key)
  {
  }

  lemma ServiceContextLocal(a: Value, b: Value, m: map<string, string>)
    requires a.Obj? && b.Obj? && Get(a, "service_context") == Get(b, "service_context")
    ensures ServiceContext(a, m).Ok? <==> ServiceContext(b, m).Ok?
    ensures ServiceContext(a, m).Ok? ==> Get(ServiceContext(a, m).value, "service_context") == Get(ServiceContext(b, m).value, "service_context")
  {
    assert At(a, "service_context") == At(b, "service_context");
  }

  lemma AppsLocal(t: Tables, dir: Dir, a: Value, b: Value)
    requires a.Obj? && b.Obj? && Get(a, "app_def_ids") == Get(b, "app_def_ids") && Has(a, "name") == Has(b, "name")
    ensures Apps(t, dir, a).Ok? <==> Apps(t, dir, b).Ok?
    ensures Apps(t, dir, a).Ok? ==> Get(Apps(t, dir, a).value, "app_def_ids") == Get(Apps(t, dir, b).value, "app_def_ids")
  {
    assert At(a, "app_def_ids") == At(b, "app_def_ids");
  }

  lemma PathsAllowedLocal(a: Value, b: Value, m: map<string, string>)
    requires a.Obj? && b.Obj? && Get(a, "paths_allowed") == Get(b, "paths_allowed")
    ensures PathsAllowed(a, m).Ok? <==> PathsAllowed(b, m).Ok?
    ensures PathsAllowed(a, m).Ok? ==> Get(PathsAllowed(a, m).value, "paths_allowed") == Get(PathsAllowed(b, m).value, "paths_allowed")
  {
    assert At(a, "paths_allowed") == At(b, "paths_allowed");
  }

  /** A path step's outcome on its own field depends only on what the rule holds there (and, for apps, on whether it is named). */
  lemma PathStepLocal(t: Tables, dir: Dir, i: nat, a: Value, b: Value)
    requires i < |PathKeys|
    requires a.Obj? && b.Obj? && Get(a, PathKeys[i]) == Get(b, PathKeys[i]) && Get(a, "name") == Get(b, "name")
    ensures PathStep(t, dir, i, a).Ok? <==> PathStep(t, dir, i, b).Ok?
    ensures PathStep(t, dir, i, a).Ok? ==> Get(PathStep(t, dir, i, a).value, PathKeys[i]) == Get(PathStep(t, dir, i, b).value, PathKeys[i])
  {
    if i < 3 {
      PathStepLocalEarly(t, dir, i, a, b);
    } else {
      PathStepLocalLate(t, dir, i, a, b);
    }
  }

  /** `PathStepLocal` for the three identifier fields. */
  lemma PathStepLocalEarly(t: Tables, dir: Dir, i: nat, a: Value, b: Value)
    requires i < 3
    requires a.Obj? && b.Obj? && Get(a, PathKeys[i]) == Get(b, PathKeys[i]) && Get(a, "name") == Get(b, "name")
    ensures PathStep(t, dir, i, a).Ok? <==> PathStep(t, dir, i, b).Ok?
    ensures PathStep(t, dir, i, a).Ok? ==> Get(PathStep(t, dir, i, a).value, PathKeys[i]) == Get(PathStep(t, dir, i, b).value, PathKeys[i])
  {
    var g, l := Table(RefIx(t, NwGlobalPrefixes), dir), Table(RefIx(t, NwLocalPrefixes), dir);
    if i == 0 {
      var m := Table(RefIx(t, NetworkContexts), dir);
      assert PathStep(t, dir, i, a) == MapScalar(a, "network_context_id", m) && PathStep(t, dir, i, b) == MapScalar(b, "network_context_id", m);
      MapScalarLocal(a, b, "network_context_id", m);
    } else if i == 1 {
      assert PathStep(t, dir, i, a) == MapPrefix(a, "source_prefixes_id", g, l) && PathStep(t, dir, i, b) == MapPrefix(b, "source_prefixes_id", g, l);
      MapPrefixLocal(a, b, "source_prefixes_id", g, l);
    } else {
      assert PathStep(t, dir, i, a) == MapPrefix(a, "destination_prefixes_id", g, l) && PathStep(t, dir, i, b) == MapPrefix(b, "destination_prefixes_id", g, l);
      MapPrefixLocal(a, b, "destination_prefixes_id", g, l);
    }
  }

  /** `PathStepLocal` for the service context, the apps and the allowed paths. */
  lemma PathStepLocalLate(t: Tables, dir: Dir, i: nat, a: Value, b: Value)
    requires 3 <= i < |PathKeys|
    requires a.Obj? && b.Obj? && Get(a, PathKeys[i]) == Get(b, PathKeys[i]) && Get(a, "name") == Get(b, "name")
    ensures PathStep(t, dir, i, a).Ok? <==> PathStep(t, dir, i, b).Ok?
    ensures PathStep(t, dir, i, a).Ok? ==> Get(PathStep(t, dir, i, a).value, PathKeys[i]) == Get(PathStep(t, dir, i, b).value, PathKeys[i])
  {
    if i == 3 {
      var m := Table(RefIx(t, ServiceLabels), dir);
      assert PathStep(t, dir, i, a) == ServiceContext(a, m) && PathStep(t, dir, i, b) == ServiceContext(b, m);
      ServiceContextLocal(a, b, m);
    } else if i == 4 {
      assert Has(a, "name") == Has(b, "name");
      assert PathStep(t, dir, i, a) == Apps(t, dir, a) && PathStep(t, dir, i, b) == Apps(t, dir, b);
      AppsLocal(t, dir, a, b);
    } else {
      var m := Table(RefIx(t, WanLabels), dir);
      assert PathStep(t, dir, i, a) == PathsAllowed(a, m) && PathStep(t, dir, i, b) == PathsAllowed(b, m);
      PathsAllowedLocal(a, b, m);
    }
  }

  /**
   * A path rule that is a dict translates exactly when each of its six
   * steps succeeds on the rule as loaded; then each of the six fields is
   * what its own step makes of it, and every other field is unchanged.
   */
  lemma PathRuleFields(t: Tables, dir: Dir, rule: Value)
    requires rule.Obj?
    ensures PathRule(t, dir, rule).Ok? <==> forall i | 0 <= i < |PathKeys| :: PathStep(t, dir, i, rule).Ok?
    ensures PathRule(t, dir, rule).Ok? ==>
              forall i | 0 <= i < |PathKeys| :: Get(PathRule(t, dir, rule).value, PathKeys[i]) == Get(PathStep(t, dir, i, rule).value, PathKeys[i])
    ensures PathRule(t, dir, rule).Ok? ==> forall k | k !in PathKeys :: Get(PathRule(t, dir, rule).value, k) == Get(rule, k)
  {
    var step, get, dict := PathSteps(t, dir), (v: Value, k: string) => Get(v, k), (v: Value) => v.Obj?;
    forall i: nat, r: Value | i < |PathKeys| && step(i, r).Ok?
      ensures (dict(step(i, r).value) <==> dict(r)) && forall k | k != PathKeys[i] :: get(step(i, r).value, k) == get(r, k)
    {
    }
    forall i: nat, a: Value, b: Value |
      i < |PathKeys| && dict(a) && dict(b) && get(a, PathKeys[i]) == get(b, PathKeys[i]) && get(a, "name") == get(b, "name")
      ensures (step(i, a).Ok? <==> step(i, b).Ok?) &&
              (step(i, a).Ok? ==> get(step(i, a).value, PathKeys[i]) == get(step(i, b).value, PathKeys[i]))
    {
      PathStepLocal(t, dir, i, a, b);
    }
    PathKeysDistinct();
    StagesIndependent(step, get, dict, PathKeys, "name", rule, |PathKeys|);
    StagesFrame(step, get, dict, PathKeys, rule, |PathKeys|);
    assert PathRule(t, dir, rule) == Stages(step, rule, |PathKeys|);
    assert forall i | 0 <= i < |PathKeys| :: step(i, rule) == PathStep(t, dir, i, rule);
  }

  /** The six rewritten fields are distinct, and none of them is `name`. */
  lemma PathKeysDistinct()
    ensures "name" !in PathKeys
    ensures forall i, j | 0 <= i < j < |PathKeys| :: PathKeys[i] != PathKeys[j]
  {
    forall i, j | 0 <= i < j < |PathKeys|
      ensures PathKeys[i] != PathKeys[j]
    {
      assert |PathKeys[i]| != |PathKeys[j]| || PathKeys[i][0] != PathKeys[j][0];
    }
    forall i | 0 <= i < |PathKeys|
      ensures PathKeys[i] != "name"
    {
      assert |PathKeys[i]| != |"name"|;
    }
  }


  /** `translate_rule` for a QoS rule. */
  function QosRule(t: Tables, dir: Dir, rule: Value): (r: Result<Value>)
    ensures !rule.Obj? ==> r.Raise?
    ensures r.Ok? ==> forall k | k !in ["network_context_id", "source_prefixes_id", "destination_prefixes_id", "app_def_ids"] ::
              Get(r.value, k) == Get(rule, k)
  {
    if !rule.Obj? then Raise("AttributeError")
    else
      var r1 :- MapScalar(rule, "network_context_id", Table(RefIx(t, NetworkContexts), dir));
      var r2 :- MapPrefix(r1, "source_prefixes_id", Table(RefIx(t, QosGlobalPrefixes), dir), Table(RefIx(t, QosLocalPrefixes), dir));
      var r3 :- MapPrefix(r2, "destination_prefixes_id", Table(RefIx(t, QosGlobalPrefixes), dir), Table(RefIx(t, QosLocalPrefixes), dir));
      var r := Apps(t, dir, r3);
      assert r.Ok? ==> forall k | k !in ["network_context_id", "source_prefixes_id", "destination_prefixes_id", "app_def_ids"] ::
                         Get(r.value, k) == Get(rule, k) by {
        if r.Ok? {
          forall k | k !in ["network_context_id", "source_prefixes_id", "destination_prefixes_id", "app_def_ids"]
            ensures Get(r.value, k) == Get(rule, k)
          {
            assert k != "network_context_id" && k != "source_prefixes_id" && k != "destination_prefixes_id" && k != "app_def_ids";
          }
        }
      }
      r
  }

  /** `translate_rule` for a security rule: prefix and zone lists keep only what the catalog knows. */
  function SecurityRule(t: Tables, dir: Dir, rule: Value): (r: Result<Value>)
    ensures !rule.Obj? ==> r.Raise?
    ensures r.Ok? ==> forall k | k !in ["source_prefix_ids", "destination_prefix_ids", "source_zone_ids", "destination_zone_ids", "app_def_ids"] ::
              Get(r.value, k) == Get(rule, k)
  {
    if !rule.Obj? then Raise("AttributeError")
    else
      var prefixes := KnownBody(Table(RefIx(t, NgfwGlobalPrefixes), dir), Table(RefIx(t, NgfwLocalPrefixes), dir));
      var zones := KnownBody(Table(RefIx(t, SecurityZones), dir), map[]);
      var r1 :- MapList(rule, "source_prefix_ids", prefixes);
      var r2 :- MapList(r1, "destination_prefix_ids", prefixes);
      var r3 :- MapList(r2, "source_zone_ids", zones);
      var r4 :- MapList(r3, "destination_zone_ids", zones);
      Apps(t, dir, r4)
  }

  /** A scalar reference translated to an ID reads back, under the inverse table, as the name it was. */
  lemma ScalarRoundTrip(ix: Index, rule: Value, key: string)
    requires Inverse(ix)
    requires rule.Obj? && Known(ix.nameId, At(rule, key))
    ensures MapScalar(rule, key, Table(ix, N2ID)).Ok?
    ensures var there := MapScalar(rule, key, Table(ix, N2ID)).value;
            MapScalar(there, key, Table(ix, ID2N)).Ok? &&
            forall k :: Get(MapScalar(there, key, Table(ix, ID2N)).value, k) == Get(rule, k)
  {
    var n := At(rule, key).s;
    var there := MapScalar(rule, key, Table(ix, N2ID)).value;
    assert there == Put(rule, key, Str(ix.nameId[n]));
    assert At(there, key) == Str(ix.nameId[n]);
    var back := MapScalar(there, key, Table(ix, ID2N)).value;
    assert back == Put(there, key, Str(n));
    assert Get(rule, key) == Some(Str(n));
  }

  /** App lists keep their length and order: known entries translated, the rest passed through. */
  lemma AppsPassThrough(m: map<string, string>, named: bool, items: seq<Value>)
    requires Walk(items, AppBody(m, named)).Ok?
    ensures |Walk(items, AppBody(m, named)).value| == |items|
    ensures forall i :: 0 <= i < |items| ==>
              Walk(items, AppBody(m, named)).value[i] == if Known(m, items[i]) then Str(m[items[i].s]) else items[i]
  {
    WalkMaps(items, AppBody(m, named));
  }

  /** With inverse tables, translating a list of known app names to IDs and back restores it. */
  lemma AppsRoundTrip(ix: Index, named: bool, items: seq<Value>)
    requires Inverse(ix)
    requires forall i :: 0 <= i < |items| ==> Known(ix.nameId, items[i])
    ensures Walk(items, AppBody(Table(ix, N2ID), named)).Ok?
    ensures Walk(Walk(items, AppBody(Table(ix, N2ID), named)).value, AppBody(Table(ix, ID2N), named)) == Ok(items)
  {
    var there := AppBody(Table(ix, N2ID), named);
    var home := AppBody(Table(ix, ID2N), named);
    WalkMaps(items, there);
    var ids := Walk(items, there).value;
    forall i | 0 <= i < |ids|
      ensures Apply(home, ids[i]) == Keep(items[i])
    {
      assert Apply(there, items[i]) == Keep(Str(ix.nameId[items[i].s]));
      assert ids[i] == Str(ix.nameId[items[i].s]);
    }
    WalkMaps(ids, home);
    var back := Walk(ids, home).value;
    assert back == items;
  }

  /** Security lists keep only catalogued entries: every output item translates some known input item. */
  lemma KnownFrom(global: map<string, string>, local: map<string, string>, items: seq<Value>, j: nat)
    requires Walk(items, KnownBody(global, local)).Ok? && j < |Walk(items, KnownBody(global, local)).value|
    ensures exists i :: 0 <= i < |items| && (Known(global, items[i]) || Known(local, items[i])) &&
                        Walk(items, KnownBody(global, local)).value[j] == KnownStep(global, local, items[i]).v
  {
    var f := KnownBody(global, local);
    WalkFrom(items, f, j);
    var i :| 0 <= i < |items| && Apply(f, items[i]) == Keep(Walk(items, f).value[j]);
    assert KnownStep(global, local, items[i]) == Keep(Walk(items, f).value[j]);
  }

  /** A list whose entries are all catalogued keeps its length, each entry translated in place. */
  lemma KnownAllKept(global: map<string, string>, local: map<string, string>, items: seq<Value>)
    requires forall i :: 0 <= i < |items| ==> Known(global, items[i]) || Known(local, items[i])
    ensures Walk(items, KnownBody(global, local)).Ok?
    ensures |Walk(items, KnownBody(global, local)).value| == |items|
    ensures forall i :: 0 <= i < |items| ==> Walk(items, KnownBody(global, local)).value[i] == KnownStep(global, local, items[i]).v
  {
    WalkMaps(items, KnownBody(global, local));
  }

  /** A list entry nobody catalogued never reaches the output, wherever it stands. */
  lemma UnknownDropped(global: map<string, string>, local: map<string, string>, a: seq<Value>, x: Value, b: seq<Value>)
    requires x.Str? && !Known(global, x) && !Known(local, x)
    requires Walk(a + [x] + b, KnownBody(global, local)).Ok?
    ensures Walk(a, KnownBody(global, local)).Ok? && Walk(b, KnownBody(global, local)).Ok?
    ensures Walk(a + [x] + b, KnownBody(global, local)).value ==
            Walk(a, KnownBody(global, local)).value + Walk(b, KnownBody(global, local)).value
  {
    var f := KnownBody(global, local);
    WalkAppend(a + [x], b, f);
    WalkAppend(a, [x], f);
    assert [x][1..] == [];
    assert Apply(f, x) == Skip;
    assert Walk([x], f) == Ok([]);
    var wa := Walk(a, f);
    if wa.Ok? {
      assert wa.value + [] == wa.value;
    }
  }

  /** NAT action types: display name to API enum. */
  const NatNameEnum: map<string, string> := map[
    "No NAT" := "no_nat",
    "Source NAT" := "source_nat_dynamic",
    "Destination NAT" := "destination_nat_dynamic",
    "Static Source NAT" := "source_nat_static",
    "Static Destination NAT" := "destination_nat_static",
    "ALG Disable" := "alg_disable"]

  /** NAT action types: API enum to display name. */
  const NatEnumName: map<string, string> := map[
    "no_nat" := "No NAT",
    "source_nat_dynamic" := "Source NAT",
    "destination_nat_dynamic" := "Destination NAT",
    "source_nat_static" := "Static Source NAT",
    "destination_nat_static" := "Static Destination NAT",
    "alg_disable" := "ALG Disable"]

  function NatTypes(dir: Dir): map<string, string> {
    if dir == N2ID then NatNameEnum else NatEnumName
  }

  /** The two action-type tables are each other's inverse. */
  lemma NatTypesInverse()
    ensures Inverse(Index(NatEnumName, NatNameEnum))
  {
    forall n | n in NatNameEnum
      ensures NatNameEnum[n] in NatEnumName && NatEnumName[NatNameEnum[n]] == n
    {
    }
    forall i | i in NatEnumName
      ensures NatEnumName[i] in NatNameEnum && NatNameEnum[NatEnumName[i]] == i
    {
    }
  }

  /**
   * One pass of the NAT action loop: the action as the loop leaves it, and
   * whether the body completed. The pool is written before the type is
   * looked up, so a bad type leaves a pool-translated action behind.
   */
  function NatAction(pools: map<string, string>, types: map<string, string>, a: Value): (r: (Value, bool))
    ensures r.1 <==> a.Obj? && !At(a, "nat_pool_id").List? && !At(a, "nat_pool_id").Obj? && Get(a, "type").Some? && Known(types, Get(a, "type").value)
    ensures r.1 ==> Get(r.0, "type") == Some(Str(types[Get(a, "type").value.s]))
    ensures forall k | k != "type" && k != "nat_pool_id" :: Get(r.0, k) == Get(a, k)
  {
    if !a.Obj? then (a, false)
    else match Lookup(pools, At(a, "nat_pool_id"))
      case Raise(_) => (a, false)
      case Ok(p) =>
        var a1 := if p.Some? then Put(a, "nat_pool_id", Str(p.value)) else a;
        match Get(a, "type")
        case None => (a1, false)
        case Some(ty) =>
          if Known(types, ty) then (Put(a1, "type", Str(types[ty.s])), true) else (a1, false)
  }

  /** The NAT action list as the loop leaves it, and whether the loop completed. */
  function NatActions(pools: map<string, string>, types: map<string, string>, items: seq<Value>): (r: (seq<Value>, bool))
    ensures |r.0| == |items|
    ensures r.1 <==> forall i :: 0 <= i < |items| ==> NatAction(pools, types, items[i]).1
    decreases |items|
  {
    if items == [] then ([], true)
    else
      assert forall i :: 1 <= i < |items| ==> items[i] == items[1..][i - 1];
      var (a, ok) := NatAction(pools, types, items[0]);
      if !ok then ([a] + items[1..], false)
      else
        var (rest, ok') := NatActions(pools, types, items[1..]);
        ([a] + rest, ok')
  }

  /** Position of the first action whose body fails (`|items|` when none does). */
  function FirstFailure(pools: map<string, string>, types: map<string, string>, items: seq<Value>): (j: nat)
    ensures j <= |items|
    ensures forall i :: 0 <= i < j ==> NatAction(pools, types, items[i]).1
    ensures j < |items| ==> !NatAction(pools, types, items[j]).1
    decreases |items|
  {
    if items == [] then 0
    else if !NatAction(pools, types, items[0]).1 then 0
    else
      assert forall i :: 1 <= i < |items| ==> items[i] == items[1..][i - 1];
      1 + FirstFailure(pools, types, items[1..])
  }

  /** The actions before the first failure are translated, the failing one is half done, the rest untouched. */
  lemma {:induction false} NatActionsPartial(pools: map<string, string>, types: map<string, string>, items: seq<Value>)
    ensures var j := FirstFailure(pools, types, items);
            var r := NatActions(pools, types, items).0;
            && (forall i :: 0 <= i < j ==> r[i] == NatAction(pools, types, items[i]).0)
            && (j < |items| ==> r[j] == NatAction(pools, types, items[j]).0 && r[j + 1..] == items[j + 1..])
    decreases |items|
  {
    if items != [] && NatAction(pools, types, items[0]).1 {
      NatActionsPartial(pools, types, items[1..]);
      var r := NatActions(pools, types, items).0;
      var rest := NatActions(pools, types, items[1..]).0;
      assert r[1..] == rest;
      var j := FirstFailure(pools, types, items[1..]);
      assert forall i :: 1 <= i < |items| ==> items[i] == items[1..][i - 1];
      if j < |items[1..]| {
        assert r[j + 2..] == rest[j + 1..];
        assert items[1..][j + 1..] == items[j + 2..];
      }
    }
  }

  /** The NAT action loop, updating the list in place. */
  method NatActionsLoop(pools: map<string, string>, types: map<string, string>, items: seq<Value>) returns (xs: seq<Value>, ok: bool)
    ensures xs == NatActions(pools, types, items).0 && ok == NatActions(pools, types, items).1
  {
    xs := items;
    var i := 0;
    while i < |items|
      invariant 0 <= i <= |items| && |xs| == |items|
      invariant forall k :: 0 <= k < i ==> NatAction(pools, types, items[k]).1 && xs[k] == NatAction(pools, types, items[k]).0
      invariant forall k :: i <= k < |items| ==> xs[k] == items[k]
    {
      ghost var before := xs;
      var step := NatAction(pools, types, items[i]);
      xs := xs[i := step.0];
      assert forall k :: 0 <= k < |xs| && k != i ==> xs[k] == before[k];
      if !step.1 {
        SettleNat(pools, types, items, xs, i);
        return xs, false;
      }
      i := i + 1;
    }
    SettleNat(pools, types, items, xs, |items|);
    ok := true;
  }

  /** The loop's state at the first failing action (or at the end) is the specification's. */
  lemma SettleNat(pools: map<string, string>, types: map<string, string>, items: seq<Value>, xs: seq<Value>, i: nat)
    requires i <= |items| && |xs| == |items|
    requires forall k :: 0 <= k < i ==> NatAction(pools, types, items[k]).1 && xs[k] == NatAction(pools, types, items[k]).0
    requires i < |items| ==> !NatAction(pools, types, items[i]).1 && xs[i] == NatAction(pools, types, items[i]).0
    requires forall k :: i < k < |items| ==> xs[k] == items[k]
    ensures xs == NatActions(pools, types, items).0
    ensures NatActions(pools, types, items).1 <==> i == |items|
  {
    FirstFailureAt(pools, types, items, i);
    NatActionsPartial(pools, types, items);
    Scan.StoppedAt(NatActions(pools, types, items).0, xs, items, a => NatAction(pools, types, a).0, i);
  }

  /** The first failure is the one position whose action fails after a run of passing ones. */
  lemma FirstFailureAt(pools: map<string, string>, types: map<string, string>, items: seq<Value>, i: nat)
    requires i <= |items|
    requires forall k :: 0 <= k < i ==> NatAction(pools, types, items[k]).1
    requires i < |items| ==> !NatAction(pools, types, items[i]).1
    ensures FirstFailure(pools, types, items) == i
  {
  }

  /** The state a NAT translation leaves: the (possibly half-translated) object and whether it raised. */
  datatype Outcome = Outcome(v: Value, raised: bool)

  /** The prefix and zone steps of a NAT rule: the rule as far as they got, and whether all of them passed. */
  function NatHead(t: Tables, dir: Dir, rule: Value): (Value, bool) {
    var g := Table(RefIx(t, NatGlobalPrefixes), dir);
    var l := Table(RefIx(t, NatLocalPrefixes), dir);
    var z := Table(RefIx(t, NatZones), dir);
    match MapPrefix(rule, "source_prefixes_id", g, l)
    case Raise(_) => (rule, false)
    case Ok(r1) =>
      match MapPrefix(r1, "destination_prefixes_id", g, l)
      case Raise(_) => (r1, false)
      case Ok(r2) =>
        match MapScalar(r2, "source_zone_id", z)
        case Raise(_) => (r2, false)
        case Ok(r3) =>
          match MapScalar(r3, "destination_zone_id", z)
          case Raise(_) => (r3, false)
          case Ok(r4) => (r4, true)
  }

  /** The head steps leave `actions` alone. */
  lemma NatHeadKeepsActions(t: Tables, dir: Dir, rule: Value)
    ensures At(NatHead(t, dir, rule).0, "actions") == At(rule, "actions")
  {
    var g := Table(RefIx(t, NatGlobalPrefixes), dir);
    var l := Table(RefIx(t, NatLocalPrefixes), dir);
    var z := Table(RefIx(t, NatZones), dir);
    assert "actions" != "source_prefixes_id" && "actions" != "destination_prefixes_id";
    assert "actions" != "source_zone_id" && "actions" != "destination_zone_id";
    var s1 := MapPrefix(rule, "source_prefixes_id", g, l);
    if s1.Ok? {
      assert Get(s1.value, "actions") == Get(rule, "actions");
      var s2 := MapPrefix(s1.value, "destination_prefixes_id", g, l);
      if s2.Ok? {
        assert Get(s2.value, "actions") == Get(rule, "actions");
        var s3 := MapScalar(s2.value, "source_zone_id", z);
        if s3.Ok? {
          assert Get(s3.value, "actions") == Get(rule, "actions");
          var s4 := MapScalar(s3.value, "destination_zone_id", z);
          if s4.Ok? {
            assert Get(s4.value, "actions") == Get(rule, "actions");
          }
        }
      }
    }
  }

  /** `translate_rule` for a NAT rule; on an exception, the rule as far as it got. */
  function NatRule(t: Tables, dir: Dir, rule: Value): (r: Outcome)
    ensures !rule.Obj? ==> r == Outcome(rule, true)
    ensures !r.raised ==>
              Iterate(At(rule, "actions")).Some? &&
              Get(r.v, "actions") == Some(List(NatActions(Table(RefIx(t, NatPools), dir), NatTypes(dir), Iterate(At(rule, "actions")).value).0))
  {
    if !rule.Obj? then Outcome(rule, true)
    else
      var (r4, ok) := NatHead(t, dir, rule);
      var acts := At(r4, "actions");
      NatHeadKeepsActions(t, dir, rule);
      if !ok then Outcome(r4, true)
      else match Iterate(acts)
        case None => Outcome(r4, true)
        case Some(items) =>
          var (xs, done) := NatActions(Table(RefIx(t, NatPools), dir), NatTypes(dir), items);
          if done then Outcome(Put(r4, "actions", List(xs)), false)
          else if acts.List? then Outcome(Put(r4, "actions", List(xs)), true)
          else Outcome(r4, true)
  }

  /** An action type survives N2ID then ID2N. */
  lemma NatTypeRoundTrip(pools: Index, a: Value)
    requires NatAction(Table(pools, N2ID), NatNameEnum, a).1
    ensures Get(NatAction(Table(pools, ID2N), NatEnumName, NatAction(Table(pools, N2ID), NatNameEnum, a).0).0, "type") == Get(a, "type")
  {
    var there := NatAction(Table(pools, N2ID), NatNameEnum, a).0;
    var ty := Get(a, "type").value.s;
    assert Get(there, "type") == Some(Str(NatNameEnum[ty]));
    NatTypesInverse();
    assert NatEnumName[NatNameEnum[ty]] == ty;
    assert there.Obj?;
    assert !At(there, "nat_pool_id").List? && !At(there, "nat_pool_id").Obj?;
  }

  /** `translate_stack`: the default set and the member sets, by the domain's set table. */
  function Stack(t: Tables, d: Domain, dir: Dir, stack: Value): (r: Outcome)
    ensures d == Performance || stack == Null ==> r == Outcome(stack, false)
    ensures d != Performance && !stack.Obj? && stack != Null ==> r.raised
    ensures stack.Obj? ==> r.v.Obj?
    ensures forall k | k != "defaultrule_policyset_id" && k != "policyset_ids" :: Get(r.v, k) == Get(stack, k)
  {
    if d == Performance || stack == Null then Outcome(stack, false)
    else if !stack.Obj? then Outcome(stack, true)
    else
      var m := Table(SetsOf(t, d).ix, dir);
      match Lookup(m, At(stack, "defaultrule_policyset_id"))
      case Raise(_) => Outcome(stack, true)
      case Ok(p) =>
        var s1 := if p.Some? then Put(stack, "defaultrule_policyset_id", Str(p.value)) else stack;
        var ids := At(s1, "policyset_ids");
        if ids == Null then Outcome(Put(s1, "policyset_ids", List([])), false)
        else match Iterate(ids)
          case None => Outcome(s1, true)
          case Some(items) =>
            match Walk(items, KnownBody(m, map[]))
            case Raise(_) => Outcome(s1, true)
            case Ok(ys) => Outcome(Put(s1, "policyset_ids", List(ys)), false)
  }

  /** The member sets a stack ends with: `[]` when it named none, else its catalogued sets, translated, in document order. */
  lemma StackMembers(t: Tables, d: Domain, dir: Dir, stack: Value)
    requires d != Performance && stack.Obj? && !Stack(t, d, dir, stack).raised
    ensures At(stack, "policyset_ids") == Null ==> Get(Stack(t, d, dir, stack).v, "policyset_ids") == Some(List([]))
    ensures At(stack, "policyset_ids") != Null ==>
              Iterate(At(stack, "policyset_ids")).Some? &&
              Walk(Iterate(At(stack, "policyset_ids")).value, KnownBody(Table(SetsOf(t, d).ix, dir), map[])).Ok? &&
              Get(Stack(t, d, dir, stack).v, "policyset_ids") ==
                Some(List(Walk(Iterate(At(stack, "policyset_ids")).value, KnownBody(Table(SetsOf(t, d).ix, dir), map[])).value))
  {
    var m := Table(SetsOf(t, d).ix, dir);
    var p := Lookup(m, At(stack, "defaultrule_policyset_id"));
    assert p.Ok?;
    var s1 := if p.value.Some? then Put(stack, "defaultrule_policyset_id", Str(p.value.value)) else stack;
    assert At(s1, "policyset_ids") == At(stack, "policyset_ids");
  }

  /** A rule-order list of a set: only rules of this set the catalog knows, in order. */
  function Orders(data: Value, key: string, m: map<(string, string), string>, setId: string): (r: Result<Value>)
    ensures At(data, key) == Null ==> r == Ok(data)
    ensures r.Ok? ==> forall k | k != key :: Get(r.value, k) == Get(data, k)
  {
    MapList(data, key, OrderBody(m, setId))
  }

  /** `translate_set`: NAT's two zone orders, Security's rule order; other domains unchanged. */
  function Set(t: Tables, d: Domain, dir: Dir, setId: string, data: Value): (r: Result<Value>)
    ensures d !in {Nat, Security} || data == Null ==> r == Ok(data)
    ensures d in {Nat, Security} && data != Null && !data.Obj? ==> r.Raise?
    ensures r.Ok? && d == Nat ==> forall k | k != "destination_zone_policyrule_order" && k != "source_zone_policyrule_order" ::
              Get(r.value, k) == Get(data, k)
    ensures r.Ok? && d == Security ==> forall k | k != "policyrule_order" :: Get(r.value, k) == Get(data, k)
  {
    if d !in {Nat, Security} || data == Null then Ok(data)
    else if !data.Obj? then Raise("AttributeError")
    else
      var m := RuleTable(RulesOf(t, d), dir);
      if d == Nat then
        var s1 :- Orders(data, "destination_zone_policyrule_order", m, setId);
        Orders(s1, "source_zone_policyrule_order", m, setId)
      else Orders(data, "policyrule_order", m, setId)
  }

  /** An order entry survives only if it names a rule of this very set. */
  lemma OrderKeepsOwnRules(m: map<(string, string), string>, setId: string, items: seq<Value>, j: nat)
    requires Walk(items, OrderBody(m, setId)).Ok? && j < |Walk(items, OrderBody(m, setId)).value|
    ensures exists i :: 0 <= i < |items| && items[i].Str? && (setId, items[i].s) in m &&
                        Walk(items, OrderBody(m, setId)).value[j] == Str(m[(setId, items[i].s)])
  {
    var f := OrderBody(m, setId);
    WalkFrom(items, f, j);
    var i :| 0 <= i < |items| && Apply(f, items[i]) == Keep(Walk(items, f).value[j]);
    assert OrderStep(m, setId, items[i]) == Keep(Walk(items, f).value[j]);
  }
}
