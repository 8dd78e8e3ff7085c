/**
 * Documents as the scripts handle them after `yaml.safe_load` / `response.json()`:
 * Python dicts, lists and scalars. A dict is an association list, so that the
 * insertion order Python iterates in is part of the value; `Assign` and `Remove`
 * are `d[k] = v` and `del d[k]` with Python's semantics (assignment to an
 * existing key keeps its position, a new key goes to the end).
 */
module Json {
  import opened Wrappers
  import Text

  datatype Field = Field(key: string, val: Value)

  datatype Value =
    | Null
    | Bool(b: bool)
    | Int(i: int)
    | Str(s: string)
    | List(items: seq<Value>)
    | Obj(fields: seq<Field>)

  /** `list(d.keys())` */
  function Keys(fs: seq<Field>): (ks: seq<string>)
    ensures |ks| == |fs|
    ensures forall i | 0 <= i < |fs| :: ks[i] == fs[i].key
  {
    seq(|fs|, i requires 0 <= i < |fs| => fs[i].key)
  }

  /** A well-formed dict never repeats a key. */
  predicate UniqueKeys(fs: seq<Field>) {
    forall i, j | 0 <= i < j < |fs| :: fs[i].key != fs[j].key
  }

  /** Position of the first entry for `k`, or `|fs|` when there is none. */
  function IndexOf(fs: seq<Field>, k: string): (i: nat)
    ensures i <= |fs|
    ensures i < |fs| ==> fs[i].key == k
    ensures forall j | 0 <= j < i :: fs[j].key != k
  {
    if fs == [] then 0
    else if fs[0].key == k then 0
    else 1 + IndexOf(fs[1..], k)
  }

  /** `d[k]` / `d.get(k)`: the value stored under the first occurrence of `k`. */
  function Find(fs: seq<Field>, k: string): (r: Option<Value>)
    ensures r.Some? <==> k in Keys(fs)
    ensures r.Some? ==> Field(k, r.value) in fs
  {
    var i := IndexOf(fs, k);
    if i < |fs| then Some(fs[i].val) else None
  }

  /** `IndexOf` is determined by its contract: any first position is the one it returns. */
  lemma IndexOfIs(fs: seq<Field>, k: string, i: nat)
    requires i <= |fs|
    requires i < |fs| ==> fs[i].key == k
    requires forall j | 0 <= j < i :: fs[j].key != k
    ensures IndexOf(fs, k) == i
  {
    var m := IndexOf(fs, k);
  }

  lemma FindCons(x: Field, fs: seq<Field>, k: string)
    ensures Find([x] + fs, k) == if x.key == k then Some(x.val) else Find(fs, k)
  {
    var r := [x] + fs;
    if x.key == k {
      IndexOfIs(r, k, 0);
    } else {
      var j := IndexOf(fs, k);
      assert forall m | 1 <= m < |r| :: r[m] == fs[m - 1];
      IndexOfIs(r, k, 1 + j);
    }
  }

  /** A key is looked up in the first part of a dict literal, else in the rest. */
  lemma FindAppend(a: seq<Field>, b: seq<Field>, k: string)
    ensures Find(a + b, k) == if k in Keys(a) then Find(a, k) else Find(b, k)
  {
    var i := IndexOf(a, k);
    if i < |a| {
      IndexOfIs(a + b, k, i);
    } else {
      var j := IndexOf(b, k);
      assert forall m | 0 <= m < |a| + j :: (a + b)[m].key != k by {
        forall m | 0 <= m < |a| + j ensures (a + b)[m].key != k {
          if m >= |a| {
            assert (a + b)[m] == b[m - |a|];
          }
        }
      }
      IndexOfIs(a + b, k, |a| + j);
    }
  }

  lemma KeysAppend(a: seq<Field>, b: seq<Field>)
    ensures Keys(a + b) == Keys(a) + Keys(b)
  {
  }

  /** `d[k] = v` */
  function Assign(fs: seq<Field>, k: string, v: Value): (r: seq<Field>)
    ensures Find(r, k) == Some(v)
    ensures forall k' | k' != k :: Find(r, k') == Find(fs, k')
    ensures k in Keys(fs) ==> Keys(r) == Keys(fs)
    ensures k !in Keys(fs) ==> Keys(r) == Keys(fs) + [k]
    ensures UniqueKeys(fs) ==> UniqueKeys(r)
  {
    var i := IndexOf(fs, k);
    var r := if i < |fs| then fs[i := Field(k, v)] else fs + [Field(k, v)];
    AssignFinds(fs, k, v, i, r);
    AssignShape(fs, k, v, i, r);
    r
  }

  lemma AssignFinds(fs: seq<Field>, k: string, v: Value, i: nat, r: seq<Field>)
    requires i == IndexOf(fs, k)
    requires r == if i < |fs| then fs[i := Field(k, v)] else fs + [Field(k, v)]
    ensures Find(r, k) == Some(v)
    ensures forall k' | k' != k :: Find(r, k') == Find(fs, k')
  {
    IndexOfIs(r, k, i);
    forall k' | k' != k
      ensures Find(r, k') == Find(fs, k')
    {
      AssignFindsOther(fs, k, v, i, r, k');
    }
  }

  lemma AssignFindsOther(fs: seq<Field>, k: string, v: Value, i: nat, r: seq<Field>, k': string)
    requires i == IndexOf(fs, k) && k' != k
    requires r == if i < |fs| then fs[i := Field(k, v)] else fs + [Field(k, v)]
    ensures Find(r, k') == Find(fs, k')
  {
    var m := IndexOf(fs, k');
    assert forall j | 0 <= j < |fs| :: r[j].key == k' <==> fs[j].key == k';
    if m < |fs| {
      assert r[m] == fs[m];
      IndexOfIs(r, k', m);
    } else {
      IndexOfIs(r, k', |r|);
    }
  }

  lemma AssignShape(fs: seq<Field>, k: string, v: Value, i: nat, r: seq<Field>)
    requires i == IndexOf(fs, k)
    requires r == if i < |fs| then fs[i := Field(k, v)] else fs + [Field(k, v)]
    ensures k in Keys(fs) ==> Keys(r) == Keys(fs)
    ensures k !in Keys(fs) ==> Keys(r) == Keys(fs) + [k]
    ensures UniqueKeys(fs) ==> UniqueKeys(r)
  {
    assert k !in Keys(fs) ==> Keys(r) == Keys(fs) + [k];
  }

  /** The keys after an assignment are the old keys and the assigned one. */
  lemma AssignKeys(fs: seq<Field>, k: string, v: Value, j: string)
    ensures j in Keys(Assign(fs, k, v)) <==> j in Keys(fs) || j == k
  {
    if k !in Keys(fs) {
      assert Keys(Assign(fs, k, v)) == Keys(fs) + [k];
    }
  }


  /** `del d[k]` (and `d.pop(k, None)`): every occurrence of `k` goes, the rest keeps its order. */
  function Remove(fs: seq<Field>, k: string): (r: seq<Field>)
    ensures Find(r, k) == None
    ensures forall k' | k' != k :: Find(r, k') == Find(fs, k')
    ensures forall k' :: k' in Keys(r) <==> k' in Keys(fs) && k' != k
    ensures k !in Keys(fs) ==> r == fs
    ensures UniqueKeys(fs) ==> UniqueKeys(r)
  {
    if fs == [] then []
    else
      var tail := Remove(fs[1..], k);
      var r := if fs[0].key == k then tail else [fs[0]] + tail;
      RemoveStep(fs, k, tail, r);
      r
  }

  /** One step of `Remove`: its contract carries over from the tail to the whole list. */
  lemma RemoveStep(fs: seq<Field>, k: string, tail: seq<Field>, r: seq<Field>)
    requires fs != []
    requires Find(tail, k) == None
    requires forall k' | k' != k :: Find(tail, k') == Find(fs[1..], k')
    requires forall k' :: k' in Keys(tail) <==> k' in Keys(fs[1..]) && k' != k
    requires k !in Keys(fs[1..]) ==> tail == fs[1..]
    requires UniqueKeys(fs[1..]) ==> UniqueKeys(tail)
    requires r == if fs[0].key == k then tail else [fs[0]] + tail
    ensures Find(r, k) == None
    ensures forall k' | k' != k :: Find(r, k') == Find(fs, k')
    ensures forall k' :: k' in Keys(r) <==> k' in Keys(fs) && k' != k
    ensures k !in Keys(fs) ==> r == fs
    ensures UniqueKeys(fs) ==> UniqueKeys(r)
  {
    RemoveStepFind(fs, k, tail, r);
    RemoveStepKeys(fs, k, r);
    RemoveStepUnique(fs, k, tail, r);
  }

  lemma RemoveStepKeys(fs: seq<Field>, k: string, r: seq<Field>)
    requires fs != []
    requires Find(r, k) == None
    requires forall k' | k' != k :: Find(r, k') == Find(fs, k')
    ensures forall k' :: k' in Keys(r) <==> k' in Keys(fs) && k' != k
  {
    forall k' ensures k' in Keys(r) <==> k' in Keys(fs) && k' != k {
      assert Find(r, k').Some? <==> k' in Keys(r);
      assert Find(fs, k').Some? <==> k' in Keys(fs);
    }
  }

  lemma RemoveStepUnique(fs: seq<Field>, k: string, tail: seq<Field>, r: seq<Field>)
    requires fs != []
    requires forall k' :: k' in Keys(tail) ==> k' in Keys(fs[1..])
    requires k !in Keys(fs[1..]) ==> tail == fs[1..]
    requires UniqueKeys(fs[1..]) ==> UniqueKeys(tail)
    requires r == if fs[0].key == k then tail else [fs[0]] + tail
    ensures k !in Keys(fs) ==> r == fs
    ensures UniqueKeys(fs) ==> UniqueKeys(r)
  {
    if k !in Keys(fs) {
      RemoveStepSame(fs, k, tail, r);
    }
    if UniqueKeys(fs) {
      UniqueRest(fs);
      if fs[0].key != k {
        ConsUnique(fs, tail, r);
      }
    }
  }

  lemma RemoveStepSame(fs: seq<Field>, k: string, tail: seq<Field>, r: seq<Field>)
    requires fs != [] && k !in Keys(fs)
    requires k !in Keys(fs[1..]) ==> tail == fs[1..]
    requires r == if fs[0].key == k then tail else [fs[0]] + tail
    ensures r == fs
  {
    assert Keys(fs)[0] == fs[0].key;
    forall i | 0 <= i < |fs| - 1
      ensures Keys(fs[1..])[i] != k
    {
      assert Keys(fs[1..])[i] == Keys(fs)[i + 1];
    }
    assert fs == [fs[0]] + fs[1..];
  }

  lemma UniqueRest(fs: seq<Field>)
    requires fs != [] && UniqueKeys(fs)
    ensures UniqueKeys(fs[1..])
  {
    forall i, j | 0 <= i < j < |fs| - 1
      ensures fs[1..][i].key != fs[1..][j].key
    {
      assert fs[1..][i] == fs[i + 1] && fs[1..][j] == fs[j + 1];
    }
  }

  lemma ConsUnique(fs: seq<Field>, tail: seq<Field>, r: seq<Field>)
    requires fs != [] && UniqueKeys(fs)
    requires forall k' :: k' in Keys(tail) ==> k' in Keys(fs[1..])
    requires UniqueKeys(fs[1..]) ==> UniqueKeys(tail)
    requires r == [fs[0]] + tail
    ensures UniqueKeys(r)
  {
    var rest := fs[1..];
    assert UniqueKeys(rest);
    assert fs[0].key !in Keys(rest);
    forall i, j | 0 <= i < j < |r| ensures r[i].key != r[j].key {
      if i == 0 {
        assert r[j] == tail[j - 1];
        assert Keys(tail)[j - 1] == r[j].key;
      } else {
        assert r[i] == tail[i - 1] && r[j] == tail[j - 1];
      }
    }
  }

  lemma RemoveStepFind(fs: seq<Field>, k: string, tail: seq<Field>, r: seq<Field>)
    requires fs != []
    requires Find(tail, k) == None
    requires forall k' | k' != k :: Find(tail, k') == Find(fs[1..], k')
    requires r == if fs[0].key == k then tail else [fs[0]] + tail
    ensures Find(r, k) == None
    ensures forall k' | k' != k :: Find(r, k') == Find(fs, k')
  {
    forall k' ensures Find(fs, k') == if fs[0].key == k' then Some(fs[0].val) else Find(fs[1..], k') {
      assert fs == [fs[0]] + fs[1..];
      FindCons(fs[0], fs[1..], k');
    }
    if fs[0].key != k {
      forall k' ensures Find(r, k') == if fs[0].key == k' then Some(fs[0].val) else Find(tail, k') {
        FindCons(fs[0], tail, k');
      }
    }
  }

  /** A two-entry dict with distinct keys holds both entries, in order. */
  lemma TwoFields(k1: string, v1: Value, k2: string, v2: Value)
    requires k1 != k2
    ensures Keys([Field(k1, v1), Field(k2, v2)]) == [k1, k2]
    ensures Find([Field(k1, v1), Field(k2, v2)], k1) == Some(v1)
    ensures Find([Field(k1, v1), Field(k2, v2)], k2) == Some(v2)
  {
    IndexOfIs([Field(k1, v1), Field(k2, v2)], k2, 1);
  }

  /** `k in d` */
  predicate Has(v: Value, k: string) {
    v.Obj? && k in Keys(v.fields)
  }

  /** `d.get(k)` on a dict; `None` for a missing key (and for a value that is not a dict). */
  function Get(v: Value, k: string): Option<Value> {
    if v.Obj? then Find(v.fields, k) else None
  }

  /** `d.get(k)` / `d.get(k, None)` with Python's conflation of a missing key and a stored None. */
  function At(v: Value, k: string): Value {
    Get(v, k).GetOr(Null)
  }

  /** `d[k] = x`; a value that is not a dict is left as it is. */
  function Put(v: Value, k: string, x: Value): (r: Value)
    ensures v.Obj? ==> r.Obj? && Get(r, k) == Some(x)
    ensures forall k' | k' != k :: Get(r, k') == Get(v, k')
  {
    if v.Obj? then Obj(Assign(v.fields, k, x)) else v
  }

  /** `del d[k]` guarded by `if k in d`. */
  function Drop(v: Value, k: string): (r: Value)
    ensures Get(r, k) == None
    ensures forall k' | k' != k :: Get(r, k') == Get(v, k')
    ensures v.Obj? <==> r.Obj?
  {
    if v.Obj? then Obj(Remove(v.fields, k)) else v
  }

  /** Values a Python `set` holds or a dict accepts as a key: lists and dicts are unhashable. */
  predicate Hashable(v: Value) {
    !v.List? && !v.Obj?
  }

  /** Python truthiness (`if x:`). */
  predicate Truthy(v: Value) {
    match v
    case Null => false
    case Bool(b) => b
    case Int(i) => i != 0
    case Str(s) => s != ""
    case List(items) => items != []
    case Obj(fs) => fs != []
  }

  /** `x is True` */
  predicate IsTrue(v: Value) {
    v == Bool(true)
  }

  /** What `for x in v` visits: list items, the characters of a string, the keys of a dict; `None` is a TypeError. */
  function Iterate(v: Value): (r: Option<seq<Value>>)
    ensures r.Some? <==> v.List? || v.Str? || v.Obj?
    ensures v.List? ==> r == Some(v.items)
  {
    match v
    case List(items) => Some(items)
    case Str(s) => Some(seq(|s|, i requires 0 <= i < |s| => Str([s[i]])))
    case Obj(fs) => Some(seq(|fs|, i requires 0 <= i < |fs| => Str(fs[i].key)))
    case _ => None
  }

  /** `len(v)`; `None` where Python raises TypeError. */
  function Len(v: Value): Option<nat> {
    match v
    case List(items) => Some(|items|)
    case Str(s) => Some(|s|)
    case Obj(fs) => Some(|fs|)
    case _ => None
  }

  /** `str(v)` for the scalars the scripts stringify (ids, names, counters). */
  function PyStr(v: Value): string {
    match v
    case Null => "None"
    case Bool(b) => if b then "True" else "False"
    case Int(i) => Text.IntToString(i)
    case Str(s) => s
    case List(_) => "[...]"
    case Obj(_) => "{...}"
  }

  /** The keys of a dict value (empty for anything else). */
  function KeysOf(v: Value): seq<string> {
    if v.Obj? then Keys(v.fields) else []
  }

  /** A string stored under `k`, if there is one. */
  function StrAt(v: Value, k: string): Option<string> {
    match Get(v, k)
    case Some(Str(s)) => Some(s)
    case _ => None
  }

  /** Python's `a or b or c`: the first truthy value, else the last. */
  function FirstTruthy(vs: seq<Value>): (r: Value)
    requires |vs| > 0
    ensures Truthy(r) <==> exists i | 0 <= i < |vs| :: Truthy(vs[i])
    ensures !Truthy(r) ==> r == vs[|vs| - 1]
    ensures forall i | 0 <= i < |vs| && Truthy(vs[i]) && (forall j | 0 <= j < i :: !Truthy(vs[j])) :: r == vs[i]
    decreases |vs|
  {
    if |vs| == 1 || Truthy(vs[0]) then vs[0]
    else
      var r := FirstTruthy(vs[1..]);
      assert forall i | 1 <= i < |vs| :: vs[i] == vs[1..][i - 1];
      r
  }

  /** Every dict inside a document, in pre-order: a dict, then everything under its values in key order. */
  function Dicts(v: Value): seq<Value>
    decreases v
  {
    match v
    case Obj(fs) => [v] + DictsInFields(fs)
    case List(xs) => DictsInList(xs)
    case _ => []
  }

  function DictsInFields(fs: seq<Field>): seq<Value>
    decreases fs
  {
    if fs == [] then [] else Dicts(fs[0].val) + DictsInFields(fs[1..])
  }

  function DictsInList(xs: seq<Value>): seq<Value>
    decreases xs
  {
    if xs == [] then [] else Dicts(xs[0]) + DictsInList(xs[1..])
  }

  /** Everything `Dicts` yields is a dict. */
  lemma {:induction false} DictsAreDicts(v: Value)
    ensures forall i | 0 <= i < |Dicts(v)| :: Dicts(v)[i].Obj?
    decreases v, 2
  {
    match v
    case Obj(fs) => DictsInFieldsAreDicts(fs);
    case List(xs) => DictsInListAreDicts(xs);
    case _ =>
  }

  lemma {:induction false} DictsInFieldsAreDicts(fs: seq<Field>)
    ensures forall i | 0 <= i < |DictsInFields(fs)| :: DictsInFields(fs)[i].Obj?
    decreases fs, 1
  {
    if fs != [] {
      DictsAreDicts(fs[0].val);
      DictsInFieldsAreDicts(fs[1..]);
    }
  }

  lemma {:induction false} DictsInListAreDicts(xs: seq<Value>)
    ensures forall i | 0 <= i < |DictsInList(xs)| :: DictsInList(xs)[i].Obj?
    decreases xs, 1
  {
    if xs != [] {
      DictsAreDicts(xs[0]);
      DictsInListAreDicts(xs[1..]);
    }
  }

  /** `x` is `v` itself or lies somewhere under `v`'s values or items. */
  predicate Within(x: Value, v: Value)
    decreases v
  {
    x == v ||
    match v
    case Obj(fs) => exists i | 0 <= i < |fs| :: Within(x, fs[i].val)
    case List(xs) => exists i | 0 <= i < |xs| :: Within(x, xs[i])
    case _ => false
  }

  /** `Dicts` yields every dict inside a document and nothing else. */
  lemma {:induction false} DictsWithin(x: Value, v: Value)
    ensures x in Dicts(v) <==> x.Obj? && Within(x, v)
    decreases v, 2
  {
    match v
    case Obj(fs) => DictsInFieldsWithin(x, fs);
    case List(xs) => DictsInListWithin(x, xs);
    case _ =>
  }

  lemma {:induction false} DictsInFieldsWithin(x: Value, fs: seq<Field>)
    ensures x in DictsInFields(fs) <==> x.Obj? && exists i | 0 <= i < |fs| :: Within(x, fs[i].val)
    decreases fs, 1
  {
    if fs != [] {
      DictsWithin(x, fs[0].val);
      DictsInFieldsWithin(x, fs[1..]);
      assert forall i | 1 <= i < |fs| :: fs[1..][i - 1] == fs[i];
    }
  }

  lemma {:induction false} DictsInListWithin(x: Value, xs: seq<Value>)
    ensures x in DictsInList(xs) <==> x.Obj? && exists i | 0 <= i < |xs| :: Within(x, xs[i])
    decreases xs, 1
  {
    if xs != [] {
      DictsWithin(x, xs[0]);
      DictsInListWithin(x, xs[1..]);
      assert forall i | 1 <= i < |xs| :: xs[1..][i - 1] == xs[i];
    }
  }

  /** The dicts under a run of fields are those under each field in turn. */
  lemma {:induction false} DictsInFieldsAppend(a: seq<Field>, b: seq<Field>)
    ensures DictsInFields(a + b) == DictsInFields(a) + DictsInFields(b)
    decreases |a|
  {
    if a != [] {
      assert (a + b)[0] == a[0] && (a + b)[1..] == a[1..] + b;
      DictsInFieldsAppend(a[1..], b);
    } else {
      assert a + b == b;
    }
  }

  /** The dicts under a run of list items are those under each item in turn. */
  lemma {:induction false} DictsInListAppend(a: seq<Value>, b: seq<Value>)
    ensures DictsInList(a + b) == DictsInList(a) + DictsInList(b)
    decreases |a|
  {
    if a != [] {
      assert (a + b)[0] == a[0] && (a + b)[1..] == a[1..] + b;
      DictsInListAppend(a[1..], b);
    } else {
      assert a + b == b;
    }
  }

  lemma DictsInFieldsSnoc(fs: seq<Field>, i: nat)
    requires i < |fs|
    ensures DictsInFields(fs[..i + 1]) == DictsInFields(fs[..i]) + Dicts(fs[i].val)
  {
    DictsInFieldsAppend(fs[..i], [fs[i]]);
    assert fs[..i + 1] == fs[..i] + [fs[i]];
    assert DictsInFields([fs[i]]) == Dicts(fs[i].val) + DictsInFields([]);
  }

  lemma DictsInListSnoc(xs: seq<Value>, i: nat)
    requires i < |xs|
    ensures DictsInList(xs[..i + 1]) == DictsInList(xs[..i]) + Dicts(xs[i])
  {
    DictsInListAppend(xs[..i], [xs[i]]);
    assert xs[..i + 1] == xs[..i] + [xs[i]];
    assert DictsInList([xs[i]]) == Dicts(xs[i]) + DictsInList([]);
  }
}
