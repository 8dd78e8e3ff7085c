/**
 * Change detection: `compareconf` reduces the change list `dictdiffer.diff`
 * reports between a desired and a live object to the top-level keys that
 * changed. The push engine's variant keeps the first segment of dotted paths
 * and the head of list paths; the restore tool's variant ignores list paths.
 *
 * `Diff` stands in for `dictdiffer.diff` at the granularity `compareconf`
 * looks at: one change per top-level key present on both sides with different
 * values, reported at the key (as a list path when the key contains a dot, as
 * dictdiffer does), and additions and removals of top-level keys reported at
 * the empty path.
 */
module Compare {
  import opened Json
  import opened Wrappers
  import Text

  datatype DiffKind = Change | Add | Delete

  /** A reported path: dotted (`"a.b"`, `""` for the top level) or a list whose head is a top-level key. */
  datatype DiffPath = Dotted(s: string) | Keyed(head: string, rest: seq<Value>)

  datatype DiffItem = DiffItem(kind: DiffKind, path: DiffPath)

  /** The push engine's `compareconf` and the restore tool's. */
  datatype Variant = Push | Restore

  /** The key a reported path contributes, if any. */
  function Head(v: Variant, p: DiffPath): (r: Option<string>)
    ensures v == Restore ==> r.None? || (p.Dotted? && r.value != "" && '.' !in r.value)
    ensures p.Dotted? && p.s == "" ==> r.None?
  {
    match p
    case Dotted(s) =>
      var res := if '.' in s then Text.Before(s, '.') else s;
      if v == Push then
        (if '.' in s then Some(res) else if s == "" then None else Some(s))
      else
        (if res == "" then None else Some(res))
    case Keyed(h, _) =>
      if v == Push then Some(h) else None
  }

  /** Appending a key unless it is already there. */
  function AddNew(acc: seq<string>, k: Option<string>): seq<string> {
    if k.Some? && k.value !in acc then acc + [k.value] else acc
  }

  /** Some reported item contributes key `k`. */
  predicate Reports(v: Variant, items: seq<DiffItem>, k: string) {
    exists j :: 0 <= j < |items| && Head(v, items[j].path) == Some(k)
  }

  predicate NoDuplicates(ks: seq<string>) {
    forall a, b :: 0 <= a < b < |ks| ==> ks[a] != ks[b]
  }

  /** `resources_updated` after scanning `items`. */
  function ChangedKeys(v: Variant, items: seq<DiffItem>): (r: seq<string>)
    ensures NoDuplicates(r)
    ensures forall k :: k in r <==> Reports(v, items, k)
    ensures items == [] ==> r == []
    decreases |items|
  {
    if items == [] then []
    else
      var front := items[..|items| - 1];
      var r := AddNew(ChangedKeys(v, front), Head(v, items[|items| - 1].path));
      assert forall j :: 0 <= j < |front| ==> front[j] == items[j];
      assert forall k :: Reports(v, front, k) ==> Reports(v, items, k);
      r
  }

  /**
   * Keys come out in the order they are first reported: a key listed after
   * another is never reported before the other has been.
   */
  lemma {:induction false} ChangedKeysFirstAppearance(v: Variant, items: seq<DiffItem>, a: nat, b: nat, j: nat)
    requires a < b < |ChangedKeys(v, items)|
    requires j < |items| && Head(v, items[j].path) == Some(ChangedKeys(v, items)[b])
    ensures exists j0 :: 0 <= j0 < j && Head(v, items[j0].path) == Some(ChangedKeys(v, items)[a])
    decreases |items|
  {
    var r := ChangedKeys(v, items);
    var front := items[..|items| - 1];
    var rf := ChangedKeys(v, front);
    assert forall i :: 0 <= i < |front| ==> front[i] == items[i];
    if b < |rf| {
      assert r[a] == rf[a] && r[b] == rf[b];
      if j < |front| {
        ChangedKeysFirstAppearance(v, front, a, b, j);
      } else {
        assert rf[a] in rf;
        var j0 :| 0 <= j0 < |front| && Head(v, front[j0].path) == Some(rf[a]);
      }
    } else {
      assert r[b] !in rf;
      if j < |front| {
        assert false;
      } else {
        assert r[a] == rf[a] && rf[a] in rf;
        var j0 :| 0 <= j0 < |front| && Head(v, front[j0].path) == Some(rf[a]);
      }
    }
  }

  /** The push engine's loop over the reported changes. */
  method CompareConf(items: seq<DiffItem>) returns (keys: seq<string>)
    ensures keys == ChangedKeys(Push, items)
  {
    keys := [];
    var i := 0;
    while i < |items|
      invariant 0 <= i <= |items|
      invariant keys == ChangedKeys(Push, items[..i])
    {
      assert items[..i + 1][..i] == items[..i];
      match items[i].path {
        case Dotted(s) =>
          if '.' in s {
            var first := Text.Before(s, '.');
            if first !in keys {
              keys := keys + [first];
            }
          } else if s !in keys {
            if s != "" {
              keys := keys + [s];
            }
          }
        case Keyed(h, _) =>
          if h !in keys {
            keys := keys + [h];
          }
      }
      i := i + 1;
    }
    assert items[..|items|] == items;
  }

  /**
   * The push variant only reports the empty key when some dotted path starts
   * with a dot or some list path has an empty head (an empty top-level key).
   */
  lemma PushNeverEmpty(items: seq<DiffItem>)
    requires forall j :: 0 <= j < |items| ==>
               (items[j].path.Dotted? ==> |items[j].path.s| == 0 || items[j].path.s[0] != '.') &&
               (items[j].path.Keyed? ==> items[j].path.head != "")
    ensures "" !in ChangedKeys(Push, items)
  {
    forall j | 0 <= j < |items|
      ensures Head(Push, items[j].path) != Some("")
    {
      if items[j].path.Dotted? && '.' in items[j].path.s {
        var s := items[j].path.s;
        assert Text.StartsWith(s, Text.Before(s, '.'));
      }
    }
  }

  /** The restore variant never reports the empty key nor a key reached through a list path. */
  lemma RestoreIgnoresListPaths(items: seq<DiffItem>, k: string)
    requires k in ChangedKeys(Restore, items)
    ensures k != ""
    ensures exists j :: 0 <= j < |items| && items[j].path.Dotted? && Head(Restore, items[j].path) == Some(k)
  {
  }

  /** On changes reported only through dotted paths that start with a key, both variants agree. */
  lemma {:induction false} VariantsAgreeOnDotted(items: seq<DiffItem>)
    requires forall j :: 0 <= j < |items| ==> items[j].path.Dotted? && (|items[j].path.s| == 0 || items[j].path.s[0] != '.')
    ensures ChangedKeys(Push, items) == ChangedKeys(Restore, items)
    decreases |items|
  {
    if items != [] {
      var front := items[..|items| - 1];
      assert forall j :: 0 <= j < |front| ==> front[j] == items[j];
      VariantsAgreeOnDotted(front);
      var s := items[|items| - 1].path.s;
      assert Text.StartsWith(s, Text.Before(s, '.'));
    }
  }

  /** Whether `compareconf(desired, live)` finds anything to update. */
  predicate Changed(desired: Value, live: Value) {
    ChangedKeys(Push, Diff(desired, live)) != []
  }

  /** The path dictdiffer reports a top-level key at. */
  function KeyPath(k: string): DiffPath {
    if '.' in k then Keyed(k, []) else Dotted(k)
  }

  /** Changes for the keys `ks` of `a`, removals for those `b` lacks. */
  function KeyChanges(ks: seq<string>, a: seq<Field>, b: seq<Field>): (r: seq<DiffItem>)
    ensures (forall k :: k in ks ==> Find(b, k).Some? && Find(a, k) == Find(b, k)) ==> r == []
    ensures forall j :: 0 <= j < |r| ==>
              (r[j].kind == Change && exists i :: 0 <= i < |ks| && r[j].path == KeyPath(ks[i]) && Find(b, ks[i]).Some? && Find(a, ks[i]) != Find(b, ks[i]))
              || (r[j].kind == Delete && r[j].path == Dotted(""))
    ensures forall i :: 0 <= i < |ks| && Find(b, ks[i]).Some? && Find(a, ks[i]) != Find(b, ks[i]) ==> DiffItem(Change, KeyPath(ks[i])) in r
    decreases |ks|
  {
    if ks == [] then []
    else
      var k := ks[0];
      var head :=
        if Find(b, k).None? then [DiffItem(Delete, Dotted(""))]
        else if Find(a, k) != Find(b, k) then [DiffItem(Change, KeyPath(k))]
        else [];
      var r := head + KeyChanges(ks[1..], a, b);
      assert forall i :: 1 <= i < |ks| ==> ks[i] == ks[1..][i - 1];
      r
  }

  /** Additions: the keys `ks` of `b` that `a` lacks, reported at the empty path. */
  function Additions(ks: seq<string>, a: seq<Field>): (r: seq<DiffItem>)
    ensures forall j :: 0 <= j < |r| ==> r[j] == DiffItem(Add, Dotted(""))
  {
    if exists k :: k in ks && k !in Keys(a) then [DiffItem(Add, Dotted(""))] else []
  }

  /** Stand-in for `dictdiffer.diff(desired, live)`. */
  function Diff(a: Value, b: Value): (r: seq<DiffItem>)
    ensures a == b ==> r == []
  {
    if a.Obj? && b.Obj? then
      KeyChanges(Keys(a.fields), a.fields, b.fields) + Additions(Keys(b.fields), a.fields)
    else if a == b then []
    else [DiffItem(Change, Dotted(""))]
  }

  /** A top-level key is reported under its own name, except the empty key. */
  lemma HeadOfKeyPath(k: string)
    ensures Head(Push, KeyPath(k)) == if k == "" then None else Some(k)
  {
    if '.' in k {
      assert Text.StartsWith(k, Text.Before(k, '.'));
    }
  }

  lemma ReportedChange(a: seq<Field>, b: seq<Field>, items: seq<DiffItem>, k: string)
    requires items == KeyChanges(Keys(a), a, b) + Additions(Keys(b), a)
    requires Reports(Push, items, k)
    ensures k != "" && Find(a, k).Some? && Find(b, k).Some? && Find(a, k) != Find(b, k)
  {
    var ks := Keys(a);
    var changes := KeyChanges(ks, a, b);
    var j :| 0 <= j < |items| && Head(Push, items[j].path) == Some(k);
    if j < |changes| {
      assert items[j] == changes[j];
      var i :| 0 <= i < |ks| && changes[j].path == KeyPath(ks[i]) && Find(b, ks[i]).Some? && Find(a, ks[i]) != Find(b, ks[i]);
      HeadOfKeyPath(ks[i]);
    }
  }

  lemma ChangeReported(a: seq<Field>, b: seq<Field>, items: seq<DiffItem>, k: string)
    requires items == KeyChanges(Keys(a), a, b) + Additions(Keys(b), a)
    requires k != "" && Find(a, k).Some? && Find(b, k).Some? && Find(a, k) != Find(b, k)
    ensures Reports(Push, items, k)
  {
    var ks := Keys(a);
    var changes := KeyChanges(ks, a, b);
    var i :| 0 <= i < |ks| && ks[i] == k;
    assert DiffItem(Change, KeyPath(k)) in changes;
    var j :| 0 <= j < |changes| && changes[j] == DiffItem(Change, KeyPath(k));
    assert items[j] == changes[j];
    HeadOfKeyPath(k);
  }

  /**
   * What the push engine's `compareconf(desired, live)` reports for two
   * objects: exactly the non-empty top-level keys present on both sides with
   * different values. Keys only one side has (the live `id`, `_etag`, ...)
   * never count.
   */
  lemma ChangedKeysOfDiff(a: Value, b: Value, k: string)
    requires a.Obj? && b.Obj?
    ensures k in ChangedKeys(Push, Diff(a, b)) <==> k != "" && Has(a, k) && Has(b, k) && Get(a, k) != Get(b, k)
  {
    var items := Diff(a, b);
    if Reports(Push, items, k) {
      ReportedChange(a.fields, b.fields, items, k);
    }
    if k != "" && Has(a, k) && Has(b, k) && Get(a, k) != Get(b, k) {
      ChangeReported(a.fields, b.fields, items, k);
    }
  }

  /** Identical objects never trigger an update. */
  lemma UnchangedWhenEqual(a: Value)
    ensures !Changed(a, a)
  {
  }
}
