/**
 * The exporters, which read a domain's stacks, sets and rules from the
 * controller and write them out as the document the pusher reads.
 *
 * Two scripts do this. `pull_policy_master.py` (`PerDomain`) writes one
 * document per domain, keyed by the controller's collection names, with each
 * set's rules under the domain's rule key. `sdwan_master_policy.py`
 * (`Combined`) gathers every domain into one document keyed by
 * `<section>_stacks` / `<section>_sets`, collapses entries that share a name
 * and puts each set's rules under `rules`.
 *
 * Both clean every object of its metadata (shallowly, keeping `name`) and
 * turn IDs back into names: set IDs in stacks, app IDs in rules, and (for
 * performance rules only) the threshold profile, every miss passing through.
 * The controller's listings come in as item lists and the per-set rule fetch
 * as a function from the set's `id` to what the fetch returned.
 */
module Export {
  import opened Wrappers
  import opened Json
  import opened Kinds
  import opened Docs
  import Translate

  /** What a rule fetch hands back: an SDK response carrying `cgx_content`, or some other object. */
  datatype Reply = Content(content: Value) | Bare(body: Value)

  /** The ID-to-name tables `create_global_dicts_all` fills before the pull. */
  datatype Names = Names(apps: map<string, string>, thresholds: map<string, string>, sets: map<string, string>)

  /** PerDomain: `pull_policy_master.py`; Combined: `sdwan_master_policy.py`. */
  datatype Exporter = PerDomain | Combined

  const ThresholdKey := "thresholdprofile_id"
  const AppsKey := "app_def_ids"
  const MembersKey := "policyset_ids"

  /** `table.get(x, x)` */
  function Renamed(m: map<string, string>, x: Value): (r: Value)
    ensures !Translate.Known(m, x) ==> r == x
    ensures Translate.Known(m, x) ==> r == Str(m[x.s]) && r.s in m.Values
  {
    if Translate.Known(m, x) then Str(m[x.s]) else x
  }

  /** `ys` is `xs` entry by entry through `table.get(x, x)`: same length, same order. */
  predicate PassedThrough(m: map<string, string>, xs: seq<Value>, ys: seq<Value>) {
    |ys| == |xs| && forall i :: 0 <= i < |xs| ==> ys[i] == Renamed(m, xs[i])
  }

  /** `[table.get(x, x) for x in xs]` */
  function RenameAll(m: map<string, string>, xs: Value): (r: Result<seq<Value>>)
    ensures r.Ok? <==> Iterate(xs).Some? && forall i :: 0 <= i < |Iterate(xs).value| ==> Hashable(Iterate(xs).value[i])
    ensures r.Ok? ==> PassedThrough(m, Iterate(xs).value, r.value)
  {
    match Iterate(xs)
    case None => Raise("TypeError")
    case Some(items) =>
      var f := Translate.AppBody(m, true);
      assert forall i :: 0 <= i < |items| ==> (Translate.Apply(f, items[i]).Fail? <==> !Hashable(items[i]));
      var w := Translate.Walk(items, f);
      if w.Ok? then
        Translate.AppsPassThrough(m, true, items);
        w
      else w
  }

  /** `{k: body}`, the single-key wrapper both documents are made of. */
  function Wrap(k: string, body: Value): Value {
    Obj([Field(k, body)])
  }

  /** A single-key wrapper around a dict. */
  predicate Wrapper(v: Value) {
    v.Obj? && |v.fields| == 1 && v.fields[0].val.Obj?
  }

  /** `translate_rule(cleandata(r), rule_type)` of the exporters. */
  function ExportRule(d: Domain, n: Names, r: Value): (x: Result<Value>)
    ensures !r.Obj? ==> x.Raise?
    ensures x.Ok? ==> x.value.Obj?
    ensures x.Ok? ==> forall k :: k != ThresholdKey && k != AppsKey ==> Get(x.value, k) == Get(Cleaned(r, DeleteKeys), k)
    ensures x.Ok? && d == Performance && Translate.Known(n.thresholds, At(r, ThresholdKey)) ==>
              Get(x.value, ThresholdKey) == Some(Str(n.thresholds[At(r, ThresholdKey).s]))
    ensures x.Ok? && !(d == Performance && Translate.Known(n.thresholds, At(r, ThresholdKey))) ==>
              Get(x.value, ThresholdKey) == Get(r, ThresholdKey)
    ensures x.Ok? && Truthy(At(r, AppsKey)) ==>
              Iterate(At(r, AppsKey)).Some? && At(x.value, AppsKey).List? &&
              PassedThrough(n.apps, Iterate(At(r, AppsKey)).value, At(x.value, AppsKey).items)
    ensures x.Ok? && !Truthy(At(r, AppsKey)) ==> Get(x.value, AppsKey) == Get(r, AppsKey)
  {
    var rule := Cleaned(r, DeleteKeys);
    if !rule.Obj? then Raise("AttributeError")
    else
      assert ThresholdKey !in DeleteKeys && AppsKey !in DeleteKeys;
      assert ThresholdKey != AppsKey;
      var r1 :- if d == Performance then Translate.MapScalar(rule, ThresholdKey, n.thresholds) else Ok(rule);
      assert At(r1, AppsKey) == At(r, AppsKey);
      RenameApps(n, r1)
  }

  /** The rule's application ids, when it has any, turned into names. */
  function RenameApps(n: Names, r1: Value): (x: Result<Value>)
    requires r1.Obj?
    ensures x.Ok? ==> x.value.Obj? && forall k :: k != AppsKey ==> Get(x.value, k) == Get(r1, k)
    ensures x.Ok? && Truthy(At(r1, AppsKey)) ==>
              Iterate(At(r1, AppsKey)).Some? && At(x.value, AppsKey).List? &&
              PassedThrough(n.apps, Iterate(At(r1, AppsKey)).value, At(x.value, AppsKey).items)
    ensures !Truthy(At(r1, AppsKey)) ==> x == Ok(r1)
  {
    var apps := At(r1, AppsKey);
    if Truthy(apps) then
      var ids :- RenameAll(n.apps, apps);
      Ok(Put(r1, AppsKey, List(ids)))
    else Ok(r1)
  }

  /**
   * One iteration of a rule loop. `pull_policy_master.py` builds
   * `{r["name"]: translate_rule(cleandata(r), rule_type)}`, reading the name
   * before the translation; `sdwan_master_policy.py` assigns
   * `rule_config[r["name"]] = translate_rule(cleandata(r), rule_type)`,
   * translating first. Either way the name is hashed last.
   */
  function RuleEntry(x: Exporter, d: Domain, n: Names, r: Value): (e: Result<Value>)
    ensures e.Ok? ==> r.Obj? && Has(r, "name") && Hashable(At(r, "name")) &&
                      Wrapper(e.value) && e.value.fields[0].key == PyStr(At(r, "name"))
    ensures e.Ok? ==> ExportRule(d, n, r) == Ok(e.value.fields[0].val)
    ensures r.Obj? && Has(r, "name") && Hashable(At(r, "name")) && ExportRule(d, n, r).Ok? ==> e.Ok?
    ensures x == PerDomain && !r.Obj? ==> e == Raise("TypeError")
    ensures x == PerDomain && r.Obj? && !Has(r, "name") ==> e == Raise("KeyError")
    ensures x == Combined && ExportRule(d, n, r).Raise? ==> e == Raise(ExportRule(d, n, r).error)
    ensures x == Combined && ExportRule(d, n, r).Ok? && !Has(r, "name") ==> e == Raise("KeyError")
    ensures r.Obj? && Has(r, "name") && ExportRule(d, n, r).Raise? ==> e == Raise(ExportRule(d, n, r).error)
    ensures Has(r, "name") && !Hashable(At(r, "name")) && ExportRule(d, n, r).Ok? ==> e == Raise("TypeError")
  {
    if x == PerDomain && !r.Obj? then Raise("TypeError")
    else if x == PerDomain && !Has(r, "name") then Raise("KeyError")
    else
      var body :- ExportRule(d, n, r);
      if !Has(r, "name") then Raise("KeyError")
      else if !Hashable(At(r, "name")) then Raise("TypeError")
      else Ok(Wrap(PyStr(At(r, "name")), body))
  }

  /** `cleandata(s)`, its `policyset_ids` turned into set names, wrapped as `{s["name"]: clean}`. */
  function StackEntry(n: Names, s: Value): (x: Result<Value>)
    ensures !s.Obj? ==> x.Raise?
    ensures x.Ok? ==> Has(s, "name") && Hashable(At(s, "name")) && Wrapper(x.value) && x.value.fields[0].key == PyStr(At(s, "name"))
    ensures s.Obj? && !Truthy(At(s, MembersKey)) && !Has(s, "name") ==> x == Raise("KeyError")
    ensures s.Obj? && !Truthy(At(s, MembersKey)) && Has(s, "name") && !Hashable(At(s, "name")) ==> x == Raise("TypeError")
    ensures x.Ok? ==> forall k :: k != MembersKey ==> Get(x.value.fields[0].val, k) == Get(Cleaned(s, DeleteKeys), k)
    ensures x.Ok? && Truthy(At(s, MembersKey)) ==>
              Iterate(At(s, MembersKey)).Some? && At(x.value.fields[0].val, MembersKey).List? &&
              PassedThrough(n.sets, Iterate(At(s, MembersKey)).value, At(x.value.fields[0].val, MembersKey).items)
    ensures x.Ok? && !Truthy(At(s, MembersKey)) ==> Get(x.value.fields[0].val, MembersKey) == Get(s, MembersKey)
  {
    var clean := Cleaned(s, DeleteKeys);
    if !clean.Obj? then Raise("AttributeError")
    else
      assert MembersKey !in DeleteKeys;
      var ids := At(clean, MembersKey);
      var c :- if Truthy(ids) then
                 (var xs :- RenameAll(n.sets, ids); Ok(Put(clean, MembersKey, List(xs))))
               else Ok(clean);
      if !Has(s, "name") then Raise("KeyError")
      else if !Hashable(At(s, "name")) then Raise("TypeError")
      else Ok(Wrap(PyStr(At(s, "name")), c))
  }

  // ---- the loops, as folds over what each iteration yields ----

  /** A loop that appends what each iteration yields: every value in order, or the first exception. */
  function Firsts(rs: seq<Result<Value>>): (r: Result<seq<Value>>)
    ensures r.Ok? ==> |r.value| == |rs|
    decreases |rs|
  {
    if rs == [] then Ok([])
    else match rs[0]
      case Raise(e) => Raise(e)
      case Ok(v) => Translate.Prefixed([v], Firsts(rs[1..]))
  }

  /** FirstsEach over the results of one function applied to every item. */
  lemma FirstsOf<T>(f: T -> Result<Value>, xs: seq<T>, rs: seq<Result<Value>>)
    requires |rs| == |xs| && forall i :: 0 <= i < |xs| ==> rs[i] == f(xs[i])
    ensures Firsts(rs).Ok? <==> forall i :: 0 <= i < |xs| ==> f(xs[i]).Ok?
    ensures Firsts(rs).Ok? ==> forall i :: 0 <= i < |xs| ==> f(xs[i]) == Ok(Firsts(rs).value[i])
  {
    FirstsEach(rs);
  }

  lemma {:induction false} FirstsEach(rs: seq<Result<Value>>)
    ensures Firsts(rs).Ok? <==> forall i :: 0 <= i < |rs| ==> rs[i].Ok?
    ensures Firsts(rs).Ok? ==> forall i :: 0 <= i < |rs| ==> rs[i] == Ok(Firsts(rs).value[i])
    decreases |rs|
  {
    if rs != [] {
      FirstsEach(rs[1..]);
      assert forall i :: 1 <= i < |rs| ==> rs[i] == rs[1..][i - 1];
      if Firsts(rs).Ok? {
        assert Firsts(rs).value == [rs[0].value] + Firsts(rs[1..]).value;
      }
    }
  }

  /** One more successful iteration extends the values collected so far. */
  lemma OksSnoc(rs: seq<Result<Value>>, acc: seq<Value>, x: Value)
    requires |acc| < |rs| && rs[|acc|] == Ok(x)
    requires forall j :: 0 <= j < |acc| ==> rs[j] == Ok(acc[j])
    ensures forall j :: 0 <= j < |acc + [x]| ==> rs[j] == Ok((acc + [x])[j])
  {
  }

  lemma {:induction false} FirstsOk(rs: seq<Result<Value>>, acc: seq<Value>)
    requires |acc| == |rs| && forall j :: 0 <= j < |rs| ==> rs[j] == Ok(acc[j])
    ensures Firsts(rs) == Ok(acc)
    decreases |rs|
  {
    if rs != [] {
      FirstsOk(rs[1..], acc[1..]);
      assert [acc[0]] + acc[1..] == acc;
    }
  }

  /** A loop raises the error of its first failing iteration. */
  lemma {:induction false} FirstsFail(rs: seq<Result<Value>>, i: nat)
    requires i < |rs| && rs[i].Raise? && forall j :: 0 <= j < i ==> rs[j].Ok?
    ensures Firsts(rs) == Raise(rs[i].error)
    decreases i
  {
    if i > 0 {
      FirstsFail(rs[1..], i - 1);
    }
  }

  function RuleResults(x: Exporter, d: Domain, n: Names, items: seq<Value>): (rs: seq<Result<Value>>)
    ensures |rs| == |items| && forall i :: 0 <= i < |items| ==> rs[i] == RuleEntry(x, d, n, items[i])
  {
    seq(|items|, i requires 0 <= i < |items| => RuleEntry(x, d, n, items[i]))
  }

  /** The loop over a set's fetched rules, one wrapper per rule in fetch order. */
  function ExportedRules(x: Exporter, d: Domain, n: Names, items: seq<Value>): (r: Result<seq<Value>>)
    ensures r.Ok? ==> |r.value| == |items|
  {
    Firsts(RuleResults(x, d, n, items))
  }

  /** The rule loop fails exactly when some rule fails; otherwise entry `i` is the export of fetched rule `i`. */
  lemma RulesEach(x: Exporter, d: Domain, n: Names, items: seq<Value>)
    ensures ExportedRules(x, d, n, items).Ok? <==> forall i :: 0 <= i < |items| ==> RuleEntry(x, d, n, items[i]).Ok?
    ensures ExportedRules(x, d, n, items).Ok? ==>
              forall i :: 0 <= i < |items| ==> RuleEntry(x, d, n, items[i]) == Ok(ExportedRules(x, d, n, items).value[i])
  {
    FirstsEach(RuleResults(x, d, n, items));
  }

  function StackResults(n: Names, stacks: seq<Value>): (rs: seq<Result<Value>>)
    ensures |rs| == |stacks| && forall i :: 0 <= i < |stacks| ==> rs[i] == StackEntry(n, stacks[i])
  {
    seq(|stacks|, i requires 0 <= i < |stacks| => StackEntry(n, stacks[i]))
  }

  /** The stack loop: one wrapper per listed stack, in listing order. */
  function ExportedStacks(n: Names, stacks: seq<Value>): (r: Result<seq<Value>>)
    ensures r.Ok? ==> |r.value| == |stacks|
  {
    Firsts(StackResults(n, stacks))
  }

  /** The stack loop fails exactly when some stack fails; otherwise entry `i` is the export of listed stack `i`. */
  lemma StacksEach(n: Names, stacks: seq<Value>)
    ensures ExportedStacks(n, stacks).Ok? <==> forall i :: 0 <= i < |stacks| ==> StackEntry(n, stacks[i]).Ok?
    ensures ExportedStacks(n, stacks).Ok? ==>
              forall i :: 0 <= i < |stacks| ==> StackEntry(n, stacks[i]) == Ok(ExportedStacks(n, stacks).value[i])
  {
    FirstsEach(StackResults(n, stacks));
  }

  /** `c.get("items", [])` iterated; `c` must be a dict. */
  function Items(c: Value): (r: Result<seq<Value>>)
    ensures c.Obj? && !Has(c, "items") ==> r == Ok([])
    ensures c.Obj? && At(c, "items").List? ==> r == Ok(At(c, "items").items)
    ensures !c.Obj? ==> r.Raise?
  {
    if !c.Obj? then Raise("AttributeError")
    else match Iterate(Get(c, "items").GetOr(List([])))
      case None => Raise("TypeError")
      case Some(xs) => Ok(xs)
  }

  /**
   * The rules a fetch yields: a response with `cgx_content` gives its items.
   * Anything else gives none, except that the combined exporter also reads
   * the items of a bare dict.
   */
  function RuleItems(x: Exporter, reply: Reply): Result<seq<Value>> {
    match reply
    case Content(c) => Items(c)
    case Bare(b) => if x == Combined && b.Obj? then Items(b) else Ok([])
  }

  /** Where each exporter puts a set's rules. */
  function RulesKey(x: Exporter, d: Domain): string {
    if x == PerDomain then DocKey(d, Rules) else "rules"
  }

  /** The collapsing loop of the combined exporter: `cfg[k] = body` for each wrapper in turn. */
  function Collapse(entries: seq<Value>): (r: seq<Field>)
    requires forall i :: 0 <= i < |entries| ==> Wrapper(entries[i])
    ensures UniqueKeys(r)
    decreases |entries|
  {
    if entries == [] then []
    else
      var front := entries[..|entries| - 1];
      assert forall i :: 0 <= i < |front| ==> front[i] == entries[i];
      var last := entries[|entries| - 1];
      assert Wrapper(last);
      Assign(Collapse(front), last.fields[0].key, last.fields[0].val)
  }

  /** `[{k: cfg[k]} for k in cfg.keys()]` */
  function Unfold(fs: seq<Field>): (r: seq<Value>)
    ensures |r| == |fs|
    ensures forall i :: 0 <= i < |fs| ==> r[i] == Wrap(fs[i].key, fs[i].val)
  {
    seq(|fs|, i requires 0 <= i < |fs| => Wrap(fs[i].key, fs[i].val))
  }

  /** The rule list a set body carries: the wrappers themselves, or (combined) collapsed by name. */
  function Listed(x: Exporter, rules: seq<Value>): seq<Value>
    requires forall i :: 0 <= i < |rules| ==> Wrapper(rules[i])
  {
    if x == PerDomain then rules else Unfold(Collapse(rules))
  }

  /** Every exported rule is a wrapper. */
  lemma RulesWrapped(x: Exporter, d: Domain, n: Names, items: seq<Value>)
    requires ExportedRules(x, d, n, items).Ok?
    ensures forall i :: 0 <= i < |items| ==> Wrapper(ExportedRules(x, d, n, items).value[i])
  {
    RulesEach(x, d, n, items);
  }

  /** One listed set: its rules fetched by `id` and exported, then `cleandata(pset)` with them attached. */
  function SetEntry(x: Exporter, d: Domain, n: Names, fetch: Value -> Reply, pset: Value): (r: Result<Value>)
    ensures !pset.Obj? || !Has(pset, "id") || !Has(pset, "name") ==> r.Raise?
    ensures r.Ok? ==> Hashable(At(pset, "name")) && Wrapper(r.value) && r.value.fields[0].key == PyStr(At(pset, "name"))
    ensures r.Ok? ==> forall k :: k != RulesKey(x, d) ==> Get(r.value.fields[0].val, k) == Get(Cleaned(pset, DeleteKeys), k)
    ensures r.Ok? ==>
              var items := RuleItems(x, fetch(At(pset, "id")));
              items.Ok? && ExportedRules(x, d, n, items.value).Ok? &&
              (RulesWrapped(x, d, n, items.value);
               At(r.value.fields[0].val, RulesKey(x, d)) == List(Listed(x, ExportedRules(x, d, n, items.value).value)))
  {
    if !pset.Obj? then Raise("TypeError")
    else if !Has(pset, "id") then Raise("KeyError")
    else
      var items :- RuleItems(x, fetch(At(pset, "id")));
      var rules :- ExportedRules(x, d, n, items);
      RulesWrapped(x, d, n, items);
      if !Has(pset, "name") then Raise("KeyError")
      else if !Hashable(At(pset, "name")) then Raise("TypeError")
      else Ok(Wrap(PyStr(At(pset, "name")), Put(Cleaned(pset, DeleteKeys), RulesKey(x, d), List(Listed(x, rules)))))
  }

  function SetResults(x: Exporter, d: Domain, n: Names, fetch: Value -> Reply, sets: seq<Value>): (rs: seq<Result<Value>>)
    ensures |rs| == |sets| && forall i :: 0 <= i < |sets| ==> rs[i] == SetEntry(x, d, n, fetch, sets[i])
  {
    seq(|sets|, i requires 0 <= i < |sets| => SetEntry(x, d, n, fetch, sets[i]))
  }

  /** The set loop: one wrapper per listed set, in listing order. */
  function ExportedSets(x: Exporter, d: Domain, n: Names, fetch: Value -> Reply, sets: seq<Value>): (r: Result<seq<Value>>)
    ensures r.Ok? ==> |r.value| == |sets|
  {
    Firsts(SetResults(x, d, n, fetch, sets))
  }

  /** The set loop fails exactly when some set fails; otherwise entry `i` is the export of listed set `i`. */
  lemma SetsEach(x: Exporter, d: Domain, n: Names, fetch: Value -> Reply, sets: seq<Value>)
    ensures ExportedSets(x, d, n, fetch, sets).Ok? <==> forall i :: 0 <= i < |sets| ==> SetEntry(x, d, n, fetch, sets[i]).Ok?
    ensures ExportedSets(x, d, n, fetch, sets).Ok? ==>
              forall i :: 0 <= i < |sets| ==> SetEntry(x, d, n, fetch, sets[i]) == Ok(ExportedSets(x, d, n, fetch, sets).value[i])
  {
    FirstsOf(s => SetEntry(x, d, n, fetch, s), sets, SetResults(x, d, n, fetch, sets));
  }

  /** `pull_generic_policy` of `pull_policy_master.py`: `{stack_key: stack_list, set_key: set_list}`. */
  function PullGeneric(d: Domain, n: Names, stacks: seq<Value>, sets: seq<Value>, fetch: Value -> Reply): (r: Result<Value>)
    ensures r.Ok? <==> ExportedStacks(n, stacks).Ok? && ExportedSets(PerDomain, d, n, fetch, sets).Ok?
    ensures r.Ok? ==> KeysOf(r.value) == [DocKey(d, Stacks), DocKey(d, Sets)]
    ensures r.Ok? ==> At(r.value, DocKey(d, Stacks)) == List(ExportedStacks(n, stacks).value)
    ensures r.Ok? ==> At(r.value, DocKey(d, Sets)) == List(ExportedSets(PerDomain, d, n, fetch, sets).value)
  {
    var st :- ExportedStacks(n, stacks);
    var se :- ExportedSets(PerDomain, d, n, fetch, sets);
    DocKeysDistinct(d, Stacks, d, Sets);
    TwoFields(DocKey(d, Stacks), List(st), DocKey(d, Sets), List(se));
    Ok(Obj([Field(DocKey(d, Stacks), List(st)), Field(DocKey(d, Sets), List(se))]))
  }

  // ---- what the pusher reads back ----

  /** The name a wrapper stores its body under. */
  function NameOf(w: Value): string {
    if w.Obj? && w.fields != [] then w.fields[0].key else ""
  }

  /** The pusher's reading loop accepts any list of wrappers and finds every wrapper's name. */
  lemma {:induction false} CollectWrapped(entries: seq<Value>, skipFalsy: bool)
    requires forall i :: 0 <= i < |entries| ==> Wrapper(entries[i])
    ensures Collect(entries, skipFalsy).Ok?
    ensures forall i :: 0 <= i < |entries| ==> NameOf(entries[i]) in Keys(Collect(entries, skipFalsy).value)
    decreases |entries|
  {
    CollectWrappedOk(entries, skipFalsy);
    forall i | 0 <= i < |entries|
      ensures NameOf(entries[i]) in Keys(Collect(entries, skipFalsy).value)
    {
      CollectLastWins(entries, NameOf(entries[i]), skipFalsy);
      LastBodyFound(entries, NameOf(entries[i]), skipFalsy, i);
    }
  }

  lemma {:induction false} CollectWrappedOk(entries: seq<Value>, skipFalsy: bool)
    requires forall i :: 0 <= i < |entries| ==> Wrapper(entries[i])
    ensures Collect(entries, skipFalsy).Ok?
    decreases |entries|
  {
    if entries != [] {
      var front := entries[..|entries| - 1];
      assert forall i :: 0 <= i < |front| ==> front[i] == entries[i];
      CollectWrappedOk(front, skipFalsy);
      var last := entries[|entries| - 1];
      assert Wrapper(last) && Truthy(last) && Unwrap(last).Ok?;
    }
  }

  lemma {:induction false} LastBodyFound(entries: seq<Value>, k: string, skipFalsy: bool, i: nat)
    requires forall j :: 0 <= j < |entries| ==> Wrapper(entries[j])
    requires i < |entries| && NameOf(entries[i]) == k
    ensures LastBody(entries, k, skipFalsy).Some?
    decreases |entries|
  {
    var last := entries[|entries| - 1];
    assert Wrapper(last) && Truthy(last) && Unwrap(last).Ok? && Unwrap(last).value.0 == NameOf(last);
    if NameOf(last) != k {
      var front := entries[..|entries| - 1];
      assert forall j :: 0 <= j < |front| ==> front[j] == entries[j];
      LastBodyFound(front, k, skipFalsy, i);
    }
  }

  /** Reading a collection of an exported document finds every exported name. */
  lemma ReadsBack(doc: Value, key: string, entries: seq<Value>, names: seq<string>)
    requires StrictKey(key) || LenientKey(key)
    requires doc.Obj? && At(doc, key) == List(entries) && Has(doc, key)
    requires forall i :: 0 <= i < |entries| ==> Wrapper(entries[i])
    requires |names| == |entries| && forall i :: 0 <= i < |entries| ==> NameOf(entries[i]) == names[i]
    ensures ExtractFromYaml(doc, key).Ok? && ExtractFromYaml(doc, key).value.Some?
    ensures forall i :: 0 <= i < |names| ==> names[i] in Keys(ExtractFromYaml(doc, key).value.value)
  {
    CollectWrapped(entries, LenientKey(key));
  }

  /** The names the rules of a set are listed under. */
  function RuleNames(items: seq<Value>): (names: seq<string>)
    ensures |names| == |items| && forall i :: 0 <= i < |items| ==> names[i] == PyStr(At(items[i], "name"))
  {
    seq(|items|, i requires 0 <= i < |items| => PyStr(At(items[i], "name")))
  }

  /** Exported rules are wrappers named after their rules. */
  lemma RulesNamed(x: Exporter, d: Domain, n: Names, items: seq<Value>)
    requires ExportedRules(x, d, n, items).Ok?
    ensures forall i :: 0 <= i < |items| ==> Wrapper(ExportedRules(x, d, n, items).value[i])
    ensures forall i :: 0 <= i < |items| ==> NameOf(ExportedRules(x, d, n, items).value[i]) == RuleNames(items)[i]
  {
    RulesEach(x, d, n, items);
  }

  /** Exported stacks are wrappers named after their stacks. */
  lemma StacksNamed(n: Names, stacks: seq<Value>)
    requires ExportedStacks(n, stacks).Ok?
    ensures forall i :: 0 <= i < |stacks| ==> Wrapper(ExportedStacks(n, stacks).value[i])
    ensures forall i :: 0 <= i < |stacks| ==> NameOf(ExportedStacks(n, stacks).value[i]) == RuleNames(stacks)[i]
  {
    StacksEach(n, stacks);
  }

  /** Exported sets are wrappers named after their sets. */
  lemma SetsNamed(x: Exporter, d: Domain, n: Names, fetch: Value -> Reply, sets: seq<Value>)
    requires ExportedSets(x, d, n, fetch, sets).Ok?
    ensures forall i :: 0 <= i < |sets| ==> Wrapper(ExportedSets(x, d, n, fetch, sets).value[i])
    ensures forall i :: 0 <= i < |sets| ==> NameOf(ExportedSets(x, d, n, fetch, sets).value[i]) == RuleNames(sets)[i]
  {
    SetsEach(x, d, n, fetch, sets);
  }

  /**
   * The round trip with the pusher: reading an exported domain document for
   * its sets finds every listed set under its name.
   */
  lemma SetsReadBack(d: Domain, n: Names, stacks: seq<Value>, sets: seq<Value>, fetch: Value -> Reply)
    requires PullGeneric(d, n, stacks, sets, fetch).Ok?
    ensures var found := ExtractFromYaml(PullGeneric(d, n, stacks, sets, fetch).value, DocKey(d, Sets));
      found.Ok? && found.value.Some? &&
      forall i :: 0 <= i < |sets| ==> RuleNames(sets)[i] in Keys(found.value.value)
  {
    var doc := PullGeneric(d, n, stacks, sets, fetch).value;
    SetsNamed(PerDomain, d, n, fetch, sets);
    assert Has(doc, DocKey(d, Sets));
    assert d != Performance ==> StrictKey(DocKey(d, Sets));
    ReadsBack(doc, DocKey(d, Sets), ExportedSets(PerDomain, d, n, fetch, sets).value, RuleNames(sets));
  }

  /** Likewise for the stacks: every listed stack is found under its name. */
  lemma StacksReadBack(d: Domain, n: Names, stacks: seq<Value>, sets: seq<Value>, fetch: Value -> Reply)
    requires PullGeneric(d, n, stacks, sets, fetch).Ok?
    ensures var found := ExtractFromYaml(PullGeneric(d, n, stacks, sets, fetch).value, DocKey(d, Stacks));
      found.Ok? && found.value.Some? &&
      forall i :: 0 <= i < |stacks| ==> RuleNames(stacks)[i] in Keys(found.value.value)
  {
    var doc := PullGeneric(d, n, stacks, sets, fetch).value;
    StacksNamed(n, stacks);
    assert Has(doc, DocKey(d, Stacks));
    assert d != Performance ==> StrictKey(DocKey(d, Stacks));
    ReadsBack(doc, DocKey(d, Stacks), ExportedStacks(n, stacks).value, RuleNames(stacks));
  }

  /** Unwrapping a wrapper keeps every field of its body except `name`. */
  lemma UnwrapKeeps(w: Value, k: string)
    requires Wrapper(w) && k != "name"
    ensures Unwrap(w).Ok? && Get(Unwrap(w).value.1, k) == Get(w.fields[0].val, k)
  {
  }

  /** The body the pusher unwraps from an exported set lists the set's rules under the domain's rule key. */
  lemma RulesListed(d: Domain, n: Names, fetch: Value -> Reply, pset: Value)
    requires SetEntry(PerDomain, d, n, fetch, pset).Ok?
    ensures var body := Unwrap(SetEntry(PerDomain, d, n, fetch, pset).value).value.1;
      var items := RuleItems(PerDomain, fetch(At(pset, "id"))).value;
      Has(body, DocKey(d, Rules)) && At(body, DocKey(d, Rules)) == List(ExportedRules(PerDomain, d, n, items).value)
  {
    var w := SetEntry(PerDomain, d, n, fetch, pset).value;
    var items := RuleItems(PerDomain, fetch(At(pset, "id"))).value;
    var rules := ExportedRules(PerDomain, d, n, items).value;
    RulesWrapped(PerDomain, d, n, items);
    assert Listed(PerDomain, rules) == rules;
    assert At(w.fields[0].val, DocKey(d, Rules)) == List(rules);
    DocKeysNotName(d, Rules);
    UnwrapKeeps(w, DocKey(d, Rules));
  }

  /** No collection key is `name`. */
  lemma DocKeysNotName(d: Domain, l: Level)
    ensures DocKey(d, l) != "name"
  {
    assert |DocKey(d, l)| > 4;
  }

  /**
   * For the four domains read strictly, the pusher's reading of an exported
   * set's rule key finds every fetched rule under its name.
   */
  lemma RulesReadBack(d: Domain, n: Names, fetch: Value -> Reply, pset: Value)
    requires d != Performance
    requires SetEntry(PerDomain, d, n, fetch, pset).Ok?
    ensures var body := Unwrap(SetEntry(PerDomain, d, n, fetch, pset).value).value.1;
      var items := RuleItems(PerDomain, fetch(At(pset, "id"))).value;
      var found := ExtractFromYaml(body, DocKey(d, Rules));
      found.Ok? && found.value.Some? && forall i :: 0 <= i < |items| ==> RuleNames(items)[i] in Keys(found.value.value)
  {
    var body := Unwrap(SetEntry(PerDomain, d, n, fetch, pset).value).value.1;
    var items := RuleItems(PerDomain, fetch(At(pset, "id"))).value;
    RulesListed(d, n, fetch, pset);
    RulesNamed(PerDomain, d, n, items);
    assert StrictKey(DocKey(d, Rules));
    ReadsBack(body, DocKey(d, Rules), ExportedRules(PerDomain, d, n, items).value, RuleNames(items));
  }

  /** A rule fetch without `cgx_content` leaves the set with an empty rule list. */
  lemma NoContentNoRules(d: Domain, n: Names, fetch: Value -> Reply, pset: Value)
    requires fetch(At(pset, "id")).Bare?
    requires SetEntry(PerDomain, d, n, fetch, pset).Ok?
    ensures At(SetEntry(PerDomain, d, n, fetch, pset).value.fields[0].val, DocKey(d, Rules)) == List([])
  {
    assert RuleItems(PerDomain, fetch(At(pset, "id"))) == Ok([]);
    assert RuleResults(PerDomain, d, n, []) == [];
    assert ExportedRules(PerDomain, d, n, []) == Ok([]);
  }

  /** The last wrapper named `k`, if any. */
  function LastWrapped(entries: seq<Value>, k: string): Option<Value>
    requires forall i :: 0 <= i < |entries| ==> Wrapper(entries[i])
    decreases |entries|
  {
    if entries == [] then None
    else
      var front := entries[..|entries| - 1];
      assert forall i :: 0 <= i < |front| ==> front[i] == entries[i];
      var last := entries[|entries| - 1];
      assert Wrapper(last);
      if last.fields[0].key == k then Some(last.fields[0].val) else LastWrapped(front, k)
  }

  /** Entries sharing a name collapse to one: the last one's body, and no name twice. */
  lemma {:induction false} CollapseLastWins(entries: seq<Value>, k: string)
    requires forall i :: 0 <= i < |entries| ==> Wrapper(entries[i])
    ensures Find(Collapse(entries), k) == LastWrapped(entries, k)
    ensures UniqueKeys(Collapse(entries))
    decreases |entries|
  {
    if entries != [] {
      var front := entries[..|entries| - 1];
      assert forall i :: 0 <= i < |front| ==> front[i] == entries[i];
      CollapseLastWins(front, k);
    }
  }

  /** Every body in the collapsed entries is a dict: collapsing keeps each stored wrapper's body. */
  lemma {:induction false} CollapseWrapped(entries: seq<Value>, j: nat)
    requires forall i :: 0 <= i < |entries| ==> Wrapper(entries[i])
    requires j < |Collapse(entries)|
    ensures Collapse(entries)[j].val.Obj?
    ensures Wrapper(Unfold(Collapse(entries))[j])
    decreases |entries|
  {
    var front := entries[..|entries| - 1];
    assert forall i :: 0 <= i < |front| ==> front[i] == entries[i];
    var last := entries[|entries| - 1];
    assert Wrapper(last);
    var c := Collapse(front);
    var i := IndexOf(c, last.fields[0].key);
    if !(i < |c| && j == i) && j < |c| {
      CollapseWrapped(front, j);
    }
  }

  /** Every name in the collapsed entries is some entry's name, and every entry's name is there. */
  lemma CollapseNames(entries: seq<Value>, k: string)
    requires forall i :: 0 <= i < |entries| ==> Wrapper(entries[i])
    ensures k in Keys(Collapse(entries)) <==> exists i :: 0 <= i < |entries| && NameOf(entries[i]) == k
  {
    CollapseLastWins(entries, k);
    LastWrappedNamed(entries, k);
  }

  /** Some wrapper is named `k` exactly when there is a last one. */
  lemma {:induction false} LastWrappedNamed(entries: seq<Value>, k: string)
    requires forall i :: 0 <= i < |entries| ==> Wrapper(entries[i])
    ensures LastWrapped(entries, k).Some? <==> exists i :: 0 <= i < |entries| && NameOf(entries[i]) == k
    decreases |entries|
  {
    if entries != [] {
      var front := entries[..|entries| - 1];
      assert forall i :: 0 <= i < |front| ==> front[i] == entries[i];
      LastWrappedNamed(front, k);
      var last := entries[|entries| - 1];
      assert NameOf(last) == last.fields[0].key;
      if exists i :: 0 <= i < |entries| && NameOf(entries[i]) == k {
        var i :| 0 <= i < |entries| && NameOf(entries[i]) == k;
        if i < |front| {
          assert NameOf(front[i]) == k;
        }
      }
    }
  }

  lemma CollapseSnoc(entries: seq<Value>, e: Value)
    requires forall i :: 0 <= i < |entries| ==> Wrapper(entries[i])
    requires Wrapper(e)
    ensures forall i :: 0 <= i < |entries + [e]| ==> Wrapper((entries + [e])[i])
    ensures Collapse(entries + [e]) == Assign(Collapse(entries), e.fields[0].key, e.fields[0].val)
  {
    assert (entries + [e])[..|entries|] == entries;
  }

  /**
   * A bare dict is read only by the combined exporter: from a fetch that
   * returns one with rules in it, the combined set carries rules while the
   * per-domain set carries none.
   */
  lemma BareDictOnlyCombined(d: Domain, n: Names, fetch: Value -> Reply, pset: Value)
    requires fetch(At(pset, "id")).Bare? && fetch(At(pset, "id")).body.Obj?
    requires At(fetch(At(pset, "id")).body, "items").List? && At(fetch(At(pset, "id")).body, "items").items != []
    requires SetEntry(PerDomain, d, n, fetch, pset).Ok? && SetEntry(Combined, d, n, fetch, pset).Ok?
    ensures At(SetEntry(PerDomain, d, n, fetch, pset).value.fields[0].val, DocKey(d, Rules)) == List([])
    ensures At(SetEntry(Combined, d, n, fetch, pset).value.fields[0].val, "rules").List?
    ensures At(SetEntry(Combined, d, n, fetch, pset).value.fields[0].val, "rules").items != []
  {
    NoContentNoRules(d, n, fetch, pset);
    CombinedBareRules(d, n, fetch, pset);
  }

  /** The combined exporter lists the rules of a bare dict reply, collapsed by name. */
  lemma CombinedBareRules(d: Domain, n: Names, fetch: Value -> Reply, pset: Value)
    requires fetch(At(pset, "id")).Bare? && fetch(At(pset, "id")).body.Obj?
    requires At(fetch(At(pset, "id")).body, "items").List? && At(fetch(At(pset, "id")).body, "items").items != []
    requires SetEntry(Combined, d, n, fetch, pset).Ok?
    ensures At(SetEntry(Combined, d, n, fetch, pset).value.fields[0].val, "rules").List?
    ensures At(SetEntry(Combined, d, n, fetch, pset).value.fields[0].val, "rules").items != []
  {
    var items := At(fetch(At(pset, "id")).body, "items").items;
    assert RuleItems(Combined, fetch(At(pset, "id"))) == Ok(items);
    var rules := ExportedRules(Combined, d, n, items).value;
    RulesWrapped(Combined, d, n, items);
    assert At(SetEntry(Combined, d, n, fetch, pset).value.fields[0].val, "rules") == List(Unfold(Collapse(rules)));
    CollapseNames(rules, NameOf(rules[0]));
    assert NameOf(rules[0]) in Keys(Collapse(rules));
  }

  // ---- the combined document ----

  /** The `section_key` of each domain, which names its two entries in the combined document. */
  function StacksName(d: Domain): string {
    TypeName(d) + "_stacks"
  }

  function SetsName(d: Domain): string {
    TypeName(d) + "_sets"
  }

  /** `stack_data`: the exported stacks, one per name, the last of each name winning. */
  function CombinedStacks(n: Names, stacks: seq<Value>): (r: Result<seq<Field>>)
    ensures r.Ok? <==> ExportedStacks(n, stacks).Ok?
  {
    var st :- ExportedStacks(n, stacks);
    StacksEach(n, stacks);
    Ok(Collapse(st))
  }

  /** `set_data`: the exported sets, one per name, the last of each name winning. */
  function CombinedSets(d: Domain, n: Names, fetch: Value -> Reply, sets: seq<Value>): (r: Result<seq<Field>>)
    ensures r.Ok? <==> ExportedSets(Combined, d, n, fetch, sets).Ok?
  {
    var se :- ExportedSets(Combined, d, n, fetch, sets);
    SetsEach(Combined, d, n, fetch, sets);
    Ok(Collapse(se))
  }

  /** `rule_config`: a set's exported rules, one per name, the last of each name winning. */
  function CombinedRules(d: Domain, n: Names, items: seq<Value>): (r: Result<seq<Field>>)
    ensures r.Ok? <==> ExportedRules(Combined, d, n, items).Ok?
  {
    var rs :- ExportedRules(Combined, d, n, items);
    RulesWrapped(Combined, d, n, items);
    Ok(Collapse(rs))
  }

  /** The document after one section was pulled: only its two entries change, and only when the pull finished. */
  function Written(cfg: seq<Field>, d: Domain, st: Result<seq<Field>>, se: Result<seq<Field>>): (r: seq<Field>)
    ensures forall k :: k != StacksName(d) && k != SetsName(d) ==> Find(r, k) == Find(cfg, k)
    ensures st.Ok? && se.Ok? ==> Find(r, StacksName(d)) == Some(List(Unfold(st.value)))
    ensures st.Ok? && se.Ok? ==> Find(r, SetsName(d)) == Some(List(Unfold(se.value)))
    ensures st.Raise? || se.Raise? ==> r == cfg
  {
    if st.Raise? || se.Raise? then cfg
    else
      assert |StacksName(d)| != |SetsName(d)|;
      Assign(Assign(cfg, StacksName(d), List(Unfold(st.value))), SetsName(d), List(Unfold(se.value)))
  }

  /** The order `-PT all` pulls the domains in. */
  const AllTypes: seq<Domain> := [Path, Qos, Nat, Security, Performance]

  /** No two sections of the combined document share a name. */
  lemma SectionNamesDistinct(d: Domain, e: Domain)
    ensures StacksName(d) != SetsName(e)
    ensures d != e ==> StacksName(d) != StacksName(e) && SetsName(d) != SetsName(e)
  {
    assert StacksName(d)[..2] == TypeName(d)[..2] && SetsName(d)[..2] == TypeName(d)[..2];
    assert StacksName(e)[..2] == TypeName(e)[..2] && SetsName(e)[..2] == TypeName(e)[..2];
    if d == e {
      assert |StacksName(d)| != |SetsName(e)|;
    } else {
      assert TypeName(d)[..2] != TypeName(e)[..2] by {
        assert TypeName(d)[..2] == Tag(d) && TypeName(e)[..2] == Tag(e);
      }
    }
  }

  /** The first two letters of a policy type name, which already tell the five apart. */
  function Tag(d: Domain): string {
    match d
    case Path => "pa"
    case Qos => "qo"
    case Nat => "na"
    case Security => "se"
    case Performance => "pe"
  }

  /** Both pulls of one target succeed: its stacks and its sets. */
  predicate Pulls(n: Names, listing: Domain -> (seq<Value>, seq<Value>), fetch: Domain -> Value -> Reply, d: Domain) {
    CombinedStacks(n, listing(d).0).Ok? && CombinedSets(d, n, fetch(d), listing(d).1).Ok?
  }

  /** Every element passes exactly when the first one does and every later one does. */
  lemma EveryCons<T>(p: T -> bool, xs: seq<T>)
    requires xs != []
    ensures (forall i | 0 <= i < |xs| :: p(xs[i])) <==> p(xs[0]) && forall i | 0 <= i < |xs[1..]| :: p(xs[1..][i])
  {
    assert forall i | 0 < i < |xs| :: xs[1..][i - 1] == xs[i];
  }

  /**
   * The document after pulling `targets` in order: each section is written in
   * turn, and the first pull that raises ends the run (`false`), leaving what
   * was written before it.
   */
  function Pulled(cfg: seq<Field>, targets: seq<Domain>, n: Names, listing: Domain -> (seq<Value>, seq<Value>), fetch: Domain -> Value -> Reply): (r: (seq<Field>, bool))
    ensures r.1 <==> forall i | 0 <= i < |targets| :: Pulls(n, listing, fetch, targets[i])
    decreases |targets|
  {
    if targets == [] then (cfg, true)
    else
      var d := targets[0];
      if !Pulls(n, listing, fetch, d) then (cfg, false)
      else
        EveryCons(d => Pulls(n, listing, fetch, d), targets);
        Pulled(Written(cfg, d, CombinedStacks(n, listing(d).0), CombinedSets(d, n, fetch(d), listing(d).1)), targets[1..], n, listing, fetch)
  }


  /**
   * A run that pulled every target without raising holds, for each target,
   * its stacks and its sets under the target's two section names, whatever
   * the other targets wrote.
   */
  lemma {:induction false} PulledSections(cfg: seq<Field>, targets: seq<Domain>, n: Names, listing: Domain -> (seq<Value>, seq<Value>), fetch: Domain -> Value -> Reply, d: Domain)
    requires forall i, j :: 0 <= i < j < |targets| ==> targets[i] != targets[j]
    requires Pulled(cfg, targets, n, listing, fetch).1 && d in targets
    ensures CombinedStacks(n, listing(d).0).Ok? && CombinedSets(d, n, fetch(d), listing(d).1).Ok?
    ensures Find(Pulled(cfg, targets, n, listing, fetch).0, StacksName(d)) == Some(List(Unfold(CombinedStacks(n, listing(d).0).value)))
    ensures Find(Pulled(cfg, targets, n, listing, fetch).0, SetsName(d)) == Some(List(Unfold(CombinedSets(d, n, fetch(d), listing(d).1).value)))
    decreases |targets|
  {
    var e := targets[0];
    var st := CombinedStacks(n, listing(e).0);
    var se := CombinedSets(e, n, fetch(e), listing(e).1);
    var next := Written(cfg, e, st, se);
    var rest := targets[1..];
    assert Pulled(cfg, targets, n, listing, fetch) == Pulled(next, rest, n, listing, fetch);
    if d == e {
      assert d !in rest by {
        forall j | 0 <= j < |rest|
          ensures rest[j] != d
        {
          assert rest[j] == targets[j + 1];
        }
      }
      PulledFirst(cfg, d, rest, n, listing, fetch);
    } else {
      assert d in rest;
      assert forall i, j :: 0 <= i < j < |rest| ==> rest[i] == targets[i + 1] && rest[j] == targets[j + 1];
      PulledSections(next, rest, n, listing, fetch, d);
    }
  }

  /** The sections of the first target survive the later pulls, which write other section names. */
  lemma PulledFirst(cfg: seq<Field>, d: Domain, rest: seq<Domain>, n: Names, listing: Domain -> (seq<Value>, seq<Value>), fetch: Domain -> Value -> Reply)
    requires d !in rest && Pulls(n, listing, fetch, d)
    ensures var next := Written(cfg, d, CombinedStacks(n, listing(d).0), CombinedSets(d, n, fetch(d), listing(d).1));
            Find(Pulled(next, rest, n, listing, fetch).0, StacksName(d)) == Some(List(Unfold(CombinedStacks(n, listing(d).0).value))) &&
            Find(Pulled(next, rest, n, listing, fetch).0, SetsName(d)) == Some(List(Unfold(CombinedSets(d, n, fetch(d), listing(d).1).value)))
  {
    var next := Written(cfg, d, CombinedStacks(n, listing(d).0), CombinedSets(d, n, fetch(d), listing(d).1));
    forall e' | e' in rest
      ensures StacksName(d) != StacksName(e') && StacksName(d) != SetsName(e')
      ensures SetsName(d) != StacksName(e') && SetsName(d) != SetsName(e')
    {
      SectionNamesDistinct(d, e');
      SectionNamesDistinct(e', d);
    }
    PulledKeeps(next, rest, n, listing, fetch, StacksName(d));
    PulledKeeps(next, rest, n, listing, fetch, SetsName(d));
  }

  /** A section name no remaining target writes keeps its value. */
  lemma {:induction false} PulledKeeps(cfg: seq<Field>, targets: seq<Domain>, n: Names, listing: Domain -> (seq<Value>, seq<Value>), fetch: Domain -> Value -> Reply, k: string)
    requires forall e :: e in targets ==> k != StacksName(e) && k != SetsName(e)
    ensures Find(Pulled(cfg, targets, n, listing, fetch).0, k) == Find(cfg, k)
    decreases |targets|
  {
    if targets != [] {
      var e := targets[0];
      var next := Written(cfg, e, CombinedStacks(n, listing(e).0), CombinedSets(e, n, fetch(e), listing(e).1));
      assert forall e' :: e' in targets[1..] ==> e' in targets;
      PulledKeeps(next, targets[1..], n, listing, fetch, k);
    }
  }

  /** The module-level `CONFIG` the combined exporter fills, one section per pull. */
  class MasterPull {
    var config: seq<Field>

    constructor()
      ensures config == []
    {
      config := [];
    }

    /** `pull_generic_policy` of `sdwan_master_policy.py`; `false` when it raised. */
    method PullGenericPolicy(d: Domain, n: Names, stacks: seq<Value>, sets: seq<Value>, fetch: Value -> Reply) returns (ok: bool)
      modifies this
      ensures ok <==> CombinedStacks(n, stacks).Ok? && CombinedSets(d, n, fetch, sets).Ok?
      ensures config == Written(old(config), d, CombinedStacks(n, stacks), CombinedSets(d, n, fetch, sets))
    {
      var st := CollapseStacksLoop(n, stacks);
      if st.Raise? {
        return false;
      }
      var se := CollapseSetsLoop(d, n, fetch, sets);
      if se.Raise? {
        return false;
      }
      config := Assign(Assign(config, StacksName(d), List(Unfold(st.value))), SetsName(d), List(Unfold(se.value)));
      return true;
    }

    /** `main` of `sdwan_master_policy.py`: pull each target in turn until one raises. */
    method PullTargets(targets: seq<Domain>, n: Names, listing: Domain -> (seq<Value>, seq<Value>), fetch: Domain -> Value -> Reply) returns (ok: bool)
      modifies this
      ensures (config, ok) == Pulled(old(config), targets, n, listing, fetch)
    {
      var i := 0;
      while i < |targets|
        invariant 0 <= i <= |targets|
        invariant Pulled(old(config), targets, n, listing, fetch) == Pulled(config, targets[i..], n, listing, fetch)
      {
        var d := targets[i];
        assert targets[i..][0] == d && targets[i..][1..] == targets[i + 1..];
        ok := PullGenericPolicy(d, n, listing(d).0, listing(d).1, fetch(d));
        if !ok {
          return;
        }
        i := i + 1;
      }
      assert targets[i..] == [];
      return true;
    }
  }

  // ---- the loops as the scripts run them ----

  /** The iterations of a loop applying `f` to each of `xs`. */
  function Each(f: Value -> Result<Value>, xs: seq<Value>): (rs: seq<Result<Value>>)
    ensures |rs| == |xs| && forall i :: 0 <= i < |xs| ==> rs[i] == f(xs[i])
  {
    seq(|xs|, i requires 0 <= i < |xs| => f(xs[i]))
  }

  /** The shape of every export loop: `out.append(f(x))` for each `x`, stopping at the first raise. */
  method AppendLoop(f: Value -> Result<Value>, xs: seq<Value>) returns (r: Result<seq<Value>>)
    ensures r == Firsts(Each(f, xs))
  {
    ghost var rs := Each(f, xs);
    var acc: seq<Value> := [];
    var i := 0;
    while i < |xs|
      invariant 0 <= i <= |xs|
      invariant |acc| == i && forall j :: 0 <= j < i ==> rs[j] == Ok(acc[j])
    {
      var e := f(xs[i]);
      if e.Raise? {
        FirstsFail(rs, i);
        return Raise(e.error);
      }
      OksSnoc(rs, acc, e.value);
      acc := acc + [e.value];
      i := i + 1;
    }
    FirstsOk(rs, acc);
    return Ok(acc);
  }

  /** The same loop storing each wrapper's body under its name: `out[name] = body`. */
  method StoreLoop(f: Value -> Result<Value>, xs: seq<Value>) returns (r: Result<seq<Field>>)
    requires forall x :: f(x).Ok? ==> Wrapper(f(x).value)
    ensures r.Ok? <==> Firsts(Each(f, xs)).Ok?
    ensures r.Raise? ==> r.error == Firsts(Each(f, xs)).error
    ensures r.Ok? ==> forall j :: 0 <= j < |Firsts(Each(f, xs)).value| ==> Wrapper(Firsts(Each(f, xs)).value[j])
    ensures r.Ok? ==> r.value == Collapse(Firsts(Each(f, xs)).value)
  {
    ghost var rs := Each(f, xs);
    var out: seq<Field> := [];
    ghost var acc: seq<Value> := [];
    var i := 0;
    while i < |xs|
      invariant 0 <= i <= |xs|
      invariant |acc| == i && forall j :: 0 <= j < i ==> rs[j] == Ok(acc[j])
      invariant forall j :: 0 <= j < |acc| ==> Wrapper(acc[j])
      invariant out == Collapse(acc)
    {
      var e := f(xs[i]);
      if e.Raise? {
        FirstsFail(rs, i);
        return Raise(e.error);
      }
      CollapseSnoc(acc, e.value);
      out := Assign(out, e.value.fields[0].key, e.value.fields[0].val);
      OksSnoc(rs, acc, e.value);
      acc := acc + [e.value];
      i := i + 1;
    }
    FirstsOk(rs, acc);
    return Ok(out);
  }

  /** The rule loop of `pull_policy_master.py`, appending one wrapper per fetched rule. */
  method RulesLoop(d: Domain, n: Names, items: seq<Value>) returns (r: Result<seq<Value>>)
    ensures r == ExportedRules(PerDomain, d, n, items)
  {
    var f := r => RuleEntry(PerDomain, d, n, r);
    assert Each(f, items) == RuleResults(PerDomain, d, n, items);
    r := AppendLoop(f, items);
  }

  /** The rule loop of `sdwan_master_policy.py`: `rule_config[r["name"]] = ...`. */
  method CollapseRulesLoop(d: Domain, n: Names, items: seq<Value>) returns (r: Result<seq<Field>>)
    ensures r == CombinedRules(d, n, items)
  {
    var f := r => RuleEntry(Combined, d, n, r);
    assert Each(f, items) == RuleResults(Combined, d, n, items);
    r := StoreLoop(f, items);
  }

  /** The stack loop of `pull_policy_master.py`. */
  method StacksLoop(n: Names, stacks: seq<Value>) returns (r: Result<seq<Value>>)
    ensures r == ExportedStacks(n, stacks)
  {
    var f := x => StackEntry(n, x);
    assert Each(f, stacks) == StackResults(n, stacks);
    r := AppendLoop(f, stacks);
  }

  /** The stack loop of `sdwan_master_policy.py`: `stack_data[s["name"]] = clean`. */
  method CollapseStacksLoop(n: Names, stacks: seq<Value>) returns (r: Result<seq<Field>>)
    ensures r == CombinedStacks(n, stacks)
  {
    var f := x => StackEntry(n, x);
    assert Each(f, stacks) == StackResults(n, stacks);
    r := StoreLoop(f, stacks);
  }

  /** One iteration of either exporter's set loop. */
  method SetEntryOf(x: Exporter, d: Domain, n: Names, fetch: Value -> Reply, pset: Value) returns (r: Result<Value>)
    ensures r == SetEntry(x, d, n, fetch, pset)
  {
    if !pset.Obj? {
      return Raise("TypeError");
    }
    if !Has(pset, "id") {
      return Raise("KeyError");
    }
    var items := RuleItems(x, fetch(At(pset, "id")));
    if items.Raise? {
      return Raise(items.error);
    }
    var listed: seq<Value>;
    if x == PerDomain {
      var rules := RulesLoop(d, n, items.value);
      if rules.Raise? {
        return Raise(rules.error);
      }
      listed := rules.value;
    } else {
      var cfg := CollapseRulesLoop(d, n, items.value);
      if cfg.Raise? {
        return Raise(cfg.error);
      }
      listed := Unfold(cfg.value);
    }
    if !Has(pset, "name") {
      return Raise("KeyError");
    }
    if !Hashable(At(pset, "name")) {
      return Raise("TypeError");
    }
    return Ok(Wrap(PyStr(At(pset, "name")), Put(Cleaned(pset, DeleteKeys), RulesKey(x, d), List(listed))));
  }

  /** The set loop of `pull_policy_master.py`. */
  method SetsLoop(d: Domain, n: Names, fetch: Value -> Reply, sets: seq<Value>) returns (r: Result<seq<Value>>)
    ensures r == ExportedSets(PerDomain, d, n, fetch, sets)
  {
    var f := x => SetEntry(PerDomain, d, n, fetch, x);
    assert Each(f, sets) == SetResults(PerDomain, d, n, fetch, sets);
    r := AppendLoop(f, sets);
  }

  /** The set loop of `sdwan_master_policy.py`: `set_data[pset["name"]] = clean_set`. */
  method CollapseSetsLoop(d: Domain, n: Names, fetch: Value -> Reply, sets: seq<Value>) returns (r: Result<seq<Field>>)
    ensures r == CombinedSets(d, n, fetch, sets)
  {
    var f := x => SetEntry(Combined, d, n, fetch, x);
    assert Each(f, sets) == SetResults(Combined, d, n, fetch, sets);
    r := StoreLoop(f, sets);
  }

  /** `pull_generic_policy` of `pull_policy_master.py`, loop by loop. */
  method PullGenericPolicy(d: Domain, n: Names, stacks: seq<Value>, sets: seq<Value>, fetch: Value -> Reply) returns (r: Result<Value>)
    ensures r == PullGeneric(d, n, stacks, sets, fetch)
  {
    var st := StacksLoop(n, stacks);
    if st.Raise? {
      return Raise(st.error);
    }
    var se := SetsLoop(d, n, fetch, sets);
    if se.Raise? {
      return Raise(se.error);
    }
    return Ok(Obj([Field(DocKey(d, Stacks), List(st.value)), Field(DocKey(d, Sets), List(se.value))]));
  }
}
