/**
 * The performance restore of `restore_policy_all.py` and of
 * `push_policy_refactored.py`. Unlike the reconciling pusher it compares
 * nothing: each set of the document's `performance_sets` is PUT over the
 * live set of the same name or POSTed as a new one, and every rule listed
 * in it is POSTed under the set. A dry run reports instead of writing, but
 * still translates every rule. The two scripts differ in three places: the
 * refactored one returns at once on a falsy `performance_sets`, maps a
 * rule's application ids whenever they form a list (the other when they are
 * truthy), and never fills its application table.
 */
module Restore {
  import opened Wrappers
  import opened Json
  import opened Kinds
  import opened Remote
  import Catalog
  import Docs
  import Translate
  import Export
  import NatPush
  import Scan

  datatype Variant = RestoreAll | Refactored

  const SetsKey := "performance_sets"
  const RulesKey := "rules"
  const DryRunId := "DRY-RUN-ID"
  const ThresholdKey := "thresholdprofile_id"
  const FiltersKey := "app_filters"
  const AppIdsKey := "application_ids"

  /** The lookup tables the restore reads: application display names and threshold profile names to ids. */
  datatype Dicts = Dicts(apps: map<string, string>, thresholds: map<string, string>)

  // ---- create_global_dicts_all ----

  /** The items of a reference inventory, `[]` when the controller has none to give. */
  function RefItems(e: Env, r: Ref): seq<Value> {
    if r in e.refs then e.refs[r] else []
  }

  /**
   * `create_global_dicts_all`. `restore_policy_all.py` walks the application,
   * network context, threshold profile and security zone inventories and
   * keeps the application and threshold tables (the other two are never read
   * by the performance restore); the refactored script walks the threshold
   * profiles only. An item without its id or name ends the run.
   */
  function Dictionaries(v: Variant, apps: seq<Value>, contexts: seq<Value>, slas: seq<Value>, zones: seq<Value>): (r: Option<Dicts>)
    ensures v == Refactored ==> (r.Some? <==> Catalog.AddRows(Catalog.NoIndex, slas, "id", "name").Some?)
    ensures v == RestoreAll ==> (r.Some? <==>
      Catalog.AddRows(Catalog.NoIndex, apps, "id", "display_name").Some? &&
      Catalog.AddRows(Catalog.NoIndex, contexts, "id", "name").Some? &&
      Catalog.AddRows(Catalog.NoIndex, slas, "id", "name").Some? &&
      Catalog.AddRows(Catalog.NoIndex, zones, "id", "name").Some?)
    ensures r.Some? ==> r.value.thresholds == Catalog.AddRows(Catalog.NoIndex, slas, "id", "name").value.nameId
    ensures r.Some? && v == RestoreAll ==> r.value.apps == Catalog.AddRows(Catalog.NoIndex, apps, "id", "display_name").value.nameId
    ensures r.Some? && v == Refactored ==> r.value.apps == map[]
  {
    var th := Catalog.AddRows(Catalog.NoIndex, slas, "id", "name");
    if v == Refactored then
      if th.None? then None else Some(Dicts(map[], th.value.nameId))
    else
      var ap := Catalog.AddRows(Catalog.NoIndex, apps, "id", "display_name");
      var cx := Catalog.AddRows(Catalog.NoIndex, contexts, "id", "name");
      var sz := Catalog.AddRows(Catalog.NoIndex, zones, "id", "name");
      if ap.None? || cx.None? || th.None? || sz.None? then None
      else Some(Dicts(ap.value.nameId, th.value.nameId))
  }

  /** A threshold profile name maps to the id of the last profile carrying it, and only such names map. */
  lemma ThresholdsLastWins(v: Variant, apps: seq<Value>, contexts: seq<Value>, slas: seq<Value>, zones: seq<Value>, n: string)
    requires Dictionaries(v, apps, contexts, slas, zones).Some?
    ensures var t := Dictionaries(v, apps, contexts, slas, zones).value.thresholds;
      (n in t <==> Catalog.LastId(slas, n, "id", "name").Some?) &&
      (n in t ==> t[n] == Catalog.LastId(slas, n, "id", "name").value)
  {
    Catalog.AddRowsNameId(Catalog.NoIndex, slas, "id", "name", n);
  }

  // ---- one rule ----

  /** Whether the script rewrites the application ids of a rule whose `app_filters` is `af`. */
  predicate MapsApps(v: Variant, af: Value) {
    af.Obj? && (if v == RestoreAll then Truthy(At(af, AppIdsKey)) else At(af, AppIdsKey).List?)
  }

  /**
   * A rule's translation before it is posted: a known threshold profile name
   * becomes the profile's id, and the application ids under `app_filters`
   * are looked up by display name, unknown ones passing through unchanged.
   * A rule that is not a dict, an unhashable profile reference, or ids that
   * cannot be iterated or hold an unhashable value raise.
   */
  function RestoreRule(v: Variant, t: Dicts, rule: Value): (r: Result<Value>)
    ensures r.Raise? <==> !rule.Obj? || At(rule, ThresholdKey).List? || At(rule, ThresholdKey).Obj? ||
                          (MapsApps(v, At(rule, FiltersKey)) && Export.RenameAll(t.apps, At(At(rule, FiltersKey), AppIdsKey)).Raise?)
    ensures r.Ok? ==> r.value.Obj? && forall k | k != ThresholdKey && k != FiltersKey :: Get(r.value, k) == Get(rule, k)
    ensures r.Ok? && Translate.Known(t.thresholds, At(rule, ThresholdKey)) ==>
              Get(r.value, ThresholdKey) == Some(Str(t.thresholds[At(rule, ThresholdKey).s]))
    ensures r.Ok? && !Translate.Known(t.thresholds, At(rule, ThresholdKey)) ==> Get(r.value, ThresholdKey) == Get(rule, ThresholdKey)
    ensures r.Ok? && !MapsApps(v, At(rule, FiltersKey)) ==> Get(r.value, FiltersKey) == Get(rule, FiltersKey)
    ensures r.Ok? && MapsApps(v, At(rule, FiltersKey)) ==>
              var af := At(rule, FiltersKey);
              var af' := At(r.value, FiltersKey);
              af'.Obj? && (forall k | k != AppIdsKey :: Get(af', k) == Get(af, k)) &&
              At(af', AppIdsKey).List? && Export.PassedThrough(t.apps, Iterate(At(af, AppIdsKey)).value, At(af', AppIdsKey).items)
  {
    if !rule.Obj? then Raise("AttributeError")
    else
      var r1 :- Translate.MapScalar(rule, ThresholdKey, t.thresholds);
      assert FiltersKey != ThresholdKey;
      var af := At(r1, FiltersKey);
      if MapsApps(v, af) then
        var ids :- Export.RenameAll(t.apps, At(af, AppIdsKey));
        Ok(Put(r1, FiltersKey, Put(af, AppIdsKey, List(ids))))
      else Ok(r1)
  }

  /**
   * The refactored script has no application table, so the ids under
   * `app_filters` come out exactly as they went in.
   */
  lemma RefactoredKeepsAppIds(t: Dicts, rule: Value)
    requires t.apps == map[]
    requires RestoreRule(Refactored, t, rule).Ok?
    ensures At(At(RestoreRule(Refactored, t, rule).value, FiltersKey), AppIdsKey) == At(At(rule, FiltersKey), AppIdsKey)
  {
    var af := At(rule, FiltersKey);
    if MapsApps(Refactored, af) {
      var r := RestoreRule(Refactored, t, rule).value;
      UnmappedPassThrough(At(af, AppIdsKey).items, At(At(r, FiltersKey), AppIdsKey).items);
    }
  }

  /** An empty table renames nothing. */
  lemma UnmappedPassThrough(xs: seq<Value>, ys: seq<Value>)
    requires Export.PassedThrough(map[], xs, ys)
    ensures ys == xs
  {
    assert forall i | 0 <= i < |xs| :: ys[i] == xs[i];
  }

  /**
   * Export then restore: a threshold profile id the exporter named is
   * restored to the same id when the restore's table inverts the exporter's.
   */
  lemma ThresholdRoundTrip(n: Export.Names, v: Variant, t: Dicts, live: Value)
    requires forall id :: id in n.thresholds ==> n.thresholds[id] in t.thresholds && t.thresholds[n.thresholds[id]] == id
    requires Translate.Known(n.thresholds, At(live, ThresholdKey))
    requires Export.ExportRule(Performance, n, live).Ok?
    requires RestoreRule(v, t, Export.ExportRule(Performance, n, live).value).Ok?
    ensures Get(RestoreRule(v, t, Export.ExportRule(Performance, n, live).value).value, ThresholdKey) == Get(live, ThresholdKey)
  {
    var x := Export.ExportRule(Performance, n, live).value;
    var id := At(live, ThresholdKey).s;
    assert Get(x, ThresholdKey) == Some(Str(n.thresholds[id]));
    assert Translate.Known(t.thresholds, At(x, ThresholdKey));
  }

  /** `cleandata(r_data)` of a rule wrapper's translated rule: the body its POST carries. */
  function PostedRule(v: Variant, t: Dicts, wrapper: Value): (r: Result<Value>)
    ensures r.Ok? <==> NatPush.First(wrapper).Ok? && RestoreRule(v, t, NatPush.First(wrapper).value.1).Ok?
    ensures r.Ok? ==> r.value == Docs.Cleaned(RestoreRule(v, t, NatPush.First(wrapper).value.1).value, Docs.DeleteKeys)
  {
    var (_, rule) :- NatPush.First(wrapper);
    var x :- RestoreRule(v, t, rule);
    Ok(Docs.Cleaned(x, Docs.DeleteKeys))
  }

  // ---- the rule loop ----

  /** The POST body of each rule wrapper of a set, or the error translating it raises. */
  function PostedRules(v: Variant, t: Dicts, rules: seq<Value>): (bs: seq<Result<Value>>)
    ensures |bs| == |rules| && forall i :: 0 <= i < |rules| ==> bs[i] == PostedRule(v, t, rules[i])
  {
    seq(|rules|, i requires 0 <= i < |rules| => PostedRule(v, t, rules[i]))
  }

  /**
   * The rule loop of one set over the rules' POST bodies: each is POSTed under
   * the set's id unless the run is dry, and the first rule that raises ends
   * the loop (and the run). A rule's translation does not depend on the
   * controller, so the bodies are the same whatever the earlier POSTs did.
   */
  function RulesPushed(e: Env, s: Store, dry: bool, setId: Value, bodies: seq<Result<Value>>): (r: (Store, Result<()>))
    ensures s.log <= r.0.log
    ensures r.1.Raise? ==> exists i | 0 <= i < |bodies| :: bodies[i] == Raise(r.1.error)
    decreases |bodies|
  {
    if bodies == [] then (s, Ok(()))
    else match bodies[0]
      case Raise(err) => (s, Raise(err))
      case Ok(body) =>
        var s1 := if dry then s else StorePost(e, s, Performance, Rules, PyStr(setId), body).store;
        RulesPushed(e, s1, dry, setId, bodies[1..])
  }

  /** The requests a set's rules produce: one POST per rule wrapper, in order, under the set's id. */
  function RulePosts(setId: Value, bodies: seq<Result<Value>>): (q: seq<Request>)
    requires forall i :: 0 <= i < |bodies| ==> bodies[i].Ok?
    ensures |q| == |bodies|
    ensures forall i :: 0 <= i < |bodies| ==> q[i] == PostReq(Performance, Rules, PyStr(setId), bodies[i].value)
  {
    seq(|bodies|, i requires 0 <= i < |bodies| => PostReq(Performance, Rules, PyStr(setId), bodies[i].value))
  }

  /**
   * The rule loop fails exactly when some rule cannot be translated, whatever
   * the controller does; a dry run writes nothing, and any other run that
   * finishes sent exactly one POST per rule wrapper, in order.
   */
  lemma RulesPosted(e: Env, s: Store, dry: bool, setId: Value, bodies: seq<Result<Value>>)
    ensures RulesPushed(e, s, dry, setId, bodies).1.Ok? <==> forall i :: 0 <= i < |bodies| ==> bodies[i].Ok?
    ensures dry ==> RulesPushed(e, s, dry, setId, bodies).0 == s
    ensures RulesPushed(e, s, dry, setId, bodies).1.Ok? && !dry ==>
              RulesPushed(e, s, dry, setId, bodies).0.log == s.log + RulePosts(setId, bodies)
  {
    RulesPushedFails(e, s, dry, setId, bodies);
    if dry {
      RulesPushedDry(e, s, setId, bodies);
    } else if forall i :: 0 <= i < |bodies| ==> bodies[i].Ok? {
      RulesPushedLog(e, s, setId, bodies);
    }
  }

  /** The rule loop raises exactly when some body does. */
  lemma {:induction false} RulesPushedFails(e: Env, s: Store, dry: bool, setId: Value, bodies: seq<Result<Value>>)
    ensures RulesPushed(e, s, dry, setId, bodies).1.Ok? <==> forall i :: 0 <= i < |bodies| ==> bodies[i].Ok?
    decreases |bodies|
  {
    if bodies != [] && bodies[0].Ok? {
      var s1 := if dry then s else StorePost(e, s, Performance, Rules, PyStr(setId), bodies[0].value).store;
      RulesPushedFails(e, s1, dry, setId, bodies[1..]);
      assert forall i :: 1 <= i < |bodies| ==> bodies[1..][i - 1] == bodies[i];
    }
  }

  /** A dry rule loop leaves the controller as it was. */
  lemma {:induction false} RulesPushedDry(e: Env, s: Store, setId: Value, bodies: seq<Result<Value>>)
    ensures RulesPushed(e, s, true, setId, bodies).0 == s
    decreases |bodies|
  {
    if bodies != [] && bodies[0].Ok? {
      RulesPushedDry(e, s, setId, bodies[1..]);
    }
  }

  /** A rule loop that writes and finishes logs one POST per body, in order. */
  lemma {:induction false} RulesPushedLog(e: Env, s: Store, setId: Value, bodies: seq<Result<Value>>)
    requires forall i :: 0 <= i < |bodies| ==> bodies[i].Ok?
    ensures RulesPushed(e, s, false, setId, bodies).0.log == s.log + RulePosts(setId, bodies)
    decreases |bodies|
  {
    if bodies != [] {
      var s1 := StorePost(e, s, Performance, Rules, PyStr(setId), bodies[0].value).store;
      assert forall i :: 0 <= i < |bodies| - 1 ==> bodies[1..][i] == bodies[i + 1];
      RulesPushedLog(e, s1, setId, bodies[1..]);
      assert RulePosts(setId, bodies) == [RulePosts(setId, bodies)[0]] + RulePosts(setId, bodies[1..]);
      Scan.AppendAssoc(s.log, [RulePosts(setId, bodies)[0]], RulePosts(setId, bodies[1..]));
    }
  }

  // ---- one set ----

  /** `set_data.pop("rules", [])`: the rule list, and the set without it. */
  function Popped(data: Value): (r: Result<(Value, Value)>)
    ensures r.Ok? <==> data.Obj?
    ensures r.Ok? ==> r.value.0 == Get(data, RulesKey).GetOr(List([]))
    ensures r.Ok? ==> r.value.1.Obj? && Get(r.value.1, RulesKey) == None
    ensures r.Ok? ==> forall k | k != RulesKey :: Get(r.value.1, k) == Get(data, k)
  {
    if data.List? then Raise("TypeError")
    else if !data.Obj? then Raise("AttributeError")
    else Ok((Get(data, RulesKey).GetOr(List([])), Drop(data, RulesKey)))
  }

  /** The body a set is written with: `cleandata(set_data)` after its rules were popped. */
  function SetBody(rest: Value): (b: Value)
    ensures rest.Obj? ==> b.Obj? && forall k :: Get(b, k) == if k in Docs.DeleteKeys then None else Get(rest, k)
  {
    Docs.Cleaned(rest, Docs.DeleteKeys)
  }

  /** The set a document entry writes never carries its rules: they were popped before the write. */
  lemma SetWrittenWithoutRules(data: Value)
    requires Popped(data).Ok?
    ensures Get(SetBody(Popped(data).value.1), RulesKey) == None
    ensures forall k | k != RulesKey && k !in Docs.DeleteKeys :: Get(SetBody(Popped(data).value.1), k) == Get(data, k)
  {
  }

  /**
   * Syncing the set itself: a live name is PUT over at its id, any other name
   * is POSTed and takes the id the controller returns (`None` when the POST
   * was refused). A dry run writes nothing, and a new set's id is then the
   * placeholder `DRY-RUN-ID`.
   */
  function SetSync(e: Env, s: Store, existing: map<string, string>, dry: bool, name: string, rest: Value): (r: (Store, Value))
    ensures dry ==> r == (s, Str(if name in existing then existing[name] else DryRunId))
    ensures !dry && name in existing ==> r == (StorePut(e, s, Performance, Sets, "", existing[name], SetBody(rest)).store, Str(existing[name]))
    ensures !dry && name !in existing ==> r.0 == StorePost(e, s, Performance, Sets, "", SetBody(rest)).store
    ensures !dry && name !in existing ==>
              r.1 == if StorePost(e, s, Performance, Sets, "", SetBody(rest)).ok then Str(MintId(s.nextId)) else Null
  {
    if name in existing then
      if dry then (s, Str(existing[name]))
      else (StorePut(e, s, Performance, Sets, "", existing[name], SetBody(rest)).store, Str(existing[name]))
    else if dry then (s, Str(DryRunId))
    else
      var p := StorePost(e, s, Performance, Sets, "", SetBody(rest));
      (p.store, if p.ok then Get(p.created, "id").GetOr(Null) else Null)
  }

  /** One iteration of the set loop: the set, then its rules under the set's id. */
  function SetStep(e: Env, s: Store, v: Variant, t: Dicts, existing: map<string, string>, dry: bool, entry: Value): (r: (Store, Result<()>))
    ensures NatPush.First(entry).Raise? ==> r == (s, Raise(NatPush.First(entry).error))
    ensures s.log <= r.0.log
  {
    match NatPush.First(entry)
    case Raise(err) => (s, Raise(err))
    case Ok((name, data)) =>
      match Popped(data)
      case Raise(err) => (s, Raise(err))
      case Ok((rules, rest)) =>
        var (s1, setId) := SetSync(e, s, existing, dry, name, rest);
        match Iterate(rules)
        case None => (s1, Raise("TypeError"))
        case Some(rs) => RulesPushed(e, s1, dry, setId, PostedRules(v, t, rs))
  }

  /** The set loop, stopping at the first set that raises. */
  function SetsPushed(e: Env, s: Store, v: Variant, t: Dicts, existing: map<string, string>, dry: bool, sets: seq<Value>): (r: (Store, Result<()>))
    ensures s.log <= r.0.log
    ensures sets != [] && NatPush.First(sets[0]).Raise? ==> r == (s, Raise(NatPush.First(sets[0]).error))
    decreases |sets|
  {
    if sets == [] then (s, Ok(()))
    else
      var (s1, r1) := SetStep(e, s, v, t, existing, dry, sets[0]);
      if r1.Raise? then (s1, r1) else SetsPushed(e, s1, v, t, existing, dry, sets[1..])
  }

  /** The set loop from `i` on is one step, then either that step's error or the loop from `i + 1`. */
  lemma SetsPushedStep(e: Env, s: Store, v: Variant, t: Dicts, existing: map<string, string>, dry: bool,
                       sets: seq<Value>, i: nat, s1: Store, r: Result<()>)
    requires i < |sets| && (s1, r) == SetStep(e, s, v, t, existing, dry, sets[i])
    ensures SetsPushed(e, s, v, t, existing, dry, sets[i..]) ==
            if r.Raise? then (s1, r) else SetsPushed(e, s1, v, t, existing, dry, sets[i + 1..])
  {
    assert sets[i..][0] == sets[i] && sets[i..][1..] == sets[i + 1..];
  }

  // ---- push_policy_performance ----

  /** `loaded_config.get("performance_sets", [])` */
  function SetsIn(cfg: Value): Value {
    Get(cfg, SetsKey).GetOr(List([]))
  }

  /**
   * The sets the loop iterates; `Ok(None)` is the refactored script's early
   * return on a falsy value. A document that is not a dict, or a value the
   * loop cannot iterate, raises.
   */
  function PerfSets(v: Variant, cfg: Value): (r: Result<Option<seq<Value>>>)
    ensures r.Ok? && r.value.None? <==> cfg.Obj? && v == Refactored && !Truthy(SetsIn(cfg))
    ensures r.Raise? <==> !cfg.Obj? || ((v == RestoreAll || Truthy(SetsIn(cfg))) && Iterate(SetsIn(cfg)).None?)
    ensures r.Ok? && r.value.Some? ==> Iterate(SetsIn(cfg)).Some? && r.value.value == Iterate(SetsIn(cfg)).value
  {
    if !cfg.Obj? then Raise("AttributeError")
    else if v == Refactored && !Truthy(SetsIn(cfg)) then Ok(None)
    else
      assert v == RestoreAll || Truthy(SetsIn(cfg));
      match Iterate(SetsIn(cfg))
      case None => Raise("TypeError")
      case Some(xs) => Ok(Some(xs))
  }

  /** `{i["name"]: i["id"] for i in items}` over the live performance sets; `None` when an item lacks one. */
  function Existing(e: Env, s: Store): (r: Option<map<string, string>>)
    ensures var items := ListAt(e, s, Performance, Sets, "").1;
            r.Some? <==> forall i | 0 <= i < |items| :: Catalog.RowOf(items[i], "id", "name").Some?
    ensures var items := ListAt(e, s, Performance, Sets, "").1;
            r.Some? ==> forall n :: (n in r.value <==> Catalog.LastId(items, n, "id", "name").Some?) &&
                                    (n in r.value ==> r.value[n] == Catalog.LastId(items, n, "id", "name").value)
  {
    var items := ListAt(e, s, Performance, Sets, "").1;
    var ix := Catalog.AddRows(Catalog.NoIndex, items, "id", "name");
    if ix.None? then None
    else
      assert forall n :: (n in ix.value.nameId <==> Catalog.LastId(items, n, "id", "name").Some?) &&
                         (n in ix.value.nameId ==> ix.value.nameId[n] == Catalog.LastId(items, n, "id", "name").value) by {
        forall n
          ensures (n in ix.value.nameId <==> Catalog.LastId(items, n, "id", "name").Some?) &&
                  (n in ix.value.nameId ==> ix.value.nameId[n] == Catalog.LastId(items, n, "id", "name").value)
        {
          Catalog.AddRowsNameId(Catalog.NoIndex, items, "id", "name", n);
        }
      }
      Some(ix.value.nameId)
  }

  /** The whole performance restore: the store it leaves and whether it raised. */
  function Restored(e: Env, s: Store, v: Variant, t: Dicts, cfg: Value, dry: bool): (r: (Store, Result<()>))
    ensures s.log <= r.0.log
    ensures Existing(e, s).None? ==> r == (s, Raise("KeyError"))
    ensures Existing(e, s).Some? && PerfSets(v, cfg).Raise? ==> r == (s, Raise(PerfSets(v, cfg).error))
    ensures Existing(e, s).Some? && PerfSets(v, cfg) == Ok(None) ==> r == (s, Ok(()))
  {
    match Existing(e, s)
    case None => (s, Raise("KeyError"))
    case Some(existing) =>
      match PerfSets(v, cfg)
      case Raise(err) => (s, Raise(err))
      case Ok(None) => (s, Ok(()))
      case Ok(Some(sets)) => SetsPushed(e, s, v, t, existing, dry, sets)
  }

  /** The requests the restore may send: sets are PUT or POSTed, rules only POSTed; nothing is deleted. */
  predicate RestoreRequest(q: Request) {
    match q
    case PostReq(d, l, parent, _) => d == Performance && (l == Rules || (l == Sets && parent == ""))
    case PutReq(d, l, parent, _, _) => d == Performance && l == Sets && parent == ""
    case DeleteReq(_, _, _, _) => false
  }

  /** `s'` extends `s`'s log with restore requests only. */
  ghost predicate OnlyRestoreRequests(s: Store, s': Store) {
    |s.log| <= |s'.log| && s'.log[..|s.log|] == s.log &&
    forall i :: |s.log| <= i < |s'.log| ==> RestoreRequest(s'.log[i])
  }

  lemma {:induction false} RulesOnlyPost(e: Env, s: Store, dry: bool, setId: Value, bodies: seq<Result<Value>>)
    ensures OnlyRestoreRequests(s, RulesPushed(e, s, dry, setId, bodies).0)
    decreases |bodies|
  {
    if bodies != [] && bodies[0].Ok? {
      var s1 := if dry then s else StorePost(e, s, Performance, Rules, PyStr(setId), bodies[0].value).store;
      assert OnlyRestoreRequests(s, s1);
      RulesOnlyPost(e, s1, dry, setId, bodies[1..]);
      Extends(s, s1, RulesPushed(e, s1, dry, setId, bodies[1..]).0);
    }
  }

  lemma Extends(s: Store, s1: Store, s2: Store)
    requires OnlyRestoreRequests(s, s1) && OnlyRestoreRequests(s1, s2)
    ensures OnlyRestoreRequests(s, s2)
  {
    assert s2.log[..|s.log|] == s2.log[..|s1.log|][..|s.log|];
  }

  lemma SetSyncOnly(e: Env, s: Store, existing: map<string, string>, dry: bool, name: string, rest: Value)
    ensures OnlyRestoreRequests(s, SetSync(e, s, existing, dry, name, rest).0)
  {
  }

  lemma {:induction false} SetsOnlyRestore(e: Env, s: Store, v: Variant, t: Dicts, existing: map<string, string>, dry: bool, sets: seq<Value>)
    ensures OnlyRestoreRequests(s, SetsPushed(e, s, v, t, existing, dry, sets).0)
    decreases |sets|
  {
    if sets != [] {
      var (s1, r1) := SetStep(e, s, v, t, existing, dry, sets[0]);
      SetStepOnly(e, s, v, t, existing, dry, sets[0]);
      if r1.Ok? {
        SetsOnlyRestore(e, s1, v, t, existing, dry, sets[1..]);
        Extends(s, s1, SetsPushed(e, s1, v, t, existing, dry, sets[1..]).0);
      }
    }
  }

  lemma SetStepOnly(e: Env, s: Store, v: Variant, t: Dicts, existing: map<string, string>, dry: bool, entry: Value)
    ensures OnlyRestoreRequests(s, SetStep(e, s, v, t, existing, dry, entry).0)
  {
    var f := NatPush.First(entry);
    if f.Ok? && Popped(f.value.1).Ok? {
      var (name, data) := f.value;
      var (rules, rest) := Popped(data).value;
      var (s1, setId) := SetSync(e, s, existing, dry, name, rest);
      SetSyncOnly(e, s, existing, dry, name, rest);
      if Iterate(rules).Some? {
        var bodies := PostedRules(v, t, Iterate(rules).value);
        RulesOnlyPost(e, s1, dry, setId, bodies);
        Extends(s, s1, RulesPushed(e, s1, dry, setId, bodies).0);
      }
    }
  }

  /**
   * The restore never deletes anything and never PUTs a rule: every request
   * it adds to the log POSTs a rule, or PUTs or POSTs a performance set.
   */
  lemma RestoreOnlyWrites(e: Env, s: Store, v: Variant, t: Dicts, cfg: Value, dry: bool)
    ensures OnlyRestoreRequests(s, Restored(e, s, v, t, cfg, dry).0)
  {
    if Existing(e, s).Some? && PerfSets(v, cfg).Ok? && PerfSets(v, cfg).value.Some? {
      SetsOnlyRestore(e, s, v, t, Existing(e, s).value, dry, PerfSets(v, cfg).value.value);
    }
  }

  lemma {:induction false} SetsDry(e: Env, s: Store, v: Variant, t: Dicts, existing: map<string, string>, sets: seq<Value>)
    ensures SetsPushed(e, s, v, t, existing, true, sets).0 == s
    decreases |sets|
  {
    if sets != [] {
      var f := NatPush.First(sets[0]);
      if f.Ok? && Popped(f.value.1).Ok? {
        var (rules, rest) := Popped(f.value.1).value;
        var setId := SetSync(e, s, existing, true, f.value.0, rest).1;
        if Iterate(rules).Some? {
          RulesPosted(e, s, true, setId, PostedRules(v, t, Iterate(rules).value));
        }
      }
      SetsDry(e, s, v, t, existing, sets[1..]);
    }
  }

  /** A dry run leaves the controller exactly as it found it: no request at all is sent. */
  lemma DryRunWritesNothing(e: Env, s: Store, v: Variant, t: Dicts, cfg: Value)
    ensures Restored(e, s, v, t, cfg, true).0 == s
  {
    if Existing(e, s).Some? && PerfSets(v, cfg).Ok? && PerfSets(v, cfg).value.Some? {
      SetsDry(e, s, v, t, Existing(e, s).value, PerfSets(v, cfg).value.value);
    }
  }

  /**
   * On a document whose `performance_sets` is falsy the refactored restore
   * returns without writing, while `restore_policy_all.py` raises on an
   * explicit null there (its loop cannot iterate `None`).
   */
  lemma FalsySetsVariants(e: Env, s: Store, t: Dicts, cfg: Value, dry: bool)
    requires cfg.Obj? && !Truthy(SetsIn(cfg)) && Existing(e, s).Some?
    ensures Restored(e, s, Refactored, t, cfg, dry) == (s, Ok(()))
    ensures Get(cfg, SetsKey) == Some(Null) ==> Restored(e, s, RestoreAll, t, cfg, dry) == (s, Raise("TypeError"))
  {
  }

  /**
   * The restore reads what the combined exporter writes: an exported
   * performance set unwraps to its name and a body from which `pop("rules")`
   * takes the exported rules, each a single-key wrapper the rule loop
   * unwraps to its name and exported body.
   */
  lemma ReadsCombinedExport(n: Export.Names, fetch: Value -> Export.Reply, pset: Value)
    requires Export.SetEntry(Export.Combined, Performance, n, fetch, pset).Ok?
    ensures var w := Export.SetEntry(Export.Combined, Performance, n, fetch, pset).value;
      NatPush.First(w).Ok? && NatPush.First(w).value.0 == PyStr(At(pset, "name")) &&
      Popped(NatPush.First(w).value.1).Ok? &&
      var rules := Popped(NatPush.First(w).value.1).value.0;
      rules.List? && forall i :: 0 <= i < |rules.items| ==> Export.Wrapper(rules.items[i])
  {
    var w := Export.SetEntry(Export.Combined, Performance, n, fetch, pset).value;
    var items := Export.RuleItems(Export.Combined, fetch(At(pset, "id"))).value;
    var exported := Export.ExportedRules(Export.Combined, Performance, n, items).value;
    Export.RulesWrapped(Export.Combined, Performance, n, items);
    assert Export.RulesKey(Export.Combined, Performance) == RulesKey;
    var listed := Export.Listed(Export.Combined, exported);
    assert At(w.fields[0].val, RulesKey) == List(listed);
    assert NatPush.First(w).value.1 == w.fields[0].val;
    forall i | 0 <= i < |listed|
      ensures Export.Wrapper(listed[i])
    {
      Export.CollapseWrapped(exported, i);
    }
  }

  /**
   * One set in a run that writes: its PUT or POST comes first and carries no
   * rules, then one POST per rule wrapper under the set's id.
   */
  lemma SetRequests(e: Env, s: Store, v: Variant, t: Dicts, existing: map<string, string>, entry: Value)
    requires SetStep(e, s, v, t, existing, false, entry).1.Ok?
    ensures NatPush.First(entry).Ok? && Popped(NatPush.First(entry).value.1).Ok?
    ensures var (name, data) := NatPush.First(entry).value;
      var (rules, rest) := Popped(data).value;
      var setId := SetSync(e, s, existing, false, name, rest).1;
      var setReq := if name in existing then PutReq(Performance, Sets, "", existing[name], SetBody(rest))
                    else PostReq(Performance, Sets, "", SetBody(rest));
      Get(SetBody(rest), RulesKey) == None &&
      Iterate(rules).Some? &&
      (forall i :: 0 <= i < |Iterate(rules).value| ==> PostedRules(v, t, Iterate(rules).value)[i].Ok?) &&
      SetStep(e, s, v, t, existing, false, entry).0.log == s.log + [setReq] + RulePosts(setId, PostedRules(v, t, Iterate(rules).value))
  {
    var (name, data) := NatPush.First(entry).value;
    var (rules, rest) := Popped(data).value;
    var (s1, setId) := SetSync(e, s, existing, false, name, rest);
    var bodies := PostedRules(v, t, Iterate(rules).value);
    RulesPosted(e, s1, false, setId, bodies);
  }

  // ---- the scripts' loops and entry points ----

  /** `create_global_dicts_all`, inventory by inventory. */
  method CreateGlobalDicts(ctrl: Controller, v: Variant) returns (t: Option<Dicts>)
    ensures t == Dictionaries(v, RefItems(ctrl.env, AppDefs), RefItems(ctrl.env, NetworkContexts),
                              RefItems(ctrl.env, ThresholdProfiles), RefItems(ctrl.env, SecurityZones))
  {
    var cat := new Catalog.Catalog();
    var ok, items := ctrl.GetRefs(AppDefs);
    var apps: Catalog.Index := Catalog.NoIndex;
    if v == RestoreAll {
      ok, apps := cat.FillIndex(Catalog.NoIndex, items, "id", "display_name");
      if !ok {
        return None;
      }
      ok, items := ctrl.GetRefs(NetworkContexts);
      var contexts;
      ok, contexts := cat.FillIndex(Catalog.NoIndex, items, "id", "name");
      if !ok {
        return None;
      }
    }
    ok, items := ctrl.GetRefs(ThresholdProfiles);
    var slas;
    ok, slas := cat.FillIndex(Catalog.NoIndex, items, "id", "name");
    if !ok {
      return None;
    }
    if v == RestoreAll {
      ok, items := ctrl.GetRefs(SecurityZones);
      var zones;
      ok, zones := cat.FillIndex(Catalog.NoIndex, items, "id", "name");
      if !ok {
        return None;
      }
    }
    return Some(Dicts(apps.nameId, slas.nameId));
  }

  /** The rule loop of one set. */
  method PushRules(ctrl: Controller, v: Variant, t: Dicts, dry: bool, setId: Value, rules: seq<Value>) returns (r: Result<()>)
    modifies ctrl
    ensures (ctrl.State(), r) == RulesPushed(ctrl.env, old(ctrl.State()), dry, setId, PostedRules(v, t, rules))
  {
    ghost var bodies := PostedRules(v, t, rules);
    var i := 0;
    while i < |rules|
      invariant 0 <= i <= |rules|
      invariant RulesPushed(ctrl.env, old(ctrl.State()), dry, setId, bodies) == RulesPushed(ctrl.env, ctrl.State(), dry, setId, bodies[i..])
    {
      var body := PostedRule(v, t, rules[i]);
      assert bodies[i..][0] == body && bodies[i..][1..] == bodies[i + 1..];
      if body.Raise? {
        return Raise(body.error);
      }
      if !dry {
        var ok, created := ctrl.Create(Performance, Rules, PyStr(setId), body.value);
      }
      i := i + 1;
    }
    assert bodies[i..] == [];
    return Ok(());
  }

  /** The set itself: PUT over a live set of that name, or POST a new one. */
  method SyncSet(ctrl: Controller, existing: map<string, string>, dry: bool, name: string, rest: Value) returns (setId: Value)
    modifies ctrl
    ensures (ctrl.State(), setId) == SetSync(ctrl.env, old(ctrl.State()), existing, dry, name, rest)
  {
    if name in existing {
      setId := Str(existing[name]);
      if !dry {
        var ok := ctrl.Update(Performance, Sets, "", existing[name], SetBody(rest));
      }
    } else if dry {
      setId := Str(DryRunId);
    } else {
      var ok, created := ctrl.Create(Performance, Sets, "", SetBody(rest));
      setId := if ok then Get(created, "id").GetOr(Null) else Null;
    }
  }

  /** One iteration of the set loop. */
  method PushSet(ctrl: Controller, v: Variant, t: Dicts, existing: map<string, string>, dry: bool, entry: Value) returns (r: Result<()>)
    modifies ctrl
    ensures (ctrl.State(), r) == SetStep(ctrl.env, old(ctrl.State()), v, t, existing, dry, entry)
  {
    var first := NatPush.First(entry);
    if first.Raise? {
      return Raise(first.error);
    }
    var (name, data) := first.value;
    var popped := Popped(data);
    if popped.Raise? {
      return Raise(popped.error);
    }
    var (rules, rest) := popped.value;
    var setId := SyncSet(ctrl, existing, dry, name, rest);
    var rs := Iterate(rules);
    if rs.None? {
      return Raise("TypeError");
    }
    r := PushRules(ctrl, v, t, dry, setId, rs.value);
  }

  /** The set loop of `push_policy_performance`. */
  method PushSets(ctrl: Controller, v: Variant, t: Dicts, existing: map<string, string>, dry: bool, sets: seq<Value>) returns (r: Result<()>)
    modifies ctrl
    ensures (ctrl.State(), r) == SetsPushed(ctrl.env, old(ctrl.State()), v, t, existing, dry, sets)
  {
    var i := 0;
    while i < |sets|
      invariant 0 <= i <= |sets|
      invariant SetsPushed(ctrl.env, old(ctrl.State()), v, t, existing, dry, sets) == SetsPushed(ctrl.env, ctrl.State(), v, t, existing, dry, sets[i..])
    {
      ghost var s0 := ctrl.State();
      r := PushSet(ctrl, v, t, existing, dry, sets[i]);
      SetsPushedStep(ctrl.env, s0, v, t, existing, dry, sets, i, ctrl.State(), r);
      if r.Raise? {
        return;
      }
      i := i + 1;
    }
    assert sets[i..] == [];
    return Ok(());
  }

  /** `push_policy_performance`. */
  method PushPolicyPerformance(ctrl: Controller, v: Variant, t: Dicts, cfg: Value, dry: bool) returns (r: Result<()>)
    modifies ctrl
    ensures (ctrl.State(), r) == Restored(ctrl.env, old(ctrl.State()), v, t, cfg, dry)
  {
    var ok, items := ctrl.List(Performance, Sets, "");
    var ix := Catalog.AddRows(Catalog.NoIndex, items, "id", "name");
    if ix.None? {
      return Raise("KeyError");
    }
    var sets := PerfSets(v, cfg);
    if sets.Raise? {
      return Raise(sets.error);
    }
    if sets.value.None? {
      return Ok(());
    }
    r := PushSets(ctrl, v, t, ix.value.nameId, dry, sets.value.value);
  }

  /**
   * `go`: the lookup tables, then the restores the policy type selects. In
   * `restore_policy_all.py` the path, QoS, NAT and security restores are
   * placeholders that only report; `push_policy_refactored.py` calls them
   * without defining them, so any type but `performance` stops there with a
   * `NameError` before anything is written.
   */
  function GoRun(e: Env, s: Store, v: Variant, m: Catalog.Mode, cfg: Value, dry: bool): (r: (Store, Result<()>))
    ensures v == Refactored && m != Catalog.PerformanceMode ==> r.0 == s && r.1.Raise?
    ensures m != Catalog.PerformanceMode && m != Catalog.AllMode ==> r.0 == s
  {
    var t := Dictionaries(v, RefItems(e, AppDefs), RefItems(e, NetworkContexts), RefItems(e, ThresholdProfiles), RefItems(e, SecurityZones));
    if t.None? then (s, Raise("KeyError"))
    else if v == Refactored && m != Catalog.PerformanceMode then (s, Raise("NameError"))
    else if m == Catalog.PerformanceMode || m == Catalog.AllMode then Restored(e, s, v, t.value, cfg, dry)
    else (s, Ok(()))
  }

  method Go(ctrl: Controller, v: Variant, m: Catalog.Mode, cfg: Value, dry: bool) returns (r: Result<()>)
    modifies ctrl
    ensures (ctrl.State(), r) == GoRun(ctrl.env, old(ctrl.State()), v, m, cfg, dry)
  {
    var t := CreateGlobalDicts(ctrl, v);
    if t.None? {
      return Raise("KeyError");
    }
    if v == Refactored && m != Catalog.PerformanceMode {
      return Raise("NameError");
    }
    if m == Catalog.PerformanceMode || m == Catalog.AllMode {
      r := PushPolicyPerformance(ctrl, v, t.value, cfg, dry);
    } else {
      r := Ok(());
    }
  }
}
