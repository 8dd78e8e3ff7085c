/**
 * `push_policy_performance`. Like NAT, every set's rules are read back and
 * reconciled and the ids of the pushed sets are kept in maps local to the
 * push; a set has one rule order, `link_health_policyrule_order`, which is
 * not sent for a set the document flags as the default set. A rule's
 * threshold profile is mapped by name; nothing else in it is translated.
 */
module PerformancePush {
  import opened Wrappers
  import opened Json
  import opened Kinds
  import opened Remote
  import opened Reconcile
  import Catalog
  import Compare
  import Docs
  import Translate
  import NatPush
  import Scan

  const OrderKey := "link_health_policyrule_order"
  const DefaultSetName := "Default Performance Policy Set (Simple)"

  /**
   * A rule ready to be written: named by its entry, its truthy
   * `thresholdprofile_id` replaced by the profile's id when the name is
   * known. A rule that is not a map, or a profile reference that cannot be
   * looked up, is fatal.
   */
  function PerfPrep(t: Catalog.Tables, entry: Value): (r: Prepared)
    ensures r.Ok? ==> NatPush.First(entry).Ok? && r.value.0 == NatPush.First(entry).value.0
    ensures r.Ok? ==> var rule := NatPush.First(entry).value.1;
                      rule.Obj? &&
                      (forall k | k != "thresholdprofile_id" :: Get(r.value.1, k) == Get(rule, k)) &&
                      (Truthy(At(rule, "thresholdprofile_id")) && Translate.Known(t.thresholds, At(rule, "thresholdprofile_id")) ==>
                         Get(r.value.1, "thresholdprofile_id") == Some(Str(t.thresholds[At(rule, "thresholdprofile_id").s]))) &&
                      (!Truthy(At(rule, "thresholdprofile_id")) || !Translate.Known(t.thresholds, At(rule, "thresholdprofile_id")) ==> r.value.1 == rule)
    ensures NatPush.First(entry).Ok? && NatPush.First(entry).value.1.Obj? && !Truthy(At(NatPush.First(entry).value.1, "thresholdprofile_id")) ==>
              r == Ok(NatPush.First(entry).value)
  {
    match NatPush.First(entry)
    case Raise(e) => Raise(e)
    case Ok((name, rule)) =>
      if !rule.Obj? then Raise("AttributeError")
      else
        var tp := At(rule, "thresholdprofile_id");
        if !Truthy(tp) then Ok((name, rule))
        else
          match Translate.Lookup(t.thresholds, tp)
          case Raise(e) => Raise(e)
          case Ok(None) => Ok((name, rule))
          case Ok(Some(id)) => Ok((name, Put(rule, "thresholdprofile_id", Str(id))))
  }

  function PerfPreps(t: Catalog.Tables, entries: seq<Value>): (r: seq<Prepared>)
    ensures |r| == |entries|
    ensures forall i :: 0 <= i < |entries| ==> r[i] == PerfPrep(t, entries[i])
  {
    seq(|entries|, i requires 0 <= i < |entries| => PerfPrep(t, entries[i]))
  }

  /** The PUT body that fixes a set's rule order. */
  function PerfOrderPut(setId: Value, ids: seq<Value>): (r: Value)
    ensures r.Obj? && Keys(r.fields) == ["id", OrderKey]
    ensures Get(r, "id") == Some(setId) && Get(r, OrderKey) == Some(List(ids))
  {
    Obj([Field("id", setId), Field(OrderKey, List(ids))])
  }

  /**
   * `if rule_order and set_yaml.get("defaultrule_policyset") is not True`:
   * the order resolved through the ids recorded in this set's loop and PUT
   * at the set's id. An order that cannot be iterated raises, fatally.
   */
  function PerfOrder(e: Env, s: Store, setId: Value, rec: seq<Field>, order: Value, isDefault: bool): (r: (Store, bool))
    ensures !Truthy(order) || isDefault ==> r == (s, true)
    ensures !r.1 <==> Truthy(order) && !isDefault && Resolve(rec, order).Raise?
    ensures !r.1 ==> r.0 == s
    ensures r.1 && Truthy(order) && !isDefault ==>
              r.0.log == s.log + [PutReq(Performance, Sets, "", PyStr(setId), PerfOrderPut(setId, Resolve(rec, order).value))]
  {
    if !Truthy(order) || isDefault then (s, true)
    else
      match Resolve(rec, order)
      case Raise(_) => (s, false)
      case Ok(ids) => (StorePut(e, s, Performance, Sets, "", PyStr(setId), PerfOrderPut(setId, ids)).store, true)
  }

  /** After the loop: the order PUT, then every live rule no entry names deleted. */
  function PerfFinish(e: Env, s: Store, setId: Value, rec: seq<Field>, order: Value, isDefault: bool,
                      live: seq<Field>, names: seq<string>): (r: (Store, bool))
    ensures !r.1 ==> r.0 == s
    ensures r.1 ==> r.0.log == PerfOrder(e, s, setId, rec, order, isDefault).0.log +
                               Deletes(Performance, Rules, PyStr(setId), Doomed(live, names, None))
  {
    var (s2, ordered) := PerfOrder(e, s, setId, rec, order, isDefault);
    if !ordered then (s2, false)
    else (SendAll(e, s2, Deletes(Performance, Rules, PyStr(setId), Doomed(live, names, None))), true)
  }

  method FinishPerf(ctrl: Controller, setId: Value, rec: seq<Field>, order: Value, isDefault: bool, live: seq<Field>, names: seq<string>)
      returns (ok: bool)
    modifies ctrl
    ensures (ctrl.State(), ok) == PerfFinish(ctrl.env, old(ctrl.State()), setId, rec, order, isDefault, live, names)
  {
    ok := true;
    if Truthy(order) && !isDefault {
      var ids := ResolveOrder(rec, order);
      if ids.Raise? {
        return false;
      }
      var _ := ctrl.Update(Performance, Sets, "", PyStr(setId), PerfOrderPut(setId, ids.value));
    }
    Cleanup(ctrl, Performance, Rules, PyStr(setId), live, names, None);
  }

  /**
   * The rules of one set: read back by name, every entry reconciled in
   * document order, the order PUT unless the set is a default one, then
   * every live rule no entry names deleted.
   */
  function PerfRules(e: Env, s: Store, t: Catalog.Tables, setId: Value, rules: Value, order: Value, isDefault: bool): (r: (Store, bool))
    ensures LiveRules(e, s, Performance, PyStr(setId)).None? || Iterate(rules).None? ==> r == (s, false)
    ensures s.log <= r.0.log
  {
    match LiveRules(e, s, Performance, PyStr(setId))
    case None => (s, false)
    case Some(live) =>
      match Iterate(rules)
      case None => (s, false)
      case Some(entries) =>
        var sy := Loop(e, s, Performance, Rules, PyStr(setId), Decisions(PerfPreps(t, entries), live, false), []);
        if !sy.done then (sy.store, false)
        else PerfFinish(e, sy.store, setId, sy.rec, order, isDefault, live, NatPush.EntryNames(entries))
  }

  /** For a default set the finishing step sends only the rule deletes. */
  lemma DefaultFinish(e: Env, s: Store, setId: Value, rec: seq<Field>, order: Value, live: seq<Field>, names: seq<string>)
    ensures var r := PerfFinish(e, s, setId, rec, order, true, live, names);
            r.1 && r.0.log == s.log + Deletes(Performance, Rules, PyStr(setId), Doomed(live, names, None))
  {
  }

  /**
   * A default set never has its order PUT: every write of its rules step
   * is at rule level, whatever order the document gives.
   */
  lemma DefaultSetKeepsOrder(e: Env, s: Store, t: Catalog.Tables, setId: Value, rules: Value, order: Value)
    ensures var r := PerfRules(e, s, t, setId, rules, order, true);
            |s.log| <= |r.0.log| && r.0.log[..|s.log|] == s.log &&
            forall j :: |s.log| <= j < |r.0.log| ==> r.0.log[j].level == Rules
  {
    var tail := DefaultTail(e, s, t, setId, rules, order);
    LevelsAfter(s.log, tail, PerfRules(e, s, t, setId, rules, order, true).0.log, Rules);
  }

  /** What a default set's rules step appends to the log: the loop's writes, then (if it got there) the deletes. */
  lemma DefaultTail(e: Env, s: Store, t: Catalog.Tables, setId: Value, rules: Value, order: Value) returns (tail: seq<Request>)
    ensures PerfRules(e, s, t, setId, rules, order, true).0.log == s.log + tail
    ensures forall j :: 0 <= j < |tail| ==> tail[j].level == Rules
  {
    if LiveRules(e, s, Performance, PyStr(setId)).None? || Iterate(rules).None? {
      tail := [];
      assert PerfRules(e, s, t, setId, rules, order, true) == (s, false);
      assert s.log + tail == s.log;
    } else {
      tail := LoopTail(e, s, t, setId, rules, order, LiveRules(e, s, Performance, PyStr(setId)).value, Iterate(rules).value);
    }
  }

  lemma LoopTail(e: Env, s: Store, t: Catalog.Tables, setId: Value, rules: Value, order: Value,
                 live: seq<Field>, entries: seq<Value>) returns (tail: seq<Request>)
    requires LiveRules(e, s, Performance, PyStr(setId)) == Some(live) && Iterate(rules) == Some(entries)
    ensures PerfRules(e, s, t, setId, rules, order, true).0.log == s.log + tail
    ensures forall j :: 0 <= j < |tail| ==> tail[j].level == Rules
  {
    var acts := Decisions(PerfPreps(t, entries), live, false);
    var plan := Plan(Performance, Rules, PyStr(setId), acts).0;
    var sy := Loop(e, s, Performance, Rules, PyStr(setId), acts, []);
    PlanLevels(Performance, Rules, PyStr(setId), acts);
    assert PerfRules(e, s, t, setId, rules, order, true) ==
           if sy.done then PerfFinish(e, sy.store, setId, sy.rec, order, true, live, NatPush.EntryNames(entries))
           else (sy.store, false);
    if sy.done {
      var dels := Deletes(Performance, Rules, PyStr(setId), Doomed(live, NatPush.EntryNames(entries), None));
      DefaultFinish(e, sy.store, setId, sy.rec, order, live, NatPush.EntryNames(entries));
      tail := plan + dels;
      Scan.AppendAssoc(s.log, plan, dels);
      DeletesLevel(Performance, Rules, PyStr(setId), Doomed(live, NatPush.EntryNames(entries), None));
      LevelsConcat(plan, dels, Rules);
    } else {
      tail := plan;
    }
  }

  method SyncPerfRules(ctrl: Controller, cat: Catalog.Catalog, setId: Value, rules: Value, order: Value, isDefault: bool)
      returns (ok: bool)
    modifies ctrl
    ensures (ctrl.State(), ok) == PerfRules(ctrl.env, old(ctrl.State()), cat.t, setId, rules, order, isDefault)
  {
    var live := ReadRules(ctrl, cat, Performance, PyStr(setId));
    if live.None? {
      return false;
    }
    var entries := Iterate(rules);
    if entries.None? {
      return false;
    }
    ghost var s0 := ctrl.State();
    var rec, done := Sync(ctrl, Performance, Rules, PyStr(setId), PerfPreps(cat.t, entries.value), live.value, false);
    ghost var s1 := ctrl.State();
    if !done {
      PerfRulesSplits(ctrl.env, s0, cat.t, setId, rules, order, isDefault, live.value, entries.value, rec, done, s1, s1, false);
      return false;
    }
    ok := FinishPerf(ctrl, setId, rec, order, isDefault, live.value, NatPush.EntryNames(entries.value));
    PerfRulesSplits(ctrl.env, s0, cat.t, setId, rules, order, isDefault, live.value, entries.value, rec, done, s1, ctrl.State(), ok);
  }

  /** The rules step, told the outcome of its loop and of its finish. */
  lemma PerfRulesSplits(e: Env, s: Store, t: Catalog.Tables, setId: Value, rules: Value, order: Value, isDefault: bool,
                        live: seq<Field>, entries: seq<Value>, rec: seq<Field>, done: bool, s1: Store, s2: Store, ok: bool)
    requires LiveRules(e, s, Performance, PyStr(setId)) == Some(live) && Iterate(rules) == Some(entries)
    requires Synced(s1, rec, done) == Loop(e, s, Performance, Rules, PyStr(setId), Decisions(PerfPreps(t, entries), live, false), [])
    requires done ==> (s2, ok) == PerfFinish(e, s1, setId, rec, order, isDefault, live, NatPush.EntryNames(entries))
    requires !done ==> s2 == s1 && !ok
    ensures PerfRules(e, s, t, setId, rules, order, isDefault) == (s2, ok)
  {
  }

  /**
   * An existing set's fields PUT at its live id when changed, as the
   * overlaid payload; when that payload `is True` for `defaultrule_policyset`
   * its rule order is left out.
   */
  function PerfSetPut(e: Env, s: Store, setId: Value, desired: Value, cur: Value): (r: (Store, bool))
    ensures !Compare.Changed(desired, cur) ==> r == (s, true)
    ensures !r.1 <==> Compare.Changed(desired, cur) && Docs.Payload(desired, cur).Raise?
    ensures r.1 && Compare.Changed(desired, cur) ==>
              |r.0.log| == |s.log| + 1 && r.0.log[..|s.log|] == s.log &&
              var rq := r.0.log[|s.log|];
              var data := Docs.Payload(desired, cur).value;
              rq.PutReq? && rq.level == Sets && rq.id == PyStr(setId) &&
              (IsTrue(At(data, "defaultrule_policyset")) ==> Get(rq.body, OrderKey) == None) &&
              (!IsTrue(At(data, "defaultrule_policyset")) ==> rq.body == data) &&
              forall k | k != OrderKey :: Get(rq.body, k) == Get(data, k)
  {
    if !Compare.Changed(desired, cur) then (s, true)
    else
      match Docs.Payload(desired, cur)
      case Raise(_) => (s, false)
      case Ok(data) =>
        var sent := if IsTrue(At(data, "defaultrule_policyset")) && Has(data, OrderKey) then Drop(data, OrderKey) else data;
        var w := StorePut(e, s, Performance, Sets, "", PyStr(setId), sent);
        assert w.store.log[..|s.log|] == s.log;
        (w.store, true)
  }

  method PutPerfSet(ctrl: Controller, setId: Value, desired: Value, cur: Value) returns (ok: bool)
    modifies ctrl
    ensures (ctrl.State(), ok) == PerfSetPut(ctrl.env, old(ctrl.State()), setId, desired, cur)
  {
    ghost var s0 := ctrl.State();
    if Compare.Changed(desired, cur) {
      var data := Docs.UpdatePayload(desired, cur);
      if data.Raise? {
        return false;
      }
      var sent := data.value;
      if IsTrue(At(sent, "defaultrule_policyset")) && Has(sent, OrderKey) {
        sent := Drop(sent, OrderKey);
      }
      var _ := ctrl.Update(Performance, Sets, "", PyStr(setId), sent);
      assert PerfSetPut(ctrl.env, s0, setId, desired, cur) ==
             (StorePut(ctrl.env, s0, Performance, Sets, "", PyStr(setId), sent).store, true);
    }
    ok := true;
  }

  /** The set as written and compared: rules taken out, order and `clone_from` cleared. */
  function PerfCleared(body: Value): (r: Value)
    ensures body.Obj? ==> Get(r, OrderKey) == Some(Null) && Get(r, "clone_from") == Some(Null) &&
                          Get(r, DocKey(Performance, Rules)) == None
    ensures forall k | k != OrderKey && k != "clone_from" && k != DocKey(Performance, Rules) :: Get(r, k) == Get(body, k)
  {
    var b1 := Drop(body, DocKey(Performance, Rules));
    assert DocKey(Performance, Rules) == "perfmgmtpolicyrules";
    assert |OrderKey| != |"perfmgmtpolicyrules"| && |"clone_from"| != |"perfmgmtpolicyrules"|;
    Put(Put(b1, OrderKey, Null), "clone_from", Null)
  }

  /**
   * One document set, by name, pushed. An existing set is learnt under its
   * live id and PUT when changed; a new set is POSTed and learnt under the
   * id it was given, or skipped without a crash when refused. Either way its
   * rules are then reconciled.
   */
  function PerfSet(e: Env, r: Run, name: string, body: Value): (r': Run)
    ensures r'.t == r.t
    ensures !body.Obj? ==> r' == r.(ok := false)
  {
    if !body.Obj? then r.(ok := false)
    else
      var rules := NatPush.OrderOf(body, DocKey(Performance, Rules));
      var order := At(body, OrderKey);
      var desired := PerfCleared(body);
      var isDefault := IsTrue(At(desired, "defaultrule_policyset"));
      match Find(Catalog.SetsOf(r.t, Performance).config, name)
      case Some(cur) => ExistingPerfSet(e, r, name, cur, desired, rules, order, isDefault)
      case None => NewPerfSet(e, r, name, desired, rules, order, isDefault)
  }

  /** A set the controller has: learnt under its live id, PUT when changed, then its rules. */
  function ExistingPerfSet(e: Env, r: Run, name: string, cur: Value, desired: Value, rules: Value, order: Value, isDefault: bool): (r': Run)
    ensures r'.t == r.t
    ensures r'.newIds == r.newIds[name := At(cur, "id")] && r'.idName == r.idName[At(cur, "id") := name]
    ensures r.s.log <= r'.s.log
  {
    var setId := At(cur, "id");
    var r1 := NatPush.Learn(r, name, setId);
    var (s1, put) := PerfSetPut(e, r.s, setId, desired, cur);
    if !put then r1.(s := s1, ok := false)
    else
      var (s2, ok) := PerfRules(e, s1, r.t, setId, rules, order, isDefault);
      r1.(s := s2, ok := ok)
  }

  /** A set the controller lacks: POSTed, then learnt under its new id and its rules reconciled; a refusal is skipped. */
  function NewPerfSet(e: Env, r: Run, name: string, desired: Value, rules: Value, order: Value, isDefault: bool): (r': Run)
    ensures r'.t == r.t
    ensures var p := StorePost(e, r.s, Performance, Sets, "", desired);
            (p.ok ==> r'.newIds == r.newIds[name := At(p.created, "id")] && r'.idName == r.idName[At(p.created, "id") := name]) &&
            (!p.ok ==> r' == r.(s := p.store))
  {
    var p := StorePost(e, r.s, Performance, Sets, "", desired);
    if !p.ok then r.(s := p.store)
    else
      var setId := At(p.created, "id");
      var (s2, ok) := PerfRules(e, p.store, r.t, setId, rules, order, isDefault);
      NatPush.Learn(r, name, setId).(s := s2, ok := ok)
  }

  /** The default flag the order step reads is the document's own, not the live set's. */
  lemma DefaultFromDocument(body: Value)
    requires body.Obj?
    ensures IsTrue(At(PerfCleared(body), "defaultrule_policyset")) <==> IsTrue(At(body, "defaultrule_policyset"))
  {
    assert "defaultrule_policyset" != OrderKey && "defaultrule_policyset" != "clone_from";
    assert "defaultrule_policyset" != DocKey(Performance, Rules);
  }

  method PerfSetStep(ctrl: Controller, cat: Catalog.Catalog, newIds0: map<string, Value>, idName0: map<Value, string>, name: string, body: Value)
      returns (newIds: map<string, Value>, idName: map<Value, string>, ok: bool)
    modifies ctrl
    ensures Run(ctrl.State(), cat.t, newIds, idName, ok) == PerfSet(ctrl.env, Run(old(ctrl.State()), cat.t, newIds0, idName0, true), name, body)
  {
    ghost var r0 := Run(ctrl.State(), cat.t, newIds0, idName0, true);
    newIds, idName := newIds0, idName0;
    if !body.Obj? {
      return newIds, idName, false;
    }
    var rules := NatPush.OrderOf(body, DocKey(Performance, Rules));
    var order := At(body, OrderKey);
    var desired := PerfCleared(body);
    var isDefault := IsTrue(At(desired, "defaultrule_policyset"));
    var cur := Find(Catalog.SetsOf(cat.t, Performance).config, name);
    PerfSetCases(ctrl.env, r0, name, body);
    if cur.Some? {
      newIds, idName, ok := ExistingPerfStep(ctrl, cat, newIds, idName, name, cur.value, desired, rules, order, isDefault);
      assert Run(ctrl.State(), cat.t, newIds, idName, ok) == ExistingPerfSet(ctrl.env, r0, name, cur.value, desired, rules, order, isDefault);
    } else {
      newIds, idName, ok := NewPerfStep(ctrl, cat, newIds, idName, name, desired, rules, order, isDefault);
      assert Run(ctrl.State(), cat.t, newIds, idName, ok) == NewPerfSet(ctrl.env, r0, name, desired, rules, order, isDefault);
    }
  }

  /** A dict set goes down the existing-set or the new-set path, with what it was cleared to. */
  lemma PerfSetCases(e: Env, r: Run, name: string, body: Value)
    requires body.Obj?
    ensures var rules := NatPush.OrderOf(body, DocKey(Performance, Rules));
            var desired := PerfCleared(body);
            var isDefault := IsTrue(At(desired, "defaultrule_policyset"));
            var cur := Find(Catalog.SetsOf(r.t, Performance).config, name);
            PerfSet(e, r, name, body) ==
              if cur.Some? then ExistingPerfSet(e, r, name, cur.value, desired, rules, At(body, OrderKey), isDefault)
              else NewPerfSet(e, r, name, desired, rules, At(body, OrderKey), isDefault)
  {
  }

  method ExistingPerfStep(ctrl: Controller, cat: Catalog.Catalog, newIds0: map<string, Value>, idName0: map<Value, string>,
                          name: string, cur: Value, desired: Value, rules: Value, order: Value, isDefault: bool)
      returns (newIds: map<string, Value>, idName: map<Value, string>, ok: bool)
    modifies ctrl
    ensures Run(ctrl.State(), cat.t, newIds, idName, ok) ==
            ExistingPerfSet(ctrl.env, Run(old(ctrl.State()), cat.t, newIds0, idName0, true), name, cur, desired, rules, order, isDefault)
  {
    ghost var r0 := Run(ctrl.State(), cat.t, newIds0, idName0, true);
    var setId := At(cur, "id");
    newIds, idName := newIds0[name := setId], idName0[setId := name];
    var put := PutPerfSet(ctrl, setId, desired, cur);
    ghost var s1 := ctrl.State();
    if put {
      ok := SyncPerfRules(ctrl, cat, setId, rules, order, isDefault);
    } else {
      ok := false;
    }
    ExistingPerfSetSplits(ctrl.env, r0, name, cur, desired, rules, order, isDefault, s1, put, ctrl.State(), ok);
  }

  /** The existing-set path, told the outcome of its PUT and of its rules step. */
  lemma ExistingPerfSetSplits(e: Env, r: Run, name: string, cur: Value, desired: Value, rules: Value, order: Value, isDefault: bool,
                              s1: Store, put: bool, s2: Store, ok: bool)
    requires (s1, put) == PerfSetPut(e, r.s, At(cur, "id"), desired, cur)
    requires put ==> (s2, ok) == PerfRules(e, s1, r.t, At(cur, "id"), rules, order, isDefault)
    requires !put ==> s2 == s1 && !ok
    ensures ExistingPerfSet(e, r, name, cur, desired, rules, order, isDefault) ==
            NatPush.Learn(r, name, At(cur, "id")).(s := s2, ok := ok)
  {
  }

  method NewPerfStep(ctrl: Controller, cat: Catalog.Catalog, newIds0: map<string, Value>, idName0: map<Value, string>,
                     name: string, desired: Value, rules: Value, order: Value, isDefault: bool)
      returns (newIds: map<string, Value>, idName: map<Value, string>, ok: bool)
    modifies ctrl
    ensures Run(ctrl.State(), cat.t, newIds, idName, ok) ==
            NewPerfSet(ctrl.env, Run(old(ctrl.State()), cat.t, newIds0, idName0, true), name, desired, rules, order, isDefault)
  {
    ghost var r0 := Run(ctrl.State(), cat.t, newIds0, idName0, true);
    newIds, idName := newIds0, idName0;
    var posted, created := ctrl.Create(Performance, Sets, "", desired);
    ghost var s1 := ctrl.State();
    if !posted {
      NewPerfSetSplits(ctrl.env, r0, name, desired, rules, order, isDefault, s1, posted, created, s1, true);
      return newIds, idName, true;
    }
    var setId := At(created, "id");
    newIds, idName := newIds[name := setId], idName[setId := name];
    ok := SyncPerfRules(ctrl, cat, setId, rules, order, isDefault);
    NewPerfSetSplits(ctrl.env, r0, name, desired, rules, order, isDefault, s1, posted, created, ctrl.State(), ok);
  }

  /** The new-set path, told the outcome of its POST and of its rules step. */
  lemma NewPerfSetSplits(e: Env, r: Run, name: string, desired: Value, rules: Value, order: Value, isDefault: bool,
                         s1: Store, posted: bool, created: Value, s2: Store, ok: bool)
    requires Posted(s1, posted, created) == StorePost(e, r.s, Performance, Sets, "", desired)
    requires posted ==> (s2, ok) == PerfRules(e, s1, r.t, At(created, "id"), rules, order, isDefault)
    requires !posted ==> s2 == s1 && ok == r.ok
    ensures NewPerfSet(e, r, name, desired, rules, order, isDefault) ==
            if posted then NatPush.Learn(r, name, At(created, "id")).(s := s2, ok := ok) else r.(s := s2)
  {
  }

  /**
   * A Performance stack as sent: pinned to the shared default set's id
   * when this push learnt it, its members swapped, and normalised (the
   * translation leaves a Performance stack alone); a raise in the
   * normalisation is swallowed. A stack that is not a map, or whose members
   * cannot be swapped, is fatal.
   */
  function PerfStackPrep(newIds: map<string, Value>, idName: map<Value, string>, name: string, stack: Value): (r: Prepared)
    ensures r.Ok? <==> stack.Obj? &&
                       NatPush.Swapped(newIds, idName, if DefaultSetName in newIds then Put(stack, "defaultrule_policyset_id", newIds[DefaultSetName]) else stack).Ok?
    ensures r.Ok? ==> r.value.0 == name
    ensures r.Ok? && DefaultSetName in newIds ==> Get(r.value.1, "defaultrule_policyset_id") == Some(newIds[DefaultSetName])
    ensures r.Ok? && DefaultSetName !in newIds ==> Get(r.value.1, "defaultrule_policyset_id") == Get(stack, "defaultrule_policyset_id")
  {
    if !stack.Obj? then Raise("AttributeError")
    else
      var pinned := if DefaultSetName in newIds then Put(stack, "defaultrule_policyset_id", newIds[DefaultSetName]) else stack;
      match NatPush.Swapped(newIds, idName, pinned)
      case Raise(e) => Raise(e)
      case Ok(sw) =>
        assert "defaultrule_policyset_id" != "policyset_ids";
        match Docs.UpdateStack(sw)
        case Raise(_) => Ok((name, sw))
        case Ok(v) => Ok((name, v))
  }

  /**
   * Unlike NAT's, a Performance stack keeps its swapped members: each
   * member naming a set learnt this push is sent as that set's id.
   */
  lemma PerfSwapKept(newIds: map<string, Value>, idName: map<Value, string>, name: string, stack: Value, items: seq<Value>)
    requires stack.Obj? && At(stack, "policyset_ids") == List(items) && items != []
    requires forall i :: 0 <= i < |items| ==> items[i].Str? && items[i] !in idName && items[i].s in newIds
    ensures PerfStackPrep(newIds, idName, name, stack).Ok?
    ensures Get(PerfStackPrep(newIds, idName, name, stack).value.1, "policyset_ids") ==
            Some(List(seq(|items|, i requires 0 <= i < |items| && items[i].Str? && items[i].s in newIds => newIds[items[i].s])))
  {
    var pinned := if DefaultSetName in newIds then Put(stack, "defaultrule_policyset_id", newIds[DefaultSetName]) else stack;
    assert "defaultrule_policyset_id" != "policyset_ids";
    assert At(pinned, "policyset_ids") == List(items);
    NatPush.SwapLearnt(newIds, idName, pinned, items);
    var ys := seq(|items|, i requires 0 <= i < |items| && items[i].Str? && items[i].s in newIds => newIds[items[i].s]);
    var sw := Put(pinned, "policyset_ids", List(ys));
    assert At(sw, "policyset_ids") == List(ys) && |ys| > 0;
    Docs.UpdateStackKeepsMembers(sw);
    assert PerfStackPrep(newIds, idName, name, stack) == Ok((name, sw));
  }
}
