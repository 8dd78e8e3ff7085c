/**
 * `push_policy_security`'s per-set step. An existing set has its rules
 * synced first, then its own fields translated and PUT when changed (a
 * default set never sends its rule order). A new set is POSTed without an
 * order, the rules the controller seeded into it are read back and every
 * document rule is written over them, and the document's rule order is
 * then PUT through the rule ids recorded on the way.
 *
 * The script as written reads the document's order only after clearing it,
 * so its order PUT never happens. `SecuritySetAsWritten` models that, and
 * the loop method `SecuritySetStep` and the whole push follow it;
 * `SecuritySet` is the corrected step, which reads the order first.
 */
module SecurityPush {
  import opened Wrappers
  import opened Json
  import opened Kinds
  import opened Remote
  import opened Reconcile
  import opened SetSync
  import Catalog
  import Compare
  import Docs
  import Translate

  /** The PUT body that fixes a new set's rule order. */
  function OrderPut(created: Value, ids: seq<Value>): (r: Value)
    ensures r.Obj? && Keys(r.fields) == ["id", "policyrule_order"]
    ensures Get(r, "id") == Some(At(created, "id")) && Get(r, "policyrule_order") == Some(List(ids))
  {
    Obj([Field("id", At(created, "id")), Field("policyrule_order", List(ids))])
  }

  /**
   * The fields of an existing set, once its rules are in line: translated
   * (rule order by rule ids of this set), the rules key dropped, and PUT
   * when changed; a set flagged `defaultrule_policyset` has its rule order
   * stripped from the payload. A raise in translation or in the payload is
   * fatal.
   */
  function SecurityAttrs(e: Env, s: Store, t: Catalog.Tables, setId: string, setYaml: Value, cur: Value): (r: (Store, bool))
    ensures Translate.Set(t, Security, Translate.N2ID, setId, setYaml).Raise? ==> r == (s, false)
    ensures var v := Translate.Set(t, Security, Translate.N2ID, setId, setYaml);
            v.Ok? ==> var setData := Drop(v.value, DocKey(Security, Rules));
              (!Compare.Changed(setData, cur) ==> r == (s, true)) &&
              (Compare.Changed(setData, cur) ==> (r.1 <==> Docs.Payload(setData, cur).Ok?))
    ensures !r.1 ==> r.0 == s
  {
    match Translate.Set(t, Security, Translate.N2ID, setId, setYaml)
    case Raise(_) => (s, false)
    case Ok(v) =>
      var setData := Drop(v, DocKey(Security, Rules));
      if !Compare.Changed(setData, cur) then (s, true)
      else
        match Docs.Payload(setData, cur)
        case Raise(_) => (s, false)
        case Ok(data) =>
          var sent := if Truthy(At(setData, "defaultrule_policyset")) && Has(data, "policyrule_order")
                      then Drop(data, "policyrule_order") else data;
          (StorePut(e, s, Security, Sets, "", IdOf(sent), sent).store, true)
  }

  /**
   * What the set-level step sends: nothing, or one PUT of the overlaid
   * payload at its own id. A default set's PUT never carries a rule order;
   * any other set's PUT carries every translated field.
   */
  lemma AttrsPut(e: Env, s: Store, t: Catalog.Tables, setId: string, setYaml: Value, cur: Value)
    ensures var r := SecurityAttrs(e, s, t, setId, setYaml, cur);
            r.0.log == s.log || |r.0.log| == |s.log| + 1
    ensures var r := SecurityAttrs(e, s, t, setId, setYaml, cur);
            |r.0.log| == |s.log| + 1 ==>
              r.1 && r.0.log[..|s.log|] == s.log && r.0.log[|s.log|].PutReq? &&
              var rq := r.0.log[|s.log|];
              var setData := Drop(Translate.Set(t, Security, Translate.N2ID, setId, setYaml).value, DocKey(Security, Rules));
              rq.level == Sets && rq.id == IdOf(rq.body) && Compare.Changed(setData, cur) &&
              (Truthy(At(setData, "defaultrule_policyset")) ==> !Has(rq.body, "policyrule_order")) &&
              (forall k | k != "policyrule_order" :: Get(rq.body, k) == Get(Docs.Payload(setData, cur).value, k)) &&
              (!Truthy(At(setData, "defaultrule_policyset")) ==> rq.body == Docs.Payload(setData, cur).value)
  {
    match Translate.Set(t, Security, Translate.N2ID, setId, setYaml)
    case Raise(_) =>
    case Ok(v) =>
      var setData := Drop(v, DocKey(Security, Rules));
      if Compare.Changed(setData, cur) && Docs.Payload(setData, cur).Ok? {
        var data := Docs.Payload(setData, cur).value;
        var sent := if Truthy(At(setData, "defaultrule_policyset")) && Has(data, "policyrule_order")
                    then Drop(data, "policyrule_order") else data;
        var r := SecurityAttrs(e, s, t, setId, setYaml, cur);
        assert r.0.log == s.log + [PutReq(Security, Sets, "", IdOf(sent), sent)];
        assert r.0.log[..|s.log|] == s.log;
        assert Truthy(At(setData, "defaultrule_policyset")) ==> !Has(sent, "policyrule_order");
      }
  }

  method PutAttrs(ctrl: Controller, t: Catalog.Tables, setId: string, setYaml: Value, cur: Value) returns (ok: bool)
    modifies ctrl
    ensures (ctrl.State(), ok) == SecurityAttrs(ctrl.env, old(ctrl.State()), t, setId, setYaml, cur)
  {
    var v := Translate.Set(t, Security, Translate.N2ID, setId, setYaml);
    if v.Raise? {
      return false;
    }
    var setData := Drop(v.value, DocKey(Security, Rules));
    if Compare.Changed(setData, cur) {
      var data := Docs.UpdatePayload(setData, cur);
      if data.Raise? {
        return false;
      }
      var sent := data.value;
      if Truthy(At(setData, "defaultrule_policyset")) && Has(sent, "policyrule_order") {
        sent := Drop(sent, "policyrule_order");
      }
      var _ := ctrl.Update(Security, Sets, "", IdOf(sent), sent);
    }
    ok := true;
  }

  /** An existing set: rules synced (non-forced, orphans deleted), then the set's own fields. */
  function ExistingSecuritySet(e: Env, r: Run, setYaml: Value, rules: Option<seq<Field>>, cur: Value): (r': Run)
    ensures r'.t == r.t && r'.newIds == r.newIds && r'.idName == r.idName
  {
    var (s1, synced) := SyncRules(e, r.s, r.t, Security, IdOf(cur), rules);
    if !synced then r.(s := s1, ok := false)
    else
      var (s2, ok) := SecurityAttrs(e, s1, r.t, IdOf(cur), setYaml, cur);
      r.(s := s2, ok := ok)
  }

  /**
   * `if policyrule_order:` the order resolved through the recorded rule ids
   * and PUT at the new set's id. Resolving raises (fatally) on an order that
   * cannot be iterated.
   */
  function PutOrder(e: Env, s: Store, setId: string, created: Value, rec: seq<Field>, order: Value): (r: (Store, bool))
    ensures !Truthy(order) ==> r == (s, true)
    ensures !r.1 <==> Truthy(order) && Resolve(rec, order).Raise?
    ensures !r.1 ==> r.0 == s
    ensures r.1 && Truthy(order) ==>
              r.0.log == s.log + [PutReq(Security, Sets, "", setId, OrderPut(created, Resolve(rec, order).value))]
  {
    if !Truthy(order) then (s, true)
    else
      match Resolve(rec, order)
      case Raise(_) => (s, false)
      case Ok(ids) => (StorePut(e, s, Security, Sets, "", setId, OrderPut(created, ids)).store, true)
  }

  /**
   * The rules of a new set: the rules the controller seeded into it read
   * back, then every document rule written over them (a seeded rule of the
   * same name is PUT whether or not it differs), recording each id the
   * controller takes; then the order.
   */
  function SeededRules(e: Env, s: Store, t: Catalog.Tables, setId: string, created: Value,
                       rules: Option<seq<Field>>, order: Value): (r: (Store, bool))
    ensures LiveRules(e, s, Security, setId).None? ==> r == (s, false)
    ensures rules.None? ==> r == (s, false)
    ensures r.1 ==> LiveRules(e, s, Security, setId).Some? && rules.Some?
  {
    match LiveRules(e, s, Security, setId)
    case None => (s, false)
    case Some(live) =>
      if rules.None? then (s, false)
      else
        var sy := Loop(e, s, Security, Rules, setId, Decisions(RulePreps(t, Security, rules.value), live, true), []);
        if !sy.done then (sy.store, false)
        else PutOrder(e, sy.store, setId, created, sy.rec, order)
  }

  /**
   * A new set, POSTed with its order and `clone_from` cleared; when the
   * controller takes it, it is recorded and its rules written. `order` is
   * the value the script then resolves.
   */
  function NewSecuritySet(e: Env, r: Run, name: string, setYaml: Value, rules: Option<seq<Field>>, order: Value): (r': Run)
    ensures r'.newIds == r.newIds && r'.idName == r.idName
    ensures IndexOnly(r.t, r'.t, Security)
  {
    var p := StorePost(e, r.s, Security, Sets, "", Put(Put(setYaml, "policyrule_order", Null), "clone_from", Null));
    if !p.ok then r.(s := p.store)
    else
      var t1 := Recorded(r.t, Security, IdOf(p.created), name);
      var (s1, ok) := SeededRules(e, p.store, t1, IdOf(p.created), p.created, rules, order);
      r.(s := s1, t := t1, ok := ok && r.ok)
  }

  /** The script as written: the order is read after it was cleared, so it is always None. */
  function SecuritySetAsWritten(e: Env, r: Run, name: string, body: Value): (r': Run)
    ensures r'.newIds == r.newIds && r'.idName == r.idName
    ensures IndexOnly(r.t, r'.t, Security)
    ensures Docs.ExtractFromYaml(body, DocKey(Security, Rules)).Raise? ==> r' == r.(ok := false)
  {
    match Docs.ExtractFromYaml(body, DocKey(Security, Rules))
    case Raise(_) => r.(ok := false)
    case Ok(rules) =>
      var setYaml := Drop(body, DocKey(Security, Rules));
      match Find(Catalog.SetsOf(r.t, Security).config, name)
      case Some(cur) => ExistingSecuritySet(e, r, setYaml, rules, cur)
      case None =>
        var order := At(Put(setYaml, "policyrule_order", Null), "policyrule_order");
        NewSecuritySet(e, r, name, setYaml, rules, order)
  }

  /** One document set, by name, pushed; a new set's order is read before it is cleared. */
  function SecuritySet(e: Env, r: Run, name: string, body: Value): (r': Run)
    ensures r'.newIds == r.newIds && r'.idName == r.idName
    ensures IndexOnly(r.t, r'.t, Security)
    ensures Docs.ExtractFromYaml(body, DocKey(Security, Rules)).Raise? ==> r' == r.(ok := false)
  {
    match Docs.ExtractFromYaml(body, DocKey(Security, Rules))
    case Raise(_) => r.(ok := false)
    case Ok(rules) =>
      var setYaml := Drop(body, DocKey(Security, Rules));
      match Find(Catalog.SetsOf(r.t, Security).config, name)
      case Some(cur) => ExistingSecuritySet(e, r, setYaml, rules, cur)
      case None => NewSecuritySet(e, r, name, setYaml, rules, At(setYaml, "policyrule_order"))
  }

  /** With no order to resolve, a new set's rules step sends rule-level writes only. */
  lemma NoOrderRuleLevelOnly(e: Env, s: Store, t: Catalog.Tables, setId: string, created: Value, rules: Option<seq<Field>>)
    ensures var r := SeededRules(e, s, t, setId, created, rules, Null);
            |s.log| <= |r.0.log| && r.0.log[..|s.log|] == s.log &&
            forall j :: |s.log| <= j < |r.0.log| ==> r.0.log[j].level == Rules
  {
    var r := SeededRules(e, s, t, setId, created, rules, Null);
    var tail: seq<Request> := [];
    if LiveRules(e, s, Security, setId).Some? && rules.Some? {
      var acts := Decisions(RulePreps(t, Security, rules.value), LiveRules(e, s, Security, setId).value, true);
      tail := Plan(Security, Rules, setId, acts).0;
      forall j | 0 <= j < |tail|
        ensures tail[j].level == Rules
      {
        PlanLevel(Security, Rules, setId, acts, j);
      }
    }
    assert r.0.log == s.log + tail;
    LevelsAfter(s.log, tail, r.0.log, Rules);
  }

  /**
   * As written, a new set never gets its order: after its POST, every write
   * the step sends is at rule level, whatever order the document gives.
   */
  lemma AsWrittenNeverOrders(e: Env, r: Run, name: string, body: Value)
    requires Docs.ExtractFromYaml(body, DocKey(Security, Rules)).Ok?
    requires Find(Catalog.SetsOf(r.t, Security).config, name).None?
    ensures var q := SecuritySetAsWritten(e, r, name, body);
            |r.s.log| < |q.s.log| && q.s.log[|r.s.log|].PostReq? && q.s.log[|r.s.log|].level == Sets &&
            forall j :: |r.s.log| < j < |q.s.log| ==> q.s.log[j].level == Rules
  {
    var rules := Docs.ExtractFromYaml(body, DocKey(Security, Rules)).value;
    var setYaml := Drop(body, DocKey(Security, Rules));
    assert At(Put(setYaml, "policyrule_order", Null), "policyrule_order") == Null;
    var q := SecuritySetAsWritten(e, r, name, body);
    assert q == NewSecuritySet(e, r, name, setYaml, rules, Null);
    var p := StorePost(e, r.s, Security, Sets, "", Put(Put(setYaml, "policyrule_order", Null), "clone_from", Null));
    if p.ok {
      var t1 := Recorded(r.t, Security, IdOf(p.created), name);
      NoOrderRuleLevelOnly(e, p.store, t1, IdOf(p.created), p.created, rules);
      var sr := SeededRules(e, p.store, t1, IdOf(p.created), p.created, rules, Null);
      assert q.s == sr.0;
      assert q.s.log[..|p.store.log|] == p.store.log;
      assert q.s.log[|r.s.log|] == p.store.log[|r.s.log|];
    }
  }

  /**
   * When the rules step completes and the order is truthy, it ends with one
   * PUT of that order, at the new set's id, carrying only the id and the
   * rule ids recorded for the names the order lists.
   */
  lemma SeededRulesOrder(e: Env, s: Store, t: Catalog.Tables, setId: string, created: Value, rules: Option<seq<Field>>, order: Value)
    ensures var r := SeededRules(e, s, t, setId, created, rules, order);
            r.1 && Truthy(order) ==>
              LiveRules(e, s, Security, setId).Some? && rules.Some? &&
              var sy := Loop(e, s, Security, Rules, setId, Decisions(RulePreps(t, Security, rules.value), LiveRules(e, s, Security, setId).value, true), []);
              Resolve(sy.rec, order).Ok? &&
              r.0.log == sy.store.log + [PutReq(Security, Sets, "", setId, OrderPut(created, Resolve(sy.rec, order).value))]
  {
  }

  /** Corrected, a new set's rules step is given the document's order, read before it is cleared. */
  lemma NewSetGetsOrder(e: Env, r: Run, name: string, body: Value)
    requires Docs.ExtractFromYaml(body, DocKey(Security, Rules)).Ok?
    requires Find(Catalog.SetsOf(r.t, Security).config, name).None?
    ensures var rules := Docs.ExtractFromYaml(body, DocKey(Security, Rules)).value;
            var setYaml := Drop(body, DocKey(Security, Rules));
            var p := StorePost(e, r.s, Security, Sets, "", Put(Put(setYaml, "policyrule_order", Null), "clone_from", Null));
            var q := SecuritySet(e, r, name, body);
            p.ok ==> q.s == SeededRules(e, p.store, Recorded(r.t, Security, IdOf(p.created), name), IdOf(p.created), p.created,
                                        rules, At(body, "policyrule_order")).0
  {
    var rules := Docs.ExtractFromYaml(body, DocKey(Security, Rules)).value;
    var setYaml := Drop(body, DocKey(Security, Rules));
    OrderSurvivesDrop(body);
    NewSetUnfolds(e, r, name, body);
  }

  /** Dropping the rules leaves the order where it was. */
  lemma OrderSurvivesDrop(body: Value)
    ensures At(Drop(body, DocKey(Security, Rules)), "policyrule_order") == At(body, "policyrule_order")
  {
    assert DocKey(Security, Rules) != "policyrule_order";
  }

  /** A set the catalogue lacks goes down the new-set path with the order it carries. */
  lemma NewSetUnfolds(e: Env, r: Run, name: string, body: Value)
    requires Docs.ExtractFromYaml(body, DocKey(Security, Rules)).Ok?
    requires Find(Catalog.SetsOf(r.t, Security).config, name).None?
    ensures var setYaml := Drop(body, DocKey(Security, Rules));
            SecuritySet(e, r, name, body) ==
              NewSecuritySet(e, r, name, setYaml, Docs.ExtractFromYaml(body, DocKey(Security, Rules)).value,
                             At(setYaml, "policyrule_order"))
  {
  }

  /** The order a new set gets keeps only names whose rules the controller took, each as the id it gave that rule. */
  lemma OrderIdsRecorded(e: Env, s: Store, setId: string, acts: seq<Decided>, order: Value, j: nat)
    requires var sy := Loop(e, s, Security, Rules, setId, acts, []);
             Resolve(sy.rec, order).Ok? && j < |Resolve(sy.rec, order).value|
    ensures var sy := Loop(e, s, Security, Rules, setId, acts, []);
            exists i :: 0 <= i < |Iterate(order).value| && Iterate(order).value[i].Str? &&
                        Find(sy.rec, Iterate(order).value[i].s) == Some(Resolve(sy.rec, order).value[j]) &&
                        exists k :: 0 <= k < |acts| && acts[k].Ok? && acts[k].value.0 == Iterate(order).value[i].s
  {
    var sy := Loop(e, s, Security, Rules, setId, acts, []);
    ResolveFrom(sy.rec, order, j);
    var i :| 0 <= i < |Iterate(order).value| && Iterate(order).value[i].Str? &&
             Find(sy.rec, Iterate(order).value[i].s) == Some(Resolve(sy.rec, order).value[j]);
    var n := Iterate(order).value[i].s;
    if !exists k :: 0 <= k < |acts| && acts[k].Ok? && acts[k].value.0 == n {
      LoopRecordsOwnNames(e, s, Security, Rules, setId, acts, [], n);
    }
  }

  method SecuritySetStep(ctrl: Controller, cat: Catalog.Catalog, name: string, body: Value) returns (ok: bool)
    modifies ctrl, cat
    ensures forall newIds, idName ::
              Run(ctrl.State(), cat.t, newIds, idName, ok) ==
                SecuritySetAsWritten(ctrl.env, Run(old(ctrl.State()), old(cat.t), newIds, idName, true), name, body)
  {
    var rules := Docs.ExtractFromYaml(body, DocKey(Security, Rules));
    if rules.Raise? {
      return false;
    }
    var setYaml := Drop(body, DocKey(Security, Rules));
    var cur := Find(Catalog.SetsOf(cat.t, Security).config, name);
    if cur.Some? {
      var synced := SyncRulesOf(ctrl, cat, Security, IdOf(cur.value), rules.value);
      if !synced {
        return false;
      }
      ok := PutAttrs(ctrl, cat.t, IdOf(cur.value), setYaml, cur.value);
      return;
    }
    var unordered := Put(setYaml, "policyrule_order", Null);
    var order := At(unordered, "policyrule_order");
    var cleared := Put(unordered, "clone_from", Null);
    var posted, created := ctrl.Create(Security, Sets, "", cleared);
    if !posted {
      return true;
    }
    var setId := IdOf(created);
    cat.RecordSet(Security, setId, name);
    var live := ReadRules(ctrl, cat, Security, setId);
    if live.None? || rules.value.None? {
      return false;
    }
    var rec, done := Sync(ctrl, Security, Rules, setId, RulePreps(cat.t, Security, rules.value.value), live.value, true);
    if !done {
      return false;
    }
    if Truthy(order) {
      // The order was read after it was cleared: the final order PUT is never reached.
      assert false;
    }
    ok := true;
  }
}
