/**
 * `push_policy_qos`'s per-set step. As for Path, without the `paths_allowed`
 * normalisation; a new set the controller built from a template (its answer
 * carries a truthy `template`) comes with rules of its own, so its rules are
 * read back and fully synced instead of simply POSTed.
 */
module QosPush {
  import opened Wrappers
  import opened Json
  import opened Kinds
  import opened Remote
  import opened Reconcile
  import opened SetSync
  import Catalog
  import Compare
  import Docs

  /** One document set, by name, pushed. */
  function QosSet(e: Env, r: Run, name: string, body: Value): (r': Run)
    ensures r'.newIds == r.newIds && r'.idName == r.idName
    ensures IndexOnly(r.t, r'.t, Qos)
    ensures Docs.ExtractFromYaml(body, DocKey(Qos, Rules)).Raise? ==> r' == r.(ok := false)
  {
    match Docs.ExtractFromYaml(body, DocKey(Qos, Rules))
    case Raise(_) => r.(ok := false)
    case Ok(rules) =>
      var setYaml := Drop(body, DocKey(Qos, Rules));
      match Find(Catalog.SetsOf(r.t, Qos).config, name)
      case Some(cur) =>
        var (s1, put) := PutChanged(e, r.s, Qos, setYaml, cur);
        if !put then r.(s := s1, ok := false)
        else
          var (s2, synced) := SyncRules(e, s1, r.t, Qos, IdOf(Updated(setYaml, cur)), rules);
          r.(s := s2, ok := synced)
      case None => NewQosSet(e, r, name, setYaml, rules)
  }

  /**
   * A changed set the controller has gets its rules read, written and
   * deleted under the id its PUT went to, the `id` of the merged payload;
   * that is the document's own `id` when it carries one (SetSync.UpdatedId).
   */
  lemma ChangedQosRulesUnderPutId(e: Env, r: Run, name: string, body: Value)
    requires Docs.ExtractFromYaml(body, DocKey(Qos, Rules)).Ok?
    requires Find(Catalog.SetsOf(r.t, Qos).config, name).Some?
    ensures var setYaml := Drop(body, DocKey(Qos, Rules));
            var cur := Find(Catalog.SetsOf(r.t, Qos).config, name).value;
            var (s1, put) := PutChanged(e, r.s, Qos, setYaml, cur);
            put && Compare.Changed(setYaml, cur) ==>
              s1.log == r.s.log + [PutReq(Qos, Sets, "", IdOf(Docs.Payload(setYaml, cur).value), Docs.Payload(setYaml, cur).value)] &&
              QosSet(e, r, name, body).s ==
                SyncRules(e, s1, r.t, Qos, IdOf(Docs.Payload(setYaml, cur).value), Docs.ExtractFromYaml(body, DocKey(Qos, Rules)).value).0
  {
    var setYaml := Drop(body, DocKey(Qos, Rules));
    var cur := Find(Catalog.SetsOf(r.t, Qos).config, name).value;
    var (s1, put) := PutChanged(e, r.s, Qos, setYaml, cur);
    if put && Compare.Changed(setYaml, cur) {
      assert Updated(setYaml, cur) == Docs.Payload(setYaml, cur).value;
    }
  }

  /** A set the controller does not have: POSTed, recorded, its rules pushed. */
  function NewQosSet(e: Env, r: Run, name: string, setYaml: Value, rules: Option<seq<Field>>): (r': Run)
    ensures r'.newIds == r.newIds && r'.idName == r.idName
    ensures IndexOnly(r.t, r'.t, Qos)
    ensures !StorePost(e, r.s, Qos, Sets, "", setYaml).ok ==> r'.ok == r.ok && r'.t == r.t
  {
    var p := StorePost(e, r.s, Qos, Sets, "", setYaml);
    if !p.ok then r.(s := p.store)
    else
      var setId := IdOf(p.created);
      var t1 := Recorded(r.t, Qos, setId, name);
      if Truthy(At(p.created, "template")) then
        var (s2, synced) := SyncRules(e, p.store, t1, Qos, setId, rules);
        r.(s := s2, t := t1, ok := synced)
      else if rules.None? then r.(s := p.store, t := t1, ok := false)
      else
        var sy := Loop(e, p.store, Qos, Rules, setId, Decisions(RulePreps(t1, Qos, rules.value), [], false), []);
        r.(s := sy.store, t := t1, ok := sy.done)
  }

  /**
   * A template set's rules the document does not name are deleted after
   * the sync; a set created without a template gets no DELETE at all.
   */
  lemma TemplateRulesPruned(e: Env, r: Run, name: string, body: Value)
    requires Docs.ExtractFromYaml(body, DocKey(Qos, Rules)).Ok?
    requires Find(Catalog.SetsOf(r.t, Qos).config, name).None?
    ensures var p := StorePost(e, r.s, Qos, Sets, "", Drop(body, DocKey(Qos, Rules)));
            var rules := Docs.ExtractFromYaml(body, DocKey(Qos, Rules)).value;
            var setId := IdOf(p.created);
            var q := QosSet(e, r, name, body);
            p.ok && Truthy(At(p.created, "template")) && q.ok ==>
              q.s.log == p.store.log +
                         Plan(Qos, Rules, setId, Decisions(RulePreps(Recorded(r.t, Qos, setId, name), Qos, rules.value), LiveRules(e, p.store, Qos, setId).value, false)).0 +
                         Deletes(Qos, Rules, setId, Doomed(LiveRules(e, p.store, Qos, setId).value, Keys(rules.value), None))
    ensures var p := StorePost(e, r.s, Qos, Sets, "", Drop(body, DocKey(Qos, Rules)));
            var q := QosSet(e, r, name, body);
            !(p.ok && Truthy(At(p.created, "template"))) ==>
              forall j :: |p.store.log| <= j < |q.s.log| ==> !q.s.log[j].DeleteReq?
  {
    var setYaml := Drop(body, DocKey(Qos, Rules));
    var rules := Docs.ExtractFromYaml(body, DocKey(Qos, Rules)).value;
    NewQosUnfolds(e, r, name, body);
    TemplateLog(e, r, name, setYaml, rules);
    PlainNoDeletes(e, r, name, setYaml, rules);
  }

  /** A template set that syncs sends the loop's writes, then deletes what the document does not name. */
  lemma TemplateLog(e: Env, r: Run, name: string, setYaml: Value, rules: Option<seq<Field>>)
    ensures var p := StorePost(e, r.s, Qos, Sets, "", setYaml);
            var setId := IdOf(p.created);
            var q := NewQosSet(e, r, name, setYaml, rules);
            p.ok && Truthy(At(p.created, "template")) && q.ok ==>
              q.s.log == p.store.log +
                         Plan(Qos, Rules, setId, Decisions(RulePreps(Recorded(r.t, Qos, setId, name), Qos, rules.value), LiveRules(e, p.store, Qos, setId).value, false)).0 +
                         Deletes(Qos, Rules, setId, Doomed(LiveRules(e, p.store, Qos, setId).value, Keys(rules.value), None))
  {
    var p := StorePost(e, r.s, Qos, Sets, "", setYaml);
    var setId := IdOf(p.created);
    if p.ok && Truthy(At(p.created, "template")) {
      SyncRulesLog(e, p.store, Recorded(r.t, Qos, setId, name), Qos, setId, rules);
    }
  }

  /** A set created without a template has its rules POSTed and nothing deleted. */
  lemma PlainNoDeletes(e: Env, r: Run, name: string, setYaml: Value, rules: Option<seq<Field>>)
    ensures var p := StorePost(e, r.s, Qos, Sets, "", setYaml);
            var q := NewQosSet(e, r, name, setYaml, rules);
            !(p.ok && Truthy(At(p.created, "template"))) ==>
              forall j :: |p.store.log| <= j < |q.s.log| ==> !q.s.log[j].DeleteReq?
  {
    var p := StorePost(e, r.s, Qos, Sets, "", setYaml);
    var setId := IdOf(p.created);
    if p.ok && !Truthy(At(p.created, "template")) && rules.Some? {
      var acts := Decisions(RulePreps(Recorded(r.t, Qos, setId, name), Qos, rules.value), [], false);
      PlanNoDeletes(Qos, Rules, setId, acts);
      NoDeletesAfter(p.store.log, Plan(Qos, Rules, setId, acts).0, NewQosSet(e, r, name, setYaml, rules).s.log);
    }
  }

  /** A set the catalogue lacks takes the new-set path. */
  lemma NewQosUnfolds(e: Env, r: Run, name: string, body: Value)
    requires Docs.ExtractFromYaml(body, DocKey(Qos, Rules)).Ok?
    requires Find(Catalog.SetsOf(r.t, Qos).config, name).None?
    ensures QosSet(e, r, name, body) ==
            NewQosSet(e, r, name, Drop(body, DocKey(Qos, Rules)), Docs.ExtractFromYaml(body, DocKey(Qos, Rules)).value)
  {
  }

  method QosSetStep(ctrl: Controller, cat: Catalog.Catalog, name: string, body: Value) returns (ok: bool)
    modifies ctrl, cat
    ensures forall newIds, idName ::
              Run(ctrl.State(), cat.t, newIds, idName, ok) == QosSet(ctrl.env, Run(old(ctrl.State()), old(cat.t), newIds, idName, true), name, body)
  {
    var rules := Docs.ExtractFromYaml(body, DocKey(Qos, Rules));
    if rules.Raise? {
      return false;
    }
    var setYaml := Drop(body, DocKey(Qos, Rules));
    var cur := Find(Catalog.SetsOf(cat.t, Qos).config, name);
    if cur.Some? {
      var put := PutIfChanged(ctrl, Qos, setYaml, cur.value);
      if !put {
        return false;
      }
      ok := SyncRulesOf(ctrl, cat, Qos, IdOf(Updated(setYaml, cur.value)), rules.value);
    } else {
      var posted, created := ctrl.Create(Qos, Sets, "", setYaml);
      if !posted {
        return true;
      }
      var setId := IdOf(created);
      cat.RecordSet(Qos, setId, name);
      if Truthy(At(created, "template")) {
        ok := SyncRulesOf(ctrl, cat, Qos, setId, rules.value);
      } else {
        if rules.value.None? {
          return false;
        }
        var _, done := Sync(ctrl, Qos, Rules, setId, RulePreps(cat.t, Qos, rules.value.value), [], false);
        ok := done;
      }
    }
  }
}
