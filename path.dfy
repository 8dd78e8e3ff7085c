/**
 * `push_policy_path`'s per-set step. A set the controller has gets its own
 * fields PUT when they changed, then its rules synced; a new set is
 * POSTed, recorded in the catalog by name, and each of its rules POSTed.
 */
module PathPush {
  import opened Wrappers
  import opened Json
  import opened Kinds
  import opened Remote
  import opened Reconcile
  import opened SetSync
  import Catalog
  import Compare
  import Docs

  /** One document set, by name, pushed. */
  function PathSet(e: Env, r: Run, name: string, body: Value): (r': Run)
    ensures r'.newIds == r.newIds && r'.idName == r.idName
    ensures IndexOnly(r.t, r'.t, Path)
    ensures Docs.ExtractFromYaml(body, DocKey(Path, Rules)).Raise? ==> r' == r.(ok := false)
  {
    match Docs.ExtractFromYaml(body, DocKey(Path, Rules))
    case Raise(_) => r.(ok := false)
    case Ok(rules) =>
      var setYaml := Drop(body, DocKey(Path, Rules));
      match Find(Catalog.SetsOf(r.t, Path).config, name)
      case Some(cur) => ExistingPathSet(e, r, setYaml, cur, rules)
      case None => NewPathSet(e, r, name, setYaml, rules)
  }

  /** A set the controller has: its own fields PUT when they changed, then its rules synced. */
  function ExistingPathSet(e: Env, r: Run, setYaml: Value, cur: Value, rules: Option<seq<Field>>): (r': Run)
    ensures r'.newIds == r.newIds && r'.idName == r.idName && r'.t == r.t
  {
    var (s1, put) := PutChanged(e, r.s, Path, setYaml, cur);
    if !put then r.(s := s1, ok := false)
    else
      var (s2, synced) := SyncRules(e, s1, r.t, Path, IdOf(Updated(setYaml, cur)), rules);
      r.(s := s2, ok := synced)
  }

  /**
   * A changed set has its rules read, written and deleted under the id its
   * PUT went to, the `id` of the merged payload; that is the document's own
   * `id` when it carries one (SetSync.UpdatedId).
   */
  lemma ChangedPathRulesUnderPutId(e: Env, r: Run, setYaml: Value, cur: Value, rules: Option<seq<Field>>)
    requires Compare.Changed(setYaml, cur)
    ensures var (s1, put) := PutChanged(e, r.s, Path, setYaml, cur);
            put ==> s1.log == r.s.log + [PutReq(Path, Sets, "", IdOf(Docs.Payload(setYaml, cur).value), Docs.Payload(setYaml, cur).value)] &&
                    ExistingPathSet(e, r, setYaml, cur, rules).s == SyncRules(e, s1, r.t, Path, IdOf(Docs.Payload(setYaml, cur).value), rules).0
  {
    var (s1, put) := PutChanged(e, r.s, Path, setYaml, cur);
    if put {
      assert Updated(setYaml, cur) == Docs.Payload(setYaml, cur).value;
    }
  }

  /** A set the controller lacks: POSTed, recorded by name, then each of its rules POSTed; a refusal is skipped. */
  function NewPathSet(e: Env, r: Run, name: string, setYaml: Value, rules: Option<seq<Field>>): (r': Run)
    ensures r'.newIds == r.newIds && r'.idName == r.idName
    ensures IndexOnly(r.t, r'.t, Path)
    ensures var p := StorePost(e, r.s, Path, Sets, "", setYaml);
            (!p.ok ==> r' == r.(s := p.store)) && (p.ok ==> r'.t == Recorded(r.t, Path, IdOf(p.created), name))
  {
    var p := StorePost(e, r.s, Path, Sets, "", setYaml);
    if !p.ok then r.(s := p.store)
    else
      var setId := IdOf(p.created);
      var t1 := Recorded(r.t, Path, setId, name);
      if rules.None? then r.(s := p.store, t := t1, ok := false)
      else
        var sy := Loop(e, p.store, Path, Rules, setId, Decisions(RulePreps(t1, Path, rules.value), [], false), []);
        r.(s := sy.store, t := t1, ok := sy.done)
  }

  /**
   * A new set the controller accepts gets every rule of the document POSTed
   * under it, translated, with no read-back and no comparison.
   */
  lemma NewPathSetPostsRules(e: Env, r: Run, name: string, body: Value, i: nat)
    requires Docs.ExtractFromYaml(body, DocKey(Path, Rules)).Ok?
    requires Find(Catalog.SetsOf(r.t, Path).config, name).None?
    requires StorePost(e, r.s, Path, Sets, "", Drop(body, DocKey(Path, Rules))).ok
    requires PathSet(e, r, name, body).ok
    ensures Docs.ExtractFromYaml(body, DocKey(Path, Rules)).value.Some?
    ensures var rules := Docs.ExtractFromYaml(body, DocKey(Path, Rules)).value.value;
            var p := StorePost(e, r.s, Path, Sets, "", Drop(body, DocKey(Path, Rules)));
            var t1 := Recorded(r.t, Path, IdOf(p.created), name);
            i < |rules| ==> RulePrep(t1, Path, rules[i].key, rules[i].val).Ok? &&
                            PostReq(Path, Rules, IdOf(p.created), RulePrep(t1, Path, rules[i].key, rules[i].val).value.1) in PathSet(e, r, name, body).s.log
  {
    var rules := Docs.ExtractFromYaml(body, DocKey(Path, Rules)).value.value;
    var p := StorePost(e, r.s, Path, Sets, "", Drop(body, DocKey(Path, Rules)));
    var t1 := Recorded(r.t, Path, IdOf(p.created), name);
    var prep := RulePreps(t1, Path, rules);
    var acts := Decisions(prep, [], false);
    assert PathSet(e, r, name, body).s == Loop(e, p.store, Path, Rules, IdOf(p.created), acts, []).store;
    if i < |rules| {
      assert acts[i] == DecideOne(prep[i], [], false);
      MissingPosted(Path, Rules, IdOf(p.created), prep, [], false, i);
    }
  }

  method PathSetStep(ctrl: Controller, cat: Catalog.Catalog, name: string, body: Value) returns (ok: bool)
    modifies ctrl, cat
    ensures forall newIds, idName ::
              Run(ctrl.State(), cat.t, newIds, idName, ok) == PathSet(ctrl.env, Run(old(ctrl.State()), old(cat.t), newIds, idName, true), name, body)
  {
    var rules := Docs.ExtractFromYaml(body, DocKey(Path, Rules));
    if rules.Raise? {
      return false;
    }
    var setYaml := Drop(body, DocKey(Path, Rules));
    var cur := Find(Catalog.SetsOf(cat.t, Path).config, name);
    if cur.Some? {
      var put := PutIfChanged(ctrl, Path, setYaml, cur.value);
      if !put {
        return false;
      }
      ok := SyncRulesOf(ctrl, cat, Path, IdOf(Updated(setYaml, cur.value)), rules.value);
    } else {
      var posted, created := ctrl.Create(Path, Sets, "", setYaml);
      if !posted {
        return true;
      }
      var setId := IdOf(created);
      cat.RecordSet(Path, setId, name);
      if rules.value.None? {
        return false;
      }
      var _, done := Sync(ctrl, Path, Rules, setId, RulePreps(cat.t, Path, rules.value.value), [], false);
      ok := done;
    }
  }
}
