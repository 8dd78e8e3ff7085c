/**
 * Pieces the Path, QoS and Security pushers share: rule preparation, the
 * rule sync of a set that already exists, the PUT of a changed set, and the
 * stack pinned to its default rule set.
 */
module SetSync {
  import opened Wrappers
  import opened Json
  import opened Kinds
  import opened Remote
  import opened Reconcile
  import Catalog
  import Compare
  import Docs
  import Translate
  import Text

  /**
   * A document rule of a Path, QoS or Security set, named and translated
   * names-to-ids (a Path rule then has its empty `paths_allowed` lists made
   * None). A raise here is fatal to the push.
   */
  function RulePrep(t: Catalog.Tables, d: Domain, name: string, rule: Value): (r: Prepared)
    ensures r.Ok? ==> r.value.0 == name
    ensures d in {Path, Qos, Security} && !rule.Obj? ==> r.Raise?
  {
    var sent :=
      match d
      case Path =>
        (match Translate.PathRule(t, Translate.N2ID, rule)
         case Raise(e) => Raise(e)
         case Ok(v) => Docs.UpdateRule(v))
      case Qos => Translate.QosRule(t, Translate.N2ID, rule)
      case Security => Translate.SecurityRule(t, Translate.N2ID, rule)
      case _ => Ok(rule);
    match sent
    case Raise(e) => Raise(e)
    case Ok(v) => Ok((name, v))
  }

  /** The document's rules of one set, in document order. */
  function RulePreps(t: Catalog.Tables, d: Domain, rules: seq<Field>): (r: seq<Prepared>)
    ensures |r| == |rules|
    ensures forall i :: 0 <= i < |rules| ==> r[i] == RulePrep(t, d, rules[i].key, rules[i].val)
  {
    seq(|rules|, i requires 0 <= i < |rules| => RulePrep(t, d, rules[i].key, rules[i].val))
  }

  /**
   * The rules of a set the controller already has (or a QoS set created
   * from a template): read back, brought in line with the document, and the
   * rules the document does not name deleted. A set without a rules
   * section raises once the rules are read.
   */
  function SyncRules(e: Env, s: Store, t: Catalog.Tables, d: Domain, setId: string, rules: Option<seq<Field>>): (r: (Store, bool))
    ensures LiveRules(e, s, d, setId).None? || rules.None? ==> r == (s, false)
    ensures s.log <= r.0.log
  {
    match LiveRules(e, s, d, setId)
    case None => (s, false)
    case Some(live) =>
      if rules.None? then (s, false)
      else
        var sy := Loop(e, s, d, Rules, setId, Decisions(RulePreps(t, d, rules.value), live, false), []);
        if !sy.done then (sy.store, false)
        else (SendAll(e, sy.store, Deletes(d, Rules, setId, Doomed(live, Keys(rules.value), None))), true)
  }

  /**
   * A rule sync that completes sends the reconcile loop's writes and then
   * one DELETE per live rule the document does not name; it fails exactly
   * when the rules cannot be read by name, the set has no rules section, or
   * a rule cannot be prepared or its payload built.
   */
  lemma SyncRulesLog(e: Env, s: Store, t: Catalog.Tables, d: Domain, setId: string, rules: Option<seq<Field>>)
    ensures var r := SyncRules(e, s, t, d, setId, rules);
            r.1 <==> LiveRules(e, s, d, setId).Some? && rules.Some? &&
                     Plan(d, Rules, setId, Decisions(RulePreps(t, d, rules.value), LiveRules(e, s, d, setId).value, false)).1
    ensures var r := SyncRules(e, s, t, d, setId, rules);
            r.1 ==> r.0.log == s.log + Plan(d, Rules, setId, Decisions(RulePreps(t, d, rules.value), LiveRules(e, s, d, setId).value, false)).0 +
                               Deletes(d, Rules, setId, Doomed(LiveRules(e, s, d, setId).value, Keys(rules.value), None))
  {
  }

  method SyncRulesOf(ctrl: Controller, cat: Catalog.Catalog, d: Domain, setId: string, rules: Option<seq<Field>>) returns (ok: bool)
    modifies ctrl
    ensures (ctrl.State(), ok) == SyncRules(ctrl.env, old(ctrl.State()), cat.t, d, setId, rules)
  {
    var live := ReadRules(ctrl, cat, d, setId);
    if live.None? || rules.None? {
      return false;
    }
    var _, done := Sync(ctrl, d, Rules, setId, RulePreps(cat.t, d, rules.value), live.value, false);
    if !done {
      return false;
    }
    Cleanup(ctrl, d, Rules, setId, live.value, Keys(rules.value), None);
    ok := true;
  }

  /**
   * `if len(compareconf(desired, live)) > 0: PUT update_payload(desired, live)`
   * at the payload's own `id`; building the payload may raise.
   */
  function PutChanged(e: Env, s: Store, d: Domain, desired: Value, cur: Value): (r: (Store, bool))
    ensures !Compare.Changed(desired, cur) ==> r == (s, true)
    ensures !r.1 <==> Compare.Changed(desired, cur) && Docs.Payload(desired, cur).Raise?
    ensures r.1 && Compare.Changed(desired, cur) ==>
              r.0.log == s.log + [PutReq(d, Sets, "", IdOf(Docs.Payload(desired, cur).value), Docs.Payload(desired, cur).value)]
  {
    if !Compare.Changed(desired, cur) then (s, true)
    else
      match Docs.Payload(desired, cur)
      case Raise(_) => (s, false)
      case Ok(data) => (StorePut(e, s, d, Sets, "", IdOf(data), data).store, true)
  }

  method PutIfChanged(ctrl: Controller, d: Domain, desired: Value, cur: Value) returns (ok: bool)
    modifies ctrl
    ensures (ctrl.State(), ok) == PutChanged(ctrl.env, old(ctrl.State()), d, desired, cur)
  {
    if Compare.Changed(desired, cur) {
      var data := Docs.UpdatePayload(desired, cur);
      if data.Raise? {
        return false;
      }
      var _ := ctrl.Update(d, Sets, "", IdOf(data.value), data.value);
    }
    ok := true;
  }

  /**
   * The live set record once `PutChanged` has run: `update_payload(desired,
   * live)` overlays the document on the live dict in place, so on the branch
   * where compareconf found a change every later use of the live record
   * sees the merged payload.
   */
  function Updated(desired: Value, cur: Value): (r: Value)
    ensures !Compare.Changed(desired, cur) || Docs.Payload(desired, cur).Raise? ==> r == cur
  {
    if Compare.Changed(desired, cur) && Docs.Payload(desired, cur).Ok? then Docs.Payload(desired, cur).value
    else cur
  }

  /**
   * After a PUT the live record answers with the document's `id` when the
   * document carries one, and with its own otherwise; without a PUT it keeps
   * its own.
   */
  lemma UpdatedId(desired: Value, cur: Value)
    requires desired.Obj? ==> UniqueKeys(desired.fields)
    ensures Compare.Changed(desired, cur) && Docs.Payload(desired, cur).Ok? && Has(desired, "id") ==>
              Get(Updated(desired, cur), "id") == Get(desired, "id")
    ensures !Has(desired, "id") ==> Get(Updated(desired, cur), "id") == Get(cur, "id")
    ensures !Compare.Changed(desired, cur) ==> IdOf(Updated(desired, cur)) == IdOf(cur)
  {
    if Compare.Changed(desired, cur) && Docs.Payload(desired, cur).Ok? {
      Docs.PayloadGets(desired, cur);
    }
  }

  /** The name of the default rule set a Path, QoS or Security stack is pinned to. */
  function ExpectedDefault(stackName: string): string {
    Text.ReplaceAll(stackName, " (Simple)", "") + " Default Rule Policy Set (Simple)"
  }

  /**
   * A Path, QoS or Security stack as sent: pinned to its expected default
   * set by name, translated names-to-ids, empty member list made None. A
   * raise in either step is fatal to the push.
   */
  function PinnedStack(t: Catalog.Tables, d: Domain, name: string, body: Value): (r: Prepared)
    ensures r.Ok? ==> r.value.0 == name
  {
    var pinned := Put(body, "defaultrule_policyset_id", Str(ExpectedDefault(name)));
    var o := Translate.Stack(t, d, Translate.N2ID, pinned);
    if o.raised then Raise("translate_stack")
    else
      match Docs.UpdateStack(o.v)
      case Raise(e) => Raise(e)
      case Ok(v) => Ok((name, v))
  }

  /** A default-set reference the table knows is rewritten to the id it maps to. */
  lemma StackDefault(t: Catalog.Tables, d: Domain, dir: Translate.Dir, stack: Value)
    requires d != Performance && stack.Obj? && !Translate.Stack(t, d, dir, stack).raised
    requires Translate.Known(Translate.Table(Catalog.SetsOf(t, d).ix, dir), At(stack, "defaultrule_policyset_id"))
    ensures Get(Translate.Stack(t, d, dir, stack).v, "defaultrule_policyset_id") ==
            Some(Str(Translate.Table(Catalog.SetsOf(t, d).ix, dir)[At(stack, "defaultrule_policyset_id").s]))
  {
    var m := Translate.Table(Catalog.SetsOf(t, d).ix, dir);
    var s1 := Put(stack, "defaultrule_policyset_id", Str(m[At(stack, "defaultrule_policyset_id").s]));
    assert "policyset_ids" != "defaultrule_policyset_id";
    assert Get(s1, "defaultrule_policyset_id") == Some(Str(m[At(stack, "defaultrule_policyset_id").s]));
  }

  /**
   * The pin resolves through the sets this run knows by name: when the
   * expected default set is known, the stack points at its id, whatever
   * the document said.
   */
  lemma PinnedToDefault(t: Catalog.Tables, d: Domain, name: string, body: Value)
    requires d != Performance && body.Obj?
    requires PinnedStack(t, d, name, body).Ok?
    requires ExpectedDefault(name) in Translate.Table(Catalog.SetsOf(t, d).ix, Translate.N2ID)
    ensures Get(PinnedStack(t, d, name, body).value.1, "defaultrule_policyset_id") ==
            Some(Str(Translate.Table(Catalog.SetsOf(t, d).ix, Translate.N2ID)[ExpectedDefault(name)]))
  {
    var pinned := Put(body, "defaultrule_policyset_id", Str(ExpectedDefault(name)));
    var m := Translate.Table(Catalog.SetsOf(t, d).ix, Translate.N2ID);
    assert At(pinned, "defaultrule_policyset_id") == Str(ExpectedDefault(name));
    StackDefault(t, d, Translate.N2ID, pinned);
  }
}
