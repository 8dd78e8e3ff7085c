/**
 * `push_policy_nat`. Its sets carry their rules as a list of single-entry
 * maps (or one map of them), two zone rule orders, and every set's rules
 * are read back and reconciled whether the set is new or not. The ids of
 * the sets it pushed are kept in maps local to the push (`newIds`,
 * `idName` of the `Run`), which only the stack member swap reads.
 */
module NatPush {
  import opened Wrappers
  import opened Json
  import opened Kinds
  import opened Remote
  import opened Reconcile
  import Catalog
  import Compare
  import Docs
  import Translate

  const DstOrder := "destination_zone_policyrule_order"
  const SrcOrder := "source_zone_policyrule_order"

  /** The rule entries the loop visits: a map of rules becomes one single-entry map per rule; anything else is iterated as it is. */
  function NatEntries(raw: Value): (r: Option<seq<Value>>)
    ensures raw.Obj? ==> r.Some? && |r.value| == |raw.fields| &&
                         forall i :: 0 <= i < |raw.fields| ==> r.value[i] == Obj([raw.fields[i]])
    ensures !raw.Obj? ==> r == Iterate(raw)
  {
    if raw.Obj? then Some(seq(|raw.fields|, i requires 0 <= i < |raw.fields| => Obj([raw.fields[i]])))
    else Iterate(raw)
  }

  /**
   * `rulename = list(r_entry.keys())[0]; rule_data = r_entry[rulename]`:
   * the first key and what the entry holds under it. Unlike the document
   * reader's unwrapping, the body need not be a map and is not named.
   */
  function First(entry: Value): (r: Result<(string, Value)>)
    ensures r.Ok? <==> entry.Obj? && entry.fields != []
    ensures r.Ok? ==> Find(entry.fields, r.value.0) == Some(r.value.1) && r.value.0 in Keys(entry.fields)
    ensures Docs.Unwrap(entry).Ok? ==> r.Ok? && r.value.0 == Docs.Unwrap(entry).value.0
  {
    if !entry.Obj? then Raise("AttributeError")
    else if entry.fields == [] then Raise("IndexError")
    else Ok((entry.fields[0].key, entry.fields[0].val))
  }

  /** A map of rules read entry by entry gives back each rule under its own key. */
  lemma MapEntriesRoundTrip(raw: Value, i: nat)
    requires raw.Obj? && i < |raw.fields|
    ensures First(NatEntries(raw).value[i]) == Ok((raw.fields[i].key, raw.fields[i].val))
  {
    assert NatEntries(raw).value[i] == Obj([raw.fields[i]]);
  }

  /**
   * A rule ready to be written: named by its entry, translated names-to-ids.
   * A translation that raises is swallowed, leaving the rule as far as the
   * translation got; only a malformed entry is fatal.
   */
  function NatPrep(t: Catalog.Tables, entry: Value): (r: Prepared)
    ensures r.Ok? <==> First(entry).Ok?
    ensures r.Ok? ==> r.value.0 == First(entry).value.0
  {
    match First(entry)
    case Raise(e) => Raise(e)
    case Ok((name, rule)) => Ok((name, Translate.NatRule(t, Translate.N2ID, rule).v))
  }

  function NatPreps(t: Catalog.Tables, entries: seq<Value>): (r: seq<Prepared>)
    ensures |r| == |entries|
    ensures forall i :: 0 <= i < |entries| ==> r[i] == NatPrep(t, entries[i])
  {
    seq(|entries|, i requires 0 <= i < |entries| => NatPrep(t, entries[i]))
  }

  /** `rule_names_in_yaml`: the names of the entries, as far as they could be read. */
  function EntryNames(entries: seq<Value>): (r: seq<string>)
    ensures |r| == |entries|
    ensures forall i :: 0 <= i < |entries| && First(entries[i]).Ok? ==> r[i] == First(entries[i]).value.0
  {
    seq(|entries|, i requires 0 <= i < |entries| => if First(entries[i]).Ok? then First(entries[i]).value.0 else "")
  }

  /** The PUT body that fixes a set's two rule orders. */
  function NatOrderPut(setId: Value, dst: seq<Value>, src: seq<Value>): (r: Value)
    ensures r.Obj? && Keys(r.fields) == ["id", DstOrder, SrcOrder]
    ensures Get(r, "id") == Some(setId) && Get(r, DstOrder) == Some(List(dst)) && Get(r, SrcOrder) == Some(List(src))
  {
    Obj([Field("id", setId), Field(DstOrder, List(dst)), Field(SrcOrder, List(src))])
  }

  /** One side of the order: resolved when truthy, `[]` when not. */
  function Side(rec: seq<Field>, order: Value): (r: Result<seq<Value>>)
    ensures !Truthy(order) ==> r == Ok([])
    ensures Truthy(order) ==> r == Resolve(rec, order)
  {
    if Truthy(order) then Resolve(rec, order) else Ok([])
  }

  /**
   * `if dst_order or src_order`: both orders resolved through the ids
   * recorded in this set's loop and PUT together at the set's id, an empty
   * side as `[]`. A side that cannot be iterated raises, fatally.
   */
  function NatOrder(e: Env, s: Store, setId: Value, rec: seq<Field>, dst: Value, src: Value): (r: (Store, bool))
    ensures !Truthy(dst) && !Truthy(src) ==> r == (s, true)
    ensures !r.1 <==> Side(rec, dst).Raise? || Side(rec, src).Raise?
    ensures !r.1 ==> r.0 == s
    ensures r.1 && (Truthy(dst) || Truthy(src)) ==>
              r.0.log == s.log + [PutReq(Nat, Sets, "", PyStr(setId), NatOrderPut(setId, Side(rec, dst).value, Side(rec, src).value))]
  {
    if !Truthy(dst) && !Truthy(src) then (s, true)
    else
      match (Side(rec, dst), Side(rec, src))
      case (Ok(d), Ok(c)) => (StorePut(e, s, Nat, Sets, "", PyStr(setId), NatOrderPut(setId, d, c)).store, true)
      case _ => (s, false)
  }

  method PutNatOrder(ctrl: Controller, setId: Value, rec: seq<Field>, dst: Value, src: Value) returns (ok: bool)
    modifies ctrl
    ensures (ctrl.State(), ok) == NatOrder(ctrl.env, old(ctrl.State()), setId, rec, dst, src)
  {
    if !Truthy(dst) && !Truthy(src) {
      return true;
    }
    ghost var s0 := ctrl.State();
    var d: Result<seq<Value>> := Ok([]);
    if Truthy(dst) {
      d := ResolveOrder(rec, dst);
    }
    var c: Result<seq<Value>> := Ok([]);
    if Truthy(src) {
      c := ResolveOrder(rec, src);
    }
    assert d == Side(rec, dst) && c == Side(rec, src);
    if d.Raise? || c.Raise? {
      NatOrderSplits(ctrl.env, s0, setId, rec, dst, src, d, c, s0, false);
      return false;
    }
    var _ := ctrl.Update(Nat, Sets, "", PyStr(setId), NatOrderPut(setId, d.value, c.value));
    assert ctrl.State() == StorePut(ctrl.env, s0, Nat, Sets, "", PyStr(setId), NatOrderPut(setId, d.value, c.value)).store;
    ok := true;
    NatOrderSplits(ctrl.env, s0, setId, rec, dst, src, d, c, ctrl.State(), ok);
  }

  /** The order step, told how each side resolved and what the PUT left. */
  lemma NatOrderSplits(e: Env, s: Store, setId: Value, rec: seq<Field>, dst: Value, src: Value,
                       d: Result<seq<Value>>, c: Result<seq<Value>>, s2: Store, ok: bool)
    requires Truthy(dst) || Truthy(src)
    requires d == Side(rec, dst) && c == Side(rec, src)
    requires ok <==> d.Ok? && c.Ok?
    requires ok ==> s2 == StorePut(e, s, Nat, Sets, "", PyStr(setId), NatOrderPut(setId, d.value, c.value)).store
    requires !ok ==> s2 == s
    ensures NatOrder(e, s, setId, rec, dst, src) == (s2, ok)
  {
  }

  /** After the loop: the orders PUT, then every live rule no entry names deleted. */
  function NatFinish(e: Env, s: Store, setId: Value, rec: seq<Field>, dst: Value, src: Value,
                     live: seq<Field>, names: seq<string>): (r: (Store, bool))
    ensures !r.1 ==> r.0 == s
    ensures r.1 ==> r.0.log == NatOrder(e, s, setId, rec, dst, src).0.log +
                               Deletes(Nat, Rules, PyStr(setId), Doomed(live, names, None))
  {
    var (s2, ordered) := NatOrder(e, s, setId, rec, dst, src);
    if !ordered then (s2, false)
    else (SendAll(e, s2, Deletes(Nat, Rules, PyStr(setId), Doomed(live, names, None))), true)
  }

  method FinishNat(ctrl: Controller, setId: Value, rec: seq<Field>, dst: Value, src: Value, live: seq<Field>, names: seq<string>)
      returns (ok: bool)
    modifies ctrl
    ensures (ctrl.State(), ok) == NatFinish(ctrl.env, old(ctrl.State()), setId, rec, dst, src, live, names)
  {
    ok := PutNatOrder(ctrl, setId, rec, dst, src);
    ghost var s1 := ctrl.State();
    if ok {
      Cleanup(ctrl, Nat, Rules, PyStr(setId), live, names, None);
    }
    NatFinishSplits(ctrl.env, old(ctrl.State()), setId, rec, dst, src, live, names, s1, ok, ctrl.State());
  }

  /** The finish, told the outcome of the order PUT and what the deletes left. */
  lemma NatFinishSplits(e: Env, s: Store, setId: Value, rec: seq<Field>, dst: Value, src: Value,
                        live: seq<Field>, names: seq<string>, s1: Store, ok: bool, s2: Store)
    requires (s1, ok) == NatOrder(e, s, setId, rec, dst, src)
    requires ok ==> s2 == SendAll(e, s1, Deletes(Nat, Rules, PyStr(setId), Doomed(live, names, None)))
    requires !ok ==> s2 == s1
    ensures NatFinish(e, s, setId, rec, dst, src, live, names) == (s2, ok)
  {
  }

  /**
   * The rules of one set: read back by name, every entry reconciled in
   * document order (PUT when changed, POST when missing), the orders PUT,
   * then every live rule no entry names deleted.
   */
  function NatRules(e: Env, s: Store, t: Catalog.Tables, setId: Value, entries: Option<seq<Value>>, dst: Value, src: Value): (r: (Store, bool))
    ensures LiveRules(e, s, Nat, PyStr(setId)).None? || entries.None? ==> r == (s, false)
    ensures s.log <= r.0.log
  {
    match LiveRules(e, s, Nat, PyStr(setId))
    case None => (s, false)
    case Some(live) =>
      if entries.None? then (s, false)
      else
        var sy := Loop(e, s, Nat, Rules, PyStr(setId), Decisions(NatPreps(t, entries.value), live, false), []);
        if !sy.done then (sy.store, false)
        else NatFinish(e, sy.store, setId, sy.rec, dst, src, live, EntryNames(entries.value))
  }

  /**
   * A rules step that completes read every entry, and sends, in this
   * order: the reconcile loop's writes, the order PUT (when either order is
   * truthy), and one DELETE per live rule that no entry names (NAT rules
   * have no shield).
   */
  lemma NatRulesLog(e: Env, s: Store, t: Catalog.Tables, setId: Value, entries: Option<seq<Value>>, dst: Value, src: Value)
    ensures var r := NatRules(e, s, t, setId, entries, dst, src);
            r.1 ==> LiveRules(e, s, Nat, PyStr(setId)).Some? && entries.Some? &&
                    (forall i :: 0 <= i < |entries.value| ==> First(entries.value[i]).Ok?) &&
                    var live := LiveRules(e, s, Nat, PyStr(setId)).value;
                    var sy := Loop(e, s, Nat, Rules, PyStr(setId), Decisions(NatPreps(t, entries.value), live, false), []);
                    r.0.log == s.log + Plan(Nat, Rules, PyStr(setId), Decisions(NatPreps(t, entries.value), live, false)).0 +
                               NatOrder(e, sy.store, setId, sy.rec, dst, src).0.log[|sy.store.log|..] +
                               Deletes(Nat, Rules, PyStr(setId), Doomed(live, EntryNames(entries.value), None))
  {
    var r := NatRules(e, s, t, setId, entries, dst, src);
    if r.1 {
      var live := LiveRules(e, s, Nat, PyStr(setId)).value;
      var acts := Decisions(NatPreps(t, entries.value), live, false);
      var sy := Loop(e, s, Nat, Rules, PyStr(setId), acts, []);
      assert sy.done;
      forall i | 0 <= i < |entries.value|
        ensures First(entries.value[i]).Ok?
      {
        assert acts[i].Ok?;
      }
      var o := NatOrder(e, sy.store, setId, sy.rec, dst, src);
      assert o.0.log == sy.store.log + o.0.log[|sy.store.log|..];
    }
  }

  method SyncNatRules(ctrl: Controller, cat: Catalog.Catalog, setId: Value, entries: Option<seq<Value>>, dst: Value, src: Value)
      returns (ok: bool)
    modifies ctrl
    ensures (ctrl.State(), ok) == NatRules(ctrl.env, old(ctrl.State()), cat.t, setId, entries, dst, src)
  {
    var live := ReadRules(ctrl, cat, Nat, PyStr(setId));
    if live.None? || entries.None? {
      return false;
    }
    ghost var s0 := ctrl.State();
    var rec, done := Sync(ctrl, Nat, Rules, PyStr(setId), NatPreps(cat.t, entries.value), live.value, false);
    ghost var s1 := ctrl.State();
    if !done {
      NatRulesSplits(ctrl.env, s0, cat.t, setId, dst, src, live.value, entries.value, rec, done, s1, s1, false);
      return false;
    }
    ok := FinishNat(ctrl, setId, rec, dst, src, live.value, EntryNames(entries.value));
    NatRulesSplits(ctrl.env, s0, cat.t, setId, dst, src, live.value, entries.value, rec, done, s1, ctrl.State(), ok);
  }

  /** The rules step, told the outcome of its loop and of its finish. */
  lemma NatRulesSplits(e: Env, s: Store, t: Catalog.Tables, setId: Value, dst: Value, src: Value,
                       live: seq<Field>, entries: seq<Value>, rec: seq<Field>, done: bool, s1: Store, s2: Store, ok: bool)
    requires LiveRules(e, s, Nat, PyStr(setId)) == Some(live)
    requires Synced(s1, rec, done) == Loop(e, s, Nat, Rules, PyStr(setId), Decisions(NatPreps(t, entries), live, false), [])
    requires done ==> (s2, ok) == NatFinish(e, s1, setId, rec, dst, src, live, EntryNames(entries))
    requires !done ==> s2 == s1 && !ok
    ensures NatRules(e, s, t, setId, Some(entries), dst, src) == (s2, ok)
  {
  }

  /**
   * An existing set's fields PUT at its live id when changed, as the
   * overlaid payload without either rule order.
   */
  function NatSetPut(e: Env, s: Store, setId: Value, desired: Value, cur: Value): (r: (Store, bool))
    ensures !Compare.Changed(desired, cur) ==> r == (s, true)
    ensures !r.1 <==> Compare.Changed(desired, cur) && Docs.Payload(desired, cur).Raise?
    ensures r.1 && Compare.Changed(desired, cur) ==>
              |r.0.log| == |s.log| + 1 && r.0.log[..|s.log|] == s.log &&
              var rq := r.0.log[|s.log|];
              rq.PutReq? && rq.level == Sets && rq.id == PyStr(setId) &&
              Get(rq.body, DstOrder) == None && Get(rq.body, SrcOrder) == None &&
              forall k | k != DstOrder && k != SrcOrder :: Get(rq.body, k) == Get(Docs.Payload(desired, cur).value, k)
  {
    if !Compare.Changed(desired, cur) then (s, true)
    else
      match Docs.Payload(desired, cur)
      case Raise(_) => (s, false)
      case Ok(data) =>
        var sent := Drop(Drop(data, DstOrder), SrcOrder);
        var w := StorePut(e, s, Nat, Sets, "", PyStr(setId), sent);
        assert w.store.log[..|s.log|] == s.log;
        (w.store, true)
  }

  method PutNatSet(ctrl: Controller, setId: Value, desired: Value, cur: Value) returns (ok: bool)
    modifies ctrl
    ensures (ctrl.State(), ok) == NatSetPut(ctrl.env, old(ctrl.State()), setId, desired, cur)
  {
    if Compare.Changed(desired, cur) {
      var data := Docs.UpdatePayload(desired, cur);
      if data.Raise? {
        return false;
      }
      var _ := ctrl.Update(Nat, Sets, "", PyStr(setId), Drop(Drop(data.value, DstOrder), SrcOrder));
    }
    ok := true;
  }

  /** The set as written and compared: rules taken out, both orders and `clone_from` cleared. */
  function Cleared(body: Value): (r: Value)
    ensures body.Obj? ==> Get(r, DstOrder) == Some(Null) && Get(r, SrcOrder) == Some(Null) &&
                          Get(r, "clone_from") == Some(Null) && Get(r, DocKey(Nat, Rules)) == None
    ensures forall k | k != DstOrder && k != SrcOrder && k != "clone_from" && k != DocKey(Nat, Rules) :: Get(r, k) == Get(body, k)
  {
    var b1 := Drop(body, DocKey(Nat, Rules));
    assert DocKey(Nat, Rules) == "natpolicyrules";
    assert |DstOrder| != |"natpolicyrules"| && |SrcOrder| != |"natpolicyrules"| && |"clone_from"| != |"natpolicyrules"|;
    Put(Put(Put(b1, DstOrder, Null), SrcOrder, Null), "clone_from", Null)
  }

  /** `set_yaml.get(key, [])` */
  function OrderOf(body: Value, key: string): Value {
    Get(body, key).GetOr(List([]))
  }

  /** The run after the set's id was learnt: `fresh_id_map[name] = id`, `id_name[id] = name`. */
  function Learn(r: Run, name: string, setId: Value): (r': Run)
    ensures r'.newIds == r.newIds[name := setId] && r'.idName == r.idName[setId := name]
    ensures r'.s == r.s && r'.t == r.t && r'.ok == r.ok
  {
    r.(newIds := r.newIds[name := setId], idName := r.idName[setId := name])
  }

  /**
   * One document set, by name, pushed. An existing set is learnt under its
   * live id and PUT when changed; a new set is POSTed and learnt under the
   * id it was given, or skipped without a crash when refused. Either way its
   * rules are then reconciled.
   */
  function NatSet(e: Env, r: Run, name: string, body: Value): (r': Run)
    ensures r'.t == r.t
    ensures !body.Obj? ==> r' == r.(ok := false)
  {
    if !body.Obj? then r.(ok := false)
    else
      var raw := OrderOf(body, DocKey(Nat, Rules));
      var dst := OrderOf(body, DstOrder);
      var src := OrderOf(body, SrcOrder);
      match Find(Catalog.SetsOf(r.t, Nat).config, name)
      case Some(cur) => ExistingNatSet(e, r, name, cur, Cleared(body), NatEntries(raw), dst, src)
      case None => NewNatSet(e, r, name, Cleared(body), NatEntries(raw), dst, src)
  }

  /** A set the controller has: learnt under its live id, PUT when changed, then its rules. */
  function ExistingNatSet(e: Env, r: Run, name: string, cur: Value, desired: Value, entries: Option<seq<Value>>,
                          dst: Value, src: Value): (r': Run)
    ensures r'.t == r.t
    ensures r'.newIds == r.newIds[name := At(cur, "id")] && r'.idName == r.idName[At(cur, "id") := name]
  {
    var setId := At(cur, "id");
    var r1 := Learn(r, name, setId);
    var (s1, put) := NatSetPut(e, r.s, setId, desired, cur);
    if !put then r1.(s := s1, ok := false)
    else
      var (s2, ok) := NatRules(e, s1, r.t, setId, entries, dst, src);
      r1.(s := s2, ok := ok)
  }

  /** A set the controller lacks: POSTed, then learnt under its new id and its rules reconciled; a refusal is skipped. */
  function NewNatSet(e: Env, r: Run, name: string, desired: Value, entries: Option<seq<Value>>, dst: Value, src: Value): (r': Run)
    ensures r'.t == r.t
    ensures var p := StorePost(e, r.s, Nat, Sets, "", desired);
            (p.ok ==> r'.newIds == r.newIds[name := At(p.created, "id")] && r'.idName == r.idName[At(p.created, "id") := name]) &&
            (!p.ok ==> r' == r.(s := p.store))
  {
    var p := StorePost(e, r.s, Nat, Sets, "", desired);
    if !p.ok then r.(s := p.store)
    else
      var setId := At(p.created, "id");
      var (s2, ok) := NatRules(e, p.store, r.t, setId, entries, dst, src);
      Learn(r, name, setId).(s := s2, ok := ok)
  }

  /** A set is learnt under its name exactly when it exists or its POST was taken; a refused new set leaves the maps as they were. */
  lemma NatSetLearns(e: Env, r: Run, name: string, body: Value)
    requires body.Obj?
    ensures var q := NatSet(e, r, name, body);
            var cur := Find(Catalog.SetsOf(r.t, Nat).config, name);
            var p := StorePost(e, r.s, Nat, Sets, "", Cleared(body));
            (cur.Some? ==> q.newIds == r.newIds[name := At(cur.value, "id")] && q.idName == r.idName[At(cur.value, "id") := name]) &&
            (cur.None? && p.ok ==> q.newIds == r.newIds[name := At(p.created, "id")] && q.idName == r.idName[At(p.created, "id") := name]) &&
            (cur.None? && !p.ok ==> q == r.(s := p.store))
  {
    NatSetCases(e, r, name, body);
  }

  method NatSetStep(ctrl: Controller, cat: Catalog.Catalog, newIds0: map<string, Value>, idName0: map<Value, string>, name: string, body: Value)
      returns (newIds: map<string, Value>, idName: map<Value, string>, ok: bool)
    modifies ctrl
    ensures Run(ctrl.State(), cat.t, newIds, idName, ok) == NatSet(ctrl.env, Run(old(ctrl.State()), cat.t, newIds0, idName0, true), name, body)
  {
    ghost var r0 := Run(ctrl.State(), cat.t, newIds0, idName0, true);
    newIds, idName := newIds0, idName0;
    if !body.Obj? {
      return newIds, idName, false;
    }
    var entries := NatEntries(OrderOf(body, DocKey(Nat, Rules)));
    var dst := OrderOf(body, DstOrder);
    var src := OrderOf(body, SrcOrder);
    var cur := Find(Catalog.SetsOf(cat.t, Nat).config, name);
    NatSetCases(ctrl.env, r0, name, body);
    if cur.Some? {
      newIds, idName, ok := ExistingNatStep(ctrl, cat, newIds, idName, name, cur.value, Cleared(body), entries, dst, src);
      assert Run(ctrl.State(), cat.t, newIds, idName, ok) == ExistingNatSet(ctrl.env, r0, name, cur.value, Cleared(body), entries, dst, src);
    } else {
      newIds, idName, ok := NewNatStep(ctrl, cat, newIds, idName, name, Cleared(body), entries, dst, src);
      assert Run(ctrl.State(), cat.t, newIds, idName, ok) == NewNatSet(ctrl.env, r0, name, Cleared(body), entries, dst, src);
    }
  }

  /** A dict set goes down the existing-set or the new-set path, with what it was cleared to. */
  lemma NatSetCases(e: Env, r: Run, name: string, body: Value)
    requires body.Obj?
    ensures var entries := NatEntries(OrderOf(body, DocKey(Nat, Rules)));
            var dst := OrderOf(body, DstOrder);
            var src := OrderOf(body, SrcOrder);
            var cur := Find(Catalog.SetsOf(r.t, Nat).config, name);
            NatSet(e, r, name, body) ==
              if cur.Some? then ExistingNatSet(e, r, name, cur.value, Cleared(body), entries, dst, src)
              else NewNatSet(e, r, name, Cleared(body), entries, dst, src)
  {
  }

  method ExistingNatStep(ctrl: Controller, cat: Catalog.Catalog, newIds0: map<string, Value>, idName0: map<Value, string>,
                         name: string, cur: Value, desired: Value, entries: Option<seq<Value>>, dst: Value, src: Value)
      returns (newIds: map<string, Value>, idName: map<Value, string>, ok: bool)
    modifies ctrl
    ensures Run(ctrl.State(), cat.t, newIds, idName, ok) ==
            ExistingNatSet(ctrl.env, Run(old(ctrl.State()), cat.t, newIds0, idName0, true), name, cur, desired, entries, dst, src)
  {
    ghost var r0 := Run(ctrl.State(), cat.t, newIds0, idName0, true);
    var setId := At(cur, "id");
    newIds, idName := newIds0[name := setId], idName0[setId := name];
    var put := PutNatSet(ctrl, setId, desired, cur);
    ghost var s1 := ctrl.State();
    if put {
      ok := SyncNatRules(ctrl, cat, setId, entries, dst, src);
    } else {
      ok := false;
    }
    ExistingNatSetSplits(ctrl.env, r0, name, cur, desired, entries, dst, src, s1, put, ctrl.State(), ok);
  }

  /** The existing-set path, told the outcome of its PUT and of its rules step. */
  lemma ExistingNatSetSplits(e: Env, r: Run, name: string, cur: Value, desired: Value, entries: Option<seq<Value>>,
                             dst: Value, src: Value, s1: Store, put: bool, s2: Store, ok: bool)
    requires (s1, put) == NatSetPut(e, r.s, At(cur, "id"), desired, cur)
    requires put ==> (s2, ok) == NatRules(e, s1, r.t, At(cur, "id"), entries, dst, src)
    requires !put ==> s2 == s1 && !ok
    ensures ExistingNatSet(e, r, name, cur, desired, entries, dst, src) == Learn(r, name, At(cur, "id")).(s := s2, ok := ok)
  {
  }

  method NewNatStep(ctrl: Controller, cat: Catalog.Catalog, newIds0: map<string, Value>, idName0: map<Value, string>,
                    name: string, desired: Value, entries: Option<seq<Value>>, dst: Value, src: Value)
      returns (newIds: map<string, Value>, idName: map<Value, string>, ok: bool)
    modifies ctrl
    ensures Run(ctrl.State(), cat.t, newIds, idName, ok) ==
            NewNatSet(ctrl.env, Run(old(ctrl.State()), cat.t, newIds0, idName0, true), name, desired, entries, dst, src)
  {
    ghost var r0 := Run(ctrl.State(), cat.t, newIds0, idName0, true);
    newIds, idName := newIds0, idName0;
    var posted, created := ctrl.Create(Nat, Sets, "", desired);
    ghost var s1 := ctrl.State();
    if !posted {
      NewNatSetSplits(ctrl.env, r0, name, desired, entries, dst, src, s1, posted, created, s1, true);
      return newIds, idName, true;
    }
    var setId := At(created, "id");
    newIds, idName := newIds[name := setId], idName[setId := name];
    ok := SyncNatRules(ctrl, cat, setId, entries, dst, src);
    NewNatSetSplits(ctrl.env, r0, name, desired, entries, dst, src, s1, posted, created, ctrl.State(), ok);
  }

  /** The new-set path, told the outcome of its POST and of its rules step. */
  lemma NewNatSetSplits(e: Env, r: Run, name: string, desired: Value, entries: Option<seq<Value>>, dst: Value, src: Value,
                        s1: Store, posted: bool, created: Value, s2: Store, ok: bool)
    requires Posted(s1, posted, created) == StorePost(e, r.s, Nat, Sets, "", desired)
    requires posted ==> (s2, ok) == NatRules(e, s1, r.t, At(created, "id"), entries, dst, src)
    requires !posted ==> s2 == s1 && ok == r.ok
    ensures NewNatSet(e, r, name, desired, entries, dst, src) ==
            if posted then Learn(r, name, At(created, "id")).(s := s2, ok := ok) else r.(s := s2)
  {
  }

  /**
   * `if stack_yaml.get("policyset_ids"):` each member read as a set id of
   * this push and swapped for the id learnt under its name.
   */
  function Swapped(newIds: map<string, Value>, idName: map<Value, string>, stack: Value): (r: Result<Value>)
    ensures !Truthy(At(stack, "policyset_ids")) ==> r == Ok(stack)
    ensures r.Ok? ==> forall k | k != "policyset_ids" :: Get(r.value, k) == Get(stack, k)
  {
    var ids := At(stack, "policyset_ids");
    if !Truthy(ids) then Ok(stack)
    else
      match Iterate(ids)
      case None => Raise("TypeError")
      case Some(items) =>
        match Translate.Walk(items, Translate.SwapBody(idName, newIds))
        case Raise(e) => Raise(e)
        case Ok(ys) => Ok(Put(stack, "policyset_ids", List(ys)))
  }

  /**
   * A NAT stack as sent: its members swapped, then translated and
   * normalised; a raise in either of those is swallowed, leaving the stack
   * as the translation left it. A stack that is not a map, or whose members
   * cannot be swapped, is fatal.
   */
  function NatStackPrep(t: Catalog.Tables, newIds: map<string, Value>, idName: map<Value, string>, name: string, stack: Value): (r: Prepared)
    ensures r.Ok? <==> stack.Obj? && Swapped(newIds, idName, stack).Ok?
    ensures r.Ok? ==> r.value.0 == name
  {
    if !stack.Obj? then Raise("AttributeError")
    else
      match Swapped(newIds, idName, stack)
      case Raise(e) => Raise(e)
      case Ok(sw) =>
        var o := Translate.Stack(t, Nat, Translate.N2ID, sw);
        if o.raised then Ok((name, o.v))
        else
          match Docs.UpdateStack(o.v)
          case Raise(_) => Ok((name, o.v))
          case Ok(v) => Ok((name, v))
  }

  /** A list whose every entry the body passes over comes out empty. */
  lemma {:induction false} AllSkipped(items: seq<Value>, f: Translate.Body)
    requires forall i :: 0 <= i < |items| ==> Translate.Apply(f, items[i]).Skip?
    ensures Translate.Walk(items, f) == Ok([])
    decreases |items|
  {
    if items != [] {
      assert forall i :: 0 <= i < |items[1..]| ==> items[1..][i] == items[i + 1];
      AllSkipped(items[1..], f);
    }
  }

  /** Members that are all names learnt this push, and no set's id, are each swapped for the learnt id. */
  lemma SwapLearnt(newIds: map<string, Value>, idName: map<Value, string>, stack: Value, items: seq<Value>)
    requires stack.Obj? && At(stack, "policyset_ids") == List(items) && items != []
    requires forall i :: 0 <= i < |items| ==> items[i].Str? && items[i] !in idName && items[i].s in newIds
    ensures Swapped(newIds, idName, stack) ==
            Ok(Put(stack, "policyset_ids", List(seq(|items|, i requires 0 <= i < |items| && items[i].Str? && items[i].s in newIds => newIds[items[i].s]))))
  {
    var f := Translate.SwapBody(idName, newIds);
    assert forall i :: 0 <= i < |items| ==> Translate.Apply(f, items[i]) == Translate.Keep(newIds[items[i].s]);
    Translate.WalkMaps(items, f);
    var ys := seq(|items|, i requires 0 <= i < |items| && items[i].Str? && items[i].s in newIds => newIds[items[i].s]);
    assert Translate.Walk(items, f).value == ys;
    assert Truthy(At(stack, "policyset_ids")) && Iterate(At(stack, "policyset_ids")) == Some(items);
  }

  /** The translation keeps no member that is not a catalogued set name, and then `update_stack` makes the empty list None. */
  lemma UncataloguedMembersDropped(t: Catalog.Tables, sw: Value, ys: seq<Value>)
    requires sw.Obj? && At(sw, "policyset_ids") == List(ys)
    requires !At(sw, "defaultrule_policyset_id").List? && !At(sw, "defaultrule_policyset_id").Obj?
    requires forall i :: 0 <= i < |ys| ==> ys[i].Str? && ys[i].s !in Translate.Table(Catalog.SetsOf(t, Nat).ix, Translate.N2ID)
    ensures !Translate.Stack(t, Nat, Translate.N2ID, sw).raised
    ensures Docs.UpdateStack(Translate.Stack(t, Nat, Translate.N2ID, sw).v).Ok?
    ensures At(Docs.UpdateStack(Translate.Stack(t, Nat, Translate.N2ID, sw).v).value, "policyset_ids") == Null
  {
    var m := Translate.Table(Catalog.SetsOf(t, Nat).ix, Translate.N2ID);
    var g := Translate.KnownBody(m, map[]);
    assert forall i :: 0 <= i < |ys| ==> Translate.Apply(g, ys[i]).Skip?;
    AllSkipped(ys, g);
    var p := Translate.Lookup(m, At(sw, "defaultrule_policyset_id"));
    assert p.Ok?;
    var s1 := if p.value.Some? then Put(sw, "defaultrule_policyset_id", Str(p.value.value)) else sw;
    assert "policyset_ids" != "defaultrule_policyset_id";
    assert At(s1, "policyset_ids") == List(ys);
    assert Iterate(At(s1, "policyset_ids")) == Some(ys);
    var o := Translate.Stack(t, Nat, Translate.N2ID, sw);
    assert o == Translate.Outcome(Put(s1, "policyset_ids", List([])), false) by {
      assert Translate.Walk(ys, g) == Ok([]);
      assert Translate.Lookup(m, At(sw, "defaultrule_policyset_id")) == p;
    }
    assert Len(At(o.v, "policyset_ids")) == Some(0);
  }

  /**
   * The swap defeats itself: a stack naming only sets pushed in this run
   * has each name swapped for the set's id, and the translation then keeps
   * only entries that are set NAMES in the catalog, so when no such id is a
   * catalogued name, every member is dropped and the stack is sent with no
   * member sets at all.
   */
  lemma SwappedMembersDropped(t: Catalog.Tables, newIds: map<string, Value>, idName: map<Value, string>, name: string,
                              stack: Value, items: seq<Value>)
    requires stack.Obj? && At(stack, "policyset_ids") == List(items) && items != []
    requires !At(stack, "defaultrule_policyset_id").List? && !At(stack, "defaultrule_policyset_id").Obj?
    requires forall i :: 0 <= i < |items| ==> items[i].Str? && items[i] !in idName && items[i].s in newIds
    requires forall i :: 0 <= i < |items| ==> newIds[items[i].s].Str? &&
                                              newIds[items[i].s].s !in Translate.Table(Catalog.SetsOf(t, Nat).ix, Translate.N2ID)
    ensures NatStackPrep(t, newIds, idName, name, stack).Ok?
    ensures At(NatStackPrep(t, newIds, idName, name, stack).value.1, "policyset_ids") == Null
  {
    SwapLearnt(newIds, idName, stack, items);
    var ys := seq(|items|, i requires 0 <= i < |items| && items[i].Str? && items[i].s in newIds => newIds[items[i].s]);
    var sw := Put(stack, "policyset_ids", List(ys));
    assert At(sw, "defaultrule_policyset_id") == At(stack, "defaultrule_policyset_id");
    UncataloguedMembersDropped(t, sw, ys);
  }

  /**
   * The evidently intended NAT stack: members swapped for their fresh ids
   * are sent as those ids; only the default-rule set is translated from a
   * name, and an empty member list is still sent as null.
   */
  function NatStackPrepIntended(t: Catalog.Tables, newIds: map<string, Value>, idName: map<Value, string>, name: string, stack: Value): (r: Prepared)
    ensures r.Ok? <==> stack.Obj? && Swapped(newIds, idName, stack).Ok?
    ensures r.Ok? ==> r.value.0 == name
    ensures r.Ok? && At(Swapped(newIds, idName, stack).value, "policyset_ids").List? &&
            At(Swapped(newIds, idName, stack).value, "policyset_ids").items != [] ==>
              At(r.value.1, "policyset_ids") == At(Swapped(newIds, idName, stack).value, "policyset_ids")
  {
    if !stack.Obj? then Raise("AttributeError")
    else
      match Swapped(newIds, idName, stack)
      case Raise(e) => Raise(e)
      case Ok(sw) =>
        var o := Translate.Stack(t, Nat, Translate.N2ID, sw);
        var kept := Put(o.v, "policyset_ids", At(sw, "policyset_ids"));
        match Docs.UpdateStack(kept)
        case Raise(_) => Ok((name, kept))
        case Ok(v) => Ok((name, v))
  }

  /** With the correction, a stack naming only sets pushed in this run is sent with each member as that set's fresh id, in order. */
  lemma SwappedMembersKept(t: Catalog.Tables, newIds: map<string, Value>, idName: map<Value, string>, name: string,
                           stack: Value, items: seq<Value>)
    requires stack.Obj? && At(stack, "policyset_ids") == List(items) && items != []
    requires forall i :: 0 <= i < |items| ==> items[i].Str? && items[i] !in idName && items[i].s in newIds
    ensures NatStackPrepIntended(t, newIds, idName, name, stack).Ok?
    ensures var ys := NatStackPrepIntended(t, newIds, idName, name, stack).value.1;
            At(ys, "policyset_ids") == List(seq(|items|, i requires 0 <= i < |items| && items[i].Str? && items[i].s in newIds => newIds[items[i].s]))
  {
    SwapLearnt(newIds, idName, stack, items);
  }
}
