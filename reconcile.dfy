/**
 * The reconcile pattern every policy pusher follows: for each desired object,
 * create it when the controller lacks one of that name, rewrite it (live object
 * overlaid with the desired fields) when `compareconf` reports a change, and
 * leave it otherwise; then delete the live objects the document no longer
 * names, sparing the ones a shield flag protects.
 *
 * Each pass is a function over a `Store` whose result log is stated outright
 * (the writes a pass sends do not depend on the controller's answers), and a
 * method over the `Controller` proved equal to it.
 */
module Reconcile {
  import opened Wrappers
  import opened Json
  import opened Kinds
  import opened Remote
  import Catalog
  import Compare
  import Docs
  import Translate

  /**
   * The pusher's state between steps: the controller, the translation
   * catalog, the NAT and Performance pushers' own maps of this run's sets
   * (`fresh_id_map`: name to id, `<type>policyset_id_name`: id to name), and
   * whether no exception has escaped so far.
   */
  datatype Run = Run(s: Store, t: Catalog.Tables, newIds: map<string, Value>, idName: map<Value, string>, ok: bool)

  /** One write through the session, and the controller's answer. */
  function Send(e: Env, s: Store, rq: Request): (r: Posted)
    ensures r.store.log == s.log + [rq]
    ensures !rq.PostReq? ==> r.created == Null
  {
    match rq
    case PostReq(d, l, p, b) => StorePost(e, s, d, l, p, b)
    case PutReq(d, l, p, id, b) =>
      var w := StorePut(e, s, d, l, p, id, b);
      Posted(w.store, w.ok, Null)
    case DeleteReq(d, l, p, id) =>
      var w := StoreDelete(e, s, d, l, p, id);
      Posted(w.store, w.ok, Null)
  }

  /** Writes sent one after another, every answer ignored. */
  function SendAll(e: Env, s: Store, rqs: seq<Request>): (r: Store)
    ensures r.log == s.log + rqs
    decreases |rqs|
  {
    if rqs == [] then s
    else
      var s1 := Send(e, s, rqs[0]).store;
      assert s.log + rqs == s1.log + rqs[1..] by {
        assert rqs == [rqs[0]] + rqs[1..];
      }
      SendAll(e, s1, rqs[1..])
  }

  lemma SendAllCons(e: Env, s: Store, rq: Request, rest: seq<Request>)
    ensures SendAll(e, s, [rq] + rest) == SendAll(e, Send(e, s, rq).store, rest)
  {
    assert ([rq] + rest)[0] == rq && ([rq] + rest)[1..] == rest;
  }

  /** Sending two batches one after the other is sending their concatenation. */
  lemma {:induction false} SendAllAppend(e: Env, s: Store, a: seq<Request>, b: seq<Request>)
    ensures SendAll(e, s, a + b) == SendAll(e, SendAll(e, s, a), b)
    decreases |a|
  {
    if a == [] {
      assert a + b == b;
    } else {
      assert (a + b)[0] == a[0];
      assert (a + b)[1..] == a[1..] + b;
      SendAllAppend(e, Send(e, s, a[0]).store, a[1..], b);
    }
  }

  method Issue(ctrl: Controller, rq: Request) returns (ok: bool, created: Value)
    modifies ctrl
    ensures Posted(ctrl.State(), ok, created) == Send(ctrl.env, old(ctrl.State()), rq)
  {
    match rq {
      case PostReq(d, l, p, b) =>
        ok, created := ctrl.Create(d, l, p, b);
      case PutReq(d, l, p, id, b) =>
        ok := ctrl.Update(d, l, p, id, b);
        created := Null;
      case DeleteReq(d, l, p, id) =>
        ok := ctrl.Delete(d, l, p, id);
        created := Null;
    }
  }

  method IssueAll(ctrl: Controller, rqs: seq<Request>)
    modifies ctrl
    ensures ctrl.State() == SendAll(ctrl.env, old(ctrl.State()), rqs)
  {
    var i := 0;
    while i < |rqs|
      invariant 0 <= i <= |rqs|
      invariant SendAll(ctrl.env, ctrl.State(), rqs[i..]) == SendAll(ctrl.env, old(ctrl.State()), rqs)
    {
      assert rqs[i..] == [rqs[i]] + rqs[i + 1..];
      SendAllCons(ctrl.env, ctrl.State(), rqs[i], rqs[i + 1..]);
      var _, _ := Issue(ctrl, rqs[i]);
      i := i + 1;
    }
  }

  /** What happens to one desired object. */
  datatype Act = Create(body: Value) | Update(payload: Value) | Unchanged(id: Value)

  /**
   * The decision for one desired object against the live objects of its
   * collection, by name. `force` is the new Security set's loop, which
   * rewrites every rule it finds. Building the payload raises (a fatal
   * error) when the desired object is not a dict or the live one is not.
   */
  function Decide(desired: Value, live: seq<Field>, name: string, force: bool): (r: Result<Act>)
    ensures Find(live, name).None? ==> r == Ok(Create(desired))
    ensures r.Raise? <==> Find(live, name).Some? && (force || Compare.Changed(desired, Find(live, name).value)) &&
                          !(desired.Obj? && (Find(live, name).value.Obj? || desired.fields == []))
    ensures r.Ok? && r.value.Unchanged? ==>
              Find(live, name).Some? && !force && !Compare.Changed(desired, Find(live, name).value) &&
              r.value.id == At(Find(live, name).value, "id")
    ensures r.Ok? && r.value.Update? ==>
              Find(live, name).Some? && (force || Compare.Changed(desired, Find(live, name).value))
    ensures r.Ok? && r.value.Update? && UniqueKeys(desired.fields) ==>
              forall k :: Get(r.value.payload, k) == if Has(desired, k) then Get(desired, k) else Get(Find(live, name).value, k)
  {
    match Find(live, name)
    case None => Ok(Create(desired))
    case Some(cur) =>
      if force || Compare.Changed(desired, cur) then
        match Docs.Payload(desired, cur)
        case Raise(e) => Raise(e)
        case Ok(p) =>
          if UniqueKeys(desired.fields) then
            Docs.PayloadGets(desired, cur);
            Ok(Update(p))
          else Ok(Update(p))
      else Ok(Unchanged(At(cur, "id")))
  }

  /** The writes a decision sends: a POST of the body, a PUT of the payload at its own `id`, or nothing. */
  function Writes(d: Domain, l: Level, parent: string, a: Act): seq<Request> {
    match a
    case Create(b) => [PostReq(d, l, parent, b)]
    case Update(p) => [PutReq(d, l, parent, IdOf(p), p)]
    case Unchanged(_) => []
  }

  /** The only PUT a decision sends is its update's payload. */
  lemma PutWritten(d: Domain, l: Level, parent: string, a: Act, rq: Request)
    requires rq in Writes(d, l, parent, a) && rq.PutReq?
    ensures a.Update? && rq.body == a.payload
  {
  }

  /** A desired object ready to be written, under its name; or the exception preparing it raised. */
  type Prepared = Result<(string, Value)>

  /** A desired object's decision under its name; or the exception that stops the loop at it. */
  type Decided = Result<(string, Act)>

  function DecideOne(p: Prepared, live: seq<Field>, force: bool): (r: Decided)
    ensures r.Ok? <==> p.Ok? && Decide(p.value.1, live, p.value.0, force).Ok?
    ensures r.Ok? ==> r.value == (p.value.0, Decide(p.value.1, live, p.value.0, force).value)
  {
    match p
    case Raise(e) => Raise(e)
    case Ok((name, v)) =>
      match Decide(v, live, name, force)
      case Raise(e) => Raise(e)
      case Ok(a) => Ok((name, a))
  }

  /**
   * The decisions of one loop. The live objects are read before the loop
   * starts and never re-read, so every decision can be taken up front.
   */
  function Decisions(prep: seq<Prepared>, live: seq<Field>, force: bool): (r: seq<Decided>)
    ensures |r| == |prep|
    ensures forall i :: 0 <= i < |prep| ==> r[i] == DecideOne(prep[i], live, force)
  {
    seq(|prep|, i requires 0 <= i < |prep| => DecideOne(prep[i], live, force))
  }

  /**
   * The writes of one reconcile loop, in order, and whether it ran to the
   * end: an object that failed to prepare, or whose payload could not be
   * built, stops the loop before any write of its own.
   */
  function Plan(d: Domain, l: Level, parent: string, acts: seq<Decided>): (r: (seq<Request>, bool))
    ensures r.1 <==> forall i :: 0 <= i < |acts| ==> acts[i].Ok?
    decreases |acts|
  {
    if acts == [] then ([], true)
    else
      match acts[0]
      case Raise(_) => ([], false)
      case Ok((_, a)) =>
        var rest := Plan(d, l, parent, acts[1..]);
        assert forall i :: 0 < i < |acts| ==> acts[i] == acts[1..][i - 1];
        (Writes(d, l, parent, a) + rest.0, rest.1)
  }

  /** Every write of a reconcile loop is the one some decision calls for. */
  lemma {:induction false} PlanFrom(d: Domain, l: Level, parent: string, acts: seq<Decided>, j: nat)
    requires j < |Plan(d, l, parent, acts).0|
    ensures exists i :: 0 <= i < |acts| && acts[i].Ok? && Plan(d, l, parent, acts).0[j] in Writes(d, l, parent, acts[i].value.1)
    decreases |acts|
  {
    var w := Writes(d, l, parent, acts[0].value.1);
    var rest := Plan(d, l, parent, acts[1..]);
    assert Plan(d, l, parent, acts).0 == w + rest.0;
    if j < |w| {
      assert Plan(d, l, parent, acts).0[j] == w[j];
    } else {
      assert Plan(d, l, parent, acts).0[j] == rest.0[j - |w|];
      PlanFrom(d, l, parent, acts[1..], j - |w|);
      var i :| 0 <= i < |acts[1..]| && acts[1..][i].Ok? && rest.0[j - |w|] in Writes(d, l, parent, acts[1..][i].value.1);
      assert acts[1..][i] == acts[i + 1];
    }
  }

  /** Every write of a reconcile loop is at the loop's own level. */
  lemma PlanLevel(d: Domain, l: Level, parent: string, acts: seq<Decided>, j: nat)
    requires j < |Plan(d, l, parent, acts).0|
    ensures Plan(d, l, parent, acts).0[j].level == l
  {
    PlanFrom(d, l, parent, acts, j);
  }

  /** The same for the whole loop at once. */
  lemma PlanLevels(d: Domain, l: Level, parent: string, acts: seq<Decided>)
    ensures forall j :: 0 <= j < |Plan(d, l, parent, acts).0| ==> Plan(d, l, parent, acts).0[j].level == l
  {
    forall j | 0 <= j < |Plan(d, l, parent, acts).0|
      ensures Plan(d, l, parent, acts).0[j].level == l
    {
      PlanLevel(d, l, parent, acts, j);
    }
  }

  /** A reconcile loop never deletes. */
  lemma PlanNoDeletes(d: Domain, l: Level, parent: string, acts: seq<Decided>)
    ensures forall j :: 0 <= j < |Plan(d, l, parent, acts).0| ==> !Plan(d, l, parent, acts).0[j].DeleteReq?
  {
    forall j | 0 <= j < |Plan(d, l, parent, acts).0|
      ensures !Plan(d, l, parent, acts).0[j].DeleteReq?
    {
      PlanFrom(d, l, parent, acts, j);
    }
  }

  /** A log extended by writes that are no deletes has no delete after its prefix. */
  lemma NoDeletesAfter(pre: seq<Request>, tail: seq<Request>, log: seq<Request>)
    requires log == pre + tail
    requires forall j :: 0 <= j < |tail| ==> !tail[j].DeleteReq?
    ensures forall j :: |pre| <= j < |log| ==> !log[j].DeleteReq?
  {
    assert forall j :: |pre| <= j < |log| ==> log[j] == tail[j - |pre|];
  }

  /** Every delete of a clean-up is at the clean-up's level. */
  lemma DeletesLevel(d: Domain, l: Level, parent: string, doomed: seq<Field>)
    ensures forall j :: 0 <= j < |Deletes(d, l, parent, doomed)| ==> Deletes(d, l, parent, doomed)[j].level == l
  {
  }

  /** Two runs of writes at one level make one. */
  lemma LevelsConcat(a: seq<Request>, b: seq<Request>, l: Level)
    requires forall j :: 0 <= j < |a| ==> a[j].level == l
    requires forall j :: 0 <= j < |b| ==> b[j].level == l
    ensures forall j :: 0 <= j < |a + b| ==> (a + b)[j].level == l
  {
    forall j | 0 <= j < |a + b|
      ensures (a + b)[j].level == l
    {
      if j >= |a| {
        assert (a + b)[j] == b[j - |a|];
      }
    }
  }

  /** A log extended only by writes at level `l` keeps its prefix and has only such writes after it. */
  lemma LevelsAfter(pre: seq<Request>, tail: seq<Request>, log: seq<Request>, l: Level)
    requires log == pre + tail
    requires forall j :: 0 <= j < |tail| ==> tail[j].level == l
    ensures |pre| <= |log| && log[..|pre|] == pre
    ensures forall j :: |pre| <= j < |log| ==> log[j].level == l
  {
    assert forall j :: |pre| <= j < |log| ==> log[j] == tail[j - |pre|];
  }

  /** In a loop that ran to the end, every decision's writes were sent. */
  lemma {:induction false} PlanCovers(d: Domain, l: Level, parent: string, acts: seq<Decided>, i: nat)
    requires Plan(d, l, parent, acts).1 && i < |acts|
    ensures forall rq :: rq in Writes(d, l, parent, acts[i].value.1) ==> rq in Plan(d, l, parent, acts).0
    decreases |acts|
  {
    assert acts[0].Ok?;
    var rest := Plan(d, l, parent, acts[1..]);
    assert Plan(d, l, parent, acts).0 == Writes(d, l, parent, acts[0].value.1) + rest.0;
    if i > 0 {
      assert acts[1..][i - 1] == acts[i];
      PlanCovers(d, l, parent, acts[1..], i - 1);
    }
  }

  /** A loop that ran to the end POSTs every desired object the controller lacks, as it is. */
  lemma MissingPosted(d: Domain, l: Level, parent: string, prep: seq<Prepared>, live: seq<Field>, force: bool, i: nat)
    requires Plan(d, l, parent, Decisions(prep, live, force)).1 && i < |prep|
    requires prep[i].Ok? && Find(live, prep[i].value.0).None?
    ensures PostReq(d, l, parent, prep[i].value.1) in Plan(d, l, parent, Decisions(prep, live, force)).0
  {
    PlanCovers(d, l, parent, Decisions(prep, live, force), i);
  }

  /** Without `force`, a PUT is sent only for a live object `compareconf` finds different from its desired one. */
  lemma PutOnlyWhenChanged(d: Domain, l: Level, parent: string, prep: seq<Prepared>, live: seq<Field>, j: nat)
    requires j < |Plan(d, l, parent, Decisions(prep, live, false)).0|
    requires Plan(d, l, parent, Decisions(prep, live, false)).0[j].PutReq?
    ensures exists i :: 0 <= i < |prep| && prep[i].Ok? && Find(live, prep[i].value.0).Some? &&
                        Compare.Changed(prep[i].value.1, Find(live, prep[i].value.0).value)
  {
    var acts := Decisions(prep, live, false);
    PlanFrom(d, l, parent, acts, j);
    var i :| 0 <= i < |acts| && acts[i].Ok? && Plan(d, l, parent, acts).0[j] in Writes(d, l, parent, acts[i].value.1);
    assert acts[i] == DecideOne(prep[i], live, false);
    var dec := Decide(prep[i].value.1, live, prep[i].value.0, false);
    assert dec == Ok(acts[i].value.1) && dec.value.Update?;
  }

  /**
   * A PUT carries the desired object's every field, and the live object's
   * other fields: the overlay `update_payload` builds.
   */
  lemma PutOverlays(d: Domain, l: Level, parent: string, prep: seq<Prepared>, live: seq<Field>, force: bool, j: nat)
    requires j < |Plan(d, l, parent, Decisions(prep, live, force)).0|
    requires Plan(d, l, parent, Decisions(prep, live, force)).0[j].PutReq?
    requires forall i :: 0 <= i < |prep| && prep[i].Ok? && prep[i].value.1.Obj? ==> UniqueKeys(prep[i].value.1.fields)
    ensures exists i :: 0 <= i < |prep| && prep[i].Ok? && Find(live, prep[i].value.0).Some? &&
                        forall k :: Get(Plan(d, l, parent, Decisions(prep, live, force)).0[j].body, k) ==
                                    if Has(prep[i].value.1, k) then Get(prep[i].value.1, k) else Get(Find(live, prep[i].value.0).value, k)
  {
    var acts := Decisions(prep, live, force);
    PlanFrom(d, l, parent, acts, j);
    var i :| 0 <= i < |acts| && acts[i].Ok? && Plan(d, l, parent, acts).0[j] in Writes(d, l, parent, acts[i].value.1);
    var a := acts[i].value.1;
    PutWritten(d, l, parent, a, Plan(d, l, parent, acts).0[j]);
    assert acts[i] == DecideOne(prep[i], live, force);
    var dec := Decide(prep[i].value.1, live, prep[i].value.0, force);
    assert dec == Ok(a);
    assert prep[i].value.1.Obj?;
  }

  /** The loop's state: the controller, the ids recorded by rule name, whether it ran to the end. */
  datatype Synced = Synced(store: Store, rec: seq<Field>, done: bool)

  /**
   * One decision carried out: its writes sent, and the id the loop records
   * for the rule (the live id when unchanged, the created or rewritten id
   * when the controller took the write).
   */
  function Carry(e: Env, s: Store, d: Domain, l: Level, parent: string, name: string, a: Act, rec: seq<Field>): (r: (Store, seq<Field>))
    ensures r.0.log == s.log + Writes(d, l, parent, a)
    ensures forall k | k != name :: Find(r.1, k) == Find(rec, k)
  {
    match a
    case Unchanged(id) => (s, Assign(rec, name, id))
    case Create(b) =>
      var p := StorePost(e, s, d, l, parent, b);
      (p.store, if p.ok then Assign(rec, name, At(p.created, "id")) else rec)
    case Update(pl) =>
      var w := StorePut(e, s, d, l, parent, IdOf(pl), pl);
      (w.store, if w.ok then Assign(rec, name, At(pl, "id")) else rec)
  }

  /**
   * A reconcile loop against the controller. What it sends does not depend
   * on the controller's answers: its log grows by exactly the planned
   * writes. The ids it records are what the NAT, Performance and
   * new-Security loops keep for the rule order; the other loops keep
   * nothing, which changes nothing they send.
   */
  function Loop(e: Env, s: Store, d: Domain, l: Level, parent: string, acts: seq<Decided>, rec: seq<Field>): (r: Synced)
    ensures r.store.log == s.log + Plan(d, l, parent, acts).0
    ensures r.done == Plan(d, l, parent, acts).1
    decreases |acts|
  {
    if acts == [] then Synced(s, rec, true)
    else
      match acts[0]
      case Raise(_) => Synced(s, rec, false)
      case Ok((name, a)) =>
        var c := Carry(e, s, d, l, parent, name, a, rec);
        var rest := Plan(d, l, parent, acts[1..]);
        assert s.log + (Writes(d, l, parent, a) + rest.0) == c.0.log + rest.0;
        Loop(e, c.0, d, l, parent, acts[1..], c.1)
  }

  /** A loop records ids only under the names of the objects it was given. */
  lemma {:induction false} LoopRecordsOwnNames(e: Env, s: Store, d: Domain, l: Level, parent: string, acts: seq<Decided>,
                                               rec: seq<Field>, k: string)
    requires Find(rec, k).None?
    requires forall i :: 0 <= i < |acts| && acts[i].Ok? ==> acts[i].value.0 != k
    ensures Find(Loop(e, s, d, l, parent, acts, rec).rec, k).None?
    decreases |acts|
  {
    if acts != [] && acts[0].Ok? {
      var c := Carry(e, s, d, l, parent, acts[0].value.0, acts[0].value.1, rec);
      assert forall i :: 0 <= i < |acts[1..]| ==> acts[1..][i] == acts[i + 1];
      LoopRecordsOwnNames(e, c.0, d, l, parent, acts[1..], c.1, k);
    }
  }

  method Sync(ctrl: Controller, d: Domain, l: Level, parent: string, prep: seq<Prepared>, live: seq<Field>, force: bool)
      returns (rec: seq<Field>, done: bool)
    modifies ctrl
    ensures Synced(ctrl.State(), rec, done) == Loop(ctrl.env, old(ctrl.State()), d, l, parent, Decisions(prep, live, force), [])
  {
    ghost var acts := Decisions(prep, live, force);
    rec := [];
    var i := 0;
    while i < |prep|
      invariant 0 <= i <= |prep|
      invariant Loop(ctrl.env, ctrl.State(), d, l, parent, acts[i..], rec) ==
                Loop(ctrl.env, old(ctrl.State()), d, l, parent, acts, [])
    {
      assert acts[i..][0] == acts[i] && acts[i..][1..] == acts[i + 1..];
      var act := DecideOne(prep[i], live, force);
      if act.Raise? {
        return rec, false;
      }
      var (name, a) := act.value;
      match a {
        case Unchanged(id) =>
          rec := Assign(rec, name, id);
        case Create(b) =>
          var ok, created := ctrl.Create(d, l, parent, b);
          if ok {
            rec := Assign(rec, name, At(created, "id"));
          }
        case Update(pl) =>
          var ok := ctrl.Update(d, l, parent, IdOf(pl), pl);
          if ok {
            rec := Assign(rec, name, At(pl, "id"));
          }
      }
      i := i + 1;
    }
    return rec, true;
  }

  /** A default object the cleanup must not delete: its shield flag `is True`. */
  predicate Shielded(v: Value, shield: Option<string>) {
    shield.Some? && IsTrue(At(v, shield.value))
  }

  /** The live objects a cleanup deletes, in the live order: not named by the document, not shielded. */
  function Doomed(live: seq<Field>, names: seq<string>, shield: Option<string>): (r: seq<Field>)
    ensures |r| <= |live|
    ensures forall i | 0 <= i < |r| :: r[i] in live && r[i].key !in names && !Shielded(r[i].val, shield)
    decreases |live|
  {
    if live == [] then []
    else
      var rest := Doomed(live[1..], names, shield);
      if live[0].key !in names && !Shielded(live[0].val, shield) then [live[0]] + rest else rest
  }

  /** A cleanup deletes exactly the live objects the document does not name and no shield protects. */
  lemma {:induction false} DoomedMembers(live: seq<Field>, names: seq<string>, shield: Option<string>)
    ensures forall f :: f in Doomed(live, names, shield) <==> f in live && f.key !in names && !Shielded(f.val, shield)
    decreases |live|
  {
    if live != [] {
      DoomedMembers(live[1..], names, shield);
      assert forall f :: f in live <==> f == live[0] || f in live[1..] by {
        assert live == [live[0]] + live[1..];
      }
    }
  }

  /** One DELETE per doomed object, at its `id`. */
  function Deletes(d: Domain, l: Level, parent: string, doomed: seq<Field>): (r: seq<Request>)
    ensures |r| == |doomed|
    ensures forall j :: 0 <= j < |r| ==> r[j] == DeleteReq(d, l, parent, IdOf(doomed[j].val))
    decreases |doomed|
  {
    if doomed == [] then []
    else [DeleteReq(d, l, parent, IdOf(doomed[0].val))] + Deletes(d, l, parent, doomed[1..])
  }

  /** How many entries carry a key. */
  function Count(fs: seq<Field>, k: string): nat
    decreases |fs|
  {
    if fs == [] then 0 else (if fs[0].key == k then 1 else 0) + Count(fs[1..], k)
  }

  lemma UniqueTail(fs: seq<Field>)
    requires fs != [] && UniqueKeys(fs)
    ensures UniqueKeys(fs[1..]) && fs[0].key !in Keys(fs[1..])
  {
    assert forall i :: 0 <= i < |fs[1..]| ==> fs[1..][i] == fs[i + 1];
  }

  /**
   * Over live objects with distinct names, a cleanup deletes each unnamed,
   * unshielded one exactly once, and no other.
   */
  lemma {:induction false} DoomedOnce(live: seq<Field>, names: seq<string>, shield: Option<string>, k: string)
    requires UniqueKeys(live)
    ensures Count(Doomed(live, names, shield), k) ==
            if k in Keys(live) && k !in names && !Shielded(Find(live, k).value, shield) then 1 else 0
    decreases |live|
  {
    if live != [] {
      UniqueTail(live);
      DoomedOnce(live[1..], names, shield, k);
      assert live == [live[0]] + live[1..];
      FindCons(live[0], live[1..], k);
      assert Keys(live) == [live[0].key] + Keys(live[1..]);
      var rest := Doomed(live[1..], names, shield);
      assert ([live[0]] + rest)[0] == live[0] && ([live[0]] + rest)[1..] == rest;
      if live[0].key == k {
        assert Count(rest, k) == 0;
      }
    }
  }

  /** One step of the cleanup: the object at `i` is deleted first when it is doomed, then the rest follow. */
  lemma DeletesFrom(d: Domain, l: Level, parent: string, live: seq<Field>, i: nat, names: seq<string>, shield: Option<string>)
    requires i < |live|
    ensures var rest := Deletes(d, l, parent, Doomed(live[i + 1..], names, shield));
            Deletes(d, l, parent, Doomed(live[i..], names, shield)) ==
              if live[i].key !in names && !Shielded(live[i].val, shield)
              then [DeleteReq(d, l, parent, IdOf(live[i].val))] + rest else rest
  {
    assert live[i..][0] == live[i] && live[i..][1..] == live[i + 1..];
    var f := live[i];
    var rest := Doomed(live[i + 1..], names, shield);
    if f.key !in names && !Shielded(f.val, shield) {
      assert ([f] + rest)[0] == f && ([f] + rest)[1..] == rest;
    }
  }

  /** The cleanup loop: every doomed object deleted in turn. */
  method Cleanup(ctrl: Controller, d: Domain, l: Level, parent: string, live: seq<Field>, names: seq<string>, shield: Option<string>)
    modifies ctrl
    ensures ctrl.State() == SendAll(ctrl.env, old(ctrl.State()), Deletes(d, l, parent, Doomed(live, names, shield)))
  {
    var i := 0;
    while i < |live|
      invariant 0 <= i <= |live|
      invariant SendAll(ctrl.env, ctrl.State(), Deletes(d, l, parent, Doomed(live[i..], names, shield))) ==
                SendAll(ctrl.env, old(ctrl.State()), Deletes(d, l, parent, Doomed(live, names, shield)))
    {
      var f := live[i];
      DeletesFrom(d, l, parent, live, i, names, shield);
      if f.key !in names && !Shielded(f.val, shield) {
        var rq := DeleteReq(d, l, parent, IdOf(f.val));
        SendAllCons(ctrl.env, ctrl.State(), rq, Deletes(d, l, parent, Doomed(live[i + 1..], names, shield)));
        var _ := ctrl.Delete(d, l, parent, IdOf(f.val));
      }
      i := i + 1;
    }
  }

  /**
   * `rules_ctrl`: a set's rules read back by name (a later duplicate name
   * overwrites); empty when the read fails; None (a KeyError) when a rule
   * has no name.
   */
  function LiveRules(e: Env, s: Store, d: Domain, setId: string): (r: Option<seq<Field>>)
    ensures !ListAt(e, s, d, Rules, setId).0 ==> r == Some([])
    ensures ListAt(e, s, d, Rules, setId).0 ==>
              (r.Some? <==> forall i | 0 <= i < |ListAt(e, s, d, Rules, setId).1| :: StrAt(ListAt(e, s, d, Rules, setId).1[i], "name").Some?)
  {
    var (got, items) := ListAt(e, s, d, Rules, setId);
    if got then Catalog.AddNamed([], items) else Some([])
  }

  lemma {:induction false} AddNamedUnique(config: seq<Field>, items: seq<Value>)
    requires UniqueKeys(config) && Catalog.AddNamed(config, items).Some?
    ensures UniqueKeys(Catalog.AddNamed(config, items).value)
    decreases |items|
  {
    if items != [] {
      AddNamedUnique(Assign(config, StrAt(items[0], "name").value, items[0]), items[1..]);
    }
  }

  /** The rules read back carry distinct names. */
  lemma LiveRulesUnique(e: Env, s: Store, d: Domain, setId: string)
    requires LiveRules(e, s, d, setId).Some?
    ensures UniqueKeys(LiveRules(e, s, d, setId).value)
  {
    var (got, items) := ListAt(e, s, d, Rules, setId);
    if got {
      AddNamedUnique([], items);
    }
  }

  method ReadRules(ctrl: Controller, cat: Catalog.Catalog, d: Domain, setId: string) returns (r: Option<seq<Field>>)
    ensures r == LiveRules(ctrl.env, ctrl.State(), d, setId)
  {
    var got, items := ctrl.List(d, Rules, setId);
    if !got {
      return Some([]);
    }
    var ok, config := cat.FillNamed([], items);
    r := if ok then Some(config) else None;
  }

  /** `[rec[n] for n in order if n in rec]`: a TypeError when the order is not iterable or holds an unhashable entry. */
  function Resolve(rec: seq<Field>, order: Value): (r: Result<seq<Value>>)
    ensures Iterate(order).None? ==> r == Raise("TypeError")
    ensures Iterate(order).Some? ==> (r.Ok? <==> forall i | 0 <= i < |Iterate(order).value| :: !Iterate(order).value[i].List? && !Iterate(order).value[i].Obj?)
    ensures r.Ok? ==> |r.value| <= |Iterate(order).value|
  {
    match Iterate(order)
    case None => Raise("TypeError")
    case Some(items) => Translate.Walk(items, Translate.RecordBody(rec))
  }

  method ResolveOrder(rec: seq<Field>, order: Value) returns (r: Result<seq<Value>>)
    ensures r == Resolve(rec, order)
  {
    var items := Iterate(order);
    if items.None? {
      return Raise("TypeError");
    }
    r := Translate.WalkLoop(items.value, Translate.RecordBody(rec));
  }

  /** Every id of a resolved order is the recorded id of a rule the order names. */
  lemma ResolveFrom(rec: seq<Field>, order: Value, j: nat)
    requires Resolve(rec, order).Ok? && j < |Resolve(rec, order).value|
    ensures exists i :: 0 <= i < |Iterate(order).value| && Iterate(order).value[i].Str? &&
                        Find(rec, Iterate(order).value[i].s) == Some(Resolve(rec, order).value[j])
  {
    Translate.WalkFrom(Iterate(order).value, Translate.RecordBody(rec), j);
  }

  /** When every rule an order names was recorded, the order resolves entry for entry. */
  lemma ResolveAllRecorded(rec: seq<Field>, items: seq<Value>)
    requires forall i :: 0 <= i < |items| ==> items[i].Str? && Find(rec, items[i].s).Some?
    ensures Resolve(rec, List(items)).Ok? && |Resolve(rec, List(items)).value| == |items|
    ensures forall i :: 0 <= i < |items| ==> Resolve(rec, List(items)).value[i] == Find(rec, items[i].s).value
  {
    Translate.WalkMaps(items, Translate.RecordBody(rec));
  }

  /** A rule name with no recorded id drops out of the order and leaves the rest in place. */
  lemma ResolveDropsUnrecorded(rec: seq<Field>, a: seq<Value>, x: Value, b: seq<Value>)
    requires x.Str? && Find(rec, x.s).None?
    requires Resolve(rec, List(a + [x] + b)).Ok?
    ensures Resolve(rec, List(a)).Ok? && Resolve(rec, List(b)).Ok?
    ensures Resolve(rec, List(a + [x] + b)).value == Resolve(rec, List(a)).value + Resolve(rec, List(b)).value
  {
    var f := Translate.RecordBody(rec);
    Translate.WalkAppend(a + [x], b, f);
    Translate.WalkAppend(a, [x], f);
    assert [x][1..] == [];
    assert Translate.Walk([x], f) == Ok([]);
    var wa := Translate.Walk(a, f);
    if wa.Ok? {
      assert wa.value + [] == wa.value;
    }
  }

  /** The catalog after the push records a set it created (`<type>policyset_id_name[id] = name`). */
  function Recorded(t: Catalog.Tables, d: Domain, id: string, name: string): (r: Catalog.Tables)
    ensures IndexOnly(t, r, d)
    ensures Catalog.SetsOf(r, d).ix.nameId == Catalog.SetsOf(t, d).ix.nameId[name := id]
  {
    t.(sets := t.sets[d := Catalog.SetsOf(t, d).(ix := Catalog.AddPair(Catalog.SetsOf(t, d).ix, id, name))])
  }

  /**
   * Tables that differ at most in one domain's set id/name maps: what a
   * sets pass changes in the global dicts. The live objects, the stacks, the
   * rules and every other domain are untouched.
   */
  predicate IndexOnly(t: Catalog.Tables, t': Catalog.Tables, d: Domain) {
    t'.refs == t.refs && t'.stacks == t.stacks && t'.rules == t.rules && t'.thresholds == t.thresholds &&
    Catalog.SetsOf(t', d).config == Catalog.SetsOf(t, d).config &&
    forall d2 :: d2 != d ==> Catalog.SetsOf(t', d2) == Catalog.SetsOf(t, d2)
  }
}
