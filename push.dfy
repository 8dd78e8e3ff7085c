/**
 * The five `push_policy_*` functions around their per-set steps, and `go`.
 * A push walks the document's sets, then its stacks, then deletes the live
 * stacks and sets the document does not name: Path deletes every one of
 * them, the other domains spare the controller's defaults. The first
 * exception ends the push, and under `-PT all` every later push.
 */
module Push {
  import opened Wrappers
  import opened Json
  import opened Kinds
  import opened Remote
  import opened Reconcile
  import Catalog
  import Docs
  import SetSync
  import PathPush
  import QosPush
  import SecurityPush
  import NatPush
  import PerformancePush

  /** What a push leaves: the controller, the global dicts, and whether it ran to its end. */
  datatype Pushed = Pushed(s: Store, t: Catalog.Tables, ok: bool)

  /** The per-set step of each domain. */
  function SetStep(e: Env, d: Domain, r: Run, name: string, body: Value): (r': Run)
    ensures IndexOnly(r.t, r'.t, d)
    ensures d == Nat || d == Performance ==> r'.t == r.t
    ensures d != Nat && d != Performance ==> r'.newIds == r.newIds && r'.idName == r.idName
  {
    match d
    case Path => PathPush.PathSet(e, r, name, body)
    case Qos => QosPush.QosSet(e, r, name, body)
    case Security => SecurityPush.SecuritySetAsWritten(e, r, name, body)
    case Nat => NatPush.NatSet(e, r, name, body)
    case Performance => PerformancePush.PerfSet(e, r, name, body)
  }

  /** The sets loop: every document set in turn, until one crashes. */
  function SetsPass(e: Env, d: Domain, r: Run, sets: seq<Field>): (r': Run)
    ensures IndexOnly(r.t, r'.t, d)
    ensures d == Nat || d == Performance ==> r'.t == r.t
    decreases |sets|
  {
    if sets == [] then r
    else
      var r1 := SetStep(e, d, r, sets[0].key, sets[0].val);
      if !r1.ok then r1 else SetsPass(e, d, r1, sets[1..])
  }

  /**
   * One document stack as sent. Path, QoS and Security pin it to the
   * expected default set and translate it, fatally on a raise; NAT and
   * Performance first swap its members to the ids this push learnt.
   */
  function StackPrep(d: Domain, t: Catalog.Tables, newIds: map<string, Value>, idName: map<Value, string>,
                     name: string, body: Value): (r: Prepared)
    ensures r.Ok? ==> r.value.0 == name
  {
    match d
    case Nat => NatPush.NatStackPrep(t, newIds, idName, name, body)
    case Performance => PerformancePush.PerfStackPrep(newIds, idName, name, body)
    case _ => SetSync.PinnedStack(t, d, name, body)
  }

  function StackPreps(d: Domain, t: Catalog.Tables, newIds: map<string, Value>, idName: map<Value, string>,
                      stacks: seq<Field>): (r: seq<Prepared>)
    ensures |r| == |stacks|
    ensures forall i :: 0 <= i < |stacks| ==> r[i] == StackPrep(d, t, newIds, idName, stacks[i].key, stacks[i].val)
  {
    seq(|stacks|, i requires 0 <= i < |stacks| => StackPrep(d, t, newIds, idName, stacks[i].key, stacks[i].val))
  }

  /**
   * The stacks loop: each document stack PUT over its live namesake when
   * changed, POSTed when the controller has none, until one crashes.
   */
  function StacksPass(e: Env, d: Domain, r: Run, stacks: seq<Field>): (r': Run)
    ensures r'.t == r.t && r'.newIds == r.newIds && r'.idName == r.idName
    ensures r'.s.log == r.s.log + Plan(d, Stacks, "", Decisions(StackPreps(d, r.t, r.newIds, r.idName, stacks),
                                                                Catalog.StacksOf(r.t, d).config, false)).0
  {
    var sy := Loop(e, r.s, d, Stacks, "", Decisions(StackPreps(d, r.t, r.newIds, r.idName, stacks),
                                                     Catalog.StacksOf(r.t, d).config, false), []);
    r.(s := sy.store, ok := sy.done)
  }

  /** With no live stack to match, every document stack is POSTed and none is PUT. */
  lemma NoLiveStackAllPosted(d: Domain, preps: seq<Prepared>, j: nat)
    requires j < |Plan(d, Stacks, "", Decisions(preps, [], false)).0|
    ensures Plan(d, Stacks, "", Decisions(preps, [], false)).0[j].PostReq?
  {
    var acts := Decisions(preps, [], false);
    PlanFrom(d, Stacks, "", acts, j);
    var i :| 0 <= i < |acts| && acts[i].Ok? && Plan(d, Stacks, "", acts).0[j] in Writes(d, Stacks, "", acts[i].value.1);
    assert acts[i].value.1.Create?;
  }

  /**
   * The flag that spares a live object from the cleanup: none for Path;
   * `default_policysetstack` on stacks and `defaultrule_policyset` on sets
   * for every other domain.
   */
  function Shield(d: Domain, l: Level): (r: Option<string>)
    ensures r.None? <==> d == Path
  {
    if d == Path then None
    else if l == Stacks then Some("default_policysetstack")
    else Some("defaultrule_policyset")
  }

  /**
   * A document section by name, or None for the crash reading it. Path,
   * QoS and Security call `.keys()` on a missing section and crash; NAT and
   * Performance read a missing section as empty.
   */
  function Section(doc: Value, d: Domain, l: Level): (r: Option<seq<Field>>)
    ensures Docs.ExtractFromYaml(doc, DocKey(d, l)).Raise? ==> r.None?
    ensures Docs.ExtractFromYaml(doc, DocKey(d, l)) == Ok(None) ==> (r.Some? <==> d == Nat || d == Performance)
    ensures Docs.ExtractFromYaml(doc, DocKey(d, l)) == Ok(None) && r.Some? ==> r.value == []
    ensures Docs.ExtractFromYaml(doc, DocKey(d, l)).Ok? && Docs.ExtractFromYaml(doc, DocKey(d, l)).value.Some? ==>
              r == Docs.ExtractFromYaml(doc, DocKey(d, l)).value
  {
    match Docs.ExtractFromYaml(doc, DocKey(d, l))
    case Raise(_) => None
    case Ok(None) => if d == Nat || d == Performance then Some([]) else None
    case Ok(Some(fs)) => Some(fs)
  }

  /** The sets pass, then the stacks pass, on fresh local maps. */
  function Reconciled(e: Env, d: Domain, s: Store, t: Catalog.Tables, doc: Value): (r: Run)
    ensures IndexOnly(t, r.t, d)
    ensures r.ok ==> Section(doc, d, Sets).Some? && Section(doc, d, Stacks).Some?
  {
    match Section(doc, d, Sets)
    case None => Run(s, t, map[], map[], false)
    case Some(sets) =>
      var r1 := SetsPass(e, d, Run(s, t, map[], map[], true), sets);
      if !r1.ok then r1
      else
        match Section(doc, d, Stacks)
        case None => r1.(ok := false)
        case Some(stacks) => StacksPass(e, d, r1, stacks)
  }

  /** The deletes of a cleanup of one level, against the live objects as loaded. */
  function Orphans(d: Domain, l: Level, live: seq<Field>, section: seq<Field>): (r: seq<Request>)
    ensures |r| <= |live|
    ensures forall j | 0 <= j < |r| :: r[j].DeleteReq? && r[j].domain == d && r[j].level == l && r[j].parent == "" &&
              exists f | f in live :: f.key !in Keys(section) && !Shielded(f.val, Shield(d, l)) && r[j].id == IdOf(f.val)
    ensures forall f | f in live && f.key !in Keys(section) && !Shielded(f.val, Shield(d, l)) :: DeleteReq(d, l, "", IdOf(f.val)) in r
  {
    var doomed := Doomed(live, Keys(section), Shield(d, l));
    DoomedMembers(live, Keys(section), Shield(d, l));
    var r := Deletes(d, l, "", doomed);
    assert forall f | f in doomed :: DeleteReq(d, l, "", IdOf(f.val)) in r by {
      forall f | f in doomed
        ensures DeleteReq(d, l, "", IdOf(f.val)) in r
      {
        var k :| 0 <= k < |doomed| && doomed[k] == f;
        assert r[k] == DeleteReq(d, l, "", IdOf(f.val));
      }
    }
    r
  }

  /**
   * One domain pushed. A push that runs to its end finishes with the
   * cleanup: the live stacks, then the live sets, as loaded before the push,
   * that the document does not name and no shield protects, one DELETE each.
   */
  function DomainPush(e: Env, d: Domain, s: Store, t: Catalog.Tables, doc: Value): (r: Pushed)
    ensures IndexOnly(t, r.t, d)
    ensures !r.ok ==> r.s == Reconciled(e, d, s, t, doc).s
    ensures r.ok ==> Section(doc, d, Sets).Some? && Section(doc, d, Stacks).Some? &&
                     r.s.log == Reconciled(e, d, s, t, doc).s.log +
                                Orphans(d, Stacks, Catalog.StacksOf(t, d).config, Section(doc, d, Stacks).value) +
                                Orphans(d, Sets, Catalog.SetsOf(t, d).config, Section(doc, d, Sets).value)
  {
    var r := Reconciled(e, d, s, t, doc);
    if !r.ok then Pushed(r.s, r.t, false)
    else
      var s1 := SendAll(e, r.s, Orphans(d, Stacks, Catalog.StacksOf(r.t, d).config, Section(doc, d, Stacks).value));
      var s2 := SendAll(e, s1, Orphans(d, Sets, Catalog.SetsOf(r.t, d).config, Section(doc, d, Sets).value));
      Pushed(s2, r.t, true)
  }

  /** Outside Path, a cleanup never deletes a live object its shield flag marks as a default. */
  lemma DefaultsSpared(d: Domain, l: Level, live: seq<Field>, section: seq<Field>, j: nat)
    requires d != Path && j < |Orphans(d, l, live, section)|
    ensures var f := Doomed(live, Keys(section), Shield(d, l))[j];
            Orphans(d, l, live, section)[j] == DeleteReq(d, l, "", IdOf(f.val)) &&
            f in live && f.key !in Keys(section) && !IsTrue(At(f.val, Shield(d, l).value))
  {
    var doomed := Doomed(live, Keys(section), Shield(d, l));
    DoomedMembers(live, Keys(section), Shield(d, l));
    assert doomed[j] in doomed;
  }

  /** Path spares nothing: every live object the document does not name is deleted, defaults included. */
  lemma PathDeletesEveryOrphan(l: Level, live: seq<Field>, section: seq<Field>, f: Field)
    requires f in live && f.key !in Keys(section)
    ensures DeleteReq(Path, l, "", IdOf(f.val)) in Orphans(Path, l, live, section)
  {
    var doomed := Doomed(live, Keys(section), Shield(Path, l));
    DoomedMembers(live, Keys(section), Shield(Path, l));
    var j :| 0 <= j < |doomed| && doomed[j] == f;
    assert Orphans(Path, l, live, section)[j] == DeleteReq(Path, l, "", IdOf(f.val));
  }

  /** The domains a policy type pushes, in order. */
  function Domains(m: Catalog.Mode): (r: seq<Domain>)
    ensures m != Catalog.AllMode ==> |r| == 1
  {
    match m
    case PathMode => [Path]
    case QosMode => [Qos]
    case NatMode => [Nat]
    case SecurityMode => [Security]
    case PerformanceMode => [Performance]
    case AllMode => [Path, Qos, Nat, Security, Performance]
  }

  /** Pushes one after another on the shared global dicts, stopping at the first crash. */
  function Pushes(e: Env, s: Store, t: Catalog.Tables, doc: Value, ds: seq<Domain>): (r: Pushed)
    ensures r.t.stacks == t.stacks
    ensures forall d :: d !in ds ==> Catalog.SetsOf(r.t, d) == Catalog.SetsOf(t, d)
    decreases |ds|
  {
    if ds == [] then Pushed(s, t, true)
    else
      var p := DomainPush(e, ds[0], s, t, doc);
      if !p.ok then p else Pushes(e, p.s, p.t, doc, ds[1..])
  }

  lemma {:induction false} PushesSnoc(e: Env, s: Store, t: Catalog.Tables, doc: Value, ds: seq<Domain>, d: Domain)
    ensures Pushes(e, s, t, doc, ds + [d]) ==
            var p := Pushes(e, s, t, doc, ds);
            if !p.ok then p else DomainPush(e, d, p.s, p.t, doc)
    decreases |ds|
  {
    if ds == [] {
      assert [] + [d] == [d];
      assert [d][1..] == [];
    } else {
      assert (ds + [d])[0] == ds[0] && (ds + [d])[1..] == ds[1..] + [d];
      var p := DomainPush(e, ds[0], s, t, doc);
      if p.ok {
        PushesSnoc(e, p.s, p.t, doc, ds[1..], d);
      }
    }
  }

  /** `-PT`: the policy types the pusher accepts; any other value ends the script. */
  function ModeOf(pt: string): (r: Option<Catalog.Mode>)
    ensures r.Some? <==> pt in {"path", "qos", "nat", "security", "performance", "all"}
    ensures r == Some(Catalog.AllMode) <==> pt == "all"
  {
    if pt == "path" then Some(Catalog.PathMode)
    else if pt == "qos" then Some(Catalog.QosMode)
    else if pt == "nat" then Some(Catalog.NatMode)
    else if pt == "security" then Some(Catalog.SecurityMode)
    else if pt == "performance" then Some(Catalog.PerformanceMode)
    else if pt == "all" then Some(Catalog.AllMode)
    else None
  }

  /** A single-domain policy type is that domain's own name. */
  lemma ModeOfTypeName(d: Domain)
    ensures ModeOf(TypeName(d)).Some? && Domains(ModeOf(TypeName(d)).value) == [d]
  {
  }


  /**
   * `go`: the policy type's global dicts loaded, then its pushes. A type
   * that is not accepted, or a loader crash, ends the script before any
   * write.
   */
  function Go(e: Env, s: Store, pt: string, doc: Value): (r: Pushed)
    ensures ModeOf(pt).None? ==> r.s == s && !r.ok
    ensures ModeOf(pt).Some? && Catalog.LoadPlan(e, s, Catalog.EmptyTables, Catalog.Plan(ModeOf(pt).value)).None? ==> r.s == s && !r.ok
  {
    match ModeOf(pt)
    case None => Pushed(s, Catalog.EmptyTables, false)
    case Some(m) =>
      match Catalog.LoadPlan(e, s, Catalog.EmptyTables, Catalog.Plan(m))
      case None => Pushed(s, Catalog.EmptyTables, false)
      case Some(t) => Pushes(e, s, t, doc, Domains(m))
  }

  /**
   * Under `-PT all` the Performance push runs last, after Path, QoS, NAT
   * and Security, against global dicts that know no live Performance set or
   * stack, whatever the controller holds: every Performance stack is
   * POSTed, never PUT, and no Performance set is deleted.
   */
  lemma AllModePerformanceBlind(e: Env, s: Store, doc: Value)
    requires Catalog.LoadPlan(e, s, Catalog.EmptyTables, Catalog.Plan(Catalog.AllMode)).Some?
    ensures var t := Catalog.LoadPlan(e, s, Catalog.EmptyTables, Catalog.Plan(Catalog.AllMode)).value;
            var p := Pushes(e, s, t, doc, [Path, Qos, Nat, Security]);
            Go(e, s, "all", doc) == (if p.ok then DomainPush(e, Performance, p.s, p.t, doc) else p) &&
            Catalog.SetsOf(p.t, Performance).config == [] && Catalog.StacksOf(p.t, Performance).config == []
  {
    var t := Catalog.LoadPlan(e, s, Catalog.EmptyTables, Catalog.Plan(Catalog.AllMode)).value;
    Catalog.AllModeKnowsNoPerformance(e, s);
    PerformanceUntouched(e, s, t, doc);
    GoAll(e, s, doc);
    AllPushesSplit(e, s, t, doc);
  }

  /** With -PT all, the performance push runs last, after the other four succeed. */
  lemma AllPushesSplit(e: Env, s: Store, t: Catalog.Tables, doc: Value)
    ensures var p := Pushes(e, s, t, doc, [Path, Qos, Nat, Security]);
            Pushes(e, s, t, doc, Domains(Catalog.AllMode)) == (if p.ok then DomainPush(e, Performance, p.s, p.t, doc) else p)
  {
    PushesSnoc(e, s, t, doc, [Path, Qos, Nat, Security], Performance);
    assert [Path, Qos, Nat, Security] + [Performance] == Domains(Catalog.AllMode);
  }

  /** The four pushes before Performance leave its live sets and stacks as loaded. */
  lemma PerformanceUntouched(e: Env, s: Store, t: Catalog.Tables, doc: Value)
    ensures var p := Pushes(e, s, t, doc, [Path, Qos, Nat, Security]);
            Catalog.SetsOf(p.t, Performance) == Catalog.SetsOf(t, Performance) &&
            Catalog.StacksOf(p.t, Performance) == Catalog.StacksOf(t, Performance)
  {
    NotPushedKept(e, s, t, doc, [Path, Qos, Nat, Security], Performance);
  }

  /** A kind that is not pushed keeps its live sets and stacks. */
  lemma NotPushedKept(e: Env, s: Store, t: Catalog.Tables, doc: Value, ds: seq<Domain>, d: Domain)
    requires d !in ds
    ensures Catalog.SetsOf(Pushes(e, s, t, doc, ds).t, d) == Catalog.SetsOf(t, d)
    ensures Catalog.StacksOf(Pushes(e, s, t, doc, ds).t, d) == Catalog.StacksOf(t, d)
  {
  }

  lemma GoAll(e: Env, s: Store, doc: Value)
    requires Catalog.LoadPlan(e, s, Catalog.EmptyTables, Catalog.Plan(Catalog.AllMode)).Some?
    ensures Go(e, s, "all", doc) ==
            Pushes(e, s, Catalog.LoadPlan(e, s, Catalog.EmptyTables, Catalog.Plan(Catalog.AllMode)).value, doc, Domains(Catalog.AllMode))
  {
    assert ModeOf("all") == Some(Catalog.AllMode);
  }

  /** With no live set or stack known, a completed Performance push deletes nothing. */
  lemma BlindPushDeletesNothing(e: Env, s: Store, t: Catalog.Tables, doc: Value)
    requires Catalog.SetsOf(t, Performance).config == [] && Catalog.StacksOf(t, Performance).config == []
    requires DomainPush(e, Performance, s, t, doc).ok
    ensures DomainPush(e, Performance, s, t, doc).s.log == Reconciled(e, Performance, s, t, doc).s.log
  {
  }

  lemma SetsPassCons(e: Env, d: Domain, r: Run, sets: seq<Field>, i: nat)
    requires i < |sets|
    ensures SetsPass(e, d, r, sets[i..]) ==
            var r1 := SetStep(e, d, r, sets[i].key, sets[i].val);
            if !r1.ok then r1 else SetsPass(e, d, r1, sets[i + 1..])
  {
    assert sets[i..][0] == sets[i] && sets[i..][1..] == sets[i + 1..];
  }

  /** Once the type is known and its tables are loaded, `go` is the domain pushes over those tables. */
  lemma GoLoaded(e: Env, s: Store, pt: string, doc: Value, m: Catalog.Mode, t: Catalog.Tables)
    requires ModeOf(pt) == Some(m)
    requires Catalog.LoadPlan(e, s, Catalog.EmptyTables, Catalog.Plan(m)) == Some(t)
    ensures Go(e, s, pt, doc) == Pushes(e, s, t, doc, Domains(m))
  {
  }

  lemma PushesCons(e: Env, s: Store, t: Catalog.Tables, doc: Value, ds: seq<Domain>, i: nat)
    requires i < |ds|
    ensures Pushes(e, s, t, doc, ds[i..]) ==
            var p := DomainPush(e, ds[i], s, t, doc);
            if !p.ok then p else Pushes(e, p.s, p.t, doc, ds[i + 1..])
  {
    assert ds[i..][0] == ds[i] && ds[i..][1..] == ds[i + 1..];
  }

  /** One set through its domain's step method. */
  method SetStepOf(ctrl: Controller, cat: Catalog.Catalog, d: Domain, newIds0: map<string, Value>, idName0: map<Value, string>,
                   name: string, body: Value) returns (newIds: map<string, Value>, idName: map<Value, string>, ok: bool)
    modifies ctrl, cat
    ensures Run(ctrl.State(), cat.t, newIds, idName, ok) == SetStep(ctrl.env, d, Run(old(ctrl.State()), old(cat.t), newIds0, idName0, true), name, body)
  {
    newIds, idName := newIds0, idName0;
    match d
    case Path => ok := PathPush.PathSetStep(ctrl, cat, name, body);
    case Qos => ok := QosPush.QosSetStep(ctrl, cat, name, body);
    case Security => ok := SecurityPush.SecuritySetStep(ctrl, cat, name, body);
    case Nat => newIds, idName, ok := NatPush.NatSetStep(ctrl, cat, newIds0, idName0, name, body);
    case Performance => newIds, idName, ok := PerformancePush.PerfSetStep(ctrl, cat, newIds0, idName0, name, body);
  }

  /** The sets loop of one push, on fresh local maps. */
  method PushSets(ctrl: Controller, cat: Catalog.Catalog, d: Domain, sets: seq<Field>)
      returns (newIds: map<string, Value>, idName: map<Value, string>, ok: bool)
    modifies ctrl, cat
    ensures Run(ctrl.State(), cat.t, newIds, idName, ok) == SetsPass(ctrl.env, d, Run(old(ctrl.State()), old(cat.t), map[], map[], true), sets)
  {
    newIds, idName := map[], map[];
    var i := 0;
    while i < |sets|
      invariant 0 <= i <= |sets|
      invariant SetsPass(ctrl.env, d, Run(ctrl.State(), cat.t, newIds, idName, true), sets[i..]) ==
                SetsPass(ctrl.env, d, Run(old(ctrl.State()), old(cat.t), map[], map[], true), sets)
    {
      SetsPassCons(ctrl.env, d, Run(ctrl.State(), cat.t, newIds, idName, true), sets, i);
      var stepOk;
      newIds, idName, stepOk := SetStepOf(ctrl, cat, d, newIds, idName, sets[i].key, sets[i].val);
      if !stepOk {
        return newIds, idName, false;
      }
      i := i + 1;
    }
    return newIds, idName, true;
  }

  /** `push_policy_<domain>`: sets, stacks, then the cleanup of stacks and of sets. */
  method PushDomain(ctrl: Controller, cat: Catalog.Catalog, d: Domain, doc: Value) returns (ok: bool)
    modifies ctrl, cat
    ensures Pushed(ctrl.State(), cat.t, ok) == DomainPush(ctrl.env, d, old(ctrl.State()), old(cat.t), doc)
  {
    ok := ReconcileDomain(ctrl, cat, d, doc);
    if !ok {
      return;
    }
    var stacks := Section(doc, d, Stacks).value;
    var sets := Section(doc, d, Sets).value;
    Cleanup(ctrl, d, Stacks, "", Catalog.StacksOf(cat.t, d).config, Keys(stacks), Shield(d, Stacks));
    Cleanup(ctrl, d, Sets, "", Catalog.SetsOf(cat.t, d).config, Keys(sets), Shield(d, Sets));
  }

  /** The sets pass, then the stacks pass, of one kind's push. */
  method ReconcileDomain(ctrl: Controller, cat: Catalog.Catalog, d: Domain, doc: Value) returns (ok: bool)
    modifies ctrl, cat
    ensures Run(ctrl.State(), cat.t, Reconciled(ctrl.env, d, old(ctrl.State()), old(cat.t), doc).newIds,
                Reconciled(ctrl.env, d, old(ctrl.State()), old(cat.t), doc).idName, ok) ==
            Reconciled(ctrl.env, d, old(ctrl.State()), old(cat.t), doc)
  {
    var sets := Section(doc, d, Sets);
    if sets.None? {
      return false;
    }
    var newIds, idName, setsOk := PushSets(ctrl, cat, d, sets.value);
    if !setsOk {
      return false;
    }
    var stacks := Section(doc, d, Stacks);
    if stacks.None? {
      return false;
    }
    var _, done := Sync(ctrl, d, Stacks, "", StackPreps(d, cat.t, newIds, idName, stacks.value), Catalog.StacksOf(cat.t, d).config, false);
    ok := done;
  }

  /** `go`: the policy type checked, its global dicts built, its pushes run in order. */
  method GoPush(ctrl: Controller, pt: string, doc: Value) returns (ok: bool)
    modifies ctrl
    ensures (ctrl.State(), ok) == (Go(ctrl.env, old(ctrl.State()), pt, doc).s, Go(ctrl.env, old(ctrl.State()), pt, doc).ok)
  {
    var m := ModeOf(pt);
    if m.None? {
      return false;
    }
    var cat := new Catalog.Catalog();
    var loaded := cat.Load(ctrl, Catalog.Plan(m.value));
    if !loaded {
      return false;
    }
    GoLoaded(ctrl.env, ctrl.State(), pt, doc, m.value, cat.t);
    ok := PushAll(ctrl, cat, Domains(m.value), doc);
  }

  /** The pushes `go` runs for the policy type, in order, stopping at the first that fails. */
  method PushAll(ctrl: Controller, cat: Catalog.Catalog, ds: seq<Domain>, doc: Value) returns (ok: bool)
    modifies ctrl, cat
    ensures Pushed(ctrl.State(), cat.t, ok) == Pushes(ctrl.env, old(ctrl.State()), old(cat.t), doc, ds)
  {
    var i := 0;
    while i < |ds|
      invariant 0 <= i <= |ds|
      invariant Pushes(ctrl.env, ctrl.State(), cat.t, doc, ds[i..]) == Pushes(ctrl.env, old(ctrl.State()), old(cat.t), doc, ds)
    {
      ghost var s0, t0 := ctrl.State(), cat.t;
      ok := PushDomain(ctrl, cat, ds[i], doc);
      PushesCons(ctrl.env, s0, t0, doc, ds, i);
      if !ok {
        return false;
      }
      i := i + 1;
    }
    assert ds[i..] == [];
    return true;
  }
}
