/**
 * The translation catalogs the push engine builds before it reconciles: for
 * every reference inventory an ID->name and a name->ID map, for the live
 * stacks and sets of each domain the same two maps plus the live object by
 * name, for the live rules of each set maps keyed by (set id, rule id) and
 * (set id, rule name), and the threshold-profile name->ID map.
 *
 * Which inventories are read, and in which order, depends on the policy type
 * (`create_global_dicts_all/path/qos/nat/security/performance`); each loader is
 * a `Plan` of `Block`s run by `Catalog.Load`.
 */
module Catalog {
  import opened Json
  import opened Wrappers
  import opened Kinds
  import opened Remote

  /** A pair of lookup maps; `idName` is keyed by id (for labels: the label), `nameId` by name. */
  datatype Index = Index(idName: map<string, string>, nameId: map<string, string>)

  /** Live stacks or sets of one domain: the lookup maps and the live object by name, in load order. */
  datatype Live = Live(ix: Index, config: seq<Field>)

  /** Live rules of one domain, keyed by (set id, rule id) and (set id, rule name). */
  datatype RuleIndex = RuleIndex(idName: map<(string, string), string>, nameId: map<(string, string), string>,
                                 config: map<(string, string), Value>)

  datatype Tables = Tables(refs: map<Ref, Index>, stacks: map<Domain, Live>, sets: map<Domain, Live>,
                           rules: map<Domain, RuleIndex>, thresholds: map<string, string>)

  const NoIndex := Index(map[], map[])
  const NoLive := Live(NoIndex, [])
  const NoRules := RuleIndex(map[], map[], map[])
  /** Every global dict starts out empty. */
  const EmptyTables := Tables(map[], map[], map[], map[], map[])

  function RefIx(t: Tables, r: Ref): Index {
    if r in t.refs then t.refs[r] else NoIndex
  }

  function StacksOf(t: Tables, d: Domain): Live {
    if d in t.stacks then t.stacks[d] else NoLive
  }

  function SetsOf(t: Tables, d: Domain): Live {
    if d in t.sets then t.sets[d] else NoLive
  }

  function RulesOf(t: Tables, d: Domain): RuleIndex {
    if d in t.rules then t.rules[d] else NoRules
  }

  /** `(item[idKey], item[nameKey])`; `None` where the item lacks one of them (a KeyError). */
  function RowOf(v: Value, idKey: string, nameKey: string): Option<(string, string)> {
    match (StrAt(v, idKey), StrAt(v, nameKey))
    case (Some(i), Some(n)) => Some((i, n))
    case _ => None
  }

  /** One item: `id_name[id] = name; name_id[name] = id`. */
  function AddPair(ix: Index, id: string, name: string): Index {
    Index(ix.idName[id := name], ix.nameId[name := id])
  }

  /** The loop over an inventory's items; `None` when an item lacks a key. */
  function AddRows(ix: Index, items: seq<Value>, idKey: string, nameKey: string): (r: Option<Index>)
    ensures r.Some? <==> forall i :: 0 <= i < |items| ==> RowOf(items[i], idKey, nameKey).Some?
    decreases |items|
  {
    if items == [] then Some(ix)
    else match RowOf(items[0], idKey, nameKey)
      case None => None
      case Some(row) =>
        var r := AddRows(AddPair(ix, row.0, row.1), items[1..], idKey, nameKey);
        assert forall i :: 0 < i < |items| ==> items[i] == items[1..][i - 1];
        r
  }

  /** Some item carries this name. */
  predicate NameSeen(items: seq<Value>, n: string, idKey: string, nameKey: string) {
    exists i :: 0 <= i < |items| && RowOf(items[i], idKey, nameKey).Some? && RowOf(items[i], idKey, nameKey).value.1 == n
  }

  /** The id of the last item carrying name `n`. */
  function LastId(items: seq<Value>, n: string, idKey: string, nameKey: string): Option<string>
    decreases |items|
  {
    if items == [] then None
    else match LastId(items[1..], n, idKey, nameKey)
      case Some(i) => Some(i)
      case None =>
        var row := RowOf(items[0], idKey, nameKey);
        if row.Some? && row.value.1 == n then Some(row.value.0) else None
  }

  /**
   * Name->ID after the loop: a name carried by some item maps to the id of the
   * LAST such item (later items overwrite), any other name keeps its old entry.
   */
  lemma {:induction false} AddRowsNameId(ix: Index, items: seq<Value>, idKey: string, nameKey: string, n: string)
    requires AddRows(ix, items, idKey, nameKey).Some?
    ensures var r := AddRows(ix, items, idKey, nameKey).value;
            && (n in r.nameId <==> n in ix.nameId || LastId(items, n, idKey, nameKey).Some?)
            && (LastId(items, n, idKey, nameKey).Some? ==> r.nameId[n] == LastId(items, n, idKey, nameKey).value)
            && (LastId(items, n, idKey, nameKey).None? && n in ix.nameId ==> r.nameId[n] == ix.nameId[n])
    decreases |items|
  {
    if items != [] {
      var row := RowOf(items[0], idKey, nameKey).value;
      AddRowsNameId(AddPair(ix, row.0, row.1), items[1..], idKey, nameKey, n);
    }
  }

  /** `LastId` finds a name exactly when some item carries it. */
  lemma {:induction false} LastIdSeen(items: seq<Value>, n: string, idKey: string, nameKey: string)
    ensures LastId(items, n, idKey, nameKey).Some? <==> NameSeen(items, n, idKey, nameKey)
    decreases |items|
  {
    if items != [] {
      var rest := items[1..];
      LastIdSeen(rest, n, idKey, nameKey);
      assert forall i :: 0 <= i < |rest| ==> rest[i] == items[i + 1];
      if NameSeen(items, n, idKey, nameKey) {
        var i :| 0 <= i < |items| && RowOf(items[i], idKey, nameKey).Some? && RowOf(items[i], idKey, nameKey).value.1 == n;
        if i > 0 {
          assert rest[i - 1] == items[i];
        }
      }
    }
  }

  /** Both maps are inverse to each other. */
  predicate Inverse(ix: Index) {
    && (forall n :: n in ix.nameId ==> ix.nameId[n] in ix.idName && ix.idName[ix.nameId[n]] == n)
    && (forall i :: i in ix.idName ==> ix.idName[i] in ix.nameId && ix.nameId[ix.idName[i]] == i)
  }

  /** A pair that agrees with what the maps already say about its id and its name. */
  predicate Compatible(ix: Index, id: string, name: string) {
    (id in ix.idName ==> ix.idName[id] == name) && (name in ix.nameId ==> ix.nameId[name] == id)
  }

  /** Items that never give one id two names nor one name two ids. */
  predicate Consistent(items: seq<Value>, idKey: string, nameKey: string) {
    forall i, j :: 0 <= i < |items| && 0 <= j < |items| &&
                   RowOf(items[i], idKey, nameKey).Some? && RowOf(items[j], idKey, nameKey).Some? ==>
                   (RowOf(items[i], idKey, nameKey).value.0 == RowOf(items[j], idKey, nameKey).value.0 <==>
                    RowOf(items[i], idKey, nameKey).value.1 == RowOf(items[j], idKey, nameKey).value.1)
  }

  /**
   * Round trip: when the inventory never reuses an id or a name, and agrees with
   * the entries already present, ID->name and name->ID stay inverse.
   */
  lemma {:induction false} AddRowsInverse(ix: Index, items: seq<Value>, idKey: string, nameKey: string)
    requires Inverse(ix)
    requires Consistent(items, idKey, nameKey)
    requires forall i :: 0 <= i < |items| && RowOf(items[i], idKey, nameKey).Some? ==>
               Compatible(ix, RowOf(items[i], idKey, nameKey).value.0, RowOf(items[i], idKey, nameKey).value.1)
    requires AddRows(ix, items, idKey, nameKey).Some?
    ensures Inverse(AddRows(ix, items, idKey, nameKey).value)
    decreases |items|
  {
    if items != [] {
      var row := RowOf(items[0], idKey, nameKey).value;
      var ix' := AddPair(ix, row.0, row.1);
      assert Inverse(ix');
      var rest := items[1..];
      assert forall i :: 0 <= i < |rest| ==> rest[i] == items[i + 1];
      forall i | 0 <= i < |rest| && RowOf(rest[i], idKey, nameKey).Some?
        ensures Compatible(ix', RowOf(rest[i], idKey, nameKey).value.0, RowOf(rest[i], idKey, nameKey).value.1)
      {
        assert rest[i] == items[i + 1];
      }
      AddRowsInverse(ix', rest, idKey, nameKey);
    }
  }

  /** A live stack or set: indexed by id and name, and stored by name. */
  function AddLive(lv: Live, items: seq<Value>): (r: Option<Live>)
    ensures r.Some? <==> forall i :: 0 <= i < |items| ==> RowOf(items[i], "id", "name").Some?
    decreases |items|
  {
    if items == [] then Some(lv)
    else match RowOf(items[0], "id", "name")
      case None => None
      case Some(row) =>
        assert forall i :: 0 < i < |items| ==> items[i] == items[1..][i - 1];
        AddLive(Live(AddPair(lv.ix, row.0, row.1), Assign(lv.config, row.1, items[0])), items[1..])
  }

  /** The rules of one live set. */
  function AddRules(ri: RuleIndex, setId: string, rules: seq<Value>): (r: Option<RuleIndex>)
    ensures r.Some? <==> forall i :: 0 <= i < |rules| ==> RowOf(rules[i], "id", "name").Some?
    decreases |rules|
  {
    if rules == [] then Some(ri)
    else match RowOf(rules[0], "id", "name")
      case None => None
      case Some(row) =>
        assert forall i :: 0 < i < |rules| ==> rules[i] == rules[1..][i - 1];
        AddRules(RuleIndex(ri.idName[(setId, row.0) := row.1], ri.nameId[(setId, row.1) := row.0],
                           ri.config[(setId, row.1) := rules[0]]), setId, rules[1..])
  }

  /** Every rule key the loader adds belongs to the set it was read from. */
  lemma {:induction false} AddRulesKeys(ri: RuleIndex, setId: string, rules: seq<Value>)
    requires AddRules(ri, setId, rules).Some?
    ensures var r := AddRules(ri, setId, rules).value;
            && (forall k :: k in r.nameId ==> k in ri.nameId || k.0 == setId)
            && (forall k :: k in r.idName ==> k in ri.idName || k.0 == setId)
            && (forall k :: k in ri.nameId && k.0 != setId ==> k in r.nameId && r.nameId[k] == ri.nameId[k])
    decreases |rules|
  {
    if rules != [] {
      var row := RowOf(rules[0], "id", "name").value;
      AddRulesKeys(RuleIndex(ri.idName[(setId, row.0) := row.1], ri.nameId[(setId, row.1) := row.0],
                             ri.config[(setId, row.1) := rules[0]]), setId, rules[1..]);
    }
  }

  /** One live set: its row, then a read of its rules; a failed rule read crashes. */
  function AddSet(e: Env, s: Store, d: Domain, lv: Live, ri: RuleIndex, item: Value): (r: Option<(Live, RuleIndex)>)
    ensures r.Some? <==> RowOf(item, "id", "name").Some? &&
                         var id := RowOf(item, "id", "name").value.0;
                         ListAt(e, s, d, Rules, id).0 && AddRules(ri, id, ListAt(e, s, d, Rules, id).1).Some?
    ensures r.Some? ==> var (id, name) := RowOf(item, "id", "name").value;
              id in r.value.0.ix.idName && r.value.0.ix.idName[id] == name &&
              name in r.value.0.ix.nameId && r.value.0.ix.nameId[name] == id &&
              Find(r.value.0.config, name) == Some(item)
    ensures r.Some? ==> forall k | k in Keys(lv.config) :: k in Keys(r.value.0.config)
  {
    match RowOf(item, "id", "name")
    case None => None
    case Some(row) =>
      var lv' := Live(AddPair(lv.ix, row.0, row.1), Assign(lv.config, row.1, item));
      var (got, rules) := ListAt(e, s, d, Rules, row.0);
      if !got then None
      else match AddRules(ri, row.0, rules)
        case None => None
        case Some(ri') => Some((lv', ri'))
  }

  /** The live sets of a domain, one after another, stopping at the first that crashes. */
  function AddSets(e: Env, s: Store, d: Domain, lv: Live, ri: RuleIndex, items: seq<Value>): (r: Option<(Live, RuleIndex)>)
    ensures r.Some? ==> forall i | 0 <= i < |items| :: RowOf(items[i], "id", "name").Some? &&
                          RowOf(items[i], "id", "name").value.1 in Keys(r.value.0.config)
    ensures r.Some? ==> forall k | k in Keys(lv.config) :: k in Keys(r.value.0.config)
    decreases |items|
  {
    if items == [] then Some((lv, ri))
    else match AddSet(e, s, d, lv, ri, items[0])
      case None => None
      case Some((lv', ri')) =>
        assert forall i | 1 <= i < |items| :: items[i] == items[1..][i - 1];
        AddSets(e, s, d, lv', ri', items[1..])
  }

  /** The set loop from `i` on: the set at `i`, then the rest. */
  lemma AddSetsStep(e: Env, s: Store, d: Domain, lv: Live, ri: RuleIndex, items: seq<Value>, i: nat)
    requires i < |items|
    ensures AddSets(e, s, d, lv, ri, items[i..]) ==
            match AddSet(e, s, d, lv, ri, items[i])
            case None => None
            case Some((lv', ri')) => AddSets(e, s, d, lv', ri', items[i + 1..])
  {
    assert items[i..][0] == items[i] && items[i..][1..] == items[i + 1..];
  }

  /** Objects stored by name only (the Performance loader keeps no id maps). */
  function AddNamed(config: seq<Field>, items: seq<Value>): (r: Option<seq<Field>>)
    ensures r.Some? <==> forall i :: 0 <= i < |items| ==> StrAt(items[i], "name").Some?
    decreases |items|
  {
    if items == [] then Some(config)
    else match StrAt(items[0], "name")
      case None => None
      case Some(n) =>
        assert forall i :: 0 < i < |items| ==> items[i] == items[1..][i - 1];
        AddNamed(Assign(config, n, items[0]), items[1..])
  }

  /** One step of a loader. */
  datatype Block =
    | RefBlock(r: Ref)            // an inventory into its ID<->name maps
    | LabelBlock                  // the two pseudo labels, then the WAN interface labels
    | StackBlock(d: Domain)       // live stacks: maps and objects
    | SetBlock(d: Domain)         // live sets: maps and objects, then each set's rules
    | PerfBlock(l: Level)         // live performance sets or stacks, by name only
    | ThresholdBlock              // threshold profiles, name -> id

  /** The field an inventory is keyed by: apps by display name, labels by label. */
  function IdKey(r: Ref): string {
    if r == WanLabels then "label" else "id"
  }

  function NameKey(r: Ref): string {
    if r == AppDefs then "display_name" else "name"
  }

  /** The pseudo labels every label table starts with. */
  function SeedLabels(ix: Index): (r: Index)
    ensures "public-*" in r.idName && r.idName["public-*"] == "Any Public"
    ensures "private-*" in r.idName && r.idName["private-*"] == "Any Private"
    ensures "Any Public" in r.nameId && r.nameId["Any Public"] == "public-*"
    ensures "Any Private" in r.nameId && r.nameId["Any Private"] == "private-*"
    ensures forall i | i in ix.idName && i != "public-*" && i != "private-*" :: i in r.idName && r.idName[i] == ix.idName[i]
    ensures forall n | n in ix.nameId && n != "Any Public" && n != "Any Private" :: n in r.nameId && r.nameId[n] == ix.nameId[n]
  {
    AddPair(AddPair(ix, "public-*", "Any Public"), "private-*", "Any Private")
  }

  /** A read that fails is reported and skipped; an item without its keys crashes the loader. */
  function LoadBlock(e: Env, s: Store, t: Tables, b: Block): (o: Option<Tables>)
    ensures b.RefBlock? && b.r !in e.refs ==> o == Some(t)
    ensures b.RefBlock? && b.r in e.refs ==>
              (o.Some? <==> forall i | 0 <= i < |e.refs[b.r]| :: RowOf(e.refs[b.r][i], IdKey(b.r), NameKey(b.r)).Some?)
    ensures b.StackBlock? && !ListAt(e, s, b.d, Stacks, "").0 ==> o == Some(t)
    ensures b.SetBlock? && !ListAt(e, s, b.d, Sets, "").0 ==> o == Some(t)
    ensures b.PerfBlock? && !ListAt(e, s, Performance, b.l, "").0 ==> o == Some(t)
    ensures o.Some? && (b.RefBlock? || b.LabelBlock?) ==>
              o.value.stacks == t.stacks && o.value.sets == t.sets && o.value.rules == t.rules && o.value.thresholds == t.thresholds
    ensures o.Some? && b.RefBlock? ==> forall q | q != b.r :: RefIx(o.value, q) == RefIx(t, q)
    ensures o.Some? && b.LabelBlock? ==> forall q | q != WanLabels :: RefIx(o.value, q) == RefIx(t, q)
    ensures o.Some? && b.StackBlock? ==>
              o.value.refs == t.refs && o.value.sets == t.sets && o.value.rules == t.rules && o.value.thresholds == t.thresholds &&
              forall d | d != b.d :: StacksOf(o.value, d) == StacksOf(t, d)
    ensures o.Some? && b.SetBlock? ==>
              o.value.refs == t.refs && o.value.stacks == t.stacks && o.value.thresholds == t.thresholds &&
              forall d | d != b.d :: SetsOf(o.value, d) == SetsOf(t, d) && RulesOf(o.value, d) == RulesOf(t, d)
    ensures o.Some? && b.PerfBlock? ==>
              o.value.refs == t.refs && o.value.rules == t.rules && o.value.thresholds == t.thresholds &&
              StacksOf(o.value, Performance).ix == StacksOf(t, Performance).ix && SetsOf(o.value, Performance).ix == SetsOf(t, Performance).ix
    ensures o.Some? && b.ThresholdBlock? ==>
              o.value.refs == t.refs && o.value.stacks == t.stacks && o.value.sets == t.sets && o.value.rules == t.rules
  {
    match b
    case RefBlock(r) =>
      if r !in e.refs then Some(t)
      else (match AddRows(RefIx(t, r), e.refs[r], IdKey(r), NameKey(r))
        case None => None
        case Some(ix) => Some(t.(refs := t.refs[r := ix])))
    case LabelBlock =>
      var seeded := SeedLabels(RefIx(t, WanLabels));
      if WanLabels !in e.refs then Some(t.(refs := t.refs[WanLabels := seeded]))
      else (match AddRows(seeded, e.refs[WanLabels], "label", "name")
        case None => None
        case Some(ix) => Some(t.(refs := t.refs[WanLabels := ix])))
    case StackBlock(d) =>
      var (got, items) := ListAt(e, s, d, Stacks, "");
      if !got then Some(t)
      else (match AddLive(StacksOf(t, d), items)
        case None => None
        case Some(lv) => Some(t.(stacks := t.stacks[d := lv])))
    case SetBlock(d) =>
      var (got, items) := ListAt(e, s, d, Sets, "");
      if !got then Some(t)
      else (match AddSets(e, s, d, SetsOf(t, d), RulesOf(t, d), items)
        case None => None
        case Some((lv, ri)) => Some(t.(sets := t.sets[d := lv], rules := t.rules[d := ri])))
    case PerfBlock(l) =>
      var (got, items) := ListAt(e, s, Performance, l, "");
      var old_ := if l == Stacks then StacksOf(t, Performance) else SetsOf(t, Performance);
      if !got then Some(t)
      else (match AddNamed(old_.config, items)
        case None => None
        case Some(c) =>
          if l == Stacks then Some(t.(stacks := t.stacks[Performance := old_.(config := c)]))
          else Some(t.(sets := t.sets[Performance := old_.(config := c)])))
    case ThresholdBlock =>
      if ThresholdProfiles !in e.refs then Some(t)
      else (match AddRows(Index(map[], t.thresholds), e.refs[ThresholdProfiles], "id", "name")
        case None => None
        case Some(ix) => Some(t.(thresholds := ix.nameId)))
  }

  /** The blocks in order, stopping at the first that crashes. */
  function LoadPlan(e: Env, s: Store, t: Tables, plan: seq<Block>): (o: Option<Tables>)
    ensures plan != [] && LoadBlock(e, s, t, plan[0]).None? ==> o.None?
    decreases |plan|
  {
    if plan == [] then Some(t)
    else match LoadBlock(e, s, t, plan[0])
      case None => None
      case Some(t') => LoadPlan(e, s, t', plan[1..])
  }

  /** A loader changes the thresholds only through a threshold block, and a reference table only through its own block. */
  lemma {:induction false} LoadPlanFrames(e: Env, s: Store, t: Tables, plan: seq<Block>)
    requires LoadPlan(e, s, t, plan).Some?
    ensures (forall i | 0 <= i < |plan| :: !plan[i].ThresholdBlock?) ==> LoadPlan(e, s, t, plan).value.thresholds == t.thresholds
    ensures forall q | (forall i | 0 <= i < |plan| :: plan[i] != RefBlock(q) && !(q == WanLabels && plan[i].LabelBlock?)) ::
              RefIx(LoadPlan(e, s, t, plan).value, q) == RefIx(t, q)
    decreases |plan|
  {
    if plan != [] {
      var t' := LoadBlock(e, s, t, plan[0]).value;
      assert forall i | 1 <= i < |plan| :: plan[i] == plan[1..][i - 1];
      LoadPlanFrames(e, s, t', plan[1..]);
    }
  }

  /** The `-PT` values the pusher accepts. */
  datatype Mode = PathMode | QosMode | NatMode | SecurityMode | PerformanceMode | AllMode

  /** Which loader each policy type runs, block by block. */
  function Plan(m: Mode): seq<Block> {
    match m
    case PathMode =>
      [RefBlock(AppDefs), RefBlock(NetworkContexts), RefBlock(NwGlobalPrefixes), RefBlock(NwLocalPrefixes),
       LabelBlock, StackBlock(Path), SetBlock(Path), RefBlock(ServiceLabels)]
    case QosMode =>
      [RefBlock(AppDefs), RefBlock(NetworkContexts), RefBlock(QosGlobalPrefixes), RefBlock(QosLocalPrefixes),
       StackBlock(Qos), SetBlock(Qos)]
    case NatMode =>
      [RefBlock(NatZones), RefBlock(NatPools), RefBlock(NatGlobalPrefixes), RefBlock(NatLocalPrefixes),
       StackBlock(Nat), SetBlock(Nat)]
    case SecurityMode =>
      [RefBlock(AppDefs), RefBlock(NgfwGlobalPrefixes), RefBlock(NgfwLocalPrefixes),
       StackBlock(Security), SetBlock(Security), RefBlock(SecurityZones)]
    case PerformanceMode =>
      [PerfBlock(Sets), PerfBlock(Stacks), ThresholdBlock]
    case AllMode =>
      [RefBlock(AppDefs), RefBlock(NetworkContexts), RefBlock(NwGlobalPrefixes), RefBlock(NwLocalPrefixes),
       LabelBlock, StackBlock(Path), SetBlock(Path), RefBlock(ServiceLabels),
       RefBlock(QosGlobalPrefixes), RefBlock(QosLocalPrefixes), StackBlock(Qos), SetBlock(Qos),
       RefBlock(NatZones), RefBlock(NatPools), RefBlock(NatGlobalPrefixes), RefBlock(NatLocalPrefixes),
       StackBlock(Nat), SetBlock(Nat),
       RefBlock(NgfwGlobalPrefixes), RefBlock(NgfwLocalPrefixes), StackBlock(Security), SetBlock(Security),
       RefBlock(SecurityZones), ThresholdBlock]
  }

  /** A block that never writes the live performance stacks or sets. */
  predicate KeepsPerformance(b: Block) {
    !b.PerfBlock? && !(b.StackBlock? && b.d == Performance) && !(b.SetBlock? && b.d == Performance)
  }

  lemma LoadBlockKeepsPerformance(e: Env, s: Store, t: Tables, b: Block)
    requires KeepsPerformance(b)
    requires LoadBlock(e, s, t, b).Some?
    ensures StacksOf(LoadBlock(e, s, t, b).value, Performance) == StacksOf(t, Performance)
    ensures SetsOf(LoadBlock(e, s, t, b).value, Performance) == SetsOf(t, Performance)
  {
    var t' := LoadBlock(e, s, t, b).value;
    match b
    case RefBlock(r) =>
      assert t'.stacks == t.stacks && t'.sets == t.sets;
    case LabelBlock =>
      assert t'.stacks == t.stacks && t'.sets == t.sets;
    case StackBlock(d) =>
      assert d != Performance && t'.sets == t.sets;
      assert Performance in t'.stacks <==> Performance in t.stacks;
      assert Performance in t.stacks ==> t'.stacks[Performance] == t.stacks[Performance];
    case SetBlock(d) =>
      assert d != Performance && t'.stacks == t.stacks;
      assert Performance in t'.sets <==> Performance in t.sets;
      assert Performance in t.sets ==> t'.sets[Performance] == t.sets[Performance];
    case ThresholdBlock =>
      assert t'.stacks == t.stacks && t'.sets == t.sets;
  }

  lemma {:induction false} LoadPlanKeepsPerformance(e: Env, s: Store, t: Tables, plan: seq<Block>)
    requires forall i :: 0 <= i < |plan| ==> KeepsPerformance(plan[i])
    requires LoadPlan(e, s, t, plan).Some?
    ensures StacksOf(LoadPlan(e, s, t, plan).value, Performance) == StacksOf(t, Performance)
    ensures SetsOf(LoadPlan(e, s, t, plan).value, Performance) == SetsOf(t, Performance)
    decreases |plan|
  {
    if plan != [] {
      LoadBlockKeepsPerformance(e, s, t, plan[0]);
      var t' := LoadBlock(e, s, t, plan[0]).value;
      assert forall i :: 0 <= i < |plan[1..]| ==> plan[1..][i] == plan[i + 1];
      LoadPlanKeepsPerformance(e, s, t', plan[1..]);
    }
  }

  /**
   * With `-PT all` the live Performance sets and stacks are never read: whatever
   * the controller holds, the loaded catalog knows no performance set or stack.
   */
  lemma AllModeKnowsNoPerformance(e: Env, s: Store)
    requires LoadPlan(e, s, EmptyTables, Plan(AllMode)).Some?
    ensures SetsOf(LoadPlan(e, s, EmptyTables, Plan(AllMode)).value, Performance).config == []
    ensures StacksOf(LoadPlan(e, s, EmptyTables, Plan(AllMode)).value, Performance).config == []
  {
    AllPlanKeepsPerformance();
    LoadPlanKeepsPerformance(e, s, EmptyTables, Plan(AllMode));
  }

  /** No block of the `-PT all` loader reads the live performance sets or stacks. */
  lemma AllPlanKeepsPerformance()
    ensures forall i :: 0 <= i < |Plan(AllMode)| ==> KeepsPerformance(Plan(AllMode)[i])
    ensures !(PerfBlock(Sets) in Plan(AllMode)) && !(PerfBlock(Stacks) in Plan(AllMode))
  {
  }

  /**
   * The label table starts with "Any Public" <-> "public-*" and "Any Private" <->
   * "private-*"; a live label only displaces them by reusing one of those.
   */
  lemma LabelsSeeded(e: Env, s: Store, t: Tables, n: string)
    requires n == "Any Public" || n == "Any Private"
    requires LoadBlock(e, s, t, LabelBlock).Some?
    requires WanLabels in e.refs ==> !NameSeen(e.refs[WanLabels], n, "label", "name")
    ensures var ix := RefIx(LoadBlock(e, s, t, LabelBlock).value, WanLabels);
            n in ix.nameId && ix.nameId[n] == (if n == "Any Public" then "public-*" else "private-*")
  {
    var seeded := SeedLabels(RefIx(t, WanLabels));
    if WanLabels in e.refs {
      AddRowsNameId(seeded, e.refs[WanLabels], "label", "name", n);
      LastIdSeen(e.refs[WanLabels], n, "label", "name");
    }
  }

  /** The global dicts of the push engine. */
  class Catalog {
    var t: Tables

    constructor ()
      ensures t == EmptyTables
    {
      t := EmptyTables;
    }

    /** One inventory's loop: `id_name[item[idKey]] = item[nameKey]; name_id[...] = ...`. */
    method FillIndex(ix0: Index, items: seq<Value>, idKey: string, nameKey: string) returns (ok: bool, ix: Index)
      ensures ok == AddRows(ix0, items, idKey, nameKey).Some?
      ensures ok ==> ix == AddRows(ix0, items, idKey, nameKey).value
    {
      ix := ix0;
      var i := 0;
      while i < |items|
        invariant 0 <= i <= |items|
        invariant AddRows(ix, items[i..], idKey, nameKey) == AddRows(ix0, items, idKey, nameKey)
      {
        var row := RowOf(items[i], idKey, nameKey);
        if row.None? {
          return false, ix;
        }
        assert items[i..][1..] == items[i + 1..];
        ix := AddPair(ix, row.value.0, row.value.1);
        i := i + 1;
      }
      return true, ix;
    }

    /** The loop over live stacks (or sets without their rules). */
    method FillLive(lv0: Live, items: seq<Value>) returns (ok: bool, lv: Live)
      ensures ok == AddLive(lv0, items).Some?
      ensures ok ==> lv == AddLive(lv0, items).value
    {
      lv := lv0;
      var i := 0;
      while i < |items|
        invariant 0 <= i <= |items|
        invariant AddLive(lv, items[i..]) == AddLive(lv0, items)
      {
        var row := RowOf(items[i], "id", "name");
        if row.None? {
          return false, lv;
        }
        assert items[i..][1..] == items[i + 1..];
        lv := Live(AddPair(lv.ix, row.value.0, row.value.1), Assign(lv.config, row.value.1, items[i]));
        i := i + 1;
      }
      return true, lv;
    }

    /** The loop over one set's rules. */
    method FillRules(ri0: RuleIndex, setId: string, rules: seq<Value>) returns (ok: bool, ri: RuleIndex)
      ensures ok == AddRules(ri0, setId, rules).Some?
      ensures ok ==> ri == AddRules(ri0, setId, rules).value
    {
      ri := ri0;
      var i := 0;
      while i < |rules|
        invariant 0 <= i <= |rules|
        invariant AddRules(ri, setId, rules[i..]) == AddRules(ri0, setId, rules)
      {
        var row := RowOf(rules[i], "id", "name");
        if row.None? {
          return false, ri;
        }
        assert rules[i..][1..] == rules[i + 1..];
        ri := RuleIndex(ri.idName[(setId, row.value.0) := row.value.1], ri.nameId[(setId, row.value.1) := row.value.0],
                        ri.config[(setId, row.value.1) := rules[i]]);
        i := i + 1;
      }
      return true, ri;
    }

    /** The loop over live sets, reading each set's rules as it goes. */
    method FillSets(ctrl: Controller, d: Domain, lv0: Live, ri0: RuleIndex, items: seq<Value>)
      returns (ok: bool, lv: Live, ri: RuleIndex)
      ensures ok == AddSets(ctrl.env, ctrl.State(), d, lv0, ri0, items).Some?
      ensures ok ==> (lv, ri) == AddSets(ctrl.env, ctrl.State(), d, lv0, ri0, items).value
    {
      lv, ri := lv0, ri0;
      var i := 0;
      while i < |items|
        invariant 0 <= i <= |items|
        invariant AddSets(ctrl.env, ctrl.State(), d, lv, ri, items[i..]) == AddSets(ctrl.env, ctrl.State(), d, lv0, ri0, items)
      {
        AddSetsStep(ctrl.env, ctrl.State(), d, lv, ri, items, i);
        var row := RowOf(items[i], "id", "name");
        if row.None? {
          return false, lv, ri;
        }
        lv := Live(AddPair(lv.ix, row.value.0, row.value.1), Assign(lv.config, row.value.1, items[i]));
        var got, rules := ctrl.List(d, Rules, row.value.0);
        if !got {
          return false, lv, ri;
        }
        var rulesOk;
        rulesOk, ri := FillRules(ri, row.value.0, rules);
        if !rulesOk {
          return false, lv, ri;
        }
        i := i + 1;
      }
      return true, lv, ri;
    }

    /** The loop over performance objects, stored by name. */
    method FillNamed(config0: seq<Field>, items: seq<Value>) returns (ok: bool, config: seq<Field>)
      ensures ok == AddNamed(config0, items).Some?
      ensures ok ==> config == AddNamed(config0, items).value
    {
      config := config0;
      var i := 0;
      while i < |items|
        invariant 0 <= i <= |items|
        invariant AddNamed(config, items[i..]) == AddNamed(config0, items)
      {
        var n := StrAt(items[i], "name");
        if n.None? {
          return false, config;
        }
        assert items[i..][1..] == items[i + 1..];
        config := Assign(config, n.value, items[i]);
        i := i + 1;
      }
      return true, config;
    }

    method LoadOne(ctrl: Controller, b: Block) returns (ok: bool)
      modifies this
      ensures ok == LoadBlock(ctrl.env, ctrl.State(), old(t), b).Some?
      ensures ok ==> t == LoadBlock(ctrl.env, ctrl.State(), old(t), b).value
    {
      match b
      case RefBlock(r) =>
        var got, items := ctrl.GetRefs(r);
        if !got {
          return true;
        }
        var ix;
        ok, ix := FillIndex(RefIx(t, r), items, IdKey(r), NameKey(r));
        if ok {
          t := t.(refs := t.refs[r := ix]);
        }
      case LabelBlock =>
        var seeded := SeedLabels(RefIx(t, WanLabels));
        var got, items := ctrl.GetRefs(WanLabels);
        if !got {
          t := t.(refs := t.refs[WanLabels := seeded]);
          return true;
        }
        var ix;
        ok, ix := FillIndex(seeded, items, "label", "name");
        if ok {
          t := t.(refs := t.refs[WanLabels := ix]);
        }
      case StackBlock(d) =>
        var got, items := ctrl.List(d, Stacks, "");
        if !got {
          return true;
        }
        var lv;
        ok, lv := FillLive(StacksOf(t, d), items);
        if ok {
          t := t.(stacks := t.stacks[d := lv]);
        }
      case SetBlock(d) =>
        var got, items := ctrl.List(d, Sets, "");
        if !got {
          return true;
        }
        var lv, ri;
        ok, lv, ri := FillSets(ctrl, d, SetsOf(t, d), RulesOf(t, d), items);
        if ok {
          t := t.(sets := t.sets[d := lv], rules := t.rules[d := ri]);
        }
      case PerfBlock(l) =>
        var got, items := ctrl.List(Performance, l, "");
        if !got {
          return true;
        }
        var old_ := if l == Stacks then StacksOf(t, Performance) else SetsOf(t, Performance);
        var c;
        ok, c := FillNamed(old_.config, items);
        if ok {
          if l == Stacks {
            t := t.(stacks := t.stacks[Performance := old_.(config := c)]);
          } else {
            t := t.(sets := t.sets[Performance := old_.(config := c)]);
          }
        }
      case ThresholdBlock =>
        var got, items := ctrl.GetRefs(ThresholdProfiles);
        if !got {
          return true;
        }
        var ix;
        ok, ix := FillIndex(Index(map[], t.thresholds), items, "id", "name");
        if ok {
          t := t.(thresholds := ix.nameId);
        }
    }

    /** A loader: every block in order, stopping at the first crash. */
    method Load(ctrl: Controller, plan: seq<Block>) returns (ok: bool)
      modifies this
      ensures ok == LoadPlan(ctrl.env, ctrl.State(), old(t), plan).Some?
      ensures ok ==> t == LoadPlan(ctrl.env, ctrl.State(), old(t), plan).value
    {
      var i := 0;
      while i < |plan|
        invariant 0 <= i <= |plan|
        invariant LoadPlan(ctrl.env, ctrl.State(), t, plan[i..]) == LoadPlan(ctrl.env, ctrl.State(), old(t), plan)
      {
        assert plan[i..][1..] == plan[i + 1..];
        ok := LoadOne(ctrl, plan[i]);
        if !ok {
          return false;
        }
        i := i + 1;
      }
      return true;
    }

    /** A set created during the push: `<domain>policyset_id_name[id] = name` and the reverse. */
    method RecordSet(d: Domain, id: string, name: string)
      modifies this
      ensures t == old(t).(sets := old(t).sets[d := SetsOf(old(t), d).(ix := AddPair(SetsOf(old(t), d).ix, id, name))])
    {
      var lv := SetsOf(t, d);
      t := t.(sets := t.sets[d := lv.(ix := AddPair(lv.ix, id, name))]);
    }
  }
}
