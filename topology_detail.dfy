/**
 * The name, link and file-name helpers of the per-site topology report
 * (scm_sdwan_topology-detail_byname_plus2.py): site lookup by name, the
 * precedence rule that merges the three VPN-link documents, node labels,
 * the anynet path IDs of a topology, and the file name derived from a
 * site name.
 */
module TopologyDetail {
  import opened Wrappers
  import opened Json
  import Text
  import Scan
  import Inventory

  // ---- site_name_to_id ----

  /** `(s.get("name") or "").strip().lower()` */
  function Folded(s: Value): string {
    Text.Fold(Inventory.NameText(s, "name"))
  }

  predicate ExactName(s: Value, q: string) {
    Folded(s) == q
  }

  predicate PrefixName(s: Value, q: string) {
    Text.StartsWith(Folded(s), q)
  }

  /** `str(s.get("id"))` */
  function IdText(s: Value): string {
    PyStr(At(s, "id"))
  }

  /** The first loop of `site_name_to_id` stops at a site whose name cannot be read (it raises there) or equals the query. */
  predicate ExactStop(s: Value, q: string) {
    !Inventory.Readable(s, "name") || ExactName(s, q)
  }

  /**
   * `site_name_to_id` over the (normalised) site list: the first site whose
   * folded name equals the folded query; failing that, the first whose
   * folded name starts with it; failing both, `None`. The first loop reads
   * every name up to an exact match, so a site before it that is not a
   * dict, or whose name is truthy but not a string, raises AttributeError.
   */
  function SiteNameToId(sites: seq<Value>, name: string): (r: Result<Option<string>>)
    ensures r.Raise? ==> r.error == "AttributeError"
    ensures forall i | 0 <= i < |sites| && ExactStop(sites[i], Text.Fold(name)) &&
                       (forall j | 0 <= j < i :: !ExactStop(sites[j], Text.Fold(name))) ::
              r == if Inventory.Readable(sites[i], "name") then Ok(Some(IdText(sites[i]))) else Raise("AttributeError")
    ensures (forall j | 0 <= j < |sites| :: !ExactStop(sites[j], Text.Fold(name))) ==>
              forall i | 0 <= i < |sites| && PrefixName(sites[i], Text.Fold(name)) &&
                         (forall j | 0 <= j < i :: !PrefixName(sites[j], Text.Fold(name))) ::
                r == Ok(Some(IdText(sites[i])))
    ensures r == Ok(None) ==> forall i | 0 <= i < |sites| :: Inventory.Readable(sites[i], "name") && !PrefixName(sites[i], Text.Fold(name))
  {
    var q := Text.Fold(name);
    var exact := s => ExactStop(s, q);
    var prefix := s => PrefixName(s, q);
    match Scan.FirstIndex(sites, exact)
    case Some(i) =>
      Scan.FirstIndexUnique(sites, exact, i);
      if Inventory.Readable(sites[i], "name") then Ok(Some(IdText(sites[i]))) else Raise("AttributeError")
    case None =>
      match Scan.FirstIndex(sites, prefix)
      case Some(i) =>
        Scan.FirstIndexUnique(sites, prefix, i);
        Ok(Some(IdText(sites[i])))
      case None => Ok(None)
  }

  lemma ExactIsPrefix(s: Value, q: string)
    requires ExactName(s, q)
    ensures PrefixName(s, q)
  {
    assert Folded(s)[..|q|] == q;
  }

  /**
   * A name is unresolved exactly when every site's name is readable and no
   * site's folded name starts with the query (an exact match is also a
   * prefix match).
   */
  lemma UnresolvedIffNoPrefix(sites: seq<Value>, name: string)
    ensures SiteNameToId(sites, name) == Ok(None) <==>
              forall i | 0 <= i < |sites| :: Inventory.Readable(sites[i], "name") && !PrefixName(sites[i], Text.Fold(name))
  {
    var q := Text.Fold(name);
    if forall i | 0 <= i < |sites| :: Inventory.Readable(sites[i], "name") && !PrefixName(sites[i], q) {
      forall i | 0 <= i < |sites|
        ensures !ExactStop(sites[i], q)
      {
        if ExactName(sites[i], q) {
          ExactIsPrefix(sites[i], q);
        }
      }
      var exact := s => ExactStop(s, q);
      var prefix := s => PrefixName(s, q);
      assert Scan.FirstIndex(sites, exact).None?;
      assert Scan.FirstIndex(sites, prefix).None?;
    }
  }

  // ---- merge_vpnlink_meta ----

  /** `k in d and d.get(k) is not None` */
  predicate Present(d: Value, k: string) {
    Get(d, k).Some? && Get(d, k).value != Null
  }

  /** `pick(k)`: the value under `k` in the first document that has a non-None one; None (`Null`) if none has. */
  function Pick(ds: seq<Value>, k: string): (r: Value)
    ensures forall i | 0 <= i < |ds| && Present(ds[i], k) && (forall j | 0 <= j < i :: !Present(ds[j], k)) ::
              r == At(ds[i], k)
    ensures r == Null <==> forall i | 0 <= i < |ds| :: !Present(ds[i], k)
  {
    var has := d => Present(d, k);
    match Scan.FirstIndex(ds, has)
    case Some(i) =>
      Scan.FirstIndexUnique(ds, has, i);
      At(ds[i], k)
    case None => Null
  }

  /** A value shown as is when truthy, as `n/a` otherwise (`x or "n/a"`). */
  function OrNa(v: Value): (r: Value)
    ensures Truthy(v) ==> r == v
    ensures !Truthy(v) ==> r == Str("n/a")
  {
    if Truthy(v) then v else Str("n/a")
  }

  /** A value shown as is unless it is None (`x if x is not None else "n/a"`). */
  function UnlessNone(v: Value): (r: Value)
    ensures v != Null ==> r == v
    ensures v == Null ==> r == Str("n/a")
  {
    if v != Null then v else Str("n/a")
  }

  const FlagKeys: seq<string> := ["active", "usable", "link_up"]

  function Rendered(k: string, b: bool): string {
    k + "=" + (if b then "yes" else "no")
  }

  /** The flag list: one `k=yes|no` per key whose picked value is a boolean, in key order. */
  function Flags(ds: seq<Value>, keys: seq<string>): (r: seq<string>)
    ensures |r| <= |keys|
    ensures forall f | f in r :: exists k | k in keys :: Pick(ds, k).Bool? && f == Rendered(k, Pick(ds, k).b)
    ensures forall k | k in keys && Pick(ds, k).Bool? :: Rendered(k, Pick(ds, k).b) in r
  {
    if keys == [] then []
    else
      var v := Pick(ds, keys[0]);
      (if v.Bool? then [Rendered(keys[0], v.b)] else []) + Flags(ds, keys[1..])
  }

  datatype LinkMeta = LinkMeta(
    common: Value, ep1Cipher: Value, ep2Cipher: Value,
    ep1Interval: Value, ep1Failures: Value, ep2Interval: Value, ep2Failures: Value,
    flags: seq<string>, ep1Site: string, ep2Site: string)

  /** `pick(k) or ""` as text. */
  function TextOr(v: Value): string {
    if Truthy(v) then PyStr(v) else ""
  }

  /**
   * `merge_vpnlink_meta(st, state, info)`: each field from the first of the
   * three documents holding a non-None value; ciphers fall back to `n/a`
   * when falsy, keep-alive counters only when None.
   */
  function MergeVpnlinkMeta(st: Value, state: Value, info: Value): (r: LinkMeta)
    ensures r.common == OrNa(Pick([st, state, info], "common_cipher"))
    ensures r.ep1Cipher == OrNa(Pick([st, state, info], "ep1_cipher"))
    ensures r.ep2Cipher == OrNa(Pick([st, state, info], "ep2_cipher"))
    ensures r.ep1Interval == UnlessNone(Pick([st, state, info], "ep1_keep_alive_interval"))
    ensures r.ep1Failures == UnlessNone(Pick([st, state, info], "ep1_keep_alive_failure_count"))
    ensures r.ep2Interval == UnlessNone(Pick([st, state, info], "ep2_keep_alive_interval"))
    ensures r.ep2Failures == UnlessNone(Pick([st, state, info], "ep2_keep_alive_failure_count"))
    ensures r.flags == Flags([st, state, info], FlagKeys)
    ensures Truthy(Pick([st, state, info], "ep1_site_id")) ==> r.ep1Site == PyStr(Pick([st, state, info], "ep1_site_id"))
    ensures !Truthy(Pick([st, state, info], "ep1_site_id")) ==> r.ep1Site == ""
    ensures Truthy(Pick([st, state, info], "ep2_site_id")) ==> r.ep2Site == PyStr(Pick([st, state, info], "ep2_site_id"))
    ensures !Truthy(Pick([st, state, info], "ep2_site_id")) ==> r.ep2Site == ""
  {
    var ds := [st, state, info];
    var flags := Flags(ds, FlagKeys);
    LinkMeta(
      OrNa(Pick(ds, "common_cipher")), OrNa(Pick(ds, "ep1_cipher")), OrNa(Pick(ds, "ep2_cipher")),
      UnlessNone(Pick(ds, "ep1_keep_alive_interval")), UnlessNone(Pick(ds, "ep1_keep_alive_failure_count")),
      UnlessNone(Pick(ds, "ep2_keep_alive_interval")), UnlessNone(Pick(ds, "ep2_keep_alive_failure_count")),
      flags, TextOr(Pick(ds, "ep1_site_id")), TextOr(Pick(ds, "ep2_site_id")))
  }

  /**
   * The status document wins over state and info: a keep-alive interval it
   * holds is kept even when zero, while a falsy picked cipher is shown as
   * `n/a`.
   */
  lemma StatusWinsZeroKept(st: Value, state: Value, info: Value)
    requires Present(st, "ep1_keep_alive_interval") && At(st, "ep1_keep_alive_interval") == Int(0)
    requires Pick([st, state, info], "common_cipher") == Str("")
    ensures MergeVpnlinkMeta(st, state, info).ep1Interval == Int(0)
    ensures MergeVpnlinkMeta(st, state, info).common == Str("n/a")
  {
    var ds := [st, state, info];
    assert ds[0] == st;
    assert Pick(ds, "ep1_keep_alive_interval") == Int(0);
  }

  // ---- _node_name ----

  /** `_node_name`: the node's name when truthy, else a fallback by node type. */
  function NodeName(n: Value): (r: string)
    ensures Truthy(At(n, "name")) ==> r == PyStr(At(n, "name"))
    ensures !Truthy(At(n, "name")) && At(n, "type") == Str("SERVICE_ENDPOINT") ==> r == "ServiceEndpoint"
    ensures !Truthy(At(n, "name")) && At(n, "type") == Str("INET_CLOUD") ==> r == "Internet"
    ensures !Truthy(At(n, "name")) && At(n, "type") != Str("SERVICE_ENDPOINT") && At(n, "type") != Str("INET_CLOUD") ==>
      r == PyStr(At(n, "id"))
  {
    var t := At(n, "type");
    var name := At(n, "name");
    if t == Str("SITE") then (if Truthy(name) then PyStr(name) else PyStr(At(n, "id")))
    else if t == Str("SERVICE_ENDPOINT") then (if Truthy(name) then PyStr(name) else "ServiceEndpoint")
    else if t == Str("INET_CLOUD") then (if Truthy(name) then PyStr(name) else "Internet")
    else if Truthy(name) then PyStr(name) else PyStr(At(n, "id"))
  }

  // ---- collect_anynet_path_ids ----

  predicate IsAnynetLink(l: Value) {
    At(l, "type") == Str("public-anynet") && Truthy(At(l, "path_id"))
  }

  function PathText(l: Value): string {
    PyStr(At(l, "path_id"))
  }

  /**
   * `topo.get("links", []) or []`, as the loop iterates it: a topology that
   * is not a dict raises AttributeError on `.get`, and truthy links that
   * cannot be iterated raise TypeError.
   */
  function LinksOf(topo: Value): (r: Result<seq<Value>>)
    ensures !topo.Obj? ==> r == Raise("AttributeError")
    ensures topo.Obj? && !Truthy(At(topo, "links")) ==> r == Ok([])
    ensures topo.Obj? && At(topo, "links").List? ==> r == Ok(At(topo, "links").items)
    ensures r.Raise? <==> !topo.Obj? || (Truthy(At(topo, "links")) && Iterate(At(topo, "links")).None?)
    ensures r.Raise? && topo.Obj? ==> r.error == "TypeError"
  {
    if !topo.Obj? then Raise("AttributeError")
    else
      var ls := At(topo, "links");
      if !Truthy(ls) then Ok([])
      else match Iterate(ls)
        case None => Raise("TypeError")
        case Some(items) => Ok(items)
  }

  /** The loop's result over a list of links, link by link; a link that is not a dict raises AttributeError. */
  function AnynetIds(links: seq<Value>): (r: Result<seq<string>>)
    ensures r.Raise? ==> r.error == "AttributeError"
    decreases |links|
  {
    if links == [] then Ok([])
    else
      var last := links[|links| - 1];
      match AnynetIds(links[..|links| - 1])
      case Raise(e) => Raise(e)
      case Ok(ids) =>
        if !last.Obj? then Raise("AttributeError")
        else Ok(ids + if IsAnynetLink(last) then [PathText(last)] else [])
  }

  function PathTexts(ls: seq<Value>): (r: seq<string>)
    ensures |r| == |ls| && forall i | 0 <= i < |ls| :: r[i] == PathText(ls[i])
  {
    seq(|ls|, i requires 0 <= i < |ls| => PathText(ls[i]))
  }

  /**
   * The IDs are, in link order, the stringified `path_id` of exactly the
   * public-anynet links with a truthy `path_id`; the scan fails iff some
   * link is not a dict.
   */
  lemma {:induction false} AnynetIdsAre(links: seq<Value>)
    ensures AnynetIds(links).Ok? <==> forall i | 0 <= i < |links| :: links[i].Obj?
    ensures AnynetIds(links).Ok? ==> AnynetIds(links).value == PathTexts(Scan.Filter(links, IsAnynetLink))
    decreases |links|
  {
    if links != [] {
      var front := links[..|links| - 1];
      AnynetIdsAre(front);
      assert forall i | 0 <= i < |front| :: front[i] == links[i];
    }
  }

  lemma AnynetStep(links: seq<Value>, i: nat)
    requires i < |links|
    ensures AnynetIds(links[..i + 1]) ==
      match AnynetIds(links[..i])
      case Raise(e) => Raise(e)
      case Ok(ids) =>
        if !links[i].Obj? then Raise("AttributeError")
        else Ok(ids + if IsAnynetLink(links[i]) then [PathText(links[i])] else [])
  {
    assert links[..i + 1][..i] == links[..i];
  }

  /** `collect_anynet_path_ids`: the append loop over the topology's links. */
  method CollectAnynetPathIds(topo: Value) returns (r: Result<seq<string>>)
    ensures LinksOf(topo).Raise? ==> r == Raise(LinksOf(topo).error)
    ensures LinksOf(topo).Ok? ==> r == AnynetIds(LinksOf(topo).value)
  {
    var links := LinksOf(topo);
    if links.Raise? {
      return Raise(links.error);
    }
    var ls := links.value;
    var ids: seq<string> := [];
    var i := 0;
    while i < |ls|
      invariant 0 <= i <= |ls|
      invariant AnynetIds(ls[..i]) == Ok(ids)
    {
      AnynetStep(ls, i);
      var l := ls[i];
      if !l.Obj? {
        AnynetIdsAre(ls);
        return Raise("AttributeError");
      }
      var found := if IsAnynetLink(l) then [PathText(l)] else [];
      ids := ids + found;
      i := i + 1;
    }
    assert ls[..i] == ls;
    return Ok(ids);
  }

  // ---- sanitize_filename ----

  /** The characters `[A-Za-z0-9\-]` keeps. */
  predicate Allowed(c: char) {
    'A' <= c <= 'Z' || 'a' <= c <= 'z' || '0' <= c <= '9' || c == '-'
  }

  predicate FileChar(c: char) {
    Allowed(c) || c == '_'
  }

  predicate NoDoubleUnderscore(s: string) {
    forall i | 0 <= i < |s| - 1 :: !(s[i] == '_' && s[i + 1] == '_')
  }

  predicate FileChars(s: string) {
    forall i | 0 <= i < |s| :: FileChar(s[i])
  }

  /** Where a run of characters outside the class that starts at `i` ends: the next allowed character, or the end. */
  function OthersEnd(s: string, i: nat): (k: nat)
    requires i <= |s|
    ensures i <= k <= |s| && (k == |s| || Allowed(s[k]))
    ensures forall j | i <= j < k :: !Allowed(s[j])
    decreases |s| - i
  {
    if i < |s| && !Allowed(s[i]) then OthersEnd(s, i + 1) else i
  }

  /**
   * `re.sub(r'[^A-Za-z0-9\-]+', '_', s)` on the input from `i` on: every
   * maximal run outside the class becomes one `_`.
   */
  function ReplaceRuns(s: string, i: nat): (r: string)
    requires i <= |s|
    ensures FileChars(r)
    ensures r == [] <==> i == |s|
    ensures r != [] && r[0] == '_' ==> !Allowed(s[i])
    ensures r != [] && Allowed(s[i]) ==> r[0] == s[i]
    decreases |s| - i
  {
    if i == |s| then []
    else if Allowed(s[i]) then [s[i]] + ReplaceRuns(s, i + 1)
    else "_" + ReplaceRuns(s, OthersEnd(s, i + 1))
  }

  /** Where a run of `_` that starts at `i` ends: the next other character, or the end. */
  function UnderscoresEnd(s: string, i: nat): (k: nat)
    requires i <= |s|
    ensures i <= k <= |s| && (k == |s| || s[k] != '_')
    ensures forall j | i <= j < k :: s[j] == '_'
    decreases |s| - i
  {
    if i < |s| && s[i] == '_' then UnderscoresEnd(s, i + 1) else i
  }

  /** Where a run of `_` that ends just below `j` starts, looking no lower than `lo`. */
  function UnderscoresStart(s: string, lo: nat, j: nat): (k: nat)
    requires lo <= j <= |s|
    ensures lo <= k <= j && (k == lo || s[k - 1] != '_')
    ensures forall m | k <= m < j :: s[m] == '_'
    decreases j - lo
  {
    if j > lo && s[j - 1] == '_' then UnderscoresStart(s, lo, j - 1) else j
  }

  /** Any slice keeps the character class and the absence of `__`. */
  lemma SliceKeeps(s: string, i: nat, j: nat)
    requires i <= j <= |s|
    ensures FileChars(s) ==> FileChars(s[i..j])
    ensures NoDoubleUnderscore(s) ==> NoDoubleUnderscore(s[i..j])
  {
    assert forall k | 0 <= k < j - i :: s[i..j][k] == s[i + k];
  }

  /** Putting one character in front keeps both properties when it does not start a `__`. */
  lemma ConsKeeps(c: char, t: string)
    requires c == '_' ==> t == [] || t[0] != '_'
    ensures FileChar(c) && FileChars(t) ==> FileChars([c] + t)
    ensures NoDoubleUnderscore(t) ==> NoDoubleUnderscore([c] + t)
  {
    assert forall k | 0 <= k < |t| :: ([c] + t)[k + 1] == t[k];
  }

  /** `re.sub(r'_+', '_', s)` on the input from `i` on. */
  function CollapseUnderscores(s: string, i: nat): (r: string)
    requires i <= |s|
    ensures r == [] <==> i == |s|
    ensures r != [] ==> r[0] == s[i]
    ensures FileChars(s) ==> FileChars(r) && NoDoubleUnderscore(r)
    decreases |s| - i
  {
    if i == |s| then []
    else if s[i] == '_' then
      var r := CollapseUnderscores(s, UnderscoresEnd(s, i + 1));
      ConsKeeps('_', r);
      "_" + r
    else
      var r := CollapseUnderscores(s, i + 1);
      ConsKeeps(s[i], r);
      [s[i]] + r
  }

  /** `s.strip('_')`: the slice between the leading and the trailing run of `_`. */
  function StripUnderscores(s: string): (r: string)
    ensures r == [] || (r[0] != '_' && r[|r| - 1] != '_')
    ensures FileChars(s) ==> FileChars(r)
    ensures NoDoubleUnderscore(s) ==> NoDoubleUnderscore(r)
  {
    var lo := UnderscoresEnd(s, 0);
    var hi := UnderscoresStart(s, lo, |s|);
    SliceKeeps(s, lo, hi);
    s[lo..hi]
  }

  /** The stripped name after both substitutions and the `_` strip. */
  function Reduced(t: string): (r: string)
    ensures FileChars(r) && NoDoubleUnderscore(r)
    ensures r == [] || (r[0] != '_' && r[|r| - 1] != '_')
  {
    var u := ReplaceRuns(t, 0);
    StripUnderscores(CollapseUnderscores(u, 0))
  }

  /** The letters, digits and hyphens of `s`, in order. */
  function Kept(s: string): string {
    Scan.Filter(s, Allowed)
  }

  /** Skipping a run of characters outside the class keeps nothing from it. */
  lemma SkipOthers(s: string, i: nat, k: nat)
    requires i <= k <= |s|
    requires forall j | i <= j < k :: !Allowed(s[j])
    ensures Kept(s[i..]) == Kept(s[k..])
  {
    assert s[i..] == s[i..k] + s[k..];
    Scan.FilterAppend(s[i..k], s[k..], Allowed);
    Scan.FilterNone(s[i..k], Allowed);
  }

  /** One character in front of `t`: kept when it is in the class. */
  lemma KeptCons(c: char, t: string)
    ensures Kept([c] + t) == (if Allowed(c) then [c] else []) + Kept(t)
  {
    Scan.FilterAppend([c], t, Allowed);
    assert [c] == [] + [c];
  }

  /** Replacing the runs outside the class keeps every character in it, in order. */
  lemma {:induction false} ReplaceRunsKeeps(s: string, i: nat)
    requires i <= |s|
    ensures Kept(ReplaceRuns(s, i)) == Kept(s[i..])
    decreases |s| - i
  {
    if i < |s| {
      assert s[i..] == [s[i]] + s[i + 1..];
      KeptCons(s[i], s[i + 1..]);
      if Allowed(s[i]) {
        ReplaceRunsKeeps(s, i + 1);
        KeptCons(s[i], ReplaceRuns(s, i + 1));
      } else {
        var k := OthersEnd(s, i + 1);
        ReplaceRunsKeeps(s, k);
        KeptCons('_', ReplaceRuns(s, k));
        SkipOthers(s, i + 1, k);
      }
    }
  }

  /** Collapsing runs of `_` keeps every character of the class, in order. */
  lemma {:induction false} CollapseKeeps(s: string, i: nat)
    requires i <= |s|
    ensures Kept(CollapseUnderscores(s, i)) == Kept(s[i..])
    decreases |s| - i
  {
    if i < |s| {
      assert s[i..] == [s[i]] + s[i + 1..];
      KeptCons(s[i], s[i + 1..]);
      if s[i] == '_' {
        var k := UnderscoresEnd(s, i + 1);
        CollapseKeeps(s, k);
        KeptCons('_', CollapseUnderscores(s, k));
        SkipOthers(s, i + 1, k);
      } else {
        CollapseKeeps(s, i + 1);
        KeptCons(s[i], CollapseUnderscores(s, i + 1));
      }
    }
  }

  /** Stripping `_` from both ends keeps every character of the class, in order. */
  lemma StripKeeps(s: string)
    ensures Kept(StripUnderscores(s)) == Kept(s)
  {
    var lo := UnderscoresEnd(s, 0);
    var hi := UnderscoresStart(s, lo, |s|);
    var front, mid, back := s[..lo], s[lo..hi], s[hi..];
    assert s == front + mid + back;
    assert StripUnderscores(s) == mid;
    assert forall i | 0 <= i < |front| :: front[i] == s[i] == '_';
    assert forall i | 0 <= i < |back| :: back[i] == s[hi + i] == '_';
    Scan.FilterNone(front, Allowed);
    Scan.FilterNone(back, Allowed);
    calc {
      Kept(s);
      Scan.Filter(front + mid + back, Allowed);
      { Scan.FilterAppend(front + mid, back, Allowed); Scan.FilterAppend(front, mid, Allowed); }
      Scan.Filter(mid, Allowed);
    }
  }

  /** The reduction keeps every character of the class, in order. */
  lemma ReducedKeeps(t: string)
    ensures Kept(Reduced(t)) == Kept(t)
  {
    ReplaceRunsKeeps(t, 0);
    CollapseKeeps(ReplaceRuns(t, 0), 0);
    StripKeeps(CollapseUnderscores(ReplaceRuns(t, 0), 0));
    assert t[0..] == t && ReplaceRuns(t, 0)[0..] == ReplaceRuns(t, 0);
  }

  /** A reduced name that is not empty starts with a character of the class. */
  lemma ReducedNotEmpty(s: string)
    requires s != [] && FileChars(s) && s[0] != '_'
    ensures Kept(s) != []
  {
    KeptCons(s[0], s[1..]);
    assert s == [s[0]] + s[1..];
  }

  /**
   * `sanitize_filename`: the name, stripped, reduced to `[A-Za-z0-9_-]`, or
   * `site` when nothing is left. The letters, digits and hyphens of the
   * stripped name all survive, in order; only the other characters become
   * single `_` separators.
   */
  function SanitizeFilename(name: string): (r: string)
    ensures r != []
    ensures FileChars(r)
    ensures NoDoubleUnderscore(r)
    ensures r[0] != '_' && r[|r| - 1] != '_'
    ensures Kept(Text.Strip(name)) != [] ==> Kept(r) == Kept(Text.Strip(name))
    ensures Kept(Text.Strip(name)) == [] ==> r == "site"
  {
    var s := Reduced(Text.Strip(name));
    ReducedKeeps(Text.Strip(name));
    if s == [] then
      assert FileChars("site");
      "site"
    else
      ReducedNotEmpty(s);
      s
  }

  /** A run of characters all in the class passes through the replacement as it is. */
  lemma {:induction false} ReplaceRunsAllowed(s: string, i: nat)
    requires i <= |s| && forall j | i <= j < |s| :: Allowed(s[j])
    ensures ReplaceRuns(s, i) == s[i..]
    decreases |s| - i
  {
    if i < |s| {
      ReplaceRunsAllowed(s, i + 1);
      assert s[i..] == [s[i]] + s[i + 1..];
    }
  }

  /** A run without `_` passes through the collapse as it is. */
  lemma {:induction false} CollapseNoUnderscore(s: string, i: nat)
    requires i <= |s| && forall j | i <= j < |s| :: s[j] != '_'
    ensures CollapseUnderscores(s, i) == s[i..]
    decreases |s| - i
  {
    if i < |s| {
      CollapseNoUnderscore(s, i + 1);
      assert s[i..] == [s[i]] + s[i + 1..];
    }
  }

  /** A stripped name made only of letters, digits and hyphens is already a file name. */
  lemma SanitizeKeepsPlainName(name: string)
    requires Text.Strip(name) != [] && forall j | 0 <= j < |Text.Strip(name)| :: Allowed(Text.Strip(name)[j])
    ensures SanitizeFilename(name) == Text.Strip(name)
  {
    var t := Text.Strip(name);
    ReplaceRunsAllowed(t, 0);
    assert t[0..] == t;
    CollapseNoUnderscore(t, 0);
    assert UnderscoresEnd(t, 0) == 0;
    assert UnderscoresStart(t, 0, |t|) == |t|;
    assert t[0..|t|] == t;
  }
}
