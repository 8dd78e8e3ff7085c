/**
 * The service-endpoint updater: find an endpoint by exact name, read the
 * IP addresses and hostnames to add (one per line), and merge them into the
 * endpoint's `service_link_peers` before it is written back under its etag.
 */
module ServiceEndpoint {
  import opened Wrappers
  import opened Json
  import Text
  import Scan

  /** An endpoint whose `name` is exactly `name`. */
  predicate Named(ep: Value, name: string) {
    ep.Obj? && At(ep, "name") == Str(name)
  }

  /**
   * `find_endpoint_by_name`: the `id` of the first endpoint named exactly
   * `name` (None when it has none), None when no endpoint is; an entry that
   * is not a dict, reached before a match, raises.
   */
  function FindEndpointByName(endpoints: seq<Value>, name: string): (r: Result<Value>)
    ensures forall i | 0 <= i < |endpoints| && Named(endpoints[i], name) &&
                       (forall j | 0 <= j < i :: endpoints[j].Obj? && !Named(endpoints[j], name)) ::
              r == Ok(At(endpoints[i], "id"))
    ensures (forall i | 0 <= i < |endpoints| :: endpoints[i].Obj? && !Named(endpoints[i], name)) ==> r == Ok(Null)
    ensures r.Raise? <==> exists i | 0 <= i < |endpoints| :: !endpoints[i].Obj? &&
                            forall j | 0 <= j < i :: !Named(endpoints[j], name)
    decreases |endpoints|
  {
    if endpoints == [] then Ok(Null)
    else if !endpoints[0].Obj? then Raise("AttributeError")
    else if Named(endpoints[0], name) then Ok(At(endpoints[0], "id"))
    else
      var rest := endpoints[1..];
      var r := FindEndpointByName(rest, name);
      EndpointsShift(endpoints, name, r);
      r
  }

  /** The search past a first entry that is a dict of another name answers as the search of the rest. */
  lemma EndpointsShift(endpoints: seq<Value>, name: string, r: Result<Value>)
    requires endpoints != [] && endpoints[0].Obj? && !Named(endpoints[0], name)
    requires forall i | 0 <= i < |endpoints[1..]| && Named(endpoints[1..][i], name) &&
                        (forall j | 0 <= j < i :: endpoints[1..][j].Obj? && !Named(endpoints[1..][j], name)) ::
               r == Ok(At(endpoints[1..][i], "id"))
    requires (forall i | 0 <= i < |endpoints[1..]| :: endpoints[1..][i].Obj? && !Named(endpoints[1..][i], name)) ==> r == Ok(Null)
    requires r.Raise? <==> exists i | 0 <= i < |endpoints[1..]| :: !endpoints[1..][i].Obj? &&
                             forall j | 0 <= j < i :: !Named(endpoints[1..][j], name)
    ensures forall i | 0 <= i < |endpoints| && Named(endpoints[i], name) &&
                       (forall j | 0 <= j < i :: endpoints[j].Obj? && !Named(endpoints[j], name)) ::
              r == Ok(At(endpoints[i], "id"))
    ensures (forall i | 0 <= i < |endpoints| :: endpoints[i].Obj? && !Named(endpoints[i], name)) ==> r == Ok(Null)
    ensures r.Raise? <==> exists i | 0 <= i < |endpoints| :: !endpoints[i].Obj? &&
                            forall j | 0 <= j < i :: !Named(endpoints[j], name)
  {
    var rest := endpoints[1..];
    assert forall i | 1 <= i < |endpoints| :: endpoints[i] == rest[i - 1];
    forall i | 0 <= i < |endpoints| && Named(endpoints[i], name) &&
               (forall j | 0 <= j < i :: endpoints[j].Obj? && !Named(endpoints[j], name))
      ensures r == Ok(At(endpoints[i], "id"))
    {
      assert Named(rest[i - 1], name) && forall j | 0 <= j < i - 1 :: rest[j] == endpoints[j + 1];
    }
    if r.Raise? {
      var i :| 0 <= i < |rest| && !rest[i].Obj? && forall j | 0 <= j < i :: !Named(rest[j], name);
      assert !endpoints[i + 1].Obj? && forall j | 0 <= j < i + 1 :: !Named(endpoints[j], name);
    }
    if i :| 0 <= i < |endpoints| && !endpoints[i].Obj? && forall j | 0 <= j < i :: !Named(endpoints[j], name) {
      assert !rest[i - 1].Obj? && forall j | 0 <= j < i - 1 :: !Named(rest[j], name);
    }
  }

  /** `[line.strip() for line in f if line.strip()]` */
  function ReadLines(lines: seq<string>): (r: seq<string>)
    ensures |r| <= |lines|
    ensures forall i | 0 <= i < |r| :: r[i] != "" && !Text.IsSpace(r[i][0]) && !Text.IsSpace(r[i][|r[i]| - 1])
  {
    var st := Stripped(lines);
    var r := Scan.Filter(st, NonBlank);
    forall i | 0 <= i < |r|
      ensures r[i] != "" && !Text.IsSpace(r[i][0]) && !Text.IsSpace(r[i][|r[i]| - 1])
    {
      KeptLineStripped(lines, r[i]);
    }
    r
  }

  /** A line the filter keeps is one of the stripped lines, and not blank. */
  lemma KeptLineStripped(lines: seq<string>, x: string)
    requires x in Scan.Filter(Stripped(lines), NonBlank)
    ensures x != "" && !Text.IsSpace(x[0]) && !Text.IsSpace(x[|x| - 1])
  {
    var st := Stripped(lines);
    Scan.FilterMembers(st, NonBlank, x);
    var j :| 0 <= j < |st| && st[j] == x;
    assert x == Text.Strip(lines[j]);
  }

  function Stripped(lines: seq<string>): (r: seq<string>)
    ensures |r| == |lines| && forall i | 0 <= i < |lines| :: r[i] == Text.Strip(lines[i])
  {
    seq(|lines|, i requires 0 <= i < |lines| => Text.Strip(lines[i]))
  }

  function NonBlank(s: string): bool {
    s != ""
  }

  /** A line is kept, stripped, exactly when stripping leaves something. */
  lemma ReadLinesMembers(lines: seq<string>, x: string)
    ensures x in ReadLines(lines) <==> x != "" && exists i | 0 <= i < |lines| :: Text.Strip(lines[i]) == x
  {
    var st := Stripped(lines);
    Scan.FilterMembers(st, NonBlank, x);
    if x in st {
      var i :| 0 <= i < |st| && st[i] == x;
    }
    if exists i | 0 <= i < |lines| :: Text.Strip(lines[i]) == x {
      var i :| 0 <= i < |lines| && Text.Strip(lines[i]) == x;
      assert st[i] == x;
    }
  }

  /** Reading keeps file order: the kept lines are the stripped lines with the blank ones taken out. */
  lemma ReadLinesOrder(lines: seq<string>, i: nat)
    requires i < |lines|
    ensures ReadLines(lines[..i + 1]) == ReadLines(lines[..i]) + (if Text.Strip(lines[i]) != "" then [Text.Strip(lines[i])] else [])
  {
    assert Stripped(lines[..i + 1]) == Stripped(lines[..i]) + [Text.Strip(lines[i])];
    Scan.FilterStep(Stripped(lines[..i + 1]), NonBlank, i);
    assert Stripped(lines[..i + 1])[..i] == Stripped(lines[..i]);
    assert Stripped(lines[..i + 1])[..i + 1] == Stripped(lines[..i + 1]);
  }

  function StrValues(ss: seq<string>): (r: seq<Value>)
    ensures |r| == |ss| && forall i | 0 <= i < |ss| :: r[i] == Str(ss[i])
  {
    seq(|ss|, i requires 0 <= i < |ss| => Str(ss[i]))
  }

  /**
   * `list(set(existing + new))`: a list of the existing entries and the new
   * strings without repeats; a stored value that is not a list, or holds an
   * unhashable entry, raises a TypeError.
   */
  function MergeUnique(existing: Value, news: seq<string>): (r: Result<seq<Value>>)
    ensures r.Raise? <==> !existing.List? || exists i | 0 <= i < |existing.items| :: !Hashable(existing.items[i])
    ensures r.Ok? ==> Scan.NoDup(r.value)
    ensures r.Ok? ==> forall x :: x in r.value <==> x in existing.items || x in StrValues(news)
  {
    if !existing.List? || exists i | 0 <= i < |existing.items| :: !Hashable(existing.items[i]) then Raise("TypeError")
    else
      var all := existing.items + StrValues(news);
      var d := Scan.Dedup(all);
      assert forall x :: x in all <==> x in existing.items || x in StrValues(news);
      assert forall x :: x in d <==> x in all by {
        forall x ensures x in d <==> x in all {
          if x in d {
            var i :| 0 <= i < |d| && d[i] == x;
          }
          if x in all {
            var i :| 0 <= i < |all| && all[i] == x;
          }
        }
      }
      Ok(d)
  }

  /** `existing_payload.get(k, {})` and friends: a present key's value, even None, else the default. */
  function GetDefault(v: Value, k: string, default: Value): (r: Value)
    ensures Has(v, k) ==> r == At(v, k)
    ensures !Has(v, k) ==> r == default
  {
    if Has(v, k) then At(v, k) else default
  }

  /**
   * `update_service_endpoint` on the fetched endpoint: `_etag` becomes the
   * given etag and `service_link_peers` a dict of exactly the merged
   * `ip_addresses` and `hostnames`; every other entry is untouched. A
   * payload or peer entry that is not a dict raises an AttributeError.
   */
  function UpdateServiceEndpoint(payload: Value, etag: Value, newIps: seq<string>, newHostnames: seq<string>): (r: Result<Value>)
    ensures !payload.Obj? ==> r == Raise("AttributeError")
    ensures payload.Obj? && !GetDefault(payload, "service_link_peers", Obj([])).Obj? ==> r == Raise("AttributeError")
    ensures r.Ok? ==> r.value.Obj? && Get(r.value, "_etag") == Some(etag)
    ensures r.Ok? ==> forall k | k != "_etag" && k != "service_link_peers" :: Get(r.value, k) == Get(payload, k)
    ensures r.Ok? ==> KeysOf(At(r.value, "service_link_peers")) == ["ip_addresses", "hostnames"]
    ensures r.Ok? ==>
              var peers := GetDefault(payload, "service_link_peers", Obj([]));
              var ips := MergeUnique(GetDefault(peers, "ip_addresses", List([])), newIps);
              var hosts := MergeUnique(GetDefault(peers, "hostnames", List([])), newHostnames);
              ips.Ok? && At(At(r.value, "service_link_peers"), "ip_addresses") == List(ips.value) &&
              hosts.Ok? && At(At(r.value, "service_link_peers"), "hostnames") == List(hosts.value)
    ensures payload.Obj? && GetDefault(payload, "service_link_peers", Obj([])).Obj? ==>
              var peers := GetDefault(payload, "service_link_peers", Obj([]));
              (r.Ok? <==> MergeUnique(GetDefault(peers, "ip_addresses", List([])), newIps).Ok? &&
                          MergeUnique(GetDefault(peers, "hostnames", List([])), newHostnames).Ok?)
  {
    if !payload.Obj? then Raise("AttributeError")
    else
      var peers := GetDefault(payload, "service_link_peers", Obj([]));
      if !peers.Obj? then Raise("AttributeError")
      else
        var ips :- MergeUnique(GetDefault(peers, "ip_addresses", List([])), newIps);
        var hosts :- MergeUnique(GetDefault(peers, "hostnames", List([])), newHostnames);
        Ok(Rewritten(payload, etag, PeersOf(ips, hosts)))
  }

  /** The new `service_link_peers` dict. */
  function PeersOf(ips: seq<Value>, hosts: seq<Value>): (r: Value)
    ensures KeysOf(r) == ["ip_addresses", "hostnames"]
    ensures At(r, "ip_addresses") == List(ips) && At(r, "hostnames") == List(hosts)
  {
    var fs := [Field("ip_addresses", List(ips)), Field("hostnames", List(hosts))];
    IndexOfIs(fs, "hostnames", 1);
    Obj(fs)
  }

  /** The payload after its two assignments. */
  function Rewritten(payload: Value, etag: Value, peers: Value): (r: Value)
    requires payload.Obj?
    ensures r.Obj? && Get(r, "_etag") == Some(etag) && Get(r, "service_link_peers") == Some(peers)
    ensures forall k | k != "_etag" && k != "service_link_peers" :: Get(r, k) == Get(payload, k)
  {
    Obj(Assign(Assign(payload.fields, "_etag", etag), "service_link_peers", peers))
  }

  function PeerList(payload: Value, k: string): seq<Value> {
    var v := At(At(payload, "service_link_peers"), k);
    if v.List? then v.items else []
  }

  /**
   * Re-running the update with the same lines succeeds and adds nothing:
   * both peer lists hold the same entries as after the first run.
   */
  lemma UpdateIdempotent(payload: Value, etag: Value, newIps: seq<string>, newHostnames: seq<string>)
    requires UpdateServiceEndpoint(payload, etag, newIps, newHostnames).Ok?
    ensures var once := UpdateServiceEndpoint(payload, etag, newIps, newHostnames).value;
            var twice := UpdateServiceEndpoint(once, etag, newIps, newHostnames);
            twice.Ok? &&
            (forall x :: x in PeerList(twice.value, "ip_addresses") <==> x in PeerList(once, "ip_addresses")) &&
            (forall x :: x in PeerList(twice.value, "hostnames") <==> x in PeerList(once, "hostnames"))
  {
    var once := UpdateServiceEndpoint(payload, etag, newIps, newHostnames).value;
    var peers := At(once, "service_link_peers");
    assert GetDefault(once, "service_link_peers", Obj([])) == peers;
    var ips := At(peers, "ip_addresses");
    var hosts := At(peers, "hostnames");
    assert GetDefault(peers, "ip_addresses", List([])) == ips;
    assert GetDefault(peers, "hostnames", List([])) == hosts;
    HashableMerge(GetDefault(GetDefault(payload, "service_link_peers", Obj([])), "ip_addresses", List([])), newIps);
    HashableMerge(GetDefault(GetDefault(payload, "service_link_peers", Obj([])), "hostnames", List([])), newHostnames);
  }

  lemma HashableMerge(existing: Value, news: seq<string>)
    requires MergeUnique(existing, news).Ok?
    ensures forall i | 0 <= i < |MergeUnique(existing, news).value| :: Hashable(MergeUnique(existing, news).value[i])
  {
    var r := MergeUnique(existing, news).value;
    forall i | 0 <= i < |r| ensures Hashable(r[i]) {
      assert r[i] in existing.items || r[i] in StrValues(news);
    }
  }
}
