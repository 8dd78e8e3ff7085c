/**
 * The Prisma SD-WAN controller as the policy scripts see it through their API
 * session: collections of stacks, sets and rules (rules live under a set),
 * read-only reference inventories, and a log of every write request issued.
 *
 * The server side is a deterministic stand-in, fixed by an `Env`: it mints ids
 * from a counter, refuses writes whose payload is not a dict or whose string
 * `name` is listed in `rejects`, fails every read of a collection listed in
 * `unreadable`, and seeds the rules of `autoRules` into every set it creates in
 * that domain (the default and template rules the real controller adds on its
 * own). `Store` is the controller's state as a value; the `Controller` class is
 * the session object whose methods are proved against the `Store` functions.
 */
module Remote {
  import opened Json
  import opened Wrappers
  import opened Kinds
  import Text

  /** One stored object: its collection, the set it belongs to ("" above rule level), its body. */
  datatype Item = Item(domain: Domain, level: Level, parent: string, body: Value)

  /** A write the scripts send: POST, PUT or DELETE on a collection. */
  datatype Request =
    | PostReq(domain: Domain, level: Level, parent: string, body: Value)
    | PutReq(domain: Domain, level: Level, parent: string, id: string, body: Value)
    | DeleteReq(domain: Domain, level: Level, parent: string, id: string)

  /** What the controller does on its own: inventories, failing reads, refused names, seeded rules. */
  datatype Env = Env(refs: map<Ref, seq<Value>>, unreadable: set<(Domain, Level)>,
                     rejects: set<string>, autoRules: map<Domain, seq<Value>>)

  /** The controller's state: stored objects, every write received so far, the id counter. */
  datatype Store = Store(objects: seq<Item>, log: seq<Request>, nextId: nat)

  /** The answer to a POST: new state, `cgx_status`, and the created object. */
  datatype Posted = Posted(store: Store, ok: bool, created: Value)

  /** The answer to a PUT or DELETE: new state and `cgx_status`. */
  datatype Written = Written(store: Store, ok: bool)

  /** The id the controller gives its n-th created object. */
  function MintId(n: nat): string {
    "9" + Text.NatToString(n)
  }

  /** `resp.cgx_content.get("id")` / `data["id"]` once a value is known to be there, as a URL segment. */
  function IdOf(v: Value): string {
    PyStr(At(v, "id"))
  }

  /** Whether the controller takes a write with this payload. */
  predicate Accepts(e: Env, body: Value) {
    body.Obj? && !(StrAt(body, "name").Some? && StrAt(body, "name").value in e.rejects)
  }

  /** A GET on a collection: the bodies stored under `parent`, in creation order. */
  function Listing(objects: seq<Item>, d: Domain, l: Level, parent: string): (r: seq<Value>)
    ensures |r| <= |objects|
    ensures forall v :: v in r <==> exists i :: 0 <= i < |objects| && objects[i] == Item(d, l, parent, v)
  {
    if objects == [] then []
    else
      var tail := Listing(objects[1..], d, l, parent);
      assert forall i :: 0 < i < |objects| ==> objects[i] == objects[1..][i - 1];
      if objects[0].domain == d && objects[0].level == l && objects[0].parent == parent
      then [objects[0].body] + tail
      else tail
  }

  /** Whether an object with this id exists in the collection. */
  predicate Stored(objects: seq<Item>, d: Domain, l: Level, id: string) {
    exists i :: 0 <= i < |objects| && objects[i].domain == d && objects[i].level == l && IdOf(objects[i].body) == id
  }

  /** The store after a PUT: every object of the collection with that id gets the new body, id kept. */
  function Replace(objects: seq<Item>, d: Domain, l: Level, id: string, body: Value): (r: seq<Item>)
    ensures |r| == |objects|
    ensures forall i :: 0 <= i < |r| ==>
              r[i].domain == objects[i].domain && r[i].level == objects[i].level && r[i].parent == objects[i].parent
  {
    if objects == [] then []
    else
      var o := objects[0];
      var o' := if o.domain == d && o.level == l && IdOf(o.body) == id then o.(body := Put(body, "id", Str(id))) else o;
      var tail := Replace(objects[1..], d, l, id, body);
      assert forall i :: 0 < i < |objects| ==> ([o'] + tail)[i] == tail[i - 1];
      [o'] + tail
  }

  /** The store after a DELETE: every object of the collection with that id is gone, the rest kept in order. */
  function Erase(objects: seq<Item>, d: Domain, l: Level, id: string): (r: seq<Item>)
    ensures |r| <= |objects|
    ensures !Stored(r, d, l, id)
    ensures forall x :: x in r <==> x in objects && !(x.domain == d && x.level == l && IdOf(x.body) == id)
  {
    if objects == [] then []
    else
      var tail := Erase(objects[1..], d, l, id);
      var o := objects[0];
      assert forall x :: x in objects <==> x == o || x in objects[1..];
      if o.domain == d && o.level == l && IdOf(o.body) == id then tail
      else
        var r := [o] + tail;
        assert forall i :: 0 < i < |r| ==> r[i] == tail[i - 1];
        r
  }

  /** The rules a newly created set of this domain starts with, ids derived from the set's id. */
  function SeedRules(d: Domain, setId: string, seeds: seq<Value>): (r: seq<Item>)
    ensures |r| == |seeds|
    ensures forall k :: 0 <= k < |r| ==> r[k].domain == d && r[k].level == Rules && r[k].parent == setId
  {
    seq(|seeds|, k requires 0 <= k < |seeds| =>
      Item(d, Rules, setId, Put(seeds[k], "id", Str(setId + "-" + Text.NatToString(k)))))
  }

  /** The rules the controller seeds into a new set of domain `d`. */
  function Seeds(e: Env, d: Domain): seq<Value> {
    if d in e.autoRules then e.autoRules[d] else []
  }

  /** GET of a policy collection: `cgx_status` and the items. */
  function ListAt(e: Env, s: Store, d: Domain, l: Level, parent: string): (bool, seq<Value>) {
    if (d, l) in e.unreadable then (false, []) else (true, Listing(s.objects, d, l, parent))
  }

  /** POST: an accepted payload is stored with a fresh `id` (and, for a set, its seeded rules). */
  function StorePost(e: Env, s: Store, d: Domain, l: Level, parent: string, body: Value): (r: Posted)
    ensures r.store.log == s.log + [PostReq(d, l, parent, body)]
    ensures r.ok <==> Accepts(e, body)
    ensures r.ok ==> Get(r.created, "id") == Some(Str(MintId(s.nextId)))
    ensures r.ok ==> forall k | k != "id" :: Get(r.created, k) == Get(body, k)
    ensures !r.ok ==> r.store.objects == s.objects && r.store.nextId == s.nextId
  {
    var log := s.log + [PostReq(d, l, parent, body)];
    if !Accepts(e, body) then Posted(s.(log := log), false, Null)
    else
      var id := MintId(s.nextId);
      var created := Put(body, "id", Str(id));
      var seeded := if l == Sets then SeedRules(d, id, Seeds(e, d)) else [];
      Posted(Store(s.objects + [Item(d, l, parent, created)] + seeded, log, s.nextId + 1), true, created)
  }

  /** PUT of a full object body to `id`; refused when no object has that id. */
  function StorePut(e: Env, s: Store, d: Domain, l: Level, parent: string, id: string, body: Value): (r: Written)
    ensures r.store.log == s.log + [PutReq(d, l, parent, id, body)]
    ensures r.ok <==> Accepts(e, body) && Stored(s.objects, d, l, id)
    ensures r.store.nextId == s.nextId && |r.store.objects| == |s.objects|
  {
    var log := s.log + [PutReq(d, l, parent, id, body)];
    if Accepts(e, body) && Stored(s.objects, d, l, id) then Written(Store(Replace(s.objects, d, l, id, body), log, s.nextId), true)
    else Written(s.(log := log), false)
  }

  /** DELETE of `id`. */
  function StoreDelete(e: Env, s: Store, d: Domain, l: Level, parent: string, id: string): (r: Written)
    ensures r.store.log == s.log + [DeleteReq(d, l, parent, id)]
    ensures r.ok <==> Stored(s.objects, d, l, id)
    ensures !Stored(r.store.objects, d, l, id)
    ensures r.store.nextId == s.nextId
  {
    Written(Store(Erase(s.objects, d, l, id), s.log + [DeleteReq(d, l, parent, id)], s.nextId), Stored(s.objects, d, l, id))
  }

  /** After an accepted POST the new object is listed under its parent. */
  lemma PostIsListed(e: Env, s: Store, d: Domain, l: Level, parent: string, body: Value)
    requires (d, l) !in e.unreadable
    ensures var p := StorePost(e, s, d, l, parent, body);
            p.ok ==> p.created in ListAt(e, p.store, d, l, parent).1
  {
    var p := StorePost(e, s, d, l, parent, body);
    if p.ok {
      var i := |s.objects|;
      assert p.store.objects[i] == Item(d, l, parent, p.created);
    }
  }

  /** A set created in a domain with seeded rules lists exactly those rules when it is read back. */
  lemma NewSetListsSeeds(e: Env, s: Store, d: Domain, body: Value)
    requires (d, Rules) !in e.unreadable
    requires forall i :: 0 <= i < |s.objects| ==> s.objects[i].parent != MintId(s.nextId)
    ensures var p := StorePost(e, s, d, Sets, "", body);
            p.ok ==> |ListAt(e, p.store, d, Rules, MintId(s.nextId)).1| == |Seeds(e, d)|
  {
    var p := StorePost(e, s, d, Sets, "", body);
    if p.ok {
      var id := MintId(s.nextId);
      var seeded := SeedRules(d, id, Seeds(e, d));
      ListingAppend(s.objects + [Item(d, Sets, "", p.created)], seeded, d, Rules, id);
      ListingAppend(s.objects, [Item(d, Sets, "", p.created)], d, Rules, id);
      ListingNone(s.objects, d, Rules, id);
      ListingAll(seeded, d, Rules, id);
    }
  }

  lemma {:induction false} ListingAppend(a: seq<Item>, b: seq<Item>, d: Domain, l: Level, parent: string)
    ensures Listing(a + b, d, l, parent) == Listing(a, d, l, parent) + Listing(b, d, l, parent)
    decreases |a|
  {
    if a == [] {
      assert a + b == b;
    } else {
      assert (a + b)[1..] == a[1..] + b;
      ListingAppend(a[1..], b, d, l, parent);
    }
  }

  lemma {:induction false} ListingNone(a: seq<Item>, d: Domain, l: Level, parent: string)
    requires forall i :: 0 <= i < |a| ==> a[i].parent != parent
    ensures Listing(a, d, l, parent) == []
    decreases |a|
  {
    if a != [] {
      ListingNone(a[1..], d, l, parent);
    }
  }

  lemma {:induction false} ListingAll(a: seq<Item>, d: Domain, l: Level, parent: string)
    requires forall i :: 0 <= i < |a| ==> a[i].domain == d && a[i].level == l && a[i].parent == parent
    ensures |Listing(a, d, l, parent)| == |a|
    decreases |a|
  {
    if a != [] {
      ListingAll(a[1..], d, l, parent);
    }
  }

  /** The API session: the controller's state and its fixed behaviour. */
  class Controller {
    var objects: seq<Item>
    var log: seq<Request>
    var nextId: nat
    const env: Env

    function State(): Store
      reads this
    {
      Store(objects, log, nextId)
    }

    constructor (env: Env, objects0: seq<Item>)
      ensures State() == Store(objects0, [], 0) && this.env == env
    {
      this.env := env;
      objects := objects0;
      log := [];
      nextId := 0;
    }

    /** GET of a reference inventory (`resp.cgx_status`, `items`). */
    method GetRefs(r: Ref) returns (ok: bool, items: seq<Value>)
      ensures ok <==> r in env.refs
      ensures items == if ok then env.refs[r] else []
    {
      ok := r in env.refs;
      items := if ok then env.refs[r] else [];
    }

    /** GET of a policy collection under `parent`. */
    method List(d: Domain, l: Level, parent: string) returns (ok: bool, items: seq<Value>)
      ensures (ok, items) == ListAt(env, State(), d, l, parent)
    {
      ok := (d, l) !in env.unreadable;
      items := if ok then Listing(objects, d, l, parent) else [];
    }

    method Create(d: Domain, l: Level, parent: string, body: Value) returns (ok: bool, created: Value)
      modifies this
      ensures Posted(State(), ok, created) == StorePost(env, old(State()), d, l, parent, body)
    {
      var p := StorePost(env, State(), d, l, parent, body);
      objects, log, nextId := p.store.objects, p.store.log, p.store.nextId;
      ok, created := p.ok, p.created;
    }

    method Update(d: Domain, l: Level, parent: string, id: string, body: Value) returns (ok: bool)
      modifies this
      ensures Written(State(), ok) == StorePut(env, old(State()), d, l, parent, id, body)
    {
      log := log + [PutReq(d, l, parent, id, body)];
      ok := Accepts(env, body) && Stored(objects, d, l, id);
      if ok {
        objects := Replace(objects, d, l, id, body);
      }
    }

    method Delete(d: Domain, l: Level, parent: string, id: string) returns (ok: bool)
      modifies this
      ensures Written(State(), ok) == StoreDelete(env, old(State()), d, l, parent, id)
    {
      log := log + [DeleteReq(d, l, parent, id)];
      ok := Stored(objects, d, l, id);
      objects := Erase(objects, d, l, id);
    }
  }
}
