/**
 * The machine status report: the machine list fetched page by page
 * (following a cursor, or an offset while a total says more remain), and
 * the fixed set of status fields kept for each machine.
 */
module ElementStatus {
  import opened Wrappers
  import opened Json
  import Text

  /** The status fields reported for each machine, in column order. */
  const MachineFields: seq<string> :=
    ["machine_state", "renew_state", "em_element_id", "connected", "manufacture_id", "ship_state", "esp_tenant_id", "suspend_state"]

  /**
   * `extract_machine_status`: every field of `MachineFields` (None when the
   * machine lacks it), with `manufacture_id` taken from `manufacturer_id`
   * when the former is None and the machine has the latter. A machine that
   * is not a dict has no `get`.
   */
  function ExtractMachineStatus(m: Value): (r: Result<Value>)
    ensures r.Raise? <==> !m.Obj?
    ensures !m.Obj? ==> r == Raise("AttributeError")
    ensures r.Ok? ==> KeysOf(r.value) == MachineFields
    ensures r.Ok? ==> forall i | 0 <= i < |MachineFields| && MachineFields[i] != "manufacture_id" ::
              Get(r.value, MachineFields[i]) == Some(At(m, MachineFields[i]))
    ensures r.Ok? && At(m, "manufacture_id") == Null && Has(m, "manufacturer_id") ==>
              Get(r.value, "manufacture_id") == Some(At(m, "manufacturer_id"))
    ensures r.Ok? && !(At(m, "manufacture_id") == Null && Has(m, "manufacturer_id")) ==>
              Get(r.value, "manufacture_id") == Some(At(m, "manufacture_id"))
  {
    if !m.Obj? then Raise("AttributeError") else
    var out := seq(|MachineFields|, i requires 0 <= i < |MachineFields| => Field(MachineFields[i], At(m, MachineFields[i])));
    assert Keys(out) == MachineFields;
    FieldsFind(out, m);
    if At(m, "manufacture_id") == Null && Has(m, "manufacturer_id") then
      Ok(Obj(Assign(out, "manufacture_id", At(m, "manufacturer_id"))))
    else Ok(Obj(out))
  }

  lemma FieldsFind(out: seq<Field>, m: Value)
    requires |out| == |MachineFields|
    requires forall i | 0 <= i < |out| :: out[i] == Field(MachineFields[i], At(m, MachineFields[i]))
    ensures forall i | 0 <= i < |MachineFields| :: Find(out, MachineFields[i]) == Some(At(m, MachineFields[i]))
  {
    forall i | 0 <= i < |MachineFields|
      ensures Find(out, MachineFields[i]) == Some(At(m, MachineFields[i]))
    {
      IndexOfIs(out, MachineFields[i], i);
    }
  }

  // ---- int(total) ----

  predicate IsDigit(c: char) {
    '0' <= c <= '9'
  }

  /** The value of a run of decimal digits. */
  function DigitsValue(s: string): (n: nat)
    requires forall i | 0 <= i < |s| :: IsDigit(s[i])
    decreases |s|
  {
    if s == [] then 0
    else
      var c := s[|s| - 1];
      assert IsDigit(c);
      DigitsValue(s[..|s| - 1]) * 10 + (c as int - '0' as int)
  }

  /** Reading back what `str` wrote gives the number again. */
  lemma {:induction false} DigitsValueOfString(n: nat)
    ensures forall i | 0 <= i < |Text.NatToString(n)| :: IsDigit(Text.NatToString(n)[i])
    ensures DigitsValue(Text.NatToString(n)) == n
    decreases n
  {
    var s := Text.NatToString(n);
    DigitOf(n % 10);
    if n >= 10 {
      DigitsValueOfString(n / 10);
      assert s[..|s| - 1] == Text.NatToString(n / 10);
    }
  }

  lemma DigitOf(d: nat)
    requires d < 10
    ensures Text.DigitChar(d) as int - '0' as int == d
  {
    var digits := "0123456789";
    assert digits[0] == '0' && digits[1] == '1' && digits[2] == '2' && digits[3] == '3' && digits[4] == '4';
    assert digits[5] == '5' && digits[6] == '6' && digits[7] == '7' && digits[8] == '8' && digits[9] == '9';
  }

  /** `int(v)` for the values a total can hold; other strings and types raise. */
  function PyInt(v: Value): (r: Result<int>)
    ensures v.Int? ==> r == Ok(v.i)
    ensures v.Bool? ==> r == Ok(if v.b then 1 else 0)
    ensures v.Null? || v.List? || v.Obj? ==> r == Raise("TypeError")
    ensures v.Str? && v.s == [] ==> r == Raise("ValueError")
  {
    match v
    case Int(i) => Ok(i)
    case Bool(b) => Ok(if b then 1 else 0)
    case Str(s) =>
      if s != [] && forall i | 0 <= i < |s| :: IsDigit(s[i]) then Ok(DigitsValue(s)) else Raise("ValueError")
    case _ => Raise("TypeError")
  }

  /** A total sent as the decimal text of a number reads back as that number. */
  lemma PyIntOfText(n: nat)
    ensures PyInt(Str(Text.NatToString(n))) == Ok(n)
  {
    DigitsValueOfString(n);
  }

  // ---- list_machines ----

  /** The query of one request: `limit` 200, and a cursor or an offset after the first page. */
  datatype Params = Params(limit: nat, cursor: Option<Value>, offset: Option<nat>)

  const FirstParams: Params := Params(200, None, None)

  /** One HTTP response: its status code and its decoded body. */
  datatype Response = Response(status: int, body: Value)

  /** What a page leaves the loop with: all items so far and whether to ask again, or what was raised. */
  datatype Turned =
    | Last(items: seq<Value>)
    | More(items: seq<Value>, params: Params)
    | Raised(error: string)

  /** `(data.get("page", {}) or {}).get("next")`, or what reading it raises. */
  function PageNext(data: Value): (r: Result<Value>)
    requires data.Obj?
    ensures r.Raise? <==> Has(data, "page") && Truthy(At(data, "page")) && !At(data, "page").Obj?
    ensures r.Raise? ==> r.error == "AttributeError"
    ensures r.Ok? && Has(data, "page") && At(data, "page").Obj? ==> r.value == At(At(data, "page"), "next")
    ensures r.Ok? && !(Has(data, "page") && At(data, "page").Obj?) ==> r.value == Null
  {
    var holder := if Has(data, "page") then At(data, "page") else Obj([]);
    var holder' := if Truthy(holder) then holder else Obj([]);
    if holder'.Obj? then Ok(At(holder', "next")) else Raise("AttributeError")
  }

  /** `data.get("next") or (data.get("page", {}) or {}).get("next")` */
  function NextToken(data: Value): (r: Result<Value>)
    requires data.Obj?
    ensures Truthy(At(data, "next")) ==> r == Ok(At(data, "next"))
    ensures !Truthy(At(data, "next")) ==> r == PageNext(data)
  {
    if Truthy(At(data, "next")) then Ok(At(data, "next")) else PageNext(data)
  }

  /** `data.get("items") or data.get("data") or data.get("machines") or []` */
  function PageOf(data: Value): Value {
    FirstTruthy([At(data, "items"), At(data, "data"), At(data, "machines"), List([])])
  }

  /**
   * One turn of the `list_machines` loop on a 200 response: the items so far
   * extended by the page, and the next request if any. A list body is the
   * whole page and ends the loop. For a dict body the page is the first
   * truthy of `items`, `data` and `machines`; the next token is read before
   * the page is added, so a token that cannot be read raises before a page
   * that cannot be iterated; a next token continues by cursor, else a total
   * above the count so far continues by offset.
   */
  function Turn(data: Value, items: seq<Value>): (r: Turned)
    ensures data.List? ==> r == Last(items + data.items)
    ensures !data.List? && !data.Obj? ==> r == Raised("AttributeError")
    ensures data.Obj? && NextToken(data).Raise? ==> r == Raised("AttributeError")
    ensures data.Obj? && NextToken(data).Ok? && Iterate(PageOf(data)).None? ==> r == Raised("TypeError")
    ensures data.Obj? && NextToken(data).Ok? && Iterate(PageOf(data)).Some? ==>
              r == Continue(NextToken(data).value, data, items + Iterate(PageOf(data)).value)
    ensures !r.Raised? ==> items <= r.items
    ensures r.More? ==> r.params.limit == 200 && (r.params.cursor.Some? <==> r.params.offset.None?)
    ensures r.More? && r.params.offset.Some? ==> r.params.offset.value == |r.items|
    ensures r.More? && r.params.cursor.Some? ==> Truthy(r.params.cursor.value)
  {
    if data.List? then Last(items + data.items)
    else if !data.Obj? then Raised("AttributeError")
    else match NextToken(data)
      case Raise(e) => Raised(e)
      case Ok(next) =>
        match Iterate(PageOf(data))
        case None => Raised("TypeError")
        case Some(page) => Continue(next, data, items + page)
  }

  /** After a dict page, with its next token read: follow a truthy token, else an unreached total, else stop. */
  function Continue(next: Value, data: Value, all: seq<Value>): (r: Turned)
    ensures !r.Raised? ==> r.items == all
    ensures Truthy(next) ==> r == More(all, Params(200, Some(next), None))
    ensures r.More? ==> r.params.limit == 200 && (r.params.cursor.Some? <==> r.params.offset.None?)
    ensures r.More? && r.params.offset.Some? ==> r.params.offset.value == |all|
    ensures r.More? && r.params.cursor.Some? ==> Truthy(r.params.cursor.value)
  {
    if Truthy(next) then More(all, Params(200, Some(next), None))
    else
      var total := FirstTruthy([At(data, "total"), At(data, "totalCount")]);
      if total.Null? then Last(all)
      else match PyInt(total)
        case Raise(e) => Raised(e)
        case Ok(t) => if |all| < t then More(all, Params(200, None, Some(|all|))) else Last(all)
  }

  /** For example, a dict whose `page` is a number raises AttributeError even when its `items` cannot be iterated. */
  lemma TokenReadBeforeExtend(items: seq<Value>, i: int, p: int)
    requires p != 0
    ensures Turn(Obj([Field("items", Int(i)), Field("page", Int(p))]), items) == Raised("AttributeError")
  {
    var fs := [Field("items", Int(i)), Field("page", Int(p))];
    assert "next" !in Keys(fs);
    IndexOfIs(fs, "page", 1);
    assert At(Obj(fs), "page") == Int(p);
  }

  /** How the listing ends: all machines, the error it raised, or still paging after `fuel` requests. */
  datatype Outcome = Done(items: seq<Value>) | Failed(error: string) | Unfinished(items: seq<Value>)

  /** One request's effect: a non-200 status raises, a 200 body is a turn of the loop. */
  function Answer(resp: Response, items: seq<Value>): Turned {
    if resp.status != 200 then Raised("RuntimeError") else Turn(resp.body, items)
  }

  /** The listing from `params` on, with `items` gathered so far and at most `fuel` more requests. */
  function Listing(fetch: Params -> Response, params: Params, items: seq<Value>, fuel: nat): (r: Outcome)
    ensures !r.Failed? ==> items <= r.items
    decreases fuel
  {
    if fuel == 0 then Unfinished(items)
    else match Answer(fetch(params), items)
      case Raised(e) => Failed(e)
      case Last(all) => Done(all)
      case More(all, next) => Listing(fetch, next, all, fuel - 1)
  }

  /** Whatever was gathered before, a 200 answer with a bare list body is the last page: the listing ends with it appended. */
  lemma ListBodyIsLastPage(fetch: Params -> Response, params: Params, items: seq<Value>, fuel: nat)
    requires fuel > 0 && fetch(params).status == 200 && fetch(params).body.List?
    ensures Listing(fetch, params, items, fuel) == Done(items + fetch(params).body.items)
  {
  }

  /** In particular, a server that answers the first request with a bare list is read in that one request. */
  lemma ListBodyIsOnePage(fetch: Params -> Response, fuel: nat)
    requires fuel > 0 && fetch(FirstParams).status == 200 && fetch(FirstParams).body.List?
    ensures Listing(fetch, FirstParams, [], fuel) == Done(fetch(FirstParams).body.items)
  {
    ListBodyIsLastPage(fetch, FirstParams, [], fuel);
    assert [] + fetch(FirstParams).body.items == fetch(FirstParams).body.items;
  }

  /** The `while True` loop of `list_machines`, bounded by `fuel` requests. */
  method ListMachines(fetch: Params -> Response, fuel: nat) returns (r: Outcome)
    ensures r == Listing(fetch, FirstParams, [], fuel)
  {
    var items: seq<Value> := [];
    var params := FirstParams;
    var left := fuel;
    while left > 0
      invariant Listing(fetch, params, items, left) == Listing(fetch, FirstParams, [], fuel)
      decreases left
    {
      var turn := Request(fetch, params, items);
      match turn
      case Raised(e) =>
        return Failed(e);
      case Last(all) =>
        return Done(all);
      case More(all, next) =>
        items, params, left := all, next, left - 1;
    }
    r := Unfinished(items);
  }

  /** One request of the loop: a non-200 status raises, a 200 body is read as a page. */
  method Request(fetch: Params -> Response, params: Params, items: seq<Value>) returns (turn: Turned)
    ensures turn == Answer(fetch(params), items)
  {
    var resp := fetch(params);
    if resp.status != 200 {
      return Raised("RuntimeError");
    }
    turn := Turn(resp.body, items);
  }
}
