/**
 * What the request layer receives from the network and hands to its callers:
 * JavaScript values as `response.json()` produces them, scripted HTTP replies,
 * and the exceptions the layer throws.
 */
module Http {

  /** A JavaScript value of the kind JSON parsing yields (numbers are integers here). */
  datatype Value =
    | Undefined
    | Null
    | Bool(b: bool)
    | Num(n: int)
    | Str(s: string)
    | Arr(items: seq<Value>)
    | Obj(fields: map<string, Value>)

  /** JavaScript truthiness, the test behind `if (x)` and `x || y`. */
  predicate Truthy(v: Value) {
    match v
    case Undefined => false
    case Null => false
    case Bool(b) => b
    case Num(n) => n != 0
    case Str(s) => s != ""
    case Arr(_) => true
    case Obj(_) => true
  }

  /** The exceptions that reach a caller of the request layer. */
  datatype Error =
    | NetworkError          // `fetch` rejected: no response at all
    | RequestFailed(status: int)  // `API request failed with status <status>`
    | ParseError            // `response.json()` rejected the body
    | TypeError             // a property read on `null`

  datatype Result<+T> = Ok(value: T) | Err(error: Error)

  /** The body of a reply: JSON text that parses to a value, or text that does not. */
  datatype Body = Json(value: Value) | Malformed

  /** One scripted outcome of a call to `fetch`. */
  datatype Response = Reply(status: int, body: Body) | Dropped

  /** `response.ok`: a status in the range 200-299. */
  predicate IsOkStatus(status: int) { 200 <= status <= 299 }

  /** `v.data`: reading a property of `null` or `undefined` throws; a missing property is `undefined`. */
  function DataField(v: Value): (r: Result<Value>)
    ensures r.Err? <==> v == Null || v == Undefined
    ensures r.Err? ==> r.error == TypeError
    ensures r.Ok? && r.value != Undefined ==> v.Obj? && "data" in v.fields && r.value == v.fields["data"]
    ensures v.Obj? && "data" in v.fields ==> r == Ok(v.fields["data"])
  {
    match v
    case Undefined => Err(TypeError)
    case Null => Err(TypeError)
    case Obj(fields) => if "data" in fields then Ok(fields["data"]) else Ok(Undefined)
    case _ => Ok(Undefined)
  }

  /** `v.data || []`: the list a list endpoint returns, with `[]` standing in for a falsy field. */
  function DataOrEmpty(v: Value): (r: Result<Value>)
    ensures r.Err? <==> DataField(v).Err?
    ensures r.Ok? ==> Truthy(r.value)
    ensures r.Ok? ==> r.value == DataField(v).value || (r.value == Arr([]) && !Truthy(DataField(v).value))
  {
    match DataField(v)
    case Err(e) => Err(e)
    case Ok(d) => if Truthy(d) then Ok(d) else Ok(Arr([]))
  }

  /** The value a list wrapper returns for a whole `fetchAPI` outcome. */
  function ListOf(raw: Result<Value>): (r: Result<Value>)
    ensures raw.Err? ==> r == raw
    ensures raw.Ok? ==> (r.Err? <==> raw.value == Null || raw.value == Undefined)
    ensures raw.Ok? && r.Err? ==> r.error == TypeError
    ensures r.Ok? ==> Truthy(r.value)
    ensures raw.Ok? && raw.value.Obj? && "data" in raw.value.fields && Truthy(raw.value.fields["data"]) ==>
              r == Ok(raw.value.fields["data"])
    ensures raw.Ok? ==> r == DataOrEmpty(raw.value)
  {
    match raw
    case Err(e) => Err(e)
    case Ok(v) => DataOrEmpty(v)
  }

  /** The value a single-item wrapper returns for a whole `fetchAPI` outcome: `response.data` as is. */
  function ItemOf(raw: Result<Value>): (r: Result<Value>)
    ensures raw.Err? ==> r == raw
    ensures raw.Ok? ==> (r.Err? <==> raw.value == Null || raw.value == Undefined)
    ensures raw.Ok? && r.Err? ==> r.error == TypeError
    ensures raw.Ok? && raw.value.Obj? && "data" in raw.value.fields ==> r == Ok(raw.value.fields["data"])
    ensures raw.Ok? ==> r == DataField(raw.value)
  {
    match raw
    case Err(e) => Err(e)
    case Ok(v) => DataField(v)
  }

  /** A reply that asks the client to slow down. */
  predicate RateLimited(r: Response) { r.Reply? && r.status == 429 }

  /** What one call of `fetchAPI` does: its outcome, the cache after it, the replies still
      to come and how many times it called `fetch`. */
  datatype Run = Run(outcome: Result<Value>, cache: map<string, Value>, rest: seq<Response>, fetches: nat)

  /** `rest` is what is left of `net` once some replies have been used. */
  predicate Suffix(rest: seq<Response>, net: seq<Response>) {
    |rest| <= |net| && rest == net[|net| - |rest|..]
  }
}
