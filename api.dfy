/** The remote telephony API as the backup script sees it: a client whose
    `get(path)` either returns a JSON value or raises one of three kinds of
    error. The service itself is an oracle, a map from path to response. */
module Api {

  datatype Option<+T> = None | Some(value: T)

  /** One key of a JSON object; the value is kept opaque, as rendered text. */
  datatype Field = Field(key: string, val: string)

  /** What a successful `get` returns: an object, or an array of member
      identifiers (already rendered as they appear in a path). */
  datatype Value =
    | Doc(fields: seq<Field>)
    | Listing(items: seq<string>)

  /** The outcome of one remote call. */
  datatype Response =
    | Ok(value: Value)
    | NotFound       // ResourceNotFoundError
    | BadParameters  // BadParametersError
    | OtherError     // any other exception raised by the client

  /** Python truthiness of a returned value: `{}` and `[]` are falsy. */
  predicate Truthy(v: Value) {
    match v
    case Doc(fields) => |fields| > 0
    case Listing(items) => |items| > 0
  }

  /** The keys of an object, in order. */
  function Keys(fields: seq<Field>): (keys: seq<string>)
    ensures |keys| == |fields|
    ensures forall i :: 0 <= i < |fields| ==> keys[i] == fields[i].key
  {
    if fields == [] then [] else [fields[0].key] + Keys(fields[1..])
  }

  /** The identifiers `for obj in v` goes through: the keys of an object, in
      order, or the elements of an array. */
  function Iterate(v: Value): (ids: seq<string>)
    ensures |ids| > 0 <==> Truthy(v)
    ensures v.Listing? ==> ids == v.items
    ensures v.Doc? ==> |ids| == |v.fields| && forall i :: 0 <= i < |ids| ==> ids[i] == v.fields[i].key
  {
    match v
    case Doc(fields) => Keys(fields)
    case Listing(items) => items
  }

  /** `obj[key]` on a JSON object: the value of the first field named `key`. */
  function Lookup(fields: seq<Field>, key: string): (r: Option<string>)
    ensures r.None? <==> forall i :: 0 <= i < |fields| ==> fields[i].key != key
    ensures r.Some? ==> exists i :: 0 <= i < |fields| && fields[i] == Field(key, r.value)
  {
    if fields == [] then None
    else if fields[0].key == key then Some(fields[0].val)
    else
      var r := Lookup(fields[1..], key);
      assert r.Some? ==> exists i :: 0 <= i < |fields[1..]| && fields[1..][i] == Field(key, r.value);
      r
  }

  /** What the service answers for `url`; a path it does not have is not found. */
  function Respond(api: map<string, Response>, url: string): Response {
    if url in api then api[url] else NotFound
  }

  /** The value `_get_url` hands back for a response: every error becomes
      `None`, anything else is passed through unchanged. */
  function Caught(r: Response): (data: Option<Value>)
    ensures data.None? <==> (r.NotFound? || r.BadParameters? || r.OtherError?)
    ensures r.Ok? ==> data == Some(r.value)
  {
    match r
    case Ok(v) => Some(v)
    case NotFound => None
    case BadParameters => None
    case OtherError => None
  }

  /** The API client. The service it talks to does not change during a run;
      the client's observable state is the log of the paths it requested. */
  class Client {
    const api: map<string, Response>
    var requests: seq<string>

    constructor (api: map<string, Response>)
      ensures this.api == api && requests == []
    {
      this.api := api;
      requests := [];
    }

    /** `client.get(url)`: one request, answered by the service. */
    method Get(url: string) returns (r: Response)
      modifies this
      ensures r == Respond(api, url)
      ensures requests == old(requests) + [url]
    {
      r := Respond(api, url);
      requests := requests + [url];
    }
  }
}
