/** The browser globals the client service layer works through: `localStorage`,
    `fetch` and `window.location`. The backend is an oracle answering each request;
    `JSON.stringify`, `JSON.parse` and the rendering of numbers as text are oracles
    too. */
module Browser {
  import opened Json
  import opened Text

  /** A request as `fetch` sends it: endpoint path, HTTP verb, the `Authorization`
      header when there is one, and the JSON body when there is one. */
  datatype Request = Request(endpoint: string, verb: string, authorization: Option<string>, body: Option<Json>)

  /** A response with its body already read by `response.json()`. */
  datatype Reply = Reply(status: int, body: Json)

  /** `fetch` followed by `response.json()`: a reply, or the message of the error either
      of them threw (network failure, a body that is not JSON). */
  type Server = Request -> Result<Reply, string>

  /** The oracles the page relies on; `numberText` is `Number.prototype.toString`. */
  datatype Platform = Platform(server: Server, stringify: Json -> string, parse: string -> Result<Json, string>,
                               numberText: real -> string)

  /** `String(j)` for a defined value: arrays are joined with commas, their `null`
      elements written as nothing, and every object is `[object Object]`. */
  function ValueText(j: Json, numberText: real -> string): string
    decreases j
  {
    match j
    case Null => "null"
    case Bool(b) => if b then "true" else "false"
    case Num(n) => numberText(n)
    case Str(s) => s
    case Arr(items) =>
      if items == [] then ""
      else JoinWith(seq(|items|, i requires 0 <= i < |items| =>
                          if items[i].Null? then "" else ValueText(items[i], numberText)), ',')
    case Obj(_) => "[object Object]"
  }

  /** The text `localStorage.setItem(key, v)` stores for a value that may be
      `undefined`: `String(v)`, so `undefined` itself becomes the text `undefined`. */
  function StoredText(v: Option<Json>, numberText: real -> string): (r: string)
    ensures v.None? ==> r == "undefined"
    ensures v.Some? && v.value.Str? ==> r == v.value.s
  {
    if v.None? then "undefined" else ValueText(v.value, numberText)
  }

  /** `localStorage`: string keys to string values. */
  type Storage = map<string, string>

  /** `localStorage.getItem(key)`, None for null. */
  function Lookup(s: Storage, key: string): Option<string> {
    if key in s then Some(s[key]) else None
  }

  /** `response.ok`. */
  predicate Ok(status: int) {
    200 <= status <= 299
  }

  /** Everything a client operation can change: the stored items, the location and the
      requests sent so far. */
  datatype Page = Page(storage: Storage, location: string, sent: seq<Request>)

  class Window {
    var storage: Storage
    var location: string
    var sent: seq<Request>
    const platform: Platform

    constructor (platform: Platform, storage: Storage, location: string)
      ensures this.platform == platform && State() == Page(storage, location, [])
    {
      this.platform := platform;
      this.storage := storage;
      this.location := location;
      sent := [];
    }

    function State(): Page
      reads this
    {
      Page(storage, location, sent)
    }

    function GetItem(key: string): (v: Option<string>)
      reads this
      ensures v.Some? <==> key in storage
      ensures v.Some? ==> v.value == storage[key]
    {
      Lookup(storage, key)
    }

    /** `localStorage.setItem(key, value)`. */
    method SetItem(key: string, value: string)
      modifies this
      ensures State() == old(State()).(storage := old(storage)[key := value])
    {
      storage := storage[key := value];
    }

    /** `localStorage.removeItem(key)`. */
    method RemoveItem(key: string)
      modifies this
      ensures State() == old(State()).(storage := old(storage) - {key})
    {
      storage := storage - {key};
    }

    /** `await (await fetch(req)).json()`, recording the request. */
    method Fetch(req: Request) returns (r: Result<Reply, string>)
      modifies this
      ensures r == platform.server(req)
      ensures State() == old(State()).(sent := old(sent) + [req])
    {
      sent := sent + [req];
      r := platform.server(req);
    }

    /** `window.location.href = url`. */
    method Navigate(url: string)
      modifies this
      ensures State() == old(State()).(location := url)
    {
      location := url;
    }
  }
}
