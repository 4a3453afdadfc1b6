/** The values the client exchanges with the `url`, `reqwest` and cookie-store crates:
    URLs as ordered query pairs, requests, responses, per-attempt send outcomes and
    the opaque cookie store.  Only their observable shape is modelled. */
module Net {
  import opened Wrappers

  /** What `Url::host` yields: a registrable domain name or an IP address literal. */
  datatype Host = Domain(name: string) | Ip(addr: string)

  function HostStr(h: Host): string {
    match h
    case Domain(n) => n
    case Ip(a) => a
  }

  /** A parsed URL; the query is the ordered list of pairs appended so far. */
  datatype Url = Url(scheme: string, host: Host, path: string, query: seq<(string, string)>) {

    /** `query_pairs_mut().append_pair(key, value)`. */
    function AppendPair(key: string, value: string): Url {
      this.(query := query + [(key, value)])
    }

    /** `Url::domain`: the host when it is a domain name, nothing for an IP address. */
    function Domain(): (d: Option<string>)
      ensures d.Some? <==> host.Domain?
      ensures d.Some? ==> d.value == HostStr(host)
    {
      match host
      case Domain(n) => Some(n)
      case Ip(_) => None
    }
  }

  function FormPairs(q: seq<(string, string)>): string
    decreases |q|
  {
    if |q| == 0 then ""
    else if |q| == 1 then q[0].0 + "=" + q[0].1
    else q[0].0 + "=" + q[0].1 + "&" + FormPairs(q[1..])
  }

  /** `Url::as_str`: scheme, host, path and, when there is one, the query. */
  function Serialize(u: Url): string {
    u.scheme + "://" + HostStr(u.host) + u.path + (if |u.query| == 0 then "" else "?" + FormPairs(u.query))
  }

  /** The small part of JSON needed for request bodies. */
  datatype Json = JStr(s: string) | JInt(i: int) | JObj(fields: seq<(string, Json)>)

  datatype Method = Get | Post

  /** Header names are kept lower-case, as `HeaderName` normalises them. */
  datatype Request = Request(verb: Method, url: Url, headers: seq<(string, string)>, body: Option<Json>)

  /** The headers of `hs` not named `name`, in order. */
  function Without(hs: seq<(string, string)>, name: string): (r: seq<(string, string)>)
    ensures forall p :: p in r <==> p in hs && p.0 != name
    decreases |hs|
  {
    if |hs| == 0 then []
    else if hs[0].0 == name then Without(hs[1..], name)
    else [hs[0]] + Without(hs[1..], name)
  }

  /** The values stored under `name`, in order. */
  function ValuesOf(hs: seq<(string, string)>, name: string): seq<string>
    decreases |hs|
  {
    if |hs| == 0 then []
    else (if hs[0].0 == name then [hs[0].1] else []) + ValuesOf(hs[1..], name)
  }

  /** `HeaderMap::insert`: every earlier value of `name` is dropped and `value` stored. */
  function InsertHeader(hs: seq<(string, string)>, name: string, value: string): seq<(string, string)> {
    Without(hs, name) + [(name, value)]
  }

  /** `HeaderMap::append`: `value` is added after the existing ones. */
  function AppendHeader(hs: seq<(string, string)>, name: string, value: string): seq<(string, string)> {
    hs + [(name, value)]
  }

  lemma {:induction false} ValuesOfConcat(a: seq<(string, string)>, b: seq<(string, string)>, name: string)
    ensures ValuesOf(a + b, name) == ValuesOf(a, name) + ValuesOf(b, name)
    decreases |a|
  {
    if |a| > 0 {
      assert (a + b)[0] == a[0];
      assert (a + b)[1..] == a[1..] + b;
      ValuesOfConcat(a[1..], b, name);
    } else {
      assert a + b == b;
    }
  }

  lemma {:induction false} WithoutConcat(a: seq<(string, string)>, b: seq<(string, string)>, name: string)
    ensures Without(a + b, name) == Without(a, name) + Without(b, name)
    decreases |a|
  {
    if |a| > 0 {
      assert (a + b)[0] == a[0];
      assert (a + b)[1..] == a[1..] + b;
      WithoutConcat(a[1..], b, name);
    } else {
      assert a + b == b;
    }
  }

  lemma {:induction false} WithoutIdempotent(hs: seq<(string, string)>, name: string)
    ensures ValuesOf(Without(hs, name), name) == []
    ensures Without(Without(hs, name), name) == Without(hs, name)
    decreases |hs|
  {
    if |hs| > 0 {
      WithoutIdempotent(hs[1..], name);
      if hs[0].0 != name {
        assert ([hs[0]] + Without(hs[1..], name))[1..] == Without(hs[1..], name);
      }
    }
  }

  /** After an insert, `name` holds exactly the new value and every other header is as before. */
  lemma InsertHeaderReplaces(hs: seq<(string, string)>, name: string, value: string)
    ensures ValuesOf(InsertHeader(hs, name, value), name) == [value]
    ensures Without(InsertHeader(hs, name, value), name) == Without(hs, name)
  {
    WithoutIdempotent(hs, name);
    ValuesOfConcat(Without(hs, name), [(name, value)], name);
    WithoutConcat(Without(hs, name), [(name, value)], name);
    assert ValuesOf([(name, value)], name) == [value];
  }

  /** The error a failed send reports; its text is what the transport prints. */
  datatype TransportError = TransportError(text: string)

  /** What the server sent back: the status, the raw `Set-Cookie` values and the body
      text, whose reading can fail. */
  datatype Reply = Reply(status: nat, setCookie: seq<string>, text: Result<string, string>)

  /** A response as the client sees it: the reply and the URL it answers, which is the
      request URL because redirects are never followed. */
  datatype Response = Response(url: Url, reply: Reply)

  /** What one send attempt of a request produced. */
  datatype Attempt =
    | CloneFailed
    | SendFailed(err: TransportError)
    | Received(reply: Reply)

  /** A cookie store, kept symbolically as the `Set-Cookie` values it was built from. */
  datatype CookieStore = CookieStore(raw: seq<string>)
}
