/** The HTTP client (src/caller/client.rs): an ordered list of request hooks, the service
    domain, a cookie jar keyed by `scheme://host/path`, the client mode, and the bounded
    retry loop every request goes through. */
module Caller {
  import opened Wrappers
  import opened Net
  import opened Errors
  import opened Consts
  import Fmt
  import Resp
  import Storages
  import opened Http

  const UserAgent :=
    "Mozilla/5.0 (Macintosh; Intel Mac OS X 10_15_7) AppleWebKit/537.36 (KHTML, like Gecko) Chrome/89.0.4389.114 Safari/537.36"

  /** A request hook.  Only `UserAgentHook` is defined by the crate; any other hook is a
      foreign rewrite of the outgoing request.  After-response hooks have no effect the
      client can observe. */
  datatype Hook = UserAgentHook | Custom(before: Request -> Request)

  function BeforeRequest(h: Hook, req: Request): Request {
    match h
    case UserAgentHook => req.(headers := InsertHeader(req.headers, "user-agent", UserAgent))
    case Custom(f) => f(req)
  }

  /** The request after every hook in `hs` has rewritten it, first hook first. */
  function ApplyBefore(hs: seq<Hook>, req: Request): Request
    decreases |hs|
  {
    if |hs| == 0 then req else BeforeRequest(hs[|hs| - 1], ApplyBefore(hs[..|hs| - 1], req))
  }

  /** Hooks registered later rewrite the request after those registered earlier. */
  lemma {:induction false} ApplyBeforeConcat(a: seq<Hook>, b: seq<Hook>, req: Request)
    ensures ApplyBefore(a + b, req) == ApplyBefore(b, ApplyBefore(a, req))
    decreases |b|
  {
    if |b| == 0 {
      assert a + b == a;
    } else {
      assert (a + b)[..|a + b| - 1] == a + b[..|b| - 1];
      ApplyBeforeConcat(a, b[..|b| - 1], req);
    }
  }

  /** The user-agent hook leaves exactly one `User-Agent` value, its own, and every other
      header as it was. */
  lemma UserAgentHookReplaces(req: Request)
    ensures ValuesOf(ApplyBefore([UserAgentHook], req).headers, "user-agent") == [UserAgent]
    ensures Without(ApplyBefore([UserAgentHook], req).headers, "user-agent") == Without(req.headers, "user-agent")
    ensures ApplyBefore([UserAgentHook], req).url == req.url
  {
    InsertHeaderReplaces(req.headers, "user-agent", UserAgent);
  }

  function HookList(h: Option<seq<Hook>>): seq<Hook> {
    if h.Some? then h.value else []
  }

  // ---------------------------------------------------------------------------
  // The retry loop.  The network is a script: what each of the MaxRetry attempts
  // would produce if it were made.

  const MaxRetry: nat := 3

  type Script = a: seq<Attempt> | |a| == MaxRetry witness [CloneFailed, CloneFailed, CloneFailed]

  /** One protocol call's view of the world: the clock reading in milliseconds and the
      attempt script. */
  datatype Exchange = Exchange(nowMs: nat, attempts: Script)

  /** The first attempt from `i` on that ends the loop (a clone failure or a reply), or
      `|a|` when every remaining send fails. */
  function Settled(a: seq<Attempt>, i: nat): (k: nat)
    requires i <= |a|
    ensures i <= k <= |a|
    ensures forall j :: i <= j < k ==> a[j].SendFailed?
    ensures k < |a| ==> !a[k].SendFailed?
    decreases |a| - i
  {
    if i == |a| || !a[i].SendFailed? then i else Settled(a, i + 1)
  }

  /** What the loop returns, in closed form: a reply only when the very first attempt got
      one; otherwise the clone failure, or the error of the last failed send. */
  function Outcome(a: Script): Result<Reply, Error> {
    var k := Settled(a, 0);
    if k == MaxRetry then Err(Reqwest(a[MaxRetry - 1].err))
    else if a[k].CloneFailed? then Err(RequestClone)
    else if k == 0 then Ok(a[0].reply)
    else Err(Reqwest(a[k - 1].err))
  }

  /** How many times the request goes on the wire. */
  function SendsMade(a: Script): nat {
    var k := Settled(a, 0);
    if k == MaxRetry then MaxRetry else if a[k].CloneFailed? then k else k + 1
  }

  /** The call succeeds exactly when the first send gets a reply. */
  lemma OutcomeOkIffFirstReply(a: Script)
    ensures Outcome(a).Ok? <==> a[0].Received?
    ensures Outcome(a).Ok? ==> Outcome(a) == Ok(a[0].reply) && SendsMade(a) == 1
  {
  }

  /** A reply after failed sends is discarded: the call reports the last send's error. */
  lemma LaterReplyStillFails(a: Script, k: nat)
    requires 0 < k < MaxRetry && a[k].Received?
    requires forall j :: 0 <= j < k ==> a[j].SendFailed?
    ensures Outcome(a) == Err(Reqwest(a[k - 1].err))
    ensures SendsMade(a) == k + 1
  {
  }

  /** When every send fails, all MaxRetry are made and the last error is reported. */
  lemma AllSendsFail(a: Script)
    requires forall j :: 0 <= j < MaxRetry ==> a[j].SendFailed?
    ensures Outcome(a) == Err(Reqwest(a[MaxRetry - 1].err))
    ensures SendsMade(a) == MaxRetry
  {
  }

  /** A request that cannot be cloned ends the loop at once. */
  lemma CloneFailureStops(a: Script, k: nat)
    requires k < MaxRetry && a[k].CloneFailed?
    requires forall j :: 0 <= j < k ==> a[j].SendFailed?
    ensures Outcome(a) == Err(RequestClone)
    ensures SendsMade(a) == k
  {
  }

  /** The loop never sends more than MaxRetry times and stops after the first reply. */
  lemma SendsBounded(a: Script)
    ensures SendsMade(a) <= MaxRetry
    ensures forall j :: 0 <= j < SendsMade(a) - 1 ==> a[j].SendFailed?
  {
  }

  /** What the transport was handed: hooks before the first attempt, the sends, and the
      after-response hooks only when the call succeeds. */
  datatype Event = Before(hook: nat) | Send(attempt: nat) | After(hook: nat)

  function Trace(hooks: nat, a: Script): seq<Event> {
    seq(hooks, i requires 0 <= i => Before(i)) + seq(SendsMade(a), i requires 0 <= i => Send(i)) +
    (if Outcome(a).Ok? then seq(hooks, i requires 0 <= i => After(i)) else [])
  }

  function DoHttpSpec(wire: Request, a: Script): Result<Response, Error> {
    match Outcome(a)
    case Err(e) => Err(e)
    case Ok(reply) => Ok(Response(wire.url, reply))
  }

  function ReplyOf(r: Result<Response, Error>): Result<Reply, Error> {
    match r
    case Err(e) => Err(e)
    case Ok(resp) => Ok(resp.reply)
  }

  // ---------------------------------------------------------------------------
  // The cookie jar.

  /** `format!("{}://{}{}", scheme, host, path)` of the response URL. */
  function JarKey(u: Url): string {
    u.scheme + "://" + HostStr(u.host) + u.path
  }

  /** The store built from one response's `Set-Cookie` values (possibly none). */
  function StoreOf(resp: Response): CookieStore {
    CookieStore(resp.reply.setCookie)
  }

  function JarAfter(jar: map<string, CookieStore>, r: Result<Response, Error>): map<string, CookieStore> {
    if r.Ok? then jar[JarKey(r.value.url) := StoreOf(r.value)] else jar
  }

  /** The query does not take part in the key: answers to one endpoint share a key. */
  lemma JarKeyIgnoresQuery(u: Url, q: seq<(string, string)>)
    ensures JarKey(u.(query := q)) == JarKey(u)
  {
  }

  /** Within one origin, two URLs share a key exactly when they share a path. */
  lemma JarKeySeparatesPaths(u: Url, v: Url)
    requires u.scheme == v.scheme && u.host == v.host
    ensures JarKey(u) == JarKey(v) <==> u.path == v.path
  {
    var p := u.scheme + "://" + HostStr(u.host);
    assert JarKey(u) == p + u.path && JarKey(v) == p + v.path;
    assert JarKey(u)[|p|..] == u.path && JarKey(v)[|p|..] == v.path;
  }

  /** Everything of a client the model observes; `requests` lists every request handed
      to `execute`, in order. */
  datatype ClientState = ClientState(
    hooks: Option<seq<Hook>>,
    domain: Option<Storages.WechatDomain>,
    cookies: map<string, CookieStore>,
    mode: Mode,
    requests: seq<Request>)

  function ExecuteSpec(s: ClientState, req: Request, a: Script): (ClientState, Result<Response, Error>) {
    var r := DoHttpSpec(ApplyBefore(HookList(s.hooks), req), a);
    (s.(cookies := JarAfter(s.cookies, r), requests := s.requests + [req]), r)
  }

  /** A successful request overwrites exactly its own jar key, even with an empty store;
      a failed one leaves the jar alone.  Nothing but the jar and the log changes, and the
      result depends only on the attempts. */
  lemma ExecuteJarEffect(s: ClientState, req: Request, a: Script)
    ensures var (s', r) := ExecuteSpec(s, req, a);
      ReplyOf(r) == Outcome(a) &&
      s'.hooks == s.hooks && s'.domain == s.domain && s'.mode == s.mode &&
      s'.requests == s.requests + [req] &&
      (r.Err? ==> s'.cookies == s.cookies) &&
      (r.Ok? ==> r.value.url == ApplyBefore(HookList(s.hooks), req).url &&
                 s'.cookies.Keys == s.cookies.Keys + {JarKey(r.value.url)} &&
                 s'.cookies[JarKey(r.value.url)] == CookieStore(r.value.reply.setCookie) &&
                 forall k :: k in s.cookies && k != JarKey(r.value.url) ==> s'.cookies[k] == s.cookies[k])
  {
  }

  /** Only a foreign hook could change where a request goes; the crate's own cannot. */
  lemma {:induction false} HooksKeepUrl(hs: seq<Hook>, req: Request)
    requires forall i :: 0 <= i < |hs| ==> hs[i] == UserAgentHook
    ensures ApplyBefore(hs, req).url == req.url
    decreases |hs|
  {
    if |hs| > 0 {
      HooksKeepUrl(hs[..|hs| - 1], req);
    }
  }

  // ---------------------------------------------------------------------------
  // web_init

  function WebInitRequest(u: Url, b: Storages.BaseRequest, nowMs: nat): Request {
    Request(Post, u.AppendPair("_", Fmt.NatToString(nowMs / 1000)),
            AppendHeader([], "content-type", JsonContentType), Some(Storages.BaseRequestToJson(b)))
  }

  /** `.json()` of the answer: reading or decoding failures become a `WebInit` error. */
  function WebInitResult(r: Result<Reply, Error>, decode: string -> Result<Resp.ResponseWebInit, string>)
    : (w: Result<Resp.ResponseWebInit, Error>)
    ensures r.Err? ==> w == Err(r.error)
    ensures w.Ok? <==> r.Ok? && r.value.text.Ok? && decode(r.value.text.value).Ok?
    ensures w.Ok? ==> w.value == decode(r.value.text.value).value
    ensures r.Ok? && w.Err? ==> w.error.WebInit?
  {
    match r
    case Err(e) => Err(e)
    case Ok(reply) =>
      match reply.text
      case Err(t) => Err(WebInit("解析web init数据失败: " + t))
      case Ok(text) =>
        match decode(text)
        case Err(m) => Err(WebInit("解析web init数据失败: " + m))
        case Ok(resp) => Ok(resp)
  }

  function WebInitSpec(s: ClientState, b: Storages.BaseRequest, ex: Exchange,
                       parseUrl: string -> Result<Url, string>,
                       decode: string -> Result<Resp.ResponseWebInit, string>)
    : (ClientState, Result<Resp.ResponseWebInit, Error>)
  {
    if s.domain.None? then (s, Err(WebInit("no domain")))
    else
      var text := s.domain.value.BaseHost() + WebWxInit;
      match parseUrl(text)
      case Err(e) => (s, Err(WebInit("解析初始化url: " + text + " 失败: " + e)))
      case Ok(u) =>
        var (s', r) := ExecuteSpec(s, WebInitRequest(u, b, ex.nowMs), ex.attempts);
        (s', WebInitResult(ReplyOf(r), decode))
  }

  /** Without a domain `web_init` fails before any request is made. */
  lemma WebInitNeedsDomain(s: ClientState, b: Storages.BaseRequest, ex: Exchange,
                           parseUrl: string -> Result<Url, string>,
                           decode: string -> Result<Resp.ResponseWebInit, string>)
    requires s.domain.None?
    ensures WebInitSpec(s, b, ex, parseUrl, decode) == (s, Err(WebInit("no domain")))
  {
  }

  /** With a domain that parses, `web_init` posts the base request to that domain's init
      endpoint, stamped with the time in seconds. */
  lemma WebInitPostsBaseRequest(s: ClientState, b: Storages.BaseRequest, ex: Exchange,
                                parseUrl: string -> Result<Url, string>,
                                decode: string -> Result<Resp.ResponseWebInit, string>)
    requires s.domain.Some? && parseUrl(s.domain.value.BaseHost() + WebWxInit).Ok?
    ensures var s' := WebInitSpec(s, b, ex, parseUrl, decode).0;
      |s'.requests| == |s.requests| + 1 &&
      s'.requests[|s.requests|].verb == Post &&
      s'.requests[|s.requests|].body == Some(Storages.BaseRequestToJson(b)) &&
      Lookup(s'.requests[|s.requests|].url.query, "_") ==
        (if "_" in Keys(parseUrl(s.domain.value.BaseHost() + WebWxInit).value.query)
         then Lookup(parseUrl(s.domain.value.BaseHost() + WebWxInit).value.query, "_")
         else Some(Fmt.NatToString(ex.nowMs / 1000)))
  {
    var u := parseUrl(s.domain.value.BaseHost() + WebWxInit).value;
    var q := u.AppendPair("_", Fmt.NatToString(ex.nowMs / 1000)).query;
    if "_" !in Keys(u.query) {
      assert Keys(q) == Keys(u.query) + ["_"];
      LookupFirst(q, |u.query|, "_");
    } else {
      LookupPrefix(u.query, [("_", Fmt.NatToString(ex.nowMs / 1000))], "_");
    }
  }

  /** Appending pairs does not change what an existing key looks up to. */
  lemma {:induction false} LookupPrefix(q: seq<(string, string)>, more: seq<(string, string)>, key: string)
    requires key in Keys(q)
    ensures Lookup(q + more, key) == Lookup(q, key)
    decreases |q|
  {
    assert (q + more)[0] == q[0];
    if q[0].0 != key {
      assert Keys(q) == [q[0].0] + Keys(q[1..]);
      assert (q + more)[1..] == q[1..] + more;
      LookupPrefix(q[1..], more, key);
    }
  }

  // ---------------------------------------------------------------------------

  class Client {
    var hooks: Option<seq<Hook>>
    var domain: Option<Storages.WechatDomain>
    var cookies: map<string, CookieStore>
    var mode: Mode
    ghost var requests: seq<Request>

    ghost function State(): ClientState
      reads this
    {
      ClientState(hooks, domain, cookies, mode, requests)
    }

    /** `Client::new`: no hooks, no domain, an empty jar. */
    constructor (mode: Mode)
      ensures State() == ClientState(None, None, map[], mode, [])
    {
      hooks := None;
      domain := None;
      cookies := map[];
      this.mode := mode;
      requests := [];
    }

    /** `Client::default`: normal mode with the user-agent hook installed. */
    constructor Default()
      ensures State() == ClientState(Some([UserAgentHook]), None, map[], Normal, [])
    {
      hooks := None;
      domain := None;
      cookies := map[];
      mode := Normal;
      requests := [];
      new;
      AddHttpHook([UserAgentHook]);
      assert HookList(None) + [UserAgentHook] == [UserAgentHook];
    }

    method SetMode(m: Mode)
      modifies this`mode
      ensures mode == m
    {
      mode := m;
    }

    method SetDomain(d: Option<Storages.WechatDomain>)
      modifies this`domain
      ensures domain == d
    {
      domain := d;
    }

    method GetDomain() returns (d: Option<Storages.WechatDomain>)
      ensures d == domain
    {
      d := domain;
    }

    /** Extends the hook list, keeping order, or installs it when there is none. */
    method AddHttpHook(hs: seq<Hook>)
      modifies this`hooks
      ensures hooks == Some(HookList(old(hooks)) + hs)
    {
      if hooks.Some? {
        hooks := Some(hooks.value + hs);
      } else {
        assert [] + hs == hs;
        hooks := Some(hs);
      }
    }

    /** `do_http`: the hooks rewrite the request, then up to MaxRetry attempts are made. */
    method DoHttp(req: Request, a: Script) returns (r: Result<Response, Error>, sent: nat, trace: seq<Event>)
      ensures r == DoHttpSpec(ApplyBefore(HookList(hooks), req), a)
      ensures sent == SendsMade(a) && sent <= MaxRetry
      ensures trace == Trace(|HookList(hooks)|, a)
    {
      var hs := HookList(hooks);
      var wire := req;
      trace := [];
      for i := 0 to |hs|
        invariant wire == ApplyBefore(hs[..i], req)
        invariant trace == seq(i, j requires 0 <= j => Before(j))
      {
        assert hs[..i + 1][..i] == hs[..i];
        wire := BeforeRequest(hs[i], wire);
        trace := trace + [Before(i)];
      }
      assert hs[..|hs|] == hs;
      ghost var befores := trace;

      var resp: Option<Reply> := None;
      var err: Option<TransportError> := None;
      sent := 0;
      var i: nat := 0;
      while i < MaxRetry
        invariant i <= MaxRetry
        invariant resp.None?
        invariant forall j :: 0 <= j < i ==> a[j].SendFailed?
        invariant err == if i == 0 then None else Some(a[i - 1].err)
        invariant sent == i
        invariant trace == befores + seq(i, j requires 0 <= j => Send(j))
      {
        match a[i] {
        case CloneFailed =>
          assert Settled(a, 0) == i;
          r := Err(RequestClone);
          return;
        case SendFailed(e) =>
          sent := sent + 1;
          trace := trace + [Send(i)];
          err := Some(e);
        case Received(reply) =>
          sent := sent + 1;
          trace := trace + [Send(i)];
          resp := Some(reply);
          assert Settled(a, 0) == i;
          break;
        }
        i := i + 1;
      }

      if err.Some? {
        r := Err(Reqwest(err.value));
      } else {
        assert i == 0;
        for h := 0 to |hs|
          invariant trace == befores + [Send(0)] + seq(h, j requires 0 <= j => After(j))
        {
          trace := trace + [After(h)];
        }
        r := Ok(Response(wire.url, resp.value));
      }
    }

    /** Stores a fresh store for the response's own key, overwriting what was there. */
    method ParseCookies(resp: Response)
      modifies this`cookies
      ensures cookies == old(cookies)[JarKey(resp.url) := StoreOf(resp)]
    {
      cookies := cookies[JarKey(resp.url) := StoreOf(resp)];
    }

    method AddCookies(url: string, store: CookieStore)
      modifies this`cookies
      ensures cookies == old(cookies)[url := store]
    {
      cookies := cookies[url := store];
    }

    /** `get_coookies`: a copy of the whole jar. */
    method GetCookies() returns (jar: map<string, CookieStore>)
      ensures jar == cookies
    {
      jar := cookies;
    }

    /** `execute`: the request through `do_http`; the jar is updated only on success. */
    method Execute(req: Request, a: Script) returns (r: Result<Response, Error>)
      modifies this`cookies, this`requests
      ensures (State(), r) == ExecuteSpec(old(State()), req, a)
    {
      requests := requests + [req];
      var resp, _, _ := DoHttp(req, a);
      if resp.Err? {
        return Err(resp.error);
      }
      ParseCookies(resp.value);
      r := resp;
    }

    method WebInit(b: Storages.BaseRequest, ex: Exchange,
                   parseUrl: string -> Result<Url, string>,
                   decode: string -> Result<Resp.ResponseWebInit, string>)
      returns (r: Result<Resp.ResponseWebInit, Error>)
      modifies this`cookies, this`requests
      ensures (State(), r) == WebInitSpec(old(State()), b, ex, parseUrl, decode)
    {
      if domain.None? {
        return Err(Error.WebInit("no domain"));
      }
      var text := domain.value.BaseHost() + WebWxInit;
      match parseUrl(text) {
        case Err(e) =>
          return Err(Error.WebInit("解析初始化url: " + text + " 失败: " + e));
        case Ok(u) =>
          var resp := Execute(WebInitRequest(u, b, ex.nowMs), ex.attempts);
          r := WebInitResult(ReplyOf(resp), decode);
      }
    }
  }
}
