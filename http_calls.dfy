/** The protocol calls of src/caller/http.rs that go through a client: each builds its
    request, hands it to `execute` and interprets the answer.  The pure halves live in
    module Http; here they are composed with the client's state. */
module HttpCalls {
  import opened Wrappers
  import opened Net
  import opened Errors
  import opened Consts
  import opened Http
  import opened Caller
  import Resp
  import RespLoginInfo
  import Storages
  import RespSyncCheck

  /** Nothing but the jar and the request log is touched by a call through `execute`. */
  ghost predicate SameSettings(s: ClientState, t: ClientState) {
    t.hooks == s.hooks && t.domain == s.domain && t.mode == s.mode
  }

  // ---------------------------------------------------------------------------
  // get_login_uuid

  function GetLoginUuidSpec(s: ClientState, ex: Exchange): (res: (ClientState, Result<string, Error>))
    ensures res.1 == UuidResult(Outcome(ex.attempts))
    ensures SameSettings(s, res.0) && res.0.requests == s.requests + [LoginUuidRequest(s.mode, ex.nowMs)]
  {
    var req := LoginUuidRequest(s.mode, ex.nowMs);
    ExecuteJarEffect(s, req, ex.attempts);
    var (s', r) := ExecuteSpec(s, req, ex.attempts);
    (s', UuidResult(ReplyOf(r)))
  }

  method GetLoginUuid(c: Client, ex: Exchange) returns (r: Result<string, Error>)
    modifies c`cookies, c`requests
    ensures (c.State(), r) == GetLoginUuidSpec(old(c.State()), ex)
  {
    var resp := c.Execute(LoginUuidRequest(c.mode, ex.nowMs), ex.attempts);
    r := UuidResult(ReplyOf(resp));
  }

  // ---------------------------------------------------------------------------
  // check_login

  function CheckLoginSpec(s: ClientState, uuid: string, ex: Exchange)
    : (res: (ClientState, Result<Resp.ResponseCheckLogin, Error>))
    ensures res.1 == CheckLoginResult(Outcome(ex.attempts))
    ensures SameSettings(s, res.0) && res.0.requests == s.requests + [CheckLoginRequest(uuid, ex.nowMs)]
  {
    var req := CheckLoginRequest(uuid, ex.nowMs);
    ExecuteJarEffect(s, req, ex.attempts);
    var (s', r) := ExecuteSpec(s, req, ex.attempts);
    (s', CheckLoginResult(ReplyOf(r)))
  }

  method CheckLogin(c: Client, uuid: string, ex: Exchange) returns (r: Result<Resp.ResponseCheckLogin, Error>)
    modifies c`cookies, c`requests
    ensures (c.State(), r) == CheckLoginSpec(old(c.State()), uuid, ex)
  {
    var resp := c.Execute(CheckLoginRequest(uuid, ex.nowMs), ex.attempts);
    r := CheckLoginResult(ReplyOf(resp));
  }

  // ---------------------------------------------------------------------------
  // get_login_info

  /** The domain `get_login_info` installs: the redirect URI's host when it is a name. */
  function DomainOf(u: Url): (d: Option<Storages.WechatDomain>)
    ensures d.Some? <==> u.host.Domain?
    ensures d.Some? ==> d.value.Display() == HostStr(u.host)
  {
    match u.Domain()
    case None => None
    case Some(n) => Some(Storages.NewDomain(n))
  }

  function GetLoginInfoSpec(s: ClientState, url: string, ex: Exchange,
                            parseUrl: string -> Result<Url, string>,
                            xml: string -> Result<RespLoginInfo.LoginInfo, string>)
    : (ClientState, Result<RespLoginInfo.LoginInfo, Error>)
  {
    match parseUrl(url)
    case Err(e) => (s, Err(Error.GetLoginInfo("解析redirect uri: " + url + " 失败:\n " + e)))
    case Ok(u) =>
      var s1 := s.(domain := DomainOf(u));
      var (s2, r) := ExecuteSpec(s1, LoginInfoRequest(s1.mode, u), ex.attempts);
      (s2, LoginInfoResult(ReplyOf(r), xml))
  }

  /** Once the redirect URI parses, the domain is switched to its host before the request
      is sent, so it stays switched whether or not the call succeeds; a URI that does not
      parse changes nothing.  The answer counts only when it is a 301. */
  lemma GetLoginInfoSwitchesDomainFirst(s: ClientState, url: string, ex: Exchange,
                                        parseUrl: string -> Result<Url, string>,
                                        xml: string -> Result<RespLoginInfo.LoginInfo, string>)
    ensures var (s', r) := GetLoginInfoSpec(s, url, ex, parseUrl, xml);
      (parseUrl(url).Err? ==> s' == s && r == Err(Error.GetLoginInfo("解析redirect uri: " + url + " 失败:\n " + parseUrl(url).error))) &&
      (parseUrl(url).Ok? ==>
        s'.domain == DomainOf(parseUrl(url).value) && s'.mode == s.mode && s'.hooks == s.hooks &&
        s'.requests == s.requests + [LoginInfoRequest(s.mode, parseUrl(url).value)] &&
        r == LoginInfoResult(Outcome(ex.attempts), xml))
  {
    if parseUrl(url).Ok? {
      var u := parseUrl(url).value;
      ExecuteJarEffect(s.(domain := DomainOf(u)), LoginInfoRequest(s.mode, u), ex.attempts);
    }
  }

  /** A successful `get_login_info` means the server answered 301. */
  lemma GetLoginInfoOkMeans301(s: ClientState, url: string, ex: Exchange,
                               parseUrl: string -> Result<Url, string>,
                               xml: string -> Result<RespLoginInfo.LoginInfo, string>)
    requires GetLoginInfoSpec(s, url, ex, parseUrl, xml).1.Ok?
    ensures Outcome(ex.attempts).Ok? && Outcome(ex.attempts).value.status == 301
  {
    GetLoginInfoSwitchesDomainFirst(s, url, ex, parseUrl, xml);
  }

  method GetLoginInfo(c: Client, url: string, ex: Exchange,
                      parseUrl: string -> Result<Url, string>,
                      xml: string -> Result<RespLoginInfo.LoginInfo, string>)
    returns (r: Result<RespLoginInfo.LoginInfo, Error>)
    modifies c`domain, c`cookies, c`requests
    ensures (c.State(), r) == GetLoginInfoSpec(old(c.State()), url, ex, parseUrl, xml)
  {
    match parseUrl(url) {
      case Err(e) =>
        return Err(Error.GetLoginInfo("解析redirect uri: " + url + " 失败:\n " + e));
      case Ok(u) =>
        c.SetDomain(DomainOf(u));
        var resp := c.Execute(LoginInfoRequest(c.mode, u), ex.attempts);
        r := LoginInfoResult(ReplyOf(resp), xml);
    }
  }

  // ---------------------------------------------------------------------------
  // web_wx_status_notify

  function StatusNotifySpec(s: ClientState, b: Storages.BaseRequest, userName: string,
                            info: RespLoginInfo.LoginInfo, ex: Exchange,
                            parseUrl: string -> Result<Url, string>,
                            decode: string -> Option<ResponseWebWxStatusNotify>)
    : (res: (ClientState, Result<(), Error>))
    requires s.domain.Some?
    requires DecodesNotify(Outcome(ex.attempts), decode)
    ensures SameSettings(s, res.0)
    ensures var path := s.domain.value.BaseHost() + WebWxStatusNotify;
      (parseUrl(path).Err? ==> res == (s, Err(Error.StatusNotify("解析url: " + path + " 失败:\n " + parseUrl(path).error)))) &&
      (parseUrl(path).Ok? ==> res.1 == StatusNotifyResult(path, Outcome(ex.attempts), decode))
  {
    var path := s.domain.value.BaseHost() + WebWxStatusNotify;
    match parseUrl(path)
    case Err(e) => (s, Err(Error.StatusNotify("解析url: " + path + " 失败:\n " + e)))
    case Ok(u) =>
      var req := StatusNotifyRequest(u, b, userName, info.passTicket, ex.nowMs);
      ExecuteJarEffect(s, req, ex.attempts);
      var (s', r) := ExecuteSpec(s, req, ex.attempts);
      (s', StatusNotifyResult(path, ReplyOf(r), decode))
  }

  /** A refused notification carries the server's own message. */
  lemma StatusNotifyReportsErrMsg(s: ClientState, b: Storages.BaseRequest, userName: string,
                                  info: RespLoginInfo.LoginInfo, ex: Exchange,
                                  parseUrl: string -> Result<Url, string>,
                                  decode: string -> Option<ResponseWebWxStatusNotify>)
    requires s.domain.Some?
    requires DecodesNotify(Outcome(ex.attempts), decode)
    requires parseUrl(s.domain.value.BaseHost() + WebWxStatusNotify).Ok?
    requires Outcome(ex.attempts).Ok? && Outcome(ex.attempts).value.text.Ok?
    ensures var n := decode(Outcome(ex.attempts).value.text.value).value;
      StatusNotifySpec(s, b, userName, info, ex, parseUrl, decode).1 ==
        if n.baseResponse.IsOk() then Ok(())
        else Err(Error.StatusNotify("web_wx_status_notify失败: " + n.baseResponse.errmsg))
  {
  }

  method StatusNotify(c: Client, b: Storages.BaseRequest, userName: string,
                      info: RespLoginInfo.LoginInfo, ex: Exchange,
                      parseUrl: string -> Result<Url, string>,
                      decode: string -> Option<ResponseWebWxStatusNotify>)
    returns (r: Result<(), Error>)
    requires c.domain.Some?
    requires DecodesNotify(Outcome(ex.attempts), decode)
    modifies c`cookies, c`requests
    ensures (c.State(), r) == StatusNotifySpec(old(c.State()), b, userName, info, ex, parseUrl, decode)
  {
    var path := c.domain.value.BaseHost() + WebWxStatusNotify;
    match parseUrl(path) {
      case Err(e) =>
        return Err(Error.StatusNotify("解析url: " + path + " 失败:\n " + e));
      case Ok(u) =>
        var resp := c.Execute(StatusNotifyRequest(u, b, userName, info.passTicket, ex.nowMs), ex.attempts);
        ExecuteJarEffect(old(c.State()), StatusNotifyRequest(u, b, userName, info.passTicket, ex.nowMs), ex.attempts);
        r := StatusNotifyResult(path, ReplyOf(resp), decode);
    }
  }

  // ---------------------------------------------------------------------------
  // sync_check

  function SyncCheckSpec(s: ClientState, deviceId: string, init: Resp.ResponseWebInit,
                         info: RespLoginInfo.LoginInfo, renderPair: Resp.KVPair -> string,
                         ex: Exchange, parseUrl: string -> Result<Url, string>,
                         capture: string -> Option<seq<string>>)
    : (res: (ClientState, Result<RespSyncCheck.ResponseSyncCheck, Error>))
    requires s.domain.Some?
    ensures SameSettings(s, res.0)
    ensures res.1.Err?
    ensures var path := s.domain.value.BaseHost() + SyncCheckPath;
      (parseUrl(path).Err? ==> res == (s, Err(Error.SyncCheck("解析sync check url: " + path + " 失败:\n " + parseUrl(path).error)))) &&
      (parseUrl(path).Ok? ==>
        res.1 == SyncCheckResult(path, Outcome(ex.attempts), capture) &&
        res.0.requests == s.requests + [SyncCheckRequest(parseUrl(path).value, deviceId, init.syncKey, info, renderPair, ex.nowMs)])
  {
    var path := s.domain.value.BaseHost() + SyncCheckPath;
    match parseUrl(path)
    case Err(e) => (s, Err(Error.SyncCheck("解析sync check url: " + path + " 失败:\n " + e)))
    case Ok(u) =>
      var req := SyncCheckRequest(u, deviceId, init.syncKey, info, renderPair, ex.nowMs);
      ExecuteJarEffect(s, req, ex.attempts);
      var (s', r) := ExecuteSpec(s, req, ex.attempts);
      (s', SyncCheckResult(path, ReplyOf(r), capture))
  }

  method SyncCheck(c: Client, deviceId: string, init: Resp.ResponseWebInit,
                   info: RespLoginInfo.LoginInfo, renderPair: Resp.KVPair -> string,
                   ex: Exchange, parseUrl: string -> Result<Url, string>,
                   capture: string -> Option<seq<string>>)
    returns (r: Result<RespSyncCheck.ResponseSyncCheck, Error>)
    requires c.domain.Some?
    modifies c`cookies, c`requests
    ensures r.Err?
    ensures (c.State(), r) == SyncCheckSpec(old(c.State()), deviceId, init, info, renderPair, ex, parseUrl, capture)
  {
    var path := c.domain.value.BaseHost() + SyncCheckPath;
    match parseUrl(path) {
      case Err(e) =>
        return Err(Error.SyncCheck("解析sync check url: " + path + " 失败:\n " + e));
      case Ok(u) =>
        var req := SyncCheckRequest(u, deviceId, init.syncKey, info, renderPair, ex.nowMs);
        var resp := c.Execute(req, ex.attempts);
        ExecuteJarEffect(old(c.State()), req, ex.attempts);
        r := SyncCheckResult(path, ReplyOf(resp), capture);
    }
  }
}
