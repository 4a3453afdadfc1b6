/** The decision logic of the protocol calls (src/caller/http.rs): the client mode,
    how each call builds its request, and how each call turns the transport's answer
    into its result.  The calls themselves, which go through a `Client`, are in
    `HttpCalls`. */
module Http {
  import opened Wrappers
  import opened Net
  import opened Consts
  import opened Errors
  import Fmt
  import Resp
  import RespLoginInfo
  import Storages
  import RespSyncCheck

  datatype Mode = Normal | Desktop

  const ModeNormal := "normal"
  const ModeDesktop := "desktop"

  function AsStr(m: Mode): (s: string)
    ensures s == ModeNormal <==> m == Normal
    ensures s == ModeDesktop <==> m == Desktop
  {
    match m
    case Normal => ModeNormal
    case Desktop => ModeDesktop
  }

  // ---------------------------------------------------------------------------
  // Query lists.

  function Keys(q: seq<(string, string)>): (ks: seq<string>)
    ensures |ks| == |q| && forall i :: 0 <= i < |q| ==> ks[i] == q[i].0
  {
    seq(|q|, i requires 0 <= i < |q| => q[i].0)
  }

  /** The value of the first pair named `key`. */
  function Lookup(q: seq<(string, string)>, key: string): (v: Option<string>)
    ensures v.None? <==> key !in Keys(q)
    ensures v.Some? ==> exists i :: 0 <= i < |q| && q[i] == (key, v.value)
    decreases |q|
  {
    if |q| == 0 then None
    else if q[0].0 == key then Some(q[0].1)
    else
      var v := Lookup(q[1..], key);
      assert Keys(q) == [q[0].0] + Keys(q[1..]);
      assert v.Some? ==> exists i :: 0 <= i < |q[1..]| && q[1..][i] == (key, v.value);
      v
  }

  /** The pair found is the first one carrying the key. */
  lemma {:induction false} LookupFirst(q: seq<(string, string)>, i: nat, key: string)
    requires i < |q| && q[i].0 == key
    requires forall j :: 0 <= j < i ==> q[j].0 != key
    ensures Lookup(q, key) == Some(q[i].1)
    decreases i
  {
    if i > 0 {
      LookupFirst(q[1..], i - 1, key);
    }
  }

  // ---------------------------------------------------------------------------
  // get_login_uuid

  /** The page the QR login redirects to; the desktop mode adds its name. */
  function LoginRedirectUrl(mode: Mode): Url {
    if mode == Desktop then NewLoginPageUrl.AppendPair("mod", AsStr(mode)) else NewLoginPageUrl
  }

  function LoginUuidRequest(mode: Mode, nowMs: nat): Request {
    var u := JsLoginUrl
      .AppendPair("redirect_uri", Serialize(LoginRedirectUrl(mode)))
      .AppendPair("appid", AppId)
      .AppendPair("fun", "new")
      .AppendPair("lang", "zh_CN")
      .AppendPair("_", Fmt.NatToString(nowMs));
    Request(Get, if mode == Desktop then u.AppendPair("mod", ModeDesktop) else u, [], None)
  }

  /** The uuid query names its parameters in a fixed order, with `mod` last and only in
      desktop mode. */
  lemma LoginUuidQuery(mode: Mode, nowMs: nat)
    ensures Keys(LoginUuidRequest(mode, nowMs).url.query)
            == ["redirect_uri", "appid", "fun", "lang", "_"] + (if mode == Desktop then ["mod"] else [])
    ensures LoginUuidRequest(mode, nowMs).url.query[0] == ("redirect_uri", Serialize(LoginRedirectUrl(mode)))
    ensures LoginUuidRequest(mode, nowMs).url.query[1..4] == [("appid", AppId), ("fun", "new"), ("lang", "zh_CN")]
    ensures LoginUuidRequest(mode, nowMs).url.query[4] == ("_", Fmt.NatToString(nowMs))
    ensures mode == Desktop ==> LoginUuidRequest(mode, nowMs).url.query[5] == ("mod", ModeDesktop)
    ensures LoginUuidRequest(mode, nowMs).url.path == JsLoginUrl.path
  {
    var q := LoginUuidRequest(mode, nowMs).url.query;
    var base := [("redirect_uri", Serialize(LoginRedirectUrl(mode))), ("appid", AppId), ("fun", "new"),
                 ("lang", "zh_CN"), ("_", Fmt.NatToString(nowMs))];
    if mode == Desktop {
      assert q == base + [("mod", ModeDesktop)];
    } else {
      assert q == base;
    }
  }

  /** `mod=desktop` goes into both the redirect URL and the uuid query in desktop mode, and
      into neither in normal mode. */
  lemma LoginUuidModParameter(mode: Mode, nowMs: nat)
    ensures Lookup(LoginUuidRequest(mode, nowMs).url.query, "mod") == (if mode == Desktop then Some(ModeDesktop) else None)
    ensures Lookup(LoginRedirectUrl(mode).query, "mod") == (if mode == Desktop then Some(ModeDesktop) else None)
  {
    LoginUuidQuery(mode, nowMs);
    var q := LoginUuidRequest(mode, nowMs).url.query;
    var ks := Keys(q);
    if mode == Desktop {
      assert LoginRedirectUrl(mode).query == [("mod", ModeDesktop)];
      LookupFirst(LoginRedirectUrl(mode).query, 0, "mod");
      assert forall j :: 0 <= j < 5 ==> q[j].0 == ks[j] != "mod";
      LookupFirst(q, 5, "mod");
    } else {
      assert "mod" !in ks;
    }
  }

  /** `get_login_uuid` after the request: the first uuid capture of the body, or an error. */
  function UuidResult(r: Result<Reply, Error>): (u: Result<string, Error>)
    ensures r.Err? ==> u == Err(GetLoginUuid("请求url: " + JsLogin + " 失败:\n " + Display(r.error)))
    ensures r.Ok? && r.value.text.Err? ==>
      u == Err(GetLoginUuid("解析请求url: " + JsLogin + " 的响应数据失败:\n " + r.value.text.error))
    ensures u.Ok? <==> r.Ok? && r.value.text.Ok? && CaptureUuid(r.value.text.value).Some?
    ensures u.Ok? ==> u.value == CaptureUuid(r.value.text.value).value
    ensures r.Ok? && r.value.text.Ok? && u.Err? ==>
      u == Err(GetLoginUuid("从响应数据" + r.value.text.value + "中解析UUID数据失败"))
  {
    match r
    case Err(e) => Err(GetLoginUuid("请求url: " + JsLogin + " 失败:\n " + Display(e)))
    case Ok(reply) =>
      match reply.text
      case Err(t) => Err(GetLoginUuid("解析请求url: " + JsLogin + " 的响应数据失败:\n " + t))
      case Ok(text) =>
        match CaptureUuid(text)
        case None => Err(GetLoginUuid("从响应数据" + text + "中解析UUID数据失败"))
        case Some(uuid) => Ok(uuid)
  }

  // ---------------------------------------------------------------------------
  // check_login

  function CheckLoginRequest(uuid: string, nowMs: nat): Request {
    var u := LoginUrl
      .AppendPair("loginicon", "true")
      .AppendPair("uuid", uuid)
      .AppendPair("tip", "0")
      .AppendPair("r", Fmt.NatToString(nowMs / 1579))
      .AppendPair("_", Fmt.NatToString(nowMs));
    Request(Get, u, [], None)
  }

  lemma CheckLoginQuery(uuid: string, nowMs: nat)
    ensures Keys(CheckLoginRequest(uuid, nowMs).url.query) == ["loginicon", "uuid", "tip", "r", "_"]
    ensures Lookup(CheckLoginRequest(uuid, nowMs).url.query, "uuid") == Some(uuid)
    ensures Lookup(CheckLoginRequest(uuid, nowMs).url.query, "r") == Some(Fmt.NatToString(nowMs / 1579))
  {
    var q := CheckLoginRequest(uuid, nowMs).url.query;
    assert Keys(q) == ["loginicon", "uuid", "tip", "r", "_"];
  }

  /** The status a captured code stands for; codes other than the four known ones are kept. */
  function MapStatus(code: string): (s: Status) {
    if code == StatusCodeSuccess then Success
    else if code == StatusCodeScanned then Scanned
    else if code == StatusCodeTimeout then Timeout
    else if code == StatusCodeWait then Wait
    else Unknown(code)
  }

  /** The code each status is reported under. */
  function CodeOf(s: Status): string {
    match s
    case Success => StatusCodeSuccess
    case Scanned => StatusCodeScanned
    case Timeout => StatusCodeTimeout
    case Wait => StatusCodeWait
    case Unknown(c) => c
  }

  predicate IsKnownCode(code: string) {
    code == StatusCodeSuccess || code == StatusCodeScanned || code == StatusCodeTimeout || code == StatusCodeWait
  }

  /** Mapping loses nothing: the code can be read back from the status. */
  lemma MapStatusKeepsCode(code: string)
    ensures CodeOf(MapStatus(code)) == code
    ensures MapStatus(code).Unknown? <==> !IsKnownCode(code)
  {
  }

  /** Every status whose code is not shadowed by a known one is what its code maps to. */
  lemma MapStatusInverse(s: Status)
    requires s.Unknown? ==> !IsKnownCode(s.code)
    ensures MapStatus(CodeOf(s)) == s
  {
  }

  /** `check_login` after the request: the mapped status of the first code capture and the
      untouched body. */
  function CheckLoginResult(r: Result<Reply, Error>): (c: Result<Resp.ResponseCheckLogin, Error>)
    ensures r.Err? ==> c == Err(GetLoginUuid("请求url: " + Login + " 失败:\n " + Display(r.error)))
    ensures r.Ok? && r.value.text.Err? ==>
      c == Err(GetLoginUuid("解析请求url: " + Login + " 的响应数据失败:\n " + r.value.text.error))
    ensures c.Ok? <==> r.Ok? && r.value.text.Ok? && CaptureStatusCode(r.value.text.value).Some?
    ensures c.Ok? ==> c.value.raw == r.value.text.value
    ensures c.Ok? ==> CodeOf(c.value.status) == CaptureStatusCode(r.value.text.value).value
    ensures c.Ok? ==> c.value.status == MapStatus(CaptureStatusCode(r.value.text.value).value)
    ensures r.Ok? && r.value.text.Ok? && c.Err? ==>
      c == Err(GetLoginUuid("从响应数据" + r.value.text.value + "中解析status code数据失败"))
  {
    match r
    case Err(e) => Err(GetLoginUuid("请求url: " + Login + " 失败:\n " + Display(e)))
    case Ok(reply) =>
      match reply.text
      case Err(t) => Err(GetLoginUuid("解析请求url: " + Login + " 的响应数据失败:\n " + t))
      case Ok(text) =>
        match CaptureStatusCode(text)
        case None => Err(GetLoginUuid("从响应数据" + text + "中解析status code数据失败"))
        case Some(code) =>
          MapStatusKeepsCode(code);
          Ok(Resp.ResponseCheckLogin(MapStatus(code), text))
  }

  /** A poll answer `window.code=201;` reads as "scanned". */
  lemma CheckLoginScannedExample(setCookie: seq<string>)
    ensures CheckLoginResult(Ok(Reply(200, setCookie, Ok("window.code=201;"))))
            == Ok(Resp.ResponseCheckLogin(Scanned, "window.code=201;"))
  {
    StatusCodeExample();
  }

  // ---------------------------------------------------------------------------
  // get_login_info

  /** Desktop mode presents the UOS client's version and extspam headers. */
  function LoginInfoRequest(mode: Mode, u: Url): Request {
    var hs := if mode == Desktop then
      AppendHeader(AppendHeader([], "client-version", UosPatchClientVersion), "extspam", UosPatchExtspam)
    else [];
    Request(Get, u, hs, None)
  }

  lemma LoginInfoHeaders(mode: Mode, u: Url)
    ensures mode == Normal ==> LoginInfoRequest(mode, u).headers == []
    ensures mode == Desktop ==> Keys(LoginInfoRequest(mode, u).headers) == ["client-version", "extspam"]
    ensures mode == Desktop ==> ValuesOf(LoginInfoRequest(mode, u).headers, "extspam") == [UosPatchExtspam]
    ensures LoginInfoRequest(mode, u).url == u
  {
    if mode == Desktop {
      var hs := LoginInfoRequest(mode, u).headers;
      assert hs == [("client-version", UosPatchClientVersion), ("extspam", UosPatchExtspam)];
      assert hs[1..] == [("extspam", UosPatchExtspam)] && hs[1..][1..] == [];
      assert ValuesOf(hs[1..][1..], "extspam") == [];
      assert ValuesOf(hs[1..], "extspam") == [UosPatchExtspam];
    }
  }

  /** The message of the refusal: the text of `Forbidden` followed by a hint. */
  const ForbiddenHint := Display(Forbidden) + ": try to login with Desktop Mode"

  /** `get_login_info` after the request: only a 301 answer has its body decoded. */
  function LoginInfoResult(r: Result<Reply, Error>, xml: string -> Result<RespLoginInfo.LoginInfo, string>)
    : (l: Result<RespLoginInfo.LoginInfo, Error>)
    ensures r.Err? ==> l == Err(r.error)
    ensures r.Ok? && r.value.status != 301 ==> l == Err(GetLoginInfo(ForbiddenHint))
    ensures l.Ok? ==> r.Ok? && r.value.status == 301 && r.value.text.Ok? && xml(r.value.text.value) == Ok(l.value)
    ensures r.Ok? && r.value.status == 301 && r.value.text.Err? ==>
      l == Err(GetLoginInfo("解析响应失败:\n " + r.value.text.error))
    ensures r.Ok? && r.value.status == 301 && r.value.text.Ok? && xml(r.value.text.value).Err? ==>
      l == Err(GetLoginInfo("解析响应失败:\n " + xml(r.value.text.value).error))
  {
    match r
    case Err(e) => Err(e)
    case Ok(reply) =>
      if reply.status != 301 then Err(GetLoginInfo(ForbiddenHint))
      else match reply.text
        case Err(t) => Err(GetLoginInfo("解析响应失败:\n " + t))
        case Ok(text) =>
          match xml(text)
          case Err(x) => Err(GetLoginInfo("解析响应失败:\n " + x))
          case Ok(info) => Ok(info)
  }

  /** Without a 301 the answer is refused whatever its body and cookies are. */
  lemma LoginInfoIgnoresBodyUnless301(a: Reply, b: Reply, xml: string -> Result<RespLoginInfo.LoginInfo, string>)
    requires a.status == b.status && a.status != 301
    ensures LoginInfoResult(Ok(a), xml) == LoginInfoResult(Ok(b), xml)
    ensures LoginInfoResult(Ok(a), xml).Err? && LoginInfoResult(Ok(a), xml).error.GetLoginInfo?
  {
  }

  // ---------------------------------------------------------------------------
  // web_wx_status_notify

  datatype ResponseWebWxStatusNotify = ResponseWebWxStatusNotify(baseResponse: Resp.BaseResponse, msgId: string)

  function StatusNotifyRequest(u: Url, b: Storages.BaseRequest, userName: string, passTicket: string, nowMs: nat)
    : Request
  {
    var body := JObj([
      ("BaseRequest", Storages.BaseRequestToJson(b)),
      ("ClientMsgId", JInt(nowMs / 1000)),
      ("Code", JInt(3)),
      ("FromUserName", JStr(userName)),
      ("ToUserName", JStr(userName))]);
    Request(Post, u.AppendPair("lang", "zh_CN").AppendPair("pass_ticket", passTicket),
            AppendHeader([], "content-type", JsonContentType), Some(body))
  }

  /** The decoder of the notify answer must accept every body it is given (the source
      unwraps the decode). */
  ghost predicate DecodesNotify(r: Result<Reply, Error>, decode: string -> Option<ResponseWebWxStatusNotify>) {
    r.Ok? && r.value.text.Ok? ==> decode(r.value.text.value).Some?
  }

  /** `web_wx_status_notify` after the request: a non-OK base response is an error carrying
      the server's message. */
  function StatusNotifyResult(path: string, r: Result<Reply, Error>, decode: string -> Option<ResponseWebWxStatusNotify>)
    : (n: Result<(), Error>)
    requires DecodesNotify(r, decode)
    ensures r.Err? ==> n == Err(StatusNotify("请求url: " + path + " 失败:\n " + Display(r.error)))
    ensures r.Ok? && r.value.text.Err? ==> n == Err(StatusNotify("解析web_wx_status_notify数据失败: " + r.value.text.error))
    ensures n.Ok? <==> r.Ok? && r.value.text.Ok? && decode(r.value.text.value).value.baseResponse.IsOk()
    ensures r.Ok? && r.value.text.Ok? && !decode(r.value.text.value).value.baseResponse.IsOk() ==>
      n == Err(StatusNotify("web_wx_status_notify失败: " + decode(r.value.text.value).value.baseResponse.errmsg))
  {
    match r
    case Err(e) => Err(StatusNotify("请求url: " + path + " 失败:\n " + Display(e)))
    case Ok(reply) =>
      match reply.text
      case Err(t) => Err(StatusNotify("解析web_wx_status_notify数据失败: " + t))
      case Ok(text) =>
        var resp := decode(text).value;
        if !resp.baseResponse.IsOk() then Err(StatusNotify("web_wx_status_notify失败: " + resp.baseResponse.errmsg))
        else Ok(())
  }

  // ---------------------------------------------------------------------------
  // sync_check

  /** `join("|")` of the rendered pairs. */
  function JoinSyncKey(parts: seq<string>): (s: string)
    ensures |parts| == 0 ==> s == ""
    decreases |parts|
  {
    if |parts| == 0 then ""
    else if |parts| == 1 then parts[0]
    else parts[0] + "|" + JoinSyncKey(parts[1..])
  }

  /** Index of the first '|' in `s`, or `|s|`. */
  function FirstBar(s: string): (i: nat)
    ensures i <= |s| && (i < |s| ==> s[i] == '|')
    ensures forall k :: 0 <= k < i ==> s[k] != '|'
  {
    if |s| == 0 || s[0] == '|' then 0 else 1 + FirstBar(s[1..])
  }

  /** Splitting at every '|', as `str::split('|')` does. */
  function SplitBars(s: string): (parts: seq<string>)
    ensures |parts| > 0
    decreases |s|
  {
    var i := FirstBar(s);
    if i == |s| then [s] else [s[..i]] + SplitBars(s[i + 1..])
  }

  /** Splitting the joined key gives the rendered pairs back, in list order, whenever there
      is at least one pair and no rendering contains '|'. */
  lemma {:induction false} SplitJoinSyncKey(parts: seq<string>)
    requires |parts| > 0
    requires forall k :: 0 <= k < |parts| ==> '|' !in parts[k]
    ensures SplitBars(JoinSyncKey(parts)) == parts
    decreases |parts|
  {
    var a := parts[0];
    if |parts| == 1 {
      assert FirstBar(a) == |a|;
    } else {
      var rest := JoinSyncKey(parts[1..]);
      var s := a + "|" + rest;
      assert FirstBar(s) == |a| by {
        assert forall k :: 0 <= k < |a| ==> s[k] == a[k] && a[k] in a;
        assert s[|a|] == '|';
      }
      assert s[..|a|] == a;
      assert s[|a| + 1..] == rest;
      SplitJoinSyncKey(parts[1..]);
    }
  }

  function SyncCheckRequest(u: Url, deviceId: string, syncKey: Resp.SyncKey, info: RespLoginInfo.LoginInfo,
                            renderPair: Resp.KVPair -> string, nowMs: nat): Request
  {
    var secs := Fmt.NatToString(nowMs / 1000);
    var key := JoinSyncKey(seq(|syncKey.list|, i requires 0 <= i < |syncKey.list| => renderPair(syncKey.list[i])));
    var v := u
      .AppendPair("r", secs)
      .AppendPair("skey", info.skey)
      .AppendPair("sid", info.wxsid)
      .AppendPair("uin", Fmt.IntToString(info.wxuin))
      .AppendPair("deviceid", deviceId)
      .AppendPair("_", secs)
      .AppendPair("synckey", key);
    Request(Get, v, [], None)
  }

  /** The sync key is sent last, after the six session parameters, as the list's renderings
      joined with '|'. */
  lemma SyncCheckQuery(u: Url, deviceId: string, syncKey: Resp.SyncKey, info: RespLoginInfo.LoginInfo,
                       renderPair: Resp.KVPair -> string, nowMs: nat)
    ensures var q := SyncCheckRequest(u, deviceId, syncKey, info, renderPair, nowMs).url.query;
      |q| == |u.query| + 7 && q[..|u.query|] == u.query &&
      Keys(q[|u.query|..]) == ["r", "skey", "sid", "uin", "deviceid", "_", "synckey"] &&
      q[|q| - 1].1 == JoinSyncKey(seq(|syncKey.list|, i requires 0 <= i < |syncKey.list| => renderPair(syncKey.list[i])))
  {
    var q := SyncCheckRequest(u, deviceId, syncKey, info, renderPair, nowMs).url.query;
    assert Keys(q[|u.query|..]) == ["r", "skey", "sid", "uin", "deviceid", "_", "synckey"];
  }

  /** The prefix of the error `sync_check` reports when serde rejects the assembled object. */
  const AssembleFailed := "组装ResponseSyncCheck数据错误: "

  /** The object `sync_check` hands to serde: the two captured groups under the given keys. */
  function SyncCheckObject(retKey: string, selKey: string, groups: seq<string>): Json
    requires |groups| == 2
  {
    JObj([(retKey, JStr(groups[0])), (selKey, JStr(groups[1]))])
  }

  /** `sync_check` after the request.  `capture` stands for `REGEX_SYNC_CHECK`: the groups
      after group 0 on a match, None when the body does not match.  The object is assembled
      under `retKey` and `selKey` and decoded with the selector decoder `de`. */
  function SyncCheckAssemble(path: string, r: Result<Reply, Error>, capture: string -> Option<seq<string>>,
                             retKey: string, selKey: string, de: string -> Result<RespSyncCheck.Selector, RespSyncCheck.DeError>)
    : Result<RespSyncCheck.ResponseSyncCheck, Error>
  {
    match r
    case Err(e) => Err(SyncCheck("请求url: " + path + " 失败:\n " + Display(e)))
    case Ok(reply) =>
      match reply.text
      case Err(m) => Err(SyncCheck("解析sync check数据失败: " + m))
      case Ok(text) =>
        match capture(text)
        case None => Err(SyncCheck("从响应数据" + text + "中解析sync check数据失败"))
        case Some(groups) =>
          if |groups| + 1 != 3 then Err(SyncCheck("从响应数据" + text + "中解析window.synccheck数据失败"))
          else match RespSyncCheck.DecodeResponseSyncCheck(SyncCheckObject(retKey, selKey, groups), de)
            case Err(e) => Err(SyncCheck(AssembleFailed + RespSyncCheck.DecodeErrorText(e)))
            case Ok(v) => Ok(v)
  }

  /** Whether the reply's body is text on which `capture` yields exactly two groups. */
  predicate HasTwoGroups(r: Result<Reply, Error>, capture: string -> Option<seq<string>>) {
    r.Ok? && r.value.text.Ok? && capture(r.value.text.value).Some? && |capture(r.value.text.value).value| == 2
  }

  /** `sync_check` as written: the object carries the keys `retcode` and `selector`, which
      `ResponseSyncCheck` does not know, so the call never succeeds. */
  function SyncCheckResult(path: string, r: Result<Reply, Error>, capture: string -> Option<seq<string>>)
    : (t: Result<RespSyncCheck.ResponseSyncCheck, Error>)
    ensures t.Err?
    ensures r.Err? ==> t == Err(SyncCheck("请求url: " + path + " 失败:\n " + Display(r.error)))
    ensures r.Ok? && r.value.text.Err? ==> t == Err(SyncCheck("解析sync check数据失败: " + r.value.text.error))
    ensures r.Ok? && r.value.text.Ok? && capture(r.value.text.value).None? ==>
              t == Err(SyncCheck("从响应数据" + r.value.text.value + "中解析sync check数据失败"))
    ensures r.Ok? && r.value.text.Ok? && capture(r.value.text.value).Some? && |capture(r.value.text.value).value| != 2 ==>
              t == Err(SyncCheck("从响应数据" + r.value.text.value + "中解析window.synccheck数据失败"))
    ensures HasTwoGroups(r, capture) ==>
              t == Err(SyncCheck(AssembleFailed + "missing field `RetCode`"))
  {
    if HasTwoGroups(r, capture) then
      var groups := capture(r.value.text.value).value;
      var obj := SyncCheckObject("retcode", "selector", groups);
      RespSyncCheck.DecodeNeedsRenamedKeys(obj.fields, RespSyncCheck.DeSelectorAsWritten);
      assert obj == JObj(obj.fields);
      SyncCheckAssemble(path, r, capture, "retcode", "selector", RespSyncCheck.DeSelectorAsWritten)
    else
      SyncCheckAssemble(path, r, capture, "retcode", "selector", RespSyncCheck.DeSelectorAsWritten)
  }

  /** `sync_check` with the object keyed as `ResponseSyncCheck` expects, `RetCode` and
      `Selector`: it fails before the decoding exactly as the code as written does, and then
      succeeds iff the second group is a selector, with the first group as the return code. */
  function SyncCheckResultRenamed(path: string, r: Result<Reply, Error>, capture: string -> Option<seq<string>>)
    : (t: Result<RespSyncCheck.ResponseSyncCheck, Error>)
    ensures !HasTwoGroups(r, capture) ==> t == SyncCheckResult(path, r, capture)
    ensures HasTwoGroups(r, capture) ==>
      var groups := capture(r.value.text.value).value;
      (t.Ok? <==> RespSyncCheck.DeSelector(groups[1]).Ok?) &&
      (t.Ok? ==> t.value == RespSyncCheck.ResponseSyncCheck(groups[0], RespSyncCheck.DeSelector(groups[1]).value) &&
                 (t.value.IsSuccess() <==> groups[0] == "0")) &&
      (t.Err? ==> t == Err(SyncCheck(AssembleFailed + RespSyncCheck.DeErrorText(RespSyncCheck.DeSelector(groups[1]).error))))
  {
    if HasTwoGroups(r, capture) then
      var groups := capture(r.value.text.value).value;
      RespSyncCheck.DecodeRenamedObject(groups[0], groups[1], RespSyncCheck.DeSelector);
      assert SyncCheckObject("RetCode", "Selector", groups) == JObj([("RetCode", JStr(groups[0])), ("Selector", JStr(groups[1]))]);
      SyncCheckAssemble(path, r, capture, "RetCode", "Selector", RespSyncCheck.DeSelector)
    else
      SyncCheckAssemble(path, r, capture, "RetCode", "Selector", RespSyncCheck.DeSelector)
  }

  /** A body whose two groups are "0" and "2": the code as written reports the missing
      `RetCode`; with the renamed keys it reads as success with new messages. */
  lemma SyncCheckNewMessageExample(path: string, reply: Reply, capture: string -> Option<seq<string>>)
    requires reply.text.Ok? && capture(reply.text.value) == Some(["0", "2"])
    ensures SyncCheckResult(path, Ok(reply), capture) == Err(SyncCheck(AssembleFailed + "missing field `RetCode`"))
    ensures SyncCheckResultRenamed(path, Ok(reply), capture) == Ok(RespSyncCheck.ResponseSyncCheck("0", RespSyncCheck.NewMessage))
    ensures SyncCheckResultRenamed(path, Ok(reply), capture).value.IsSuccess()
  {
    assert HasTwoGroups(Ok(reply), capture);
    assert RespSyncCheck.DeSelector("2") == Ok(RespSyncCheck.NewMessage);
  }
}
