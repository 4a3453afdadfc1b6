/** The login state machine of src/bot/mod.rs: a bot owns a client, the session storage
    and a hot-reload store, and drives the QR-code handshake (fresh login) or restores a
    saved session (hot login). */
module Bot {
  import opened Wrappers
  import opened Net
  import opened Errors
  import opened Consts
  import opened Caller
  import opened Storages
  import Fmt
  import Http
  import HttpCalls
  import Resp
  import RespLoginInfo

  // ---------------------------------------------------------------------------
  // get_random_device_id

  /** The fifteen draws of `gen_range(0..9)`: each one of 0 to 8. */
  type Draws = d: seq<nat> | |d| == 15 && forall i :: 0 <= i < |d| ==> d[i] < 9
    witness [0, 0, 0, 0, 0, 0, 0, 0, 0, 0, 0, 0, 0, 0, 0]

  function DeviceIdOf(d: Draws): string {
    "e" + seq(15, i requires 0 <= i < 15 => Fmt.DigitChar(d[i]))
  }

  /** A device id is 'e' and fifteen digits, none of them a 9. */
  lemma DeviceIdShape(d: Draws)
    ensures |DeviceIdOf(d)| == 16 && DeviceIdOf(d)[0] == 'e'
    ensures forall k :: 1 <= k < 16 ==> '0' <= DeviceIdOf(d)[k] <= '8'
  {
    forall k | 1 <= k < 16
      ensures '0' <= DeviceIdOf(d)[k] <= '8'
    {
      Fmt.DigitRoundTrip(d[k - 1]);
    }
  }

  /** Different draws give different ids: the id records every draw. */
  lemma DeviceIdRecordsDraws(d: Draws, e: Draws)
    requires DeviceIdOf(d) == DeviceIdOf(e)
    ensures d == e
  {
    forall k | 0 <= k < 15
      ensures d[k] == e[k]
    {
      assert DeviceIdOf(d)[k + 1] == Fmt.DigitChar(d[k]);
      assert DeviceIdOf(e)[k + 1] == Fmt.DigitChar(e[k]);
      Fmt.DigitRoundTrip(d[k]);
      Fmt.DigitRoundTrip(e[k]);
    }
  }

  method GetRandomDeviceId(d: Draws) returns (id: string)
    ensures id == DeviceIdOf(d)
  {
    id := "e";
    for i := 0 to 15
      invariant id == "e" + seq(i, j requires 0 <= j < i => Fmt.DigitChar(d[j]))
    {
      id := id + [Fmt.DigitChar(d[i])];
    }
  }

  // ---------------------------------------------------------------------------
  // The bot's state and the world it talks to

  /** A callback invocation: the uuid callback, or the scan or login callback with the
      poll answer it was handed. */
  datatype Notice = UuidShown(uuid: string) | ScanNotice(resp: Resp.ResponseCheckLogin) | LoginNotice(resp: Resp.ResponseCheckLogin)

  /** Everything of a bot the model observes.  `dumps` lists the snapshots handed to the
      hot-reload store, `notices` the callbacks run. */
  datatype BotState = BotState(
    uuidCallback: bool,
    scanCallback: bool,
    loginCallback: bool,
    uuid: string,
    deviceId: string,
    storage: Storage,
    notices: seq<Notice>,
    dumps: seq<HotReloadStorageItem>,
    client: ClientState)

  /** The foreign decoders: URL parsing, the login-info XML and the web-init JSON. */
  datatype Codecs = Codecs(
    parseUrl: string -> Result<Url, string>,
    loginInfoXml: string -> Result<RespLoginInfo.LoginInfo, string>,
    webInitJson: string -> Result<Resp.ResponseWebInit, string>)

  /** What `handle_login` meets: the login-info call, the random draws, the outcome of
      writing the snapshot, and the web-init call. */
  datatype Handshake = Handshake(loginInfoCall: Exchange, draws: Draws, write: Result<(), string>, init: Exchange)

  /** What a fresh `login` meets: the uuid call, the answers to successive polls, and the
      handshake after a successful poll. */
  datatype LoginEnv = LoginEnv(uuidCall: Exchange, polls: seq<Exchange>, handshake: Handshake)

  // ---------------------------------------------------------------------------
  // web_init and dump_hot_reload_storage

  function BotWebInitSpec(b: BotState, ex: Exchange, codecs: Codecs): (BotState, Result<Resp.ResponseWebInit, Error>) {
    match b.storage.request
    case None => (b, Err(NoBaseRequest))
    case Some(req) =>
      var (c, r) := Caller.WebInitSpec(b.client, req, ex, codecs.parseUrl, codecs.webInitJson);
      (b.(client := c), r)
  }

  /** Without a base request `web_init` fails with `NoBaseRequest` and sends nothing. */
  lemma WebInitNeedsBaseRequest(b: BotState, ex: Exchange, codecs: Codecs)
    ensures b.storage.request.None? <==> BotWebInitSpec(b, ex, codecs) == (b, Err(NoBaseRequest))
  {
    if b.storage.request.Some? && b.client.domain.Some? {
      var text := b.client.domain.value.BaseHost() + WebWxInit;
      if codecs.parseUrl(text).Ok? {
        var u := codecs.parseUrl(text).value;
        var req := Caller.WebInitRequest(u, b.storage.request.value, ex.nowMs);
        ExecuteJarEffect(b.client, req, ex.attempts);
        assert BotWebInitSpec(b, ex, codecs).0.client.requests == b.client.requests + [req];
      }
    }
  }

  /** The snapshot of the session as it stands. */
  function Snapshot(b: BotState): HotReloadStorageItem {
    HotReloadStorageItem(b.client.cookies, b.storage.request, b.storage.loginInfo, b.client.domain, Some(b.uuid))
  }

  function DumpSpec(b: BotState, write: Result<(), string>): (BotState, Result<(), Error>) {
    (b.(dumps := b.dumps + [Snapshot(b)]),
     if write.Err? then Err(DumpHotReloadStorage(write.error)) else Ok(()))
  }

  // ---------------------------------------------------------------------------
  // handle_login

  /** `handle_login` from the answer of `get_login_info` on. */
  function AfterLoginInfo(b1: BotState, info: Result<RespLoginInfo.LoginInfo, Error>, hs: Handshake, codecs: Codecs)
    : (res: (BotState, Result<(), Error>))
    ensures res.0.notices == b1.notices && res.0.uuid == b1.uuid
    ensures res.0.uuidCallback == b1.uuidCallback && res.0.scanCallback == b1.scanCallback && res.0.loginCallback == b1.loginCallback
  {
    match info
    case Err(e) => (b1, Err(e))
    case Ok(li) =>
      var dev := if |b1.deviceId| == 0 then DeviceIdOf(hs.draws) else b1.deviceId;
      var b2 := b1.(deviceId := dev,
                    storage := b1.storage.(request := Some(BaseRequest(li.wxuin, li.wxsid, li.skey, dev)),
                                           loginInfo := Some(li)));
      var (b3, d) := DumpSpec(b2, hs.write);
      if d.Err? then (b3, Err(d.error))
      else
        var (b4, w) := BotWebInitSpec(b3, hs.init, codecs);
        match w
        case Err(e) => (b4, Err(e))
        case Ok(init) => (b4.(storage := b4.storage.(webInitResponse := Some(init))), Ok(()))
  }

  function HandleLoginSpec(b: BotState, uri: string, hs: Handshake, codecs: Codecs): (res: (BotState, Result<(), Error>))
    ensures res.0.notices == b.notices && res.0.uuid == b.uuid
    ensures res.0.uuidCallback == b.uuidCallback && res.0.scanCallback == b.scanCallback && res.0.loginCallback == b.loginCallback
  {
    var (c1, info) := HttpCalls.GetLoginInfoSpec(b.client, uri, hs.loginInfoCall, codecs.parseUrl, codecs.loginInfoXml);
    AfterLoginInfo(b.(client := c1), info, hs, codecs)
  }

  /** The device id is drawn only when there is none, and then kept. */
  lemma HandleLoginDeviceId(b: BotState, uri: string, hs: Handshake, codecs: Codecs)
    ensures var b' := HandleLoginSpec(b, uri, hs, codecs).0;
      (|b.deviceId| > 0 ==> b'.deviceId == b.deviceId) &&
      (|b.deviceId| == 0 ==> b'.deviceId == b.deviceId || b'.deviceId == DeviceIdOf(hs.draws))
  {
  }

  /** After a successful `get_login_info`, the base request is built from the credentials
      and the device id, both are stored, and the snapshot written carries them.  A failed
      write stops the handshake before `web_init`; a successful one is followed by it, and
      its answer is stored on success. */
  lemma HandleLoginStoresBeforeDump(b: BotState, uri: string, hs: Handshake, codecs: Codecs)
    requires HttpCalls.GetLoginInfoSpec(b.client, uri, hs.loginInfoCall, codecs.parseUrl, codecs.loginInfoXml).1.Ok?
    ensures
      var (c1, info) := HttpCalls.GetLoginInfoSpec(b.client, uri, hs.loginInfoCall, codecs.parseUrl, codecs.loginInfoXml);
      var li := info.value;
      var dev := if |b.deviceId| == 0 then DeviceIdOf(hs.draws) else b.deviceId;
      var req := BaseRequest(li.wxuin, li.wxsid, li.skey, dev);
      var (b', r) := HandleLoginSpec(b, uri, hs, codecs);
      b'.dumps == b.dumps + [HotReloadStorageItem(c1.cookies, Some(req), Some(li), c1.domain, Some(b.uuid))] &&
      b'.storage.request == Some(req) && b'.storage.loginInfo == Some(li) &&
      (hs.write.Err? ==> r == Err(DumpHotReloadStorage(hs.write.error)) && b'.client == c1 &&
                         b'.storage.webInitResponse == b.storage.webInitResponse) &&
      (hs.write.Ok? ==> (r.Ok? <==> Caller.WebInitSpec(c1, req, hs.init, codecs.parseUrl, codecs.webInitJson).1.Ok?) &&
                        (r.Ok? ==> b'.storage.webInitResponse ==
                                   Some(Caller.WebInitSpec(c1, req, hs.init, codecs.parseUrl, codecs.webInitJson).1.value)))
  {
  }

  // ---------------------------------------------------------------------------
  // login_with_uuid

  /** The answer to one poll; it depends only on the attempts. */
  function PollAnswer(ex: Exchange): Result<Resp.ResponseCheckLogin, Error> {
    Http.CheckLoginResult(Outcome(ex.attempts))
  }

  /** A poll after which the loop goes on: the phone has not scanned or not confirmed yet. */
  predicate Continues(ex: Exchange) {
    PollAnswer(ex).Ok? && (PollAnswer(ex).value.status.Wait? || PollAnswer(ex).value.status.Scanned?)
  }

  /** The poll loop has no bound of its own; it ends only on a poll that does not continue. */
  predicate Terminates(polls: seq<Exchange>) {
    exists i :: 0 <= i < |polls| && !Continues(polls[i])
  }

  lemma TerminatesTail(polls: seq<Exchange>)
    requires Terminates(polls) && |polls| > 0 && Continues(polls[0])
    ensures Terminates(polls[1..])
  {
    var i :| 0 <= i < |polls| && !Continues(polls[i]);
    assert polls[1..][i - 1] == polls[i];
  }

  /** One round of the poll loop once the poll is answered: `None` when the loop goes on,
      otherwise what the login returns. */
  function AfterPoll(b1: BotState, answer: Result<Resp.ResponseCheckLogin, Error>, hs: Handshake, codecs: Codecs)
    : (res: (BotState, Option<Result<(), Error>>))
    ensures res.1.None? <==> answer.Ok? && (answer.value.status.Wait? || answer.value.status.Scanned?)
    ensures res.0.uuid == b1.uuid
  {
    match answer
    case Err(e) => (b1, Some(Err(e)))
    case Ok(resp) =>
      match resp.status
      case Wait => (b1, None)
      case Scanned => (b1.(notices := b1.notices + if b1.scanCallback then [ScanNotice(resp)] else []), None)
      case Timeout => (b1, Some(Err(LoginTimeout)))
      case Unknown(code) => (b1, Some(Err(StatusUnknown(code))))
      case Success =>
        match CaptureRedirectUri(resp.raw)
        case None => (b1, Some(Err(GetLoginInfo("从响应数据" + resp.raw + "中解析redirect url数据失败"))))
        case Some(uri) =>
          var (b2, h) := HandleLoginSpec(b1, uri, hs, codecs);
          if h.Err? then (b2, Some(h))
          else (b2.(notices := b2.notices + if b2.loginCallback then [LoginNotice(resp)] else []), Some(Ok(())))
  }

  function PollStepSpec(b: BotState, uuid: string, ex: Exchange, hs: Handshake, codecs: Codecs)
    : (res: (BotState, Option<Result<(), Error>>))
    ensures res.1.None? <==> Continues(ex)
  {
    var (c1, answer) := HttpCalls.CheckLoginSpec(b.client, uuid, ex);
    AfterPoll(b.(client := c1), answer, hs, codecs)
  }

  function PollSpec(b: BotState, uuid: string, polls: seq<Exchange>, hs: Handshake, codecs: Codecs)
    : (BotState, Result<(), Error>)
    requires Terminates(polls)
    decreases |polls|
  {
    var (b1, out) := PollStepSpec(b, uuid, polls[0], hs, codecs);
    match out
    case Some(r) => (b1, r)
    case None =>
      TerminatesTail(polls);
      PollSpec(b1, uuid, polls[1..], hs, codecs)
  }

  /** The loop runs one round, then either stops with that round's result or goes on. */
  lemma PollSpecUnfold(b: BotState, uuid: string, polls: seq<Exchange>, hs: Handshake, codecs: Codecs)
    requires Terminates(polls)
    ensures var (b1, out) := PollStepSpec(b, uuid, polls[0], hs, codecs);
      (out.Some? ==> PollSpec(b, uuid, polls, hs, codecs) == (b1, out.value)) &&
      (out.None? ==> Terminates(polls[1..]) && PollSpec(b, uuid, polls, hs, codecs) == PollSpec(b1, uuid, polls[1..], hs, codecs))
  {
    if PollStepSpec(b, uuid, polls[0], hs, codecs).1.None? {
      TerminatesTail(polls);
    }
  }

  function LoginWithUuidSpec(b: BotState, uuid: string, polls: seq<Exchange>, hs: Handshake, codecs: Codecs)
    : (BotState, Result<(), Error>)
    requires Terminates(polls)
  {
    PollSpec(b.(uuid := uuid, notices := b.notices + if b.uuidCallback then [UuidShown(uuid)] else []),
             uuid, polls, hs, codecs)
  }

  /** The first poll decides: Timeout and Unknown end the login with their errors, a failed
      poll passes its error on, Wait goes on to the next poll with nothing else changed. */
  lemma PollOutcomes(b: BotState, uuid: string, polls: seq<Exchange>, hs: Handshake, codecs: Codecs)
    requires Terminates(polls)
    ensures PollAnswer(polls[0]).Err? ==> PollSpec(b, uuid, polls, hs, codecs).1 == Err(PollAnswer(polls[0]).error)
    ensures PollAnswer(polls[0]).Ok? && PollAnswer(polls[0]).value.status == Timeout ==>
      PollSpec(b, uuid, polls, hs, codecs).1 == Err(LoginTimeout)
    ensures PollAnswer(polls[0]).Ok? && PollAnswer(polls[0]).value.status.Unknown? ==>
      PollSpec(b, uuid, polls, hs, codecs).1 == Err(StatusUnknown(PollAnswer(polls[0]).value.status.code))
    ensures PollAnswer(polls[0]).Ok? && PollAnswer(polls[0]).value.status == Wait ==>
      Terminates(polls[1..]) &&
      PollSpec(b, uuid, polls, hs, codecs) ==
        PollSpec(b.(client := HttpCalls.CheckLoginSpec(b.client, uuid, polls[0]).0), uuid, polls[1..], hs, codecs)
  {
    if PollAnswer(polls[0]).Ok? && PollAnswer(polls[0]).value.status == Wait {
      TerminatesTail(polls);
    }
  }

  /** A success answer without a redirect URI is a `GetLoginInfo` error. */
  lemma SuccessNeedsRedirectUri(b: BotState, uuid: string, polls: seq<Exchange>, hs: Handshake, codecs: Codecs)
    requires Terminates(polls)
    requires PollAnswer(polls[0]).Ok? && PollAnswer(polls[0]).value.status == Success
    requires CaptureRedirectUri(PollAnswer(polls[0]).value.raw).None?
    ensures PollSpec(b, uuid, polls, hs, codecs).1 ==
      Err(GetLoginInfo("从响应数据" + PollAnswer(polls[0]).value.raw + "中解析redirect url数据失败"))
  {
  }

  /** While polling, the uuid and the callback settings stay as they are, callbacks are only
      appended, no uuid notice is added, and a login notice is added only as the very last
      thing of a login that succeeds. */
  ghost predicate PollFrame(b: BotState, b': BotState, r: Result<(), Error>) {
    b'.uuid == b.uuid &&
    b'.uuidCallback == b.uuidCallback && b'.scanCallback == b.scanCallback && b'.loginCallback == b.loginCallback &&
    |b.notices| <= |b'.notices| && b'.notices[..|b.notices|] == b.notices &&
    (forall k :: |b.notices| <= k < |b'.notices| ==> !b'.notices[k].UuidShown?) &&
    (forall k :: |b.notices| <= k < |b'.notices| && b'.notices[k].LoginNotice? ==> r.Ok? && k == |b'.notices| - 1)
  }

  /** One round keeps the frame; a round after which the loop goes on adds scan notices only. */
  lemma AfterPollFrame(b1: BotState, answer: Result<Resp.ResponseCheckLogin, Error>, hs: Handshake, codecs: Codecs)
    ensures var (b', out) := AfterPoll(b1, answer, hs, codecs);
      PollFrame(b1, b', if out.Some? then out.value else Err(LoginTimeout)) &&
      (out.None? ==> forall k :: |b1.notices| <= k < |b'.notices| ==> b'.notices[k].ScanNotice?)
  {
    var (b', out) := AfterPoll(b1, answer, hs, codecs);
    if answer.Err? {
      assert b' == b1;
    } else if answer.value.status.Success? && CaptureRedirectUri(answer.value.raw).Some? {
      var resp := answer.value;
      var (b2, h) := HandleLoginSpec(b1, CaptureRedirectUri(resp.raw).value, hs, codecs);
      if h.Err? {
        assert b' == b2;
      } else {
        assert b'.notices == b1.notices + if b2.loginCallback then [LoginNotice(resp)] else [];
      }
    } else if answer.value.status.Scanned? {
      assert b'.notices == b1.notices + if b1.scanCallback then [ScanNotice(answer.value)] else [];
    } else {
      assert b'.notices == b1.notices;
    }
  }

  /** Scan notices in front of a frame-keeping run keep the frame. */
  lemma PollFrameExtend(b: BotState, b1: BotState, b': BotState, r: Result<(), Error>)
    requires b1.uuid == b.uuid && b1.uuidCallback == b.uuidCallback
    requires b1.scanCallback == b.scanCallback && b1.loginCallback == b.loginCallback
    requires |b.notices| <= |b1.notices| && b1.notices[..|b.notices|] == b.notices
    requires forall k :: |b.notices| <= k < |b1.notices| ==> b1.notices[k].ScanNotice?
    requires PollFrame(b1, b', r)
    ensures PollFrame(b, b', r)
  {
    assert b'.notices[..|b1.notices|][..|b.notices|] == b'.notices[..|b.notices|];
    forall k | |b.notices| <= k < |b1.notices|
      ensures b'.notices[k] == b1.notices[k]
    {
      assert b'.notices[..|b1.notices|][k] == b'.notices[k];
    }
  }

  lemma {:induction false} PollKeepsFrame(b: BotState, uuid: string, polls: seq<Exchange>, hs: Handshake, codecs: Codecs)
    requires Terminates(polls)
    ensures PollFrame(b, PollSpec(b, uuid, polls, hs, codecs).0, PollSpec(b, uuid, polls, hs, codecs).1)
    decreases |polls|
  {
    var (c1, answer) := HttpCalls.CheckLoginSpec(b.client, uuid, polls[0]);
    var (b1, out) := AfterPoll(b.(client := c1), answer, hs, codecs);
    AfterPollFrame(b.(client := c1), answer, hs, codecs);
    if out.None? {
      TerminatesTail(polls);
      PollKeepsFrame(b1, uuid, polls[1..], hs, codecs);
      var (b', r) := PollSpec(b1, uuid, polls[1..], hs, codecs);
      PollFrameExtend(b, b1, b', r);
    }
  }

  /** `login_with_uuid` records the uuid, runs the uuid callback at most once and before any
      poll, and the login callback only on success. */
  lemma LoginWithUuidCallbacks(b: BotState, uuid: string, polls: seq<Exchange>, hs: Handshake, codecs: Codecs)
    requires Terminates(polls)
    ensures var (b', r) := LoginWithUuidSpec(b, uuid, polls, hs, codecs);
      var n := |b.notices|;
      b'.uuid == uuid && |b'.notices| >= n && b'.notices[..n] == b.notices &&
      (b.uuidCallback ==> |b'.notices| > n && b'.notices[n] == UuidShown(uuid)) &&
      (forall k :: n <= k < |b'.notices| && b'.notices[k].UuidShown? ==> b.uuidCallback && k == n) &&
      (forall k :: n <= k < |b'.notices| && b'.notices[k].LoginNotice? ==> r.Ok?)
  {
    var b1 := b.(uuid := uuid, notices := b.notices + if b.uuidCallback then [UuidShown(uuid)] else []);
    PollKeepsFrame(b1, uuid, polls, hs, codecs);
    var b' := PollSpec(b1, uuid, polls, hs, codecs).0;
    assert b'.notices[..|b1.notices|][..|b.notices|] == b'.notices[..|b.notices|];
    if b.uuidCallback {
      assert b'.notices[|b.notices|] == b'.notices[..|b1.notices|][|b.notices|];
    }
  }

  // ---------------------------------------------------------------------------
  // login, hot_login_init, hot_login

  /** A fresh login reaches the poll loop only when the uuid call succeeds. */
  predicate LoginTerminates(env: LoginEnv) {
    Http.UuidResult(Outcome(env.uuidCall.attempts)).Ok? ==> Terminates(env.polls)
  }

  function LoginSpec(b: BotState, env: LoginEnv, codecs: Codecs): (BotState, Result<(), Error>)
    requires LoginTerminates(env)
  {
    var (c1, u) := HttpCalls.GetLoginUuidSpec(b.client, env.uuidCall);
    var b1 := b.(client := c1);
    match u
    case Err(e) => (b1, Err(e))
    case Ok(uuid) => LoginWithUuidSpec(b1, uuid, env.polls, env.handshake, codecs)
  }

  function HotLoginInitSpec(b: BotState, items: HotReloadStorageItem): BotState
    requires items.uuid.Some?
  {
    b.(client := b.client.(cookies := b.client.cookies + items.cookies, domain := items.wechatDomain),
       storage := b.storage.(loginInfo := items.loginInfo, request := items.baseRequest),
       uuid := items.uuid.value)
  }

  /** Restoring a snapshot puts every saved cookie store in the jar, leaves the other jar
      keys alone, overwrites the credentials, base request and domain (absent ones
      included), takes the saved uuid, keeps the device id, and sends nothing. */
  lemma HotLoginInitRestores(b: BotState, items: HotReloadStorageItem)
    requires items.uuid.Some?
    ensures var b' := HotLoginInitSpec(b, items);
      b'.client.cookies.Keys == b.client.cookies.Keys + items.cookies.Keys &&
      (forall k :: k in items.cookies ==> b'.client.cookies[k] == items.cookies[k]) &&
      (forall k :: k in b.client.cookies && k !in items.cookies ==> b'.client.cookies[k] == b.client.cookies[k]) &&
      b'.storage.loginInfo == items.loginInfo && b'.storage.request == items.baseRequest &&
      b'.client.domain == items.wechatDomain && b'.uuid == items.uuid.value &&
      b'.deviceId == b.deviceId && b'.storage.webInitResponse == b.storage.webInitResponse &&
      b'.client.requests == b.client.requests && b'.dumps == b.dumps
  {
  }

  /** Whether a hot login has to fall back to a fresh one. */
  predicate HotNeedsLogin(b: BotState, stored: Result<HotReloadStorageItem, Error>, hotInit: Exchange, codecs: Codecs) {
    stored.Err? || (stored.value.uuid.Some? && BotWebInitSpec(HotLoginInitSpec(b, stored.value), hotInit, codecs).1.Err?)
  }

  function HotLoginSpec(b: BotState, stored: Result<HotReloadStorageItem, Error>, hotInit: Exchange,
                        env: LoginEnv, codecs: Codecs): (BotState, Result<(), Error>)
    requires stored.Ok? ==> stored.value.uuid.Some?
    requires HotNeedsLogin(b, stored, hotInit, codecs) ==> LoginTerminates(env)
  {
    match stored
    case Err(_) => LoginSpec(b, env, codecs)
    case Ok(items) =>
      var (b2, w) := BotWebInitSpec(HotLoginInitSpec(b, items), hotInit, codecs);
      if w.Err? then LoginSpec(b2, env, codecs) else (b2, Ok(()))
  }

  /** A failed fetch means a fresh login from the untouched bot; a restored session whose
      `web_init` fails falls back to a fresh login from the restored state; a restored
      session whose `web_init` succeeds is done, without storing the init answer. */
  lemma HotLoginFallsBack(b: BotState, stored: Result<HotReloadStorageItem, Error>, hotInit: Exchange,
                          env: LoginEnv, codecs: Codecs)
    requires stored.Ok? ==> stored.value.uuid.Some?
    requires HotNeedsLogin(b, stored, hotInit, codecs) ==> LoginTerminates(env)
    ensures stored.Err? ==> HotLoginSpec(b, stored, hotInit, env, codecs) == LoginSpec(b, env, codecs)
    ensures stored.Ok? ==>
      var (b2, w) := BotWebInitSpec(HotLoginInitSpec(b, stored.value), hotInit, codecs);
      (w.Err? ==> HotLoginSpec(b, stored, hotInit, env, codecs) == LoginSpec(b2, env, codecs)) &&
      (w.Ok? ==> HotLoginSpec(b, stored, hotInit, env, codecs) == (b2, Ok(())) &&
                 b2.storage.webInitResponse == b.storage.webInitResponse &&
                 b2.deviceId == b.deviceId && b2.dumps == b.dumps)
  {
  }

  // ---------------------------------------------------------------------------

  class Bot {
    var uuidCallback: bool
    var scanCallback: bool
    var loginCallback: bool
    var uuid: string
    var deviceId: string
    const caller: Client
    var storage: Storage
    ghost var notices: seq<Notice>
    ghost var dumps: seq<HotReloadStorageItem>

    ghost function State(): BotState
      reads this, caller
    {
      BotState(uuidCallback, scanCallback, loginCallback, uuid, deviceId, storage, notices, dumps, caller.State())
    }

    /** `Bot::default`: no callbacks, empty uuid and device id, empty storage, and a
        default client. */
    constructor Default()
      ensures fresh(caller)
      ensures State() == BotState(false, false, false, "", "", EmptyStorage, [], [],
                                  ClientState(Some([UserAgentHook]), None, map[], Http.Normal, []))
    {
      uuidCallback := false;
      scanCallback := false;
      loginCallback := false;
      uuid := "";
      deviceId := "";
      caller := new Client.Default();
      storage := EmptyStorage;
      notices := [];
      dumps := [];
    }

    method SetUuidCallback()
      modifies this`uuidCallback
      ensures State() == old(State()).(uuidCallback := true)
    {
      uuidCallback := true;
    }

    method SetScanCallback()
      modifies this`scanCallback
      ensures State() == old(State()).(scanCallback := true)
    {
      scanCallback := true;
    }

    method SetLoginCallback()
      modifies this`loginCallback
      ensures State() == old(State()).(loginCallback := true)
    {
      loginCallback := true;
    }

    method SetMode(m: Http.Mode)
      modifies caller`mode
      ensures State() == old(State()).(client := old(State()).client.(mode := m))
    {
      caller.SetMode(m);
    }

    method WebInit(ex: Exchange, codecs: Codecs) returns (r: Result<Resp.ResponseWebInit, Error>)
      modifies caller`cookies, caller`requests
      ensures (State(), r) == BotWebInitSpec(old(State()), ex, codecs)
    {
      match storage.request {
        case None =>
          return Err(NoBaseRequest);
        case Some(req) =>
          r := caller.WebInit(req, ex, codecs.parseUrl, codecs.webInitJson);
      }
    }

    method DumpHotReloadStorage(write: Result<(), string>) returns (r: Result<(), Error>)
      modifies this`dumps
      ensures (State(), r) == DumpSpec(old(State()), write)
    {
      var cookies := caller.GetCookies();
      var domain := caller.GetDomain();
      dumps := dumps + [HotReloadStorageItem(cookies, storage.request, storage.loginInfo, domain, Some(uuid))];
      if write.Err? {
        return Err(Error.DumpHotReloadStorage(write.error));
      }
      r := Ok(());
    }

    method HandleLogin(uri: string, hs: Handshake, codecs: Codecs) returns (r: Result<(), Error>)
      modifies this, caller
      ensures (State(), r) == HandleLoginSpec(old(State()), uri, hs, codecs)
    {
      var info := HttpCalls.GetLoginInfo(caller, uri, hs.loginInfoCall, codecs.parseUrl, codecs.loginInfoXml);
      if info.Err? {
        return Err(info.error);
      }
      if |deviceId| == 0 {
        deviceId := GetRandomDeviceId(hs.draws);
      }
      var req := BaseRequest(info.value.wxuin, info.value.wxsid, info.value.skey, deviceId);
      storage := storage.(request := Some(req));
      storage := storage.(loginInfo := Some(info.value));
      var d := DumpHotReloadStorage(hs.write);
      if d.Err? {
        return Err(d.error);
      }
      var w := WebInit(hs.init, codecs);
      if w.Err? {
        return Err(w.error);
      }
      storage := storage.(webInitResponse := Some(w.value));
      r := Ok(());
    }

    /** One round of the `loop` in `login_with_uuid`. */
    method PollOnce(u: string, ex: Exchange, hs: Handshake, codecs: Codecs) returns (out: Option<Result<(), Error>>)
      modifies this, caller
      ensures (State(), out) == PollStepSpec(old(State()), u, ex, hs, codecs)
    {
      var answer := HttpCalls.CheckLogin(caller, u, ex);
      out := OnPollAnswer(answer, hs, codecs);
    }

    method OnPollAnswer(answer: Result<Resp.ResponseCheckLogin, Error>, hs: Handshake, codecs: Codecs)
      returns (out: Option<Result<(), Error>>)
      modifies this, caller
      ensures (State(), out) == AfterPoll(old(State()), answer, hs, codecs)
    {
      match answer {
        case Err(e) =>
          return Some(Err(e));
        case Ok(resp) =>
          match resp.status {
            case Wait =>
              out := None;
            case Scanned =>
              if scanCallback {
                notices := notices + [ScanNotice(resp)];
              } else {
                assert notices + [] == notices;
              }
              out := None;
            case Timeout =>
              out := Some(Err(LoginTimeout));
            case Unknown(code) =>
              out := Some(Err(StatusUnknown(code)));
            case Success =>
              match CaptureRedirectUri(resp.raw) {
                case None =>
                  out := Some(Err(Error.GetLoginInfo("从响应数据" + resp.raw + "中解析redirect url数据失败")));
                case Some(redirect) =>
                  var h := HandleLogin(redirect, hs, codecs);
                  if h.Err? {
                    return Some(h);
                  }
                  if loginCallback {
                    notices := notices + [LoginNotice(resp)];
                  } else {
                    assert notices + [] == notices;
                  }
                  out := Some(Ok(()));
              }
          }
      }
    }

    method LoginWithUuid(u: string, polls: seq<Exchange>, hs: Handshake, codecs: Codecs) returns (r: Result<(), Error>)
      requires Terminates(polls)
      modifies this, caller
      ensures (State(), r) == LoginWithUuidSpec(old(State()), u, polls, hs, codecs)
    {
      uuid := u;
      if uuidCallback {
        notices := notices + [UuidShown(u)];
      } else {
        assert notices + [] == notices;
      }
      r := PollLoop(u, polls, hs, codecs);
    }

    /** The `loop` of `login_with_uuid`, round after round until one ends the login. */
    method PollLoop(u: string, polls: seq<Exchange>, hs: Handshake, codecs: Codecs) returns (r: Result<(), Error>)
      requires Terminates(polls)
      modifies this, caller
      ensures (State(), r) == PollSpec(old(State()), u, polls, hs, codecs)
    {
      assert polls[0..] == polls;
      var i := 0;
      while i < |polls|
        invariant i <= |polls| && Terminates(polls[i..])
        invariant PollSpec(State(), u, polls[i..], hs, codecs) == PollSpec(old(State()), u, polls, hs, codecs)
        decreases |polls| - i
      {
        assert polls[i..][0] == polls[i] && polls[i..][1..] == polls[i + 1..];
        PollSpecUnfold(State(), u, polls[i..], hs, codecs);
        var out := PollOnce(u, polls[i], hs, codecs);
        if out.Some? {
          return out.value;
        }
        i := i + 1;
      }
      assert false;
    }

    method Login(env: LoginEnv, codecs: Codecs) returns (r: Result<(), Error>)
      requires LoginTerminates(env)
      modifies this, caller
      ensures (State(), r) == LoginSpec(old(State()), env, codecs)
    {
      var u := HttpCalls.GetLoginUuid(caller, env.uuidCall);
      if u.Err? {
        return Err(u.error);
      }
      r := LoginWithUuid(u.value, env.polls, env.handshake, codecs);
    }

    method HotLoginInit(items: HotReloadStorageItem)
      requires items.uuid.Some?
      modifies this, caller
      ensures State() == HotLoginInitSpec(old(State()), items)
    {
      var rest := items.cookies.Keys;
      while rest != {}
        invariant rest <= items.cookies.Keys
        invariant caller.cookies == old(caller.cookies) + map k | k in items.cookies.Keys - rest :: items.cookies[k]
        invariant State() == old(State()).(client := old(State()).client.(cookies := caller.cookies))
        decreases rest
      {
        var k :| k in rest;
        caller.AddCookies(k, items.cookies[k]);
        rest := rest - {k};
      }
      assert items.cookies == map k | k in items.cookies.Keys - rest :: items.cookies[k];
      storage := storage.(loginInfo := items.loginInfo, request := items.baseRequest);
      uuid := items.uuid.value;
      caller.SetDomain(items.wechatDomain);
    }

    method HotLogin(stored: Result<HotReloadStorageItem, Error>, hotInit: Exchange, env: LoginEnv, codecs: Codecs)
      returns (r: Result<(), Error>)
      requires stored.Ok? ==> stored.value.uuid.Some?
      requires HotNeedsLogin(State(), stored, hotInit, codecs) ==> LoginTerminates(env)
      modifies this, caller
      ensures (State(), r) == HotLoginSpec(old(State()), stored, hotInit, env, codecs)
    {
      match stored {
        case Err(_) =>
          r := Login(env, codecs);
          return;
        case Ok(items) =>
          HotLoginInit(items);
      }
      var w := WebInit(hotInit, codecs);
      if w.Err? {
        r := Login(env, codecs);
        return;
      }
      r := Ok(());
    }
  }
}
