# openwechat-rs login core, modelled in Dafny

This project models the core of openwechat-rs, a client for the WeChat web protocol. The core covers:

- the QR-code login handshake;
- the transport underneath it;
- the snapshot that lets a session survive a restart.

Each Rust file of the core has its own Dafny module, and each module takes the form of its source file:

| module | file | source | form |
|---|---|---|---|
| `Caller` | `client.dfy` | `src/caller/client.rs` | class `Client`, see below |
| `Bot` | `bot.dfy` | `src/bot/mod.rs` | class `Bot`, see below |
| `Http` | `http.dfy` | `src/caller/http.rs` | pure request builders and result decisions |
| `HttpCalls` | `http_calls.dfy` | `src/caller/http.rs` | calls that take a `Client` |
| `Storages` | `storage.dfy` | `src/storage/mod.rs` | `WechatDomain` and `BaseRequest` functions, plus cookie-map methods that loop like the source |
| `Consts` | `consts.dfy` | `src/consts.rs` | constants and hand-written scanners for the three capture patterns |
| `Resp` | `resp.dfy` | `src/resp/mod.rs` | `Ret` code table and `BaseResponse` |
| `RespSyncCheck` | `sync_check.dfy` | `src/resp/sync_check.rs` | selector codec and the derived `ResponseSyncCheck` decoder |
| `RespLoginInfo` | `login_info.dfy` | `src/resp/login_info.rs` | `LoginInfo` predicates |

The two classes work like this:

- **`Caller.Client`** holds the hook list, the domain, the cookie jar and the mode as fields. Its methods update those fields in place.
  - `DoHttp` is the retry loop of `do_http`. It is proved against the closed form `DoHttpSpec`.
- **`Bot.Bot`** holds the callback flags, the uuid, the device id, the storage and a `Client`.
  - Each method is proved equal to a specification function over a `BotState` value.
  - The poll loop of `login_with_uuid` is proved equal to `PollSpec`.

Supporting modules model types that live outside the core:

- `Wrappers`: `Option` and `Result`.
- `Errors`: the `Error` enum of `src/errors.rs`.
- `Net`: URLs as scheme, host, path and an ordered list of query pairs; header lists.
- `Fmt`: decimal rendering.

The outside world becomes data handed to each operation:

- **Network:** every protocol call receives an `Exchange`. It holds the clock reading and exactly three attempt outcomes: a reply, a send error, or a failure to clone the request.
- **Decoders and stores:** the URL parser and the JSON and XML decoders are function parameters. So are the cookie store's save and load and the snapshot store.
- **Randomness:** the random digits of the device id are a parameter `Draws`.

Four behaviours of the code are easy to misread, and the model follows the code in each:

- `handle_login` (src/bot/mod.rs:126-149) never calls `web_wx_status_notify`. `StatusNotify` is modelled as a call of its own.
- `do_http` never clears a failed attempt's error (src/caller/client.rs:86-103). A later successful attempt therefore still yields the earlier error. `Caller.LaterReplyStillFails` states this.
- `sync_check` builds its errors with the variant `SyncCheck`, which src/errors.rs does not declare. The `Errors` module declares it. (`Sync`, used only by `sync_message`, is not modelled.)
- The `data.len() != 2` check in `login_with_uuid` (src/bot/mod.rs:95-97) can never fire, because the pattern has exactly one group. It is not modelled.

## Model

| member | source | states |
|---|---|---|
| Fmt.NatToStringRoundTrip | src/caller/http.rs:61 | the decimal rendering of the millisecond clock used for `_` and `r` parses back to the same number |
| Fmt.IntToStringInjective | src/caller/http.rs:260 | distinct uins render to distinct `uin` query values |
| Consts.StatusCodesDistinct | src/consts.rs:44-47 | the success, scanned, timeout and wait codes are four pairwise different strings |
| Consts.LazyEnd | src/consts.rs:37 | the lazy `.*?` scan stops at the first occurrence of the terminator on the same line, and fails only when none exists |
| Consts.LazyFind | src/consts.rs:37 | returns the leftmost opening literal that has a lazy match, with the shortest body; None exactly when no position matches |
| Consts.DigitRunEnd | src/consts.rs:38-39 | the digit run is maximal: every character before the end is a digit and the end is not |
| Consts.DigitsFind | src/consts.rs:38-39 | returns the leftmost `window.code=<digits>;` match; None exactly when there is none |
| Consts.CaptureUuid | src/consts.rs:37 | None iff no `uuid = "…";` match exists; otherwise the text of the leftmost, shortest match |
| Consts.CaptureStatusCode | src/consts.rs:38-39 | None iff no match exists; otherwise a non-empty digit string that is followed by `;` and preceded by `window`, any character, then `code=` |
| Consts.CaptureRedirectUri | src/consts.rs:40-41 | None iff no match exists; otherwise the text after `window.redirect_uri="` up to the first quote, with no quote or newline in it |
| Consts.StatusCodeExample | src/consts.rs:38-39 | `window.code=201;` captures `201` |
| Consts.UuidStopsAtFirstClose | src/consts.rs:37 | the uuid capture stops at the first `";` |
| Resp.FromCode | src/resp/mod.rs:15-37 | a decoded `Ret` encodes back to the integer it came from |
| Resp.RetRoundTrip | src/resp/mod.rs:15-37 | decoding the code of any `Ret` gives that `Ret` |
| Resp.FromCodeExactlyTable | src/resp/mod.rs:15-37 | an integer decodes iff it is one of the ten table codes |
| Resp.CodesDistinct | src/resp/mod.rs:17-37 | different `Ret` variants have different codes |
| Resp.IsOkIffCodeZero | src/resp/mod.rs:47-51 | `is_ok` holds iff `ret` is `Ret::Ok`, code 0 |
| Resp.Field | src/resp/mod.rs:39-45 | a lookup returns the value of an entry with that name, and None iff no entry has the name |
| Resp.UniqueField | src/resp/mod.rs:39-45 | a name carried by exactly one entry is found at that entry and counted once |
| Resp.DecodeBaseResponse | src/resp/mod.rs:39-45 | a decoded base response carries the `Ret` code and `ErrMsg` text of the object, and each of the two keys occurs exactly once |
| Resp.DecodeBaseResponseExample | src/resp/mod.rs:57-63 | `{"Ret":0,"ErrMsg":"ok"}` decodes to `Ret::Ok` with message `ok` |
| Resp.DecodeBaseResponseRejectsDuplicate | src/resp/mod.rs:39-45 | `{"Ret":0,"ErrMsg":"ok","Ret":1}` is rejected because `Ret` repeats |
| Resp.DecodeBaseResponseComplete | src/resp/mod.rs:39-45 | every base response decodes from its own JSON followed by any fields with other names |
| RespLoginInfo.LoginInfo.Error | src/resp/login_info.rs:15-27 | `error()` is None iff `ok()`; otherwise it is the message, unchanged |
| RespLoginInfo.ErrorIgnoresOtherFields | src/resp/login_info.rs:20-26 | `error()` depends only on `ret` and `message` |
| RespSyncCheck.SerSelector | src/resp/sync_check.rs:66-72 | the serialised selector is one digit |
| RespSyncCheck.DeSelectorAsWritten | src/resp/sync_check.rs:48-64 | rejects text with the expected list the source writes |
| RespSyncCheck.ExpectedListNamesRejectedVariant | src/resp/sync_check.rs:59-62 | the expected list names "1" and "3", which the decoder rejects, and omits the accepted "6" and "7" |
| RespSyncCheck.DeSelector | src/resp/sync_check.rs:48-64 | an accepted text is exactly the Display string of its selector; a rejected one reports the accepted variants |
| RespSyncCheck.DeSelectorAgreesOnAccepted | src/resp/sync_check.rs:53-63 | the corrected decoder accepts and decodes exactly like the as-written one |
| RespSyncCheck.ExpectedVariantsAccurate | src/resp/sync_check.rs:59-62 | the corrected expected list names exactly the Display strings of the five selectors |
| RespSyncCheck.DeSelectorAcceptsExactly | src/resp/sync_check.rs:53-63 | text decodes iff it is "0", "2", "4", "6" or "7" |
| RespSyncCheck.SelectorRoundTrip | src/resp/sync_check.rs:5-19 | decoding the serialised form of a selector gives that selector |
| RespSyncCheck.SelectorTextRoundTrip | src/resp/sync_check.rs:48-72 | serialising a decoded text gives the text back |
| RespSyncCheck.DecodeFields | src/resp/sync_check.rs:23-31 | with neither `RetCode` nor `Selector` among the keys, fails with the missing `RetCode`; a decoded value carries the collected code and selector |
| RespSyncCheck.DecodeNeedsRenamedKeys | src/resp/sync_check.rs:23-31 | an object without the keys `RetCode` and `Selector` is rejected with "missing field `RetCode`" |
| RespSyncCheck.DecodeRenamedObject | src/resp/sync_check.rs:23-37 | an object with exactly the string keys `RetCode` and `Selector` decodes iff the selector decodes; then it keeps the code, and `is_success` holds iff the code is "0"; otherwise it reports the selector's error |
| RespSyncCheck.QuotedAsWritten | src/resp/sync_check.rs:59-62 | the as-written expected list prints as `0`, `1`, `2`, `3`, `4` |
| RespSyncCheck.UnknownSelectorText | src/resp/sync_check.rs:53-63 | rejecting "5" reads "unknown variant `5`, expected one of " followed by that list |
| Storages.WechatDomain.Display | src/storage/mod.rs:88-92 | Display prints the wrapped name unchanged |
| Storages.NewDomain | src/storage/mod.rs:94-103 | `new` wraps its argument unchanged |
| Storages.HostsStripToDomain | src/storage/mod.rs:104-114 | the base, file and sync hosts are "https://", "https://file." and "https://webpush." followed by the domain |
| Storages.HostsInjective | src/storage/mod.rs:104-114 | any one host determines the domain |
| Storages.SubdomainHosts | src/storage/mod.rs:104-114 | the file and sync hosts are the base hosts of the `file.` and `webpush.` subdomains |
| Storages.BaseRequestFromJson | src/storage/mod.rs:21-31 | a decoded base request carries the object's `Uin`, `Sid`, `Skey` and `DeviceID`, each present exactly once, with `Uin` in the `i64` range |
| Storages.BaseRequestRoundTrip | src/storage/mod.rs:21-31 | the JSON form of a base request decodes back to it |
| Storages.SavedMap | src/storage/mod.rs:61-78 | the saved map has exactly the jar's keys |
| Storages.LoadedMap | src/storage/mod.rs:43-59 | the loaded map has exactly the input keys |
| Storages.SerCookies | src/storage/mod.rs:61-78 | succeeds iff every store saves; then one entry per jar key, same size as the jar; otherwise the error of a failing store |
| Storages.DeCookies | src/storage/mod.rs:43-59 | succeeds iff every value loads; then exactly the input keys; otherwise the error of a failing value |
| Storages.CookiesRoundTrip | src/storage/mod.rs:43-78 | when save and load are inverse, decoding the serialised jar gives the jar back |
| Storages.EmptyValuesDecode | src/storage/json/tokio.rs:85-97 | a snapshot whose cookie values are all empty decodes when the empty text loads |
| Net.InsertHeaderReplaces | src/caller/client.rs:250-253 | inserting a header leaves exactly one value for it and keeps every other header |
| Http.AsStr | src/caller/http.rs:24-40 | Normal prints "normal" and Desktop prints "desktop", and nothing else prints those |
| Http.Lookup | src/caller/http.rs:47-64 | a query lookup fails iff the key is absent, else returns a value paired with the key |
| Http.LookupFirst | src/caller/http.rs:47-64 | a lookup returns the first pair with the key |
| Http.LoginUuidQuery | src/caller/http.rs:47-64 | the login query is redirect_uri, appid (the app id), fun (`new`), lang (`zh_CN`), `_` (the clock) in that order, then `mod` in Desktop mode only |
| Http.LoginUuidModParameter | src/caller/http.rs:47-64 | `mod=desktop` appears in the login URL and in its redirect URL exactly in Desktop mode |
| Http.UuidResult | src/caller/http.rs:43-87 | the uuid is the first capture of the body; a failed send, an unreadable body or a missing match each give their own `GetLoginUuid` error |
| Http.CheckLoginQuery | src/caller/http.rs:90-101 | the poll query is loginicon, uuid, tip, r, `_` with the given uuid |
| Http.MapStatusKeepsCode | src/caller/http.rs:121-127 | mapping a code never fails and keeps the code; `Unknown` exactly for codes outside the four |
| Http.MapStatusInverse | src/caller/http.rs:121-127 | each status maps back from its own code |
| Http.CheckLoginResult | src/caller/http.rs:90-129 | Ok iff a `window.code=` match exists; then the raw body is returned unchanged and the status is the captured code mapped by `MapStatus` (200 Success, 201 Scanned, 400 Timeout, 408 Wait, any other code `Unknown` with that code) |
| Http.CheckLoginScannedExample | src/caller/http.rs:112-128 | a body `window.code=201;` polls as Scanned |
| Http.LoginInfoHeaders | src/caller/http.rs:199-209 | Desktop adds exactly `client-version` and `extspam`; Normal adds no header; the URL is kept |
| Http.LoginInfoResult | src/caller/http.rs:211-231 | any status but 301 gives the Forbidden `GetLoginInfo` error; only a 301 body is decoded |
| Http.LoginInfoIgnoresBodyUnless301 | src/caller/http.rs:214-223 | for a non-301 status the body has no effect on the result |
| Http.StatusNotifyResult | src/caller/http.rs:162-180 | Ok iff the decoded base response is ok; otherwise a `StatusNotify` error carrying `errmsg` |
| Http.FirstBar | src/caller/http.rs:247-253 | finds the first `|` of a text |
| Http.SplitJoinSyncKey | src/caller/http.rs:247-253 | splitting the `|`-joined sync key at `|` gives back the rendered pairs in order |
| Http.SyncCheckQuery | src/caller/http.rs:255-263 | the sync-check query is r, skey, sid, uin, deviceid, `_`, then `synckey` last |
| Http.SyncCheckResult | src/caller/http.rs:264-298 | never Ok: a failed send, an unreadable body, no capture and a wrong group count each give their own `SyncCheck` error; two groups give "组装ResponseSyncCheck数据错误: missing field `RetCode`" |
| Http.SyncCheckResultRenamed | src/caller/http.rs:288-294 | with the keys `RetCode` and `Selector`, every earlier error is unchanged; two groups decode iff the second is a selector, to the first group and that selector, successful iff the first group is "0"; otherwise the selector's error |
| Http.SyncCheckNewMessageExample | src/caller/http.rs:288-294 | groups "0" and "2" fail as written and decode to success with new messages once renamed |
| Caller.ApplyBeforeConcat | src/caller/client.rs:80-84 | running hooks a then b equals running b after a |
| Caller.UserAgentHookReplaces | src/caller/client.rs:247-256 | the default hook leaves exactly one user-agent value and changes nothing else |
| Caller.HooksKeepUrl | src/caller/client.rs:247-256 | a list of default hooks never changes the request URL |
| Caller.Settled | src/caller/client.rs:86-100 | the retry loop ends at the first attempt that is not a send failure |
| Caller.OutcomeOkIffFirstReply | src/caller/client.rs:86-103 | `do_http` succeeds iff the first attempt gets a reply, and then only one send is made |
| Caller.LaterReplyStillFails | src/caller/client.rs:86-103 | a reply after a failure still yields the failure's error |
| Caller.AllSendsFail | src/caller/client.rs:86-103 | three failures yield the last error after three sends |
| Caller.CloneFailureStops | src/caller/client.rs:88-90 | a clone failure returns `RequestClone` at once, with no further send |
| Caller.SendsBounded | src/caller/client.rs:86-100 | at most `MAX_RETRY` sends, every send but the last one failed |
| Caller.JarKeyIgnoresQuery | src/caller/client.rs:141-147 | the jar key ignores the query |
| Caller.JarKeySeparatesPaths | src/caller/client.rs:141-147 | for the same scheme and host, keys agree iff paths agree |
| Caller.ExecuteJarEffect | src/caller/client.rs:137-158 | success overwrites exactly the response URL's key with a fresh store; failure leaves the jar alone; nothing else changes |
| Caller.WebInitResult | src/caller/client.rs:199-207 | a send error passes through; Ok iff the body reads and decodes |
| Caller.WebInitNeedsDomain | src/caller/client.rs:181-187 | with no domain, `web_init` fails with "no domain" and sends nothing |
| Caller.WebInitPostsBaseRequest | src/caller/client.rs:189-198 | with a domain, exactly one POST carrying the base request is sent |
| Caller.LookupPrefix | src/caller/client.rs:192-194 | appending query pairs keeps an existing key's first value |
| Caller.Client.constructor | src/caller/client.rs:46-58 | a new client has no hooks, no domain, an empty jar and the given mode |
| Caller.Client.Default | src/caller/client.rs:36-43 | the default client has exactly the user-agent hook and Normal mode |
| Caller.Client.SetMode | src/caller/client.rs:60-62 | sets the mode |
| Caller.Client.SetDomain | src/caller/client.rs:64-66 | sets the domain |
| Caller.Client.GetDomain | src/caller/client.rs:68-70 | returns the domain last set |
| Caller.Client.AddHttpHook | src/caller/client.rs:71-77 | appends the hooks in order, or installs them when there were none |
| Caller.Client.DoHttp | src/caller/client.rs:79-113 | the loop's result, send count and hook trace equal the closed form over the attempts |
| Caller.Client.ParseCookies | src/caller/client.rs:115-148 | stores the response's store under its URL key, overwriting it |
| Caller.Client.AddCookies | src/caller/client.rs:150-152 | inserts or overwrites exactly one key |
| Caller.Client.GetCookies | src/caller/client.rs:160-163 | returns the whole jar |
| Caller.Client.Execute | src/caller/client.rs:154-158 | the new state and result are those of `ExecuteSpec` |
| Caller.Client.WebInit | src/caller/client.rs:180-208 | the new state and result are those of `WebInitSpec` |
| HttpCalls.GetLoginUuidSpec | src/caller/http.rs:43-87 | the result is the uuid decision on the attempts; one request is logged; settings unchanged |
| HttpCalls.GetLoginUuid | src/caller/http.rs:43-87 | new state and result equal `GetLoginUuidSpec` |
| HttpCalls.CheckLoginSpec | src/caller/http.rs:90-129 | the result is the status decision on the attempts; one request is logged; settings unchanged |
| HttpCalls.CheckLogin | src/caller/http.rs:90-129 | new state and result equal `CheckLoginSpec` |
| HttpCalls.DomainOf | src/caller/http.rs:195-198 | the domain is the redirect host when it is a name, else None |
| HttpCalls.GetLoginInfoSwitchesDomainFirst | src/caller/http.rs:191-232 | a bad URL changes nothing; otherwise the domain is set before the request, whatever the reply |
| HttpCalls.GetLoginInfoOkMeans301 | src/caller/http.rs:214-223 | success implies the reply was a 301 |
| HttpCalls.GetLoginInfo | src/caller/http.rs:191-232 | new state and result equal `GetLoginInfoSpec` |
| HttpCalls.StatusNotifySpec | src/caller/http.rs:132-180 | settings unchanged; the result is the notify decision for the base-host URL |
| HttpCalls.StatusNotifyReportsErrMsg | src/caller/http.rs:173-178 | a non-ok base response gives a `StatusNotify` error with its `errmsg` |
| HttpCalls.StatusNotify | src/caller/http.rs:132-180 | new state and result equal `StatusNotifySpec` |
| HttpCalls.SyncCheckSpec | src/caller/http.rs:234-299 | never Ok; settings unchanged; the result is the sync-check decision for the base-host URL; the request is logged |
| HttpCalls.SyncCheck | src/caller/http.rs:234-299 | never Ok; new state and result equal `SyncCheckSpec` |
| Bot.DeviceIdShape | src/bot/mod.rs:206-219 | a device id is 16 characters: 'e' then 15 digits in '0'..'8' |
| Bot.DeviceIdRecordsDraws | src/bot/mod.rs:206-219 | the device id determines the digits drawn |
| Bot.GetRandomDeviceId | src/bot/mod.rs:206-219 | the loop builds exactly `DeviceIdOf` of the draws |
| Bot.WebInitNeedsBaseRequest | src/bot/mod.rs:165-171 | `web_init` fails with `NoBaseRequest`, changing nothing, iff no base request is stored |
| Bot.AfterLoginInfo | src/bot/mod.rs:130-147 | the rest of `handle_login` keeps the uuid, the callbacks and the callback notices |
| Bot.HandleLoginSpec | src/bot/mod.rs:126-149 | `handle_login` keeps the uuid, the callbacks and the callback notices |
| Bot.HandleLoginDeviceId | src/bot/mod.rs:130-132 | an existing device id is kept; an empty one is either kept or replaced by a fresh draw |
| Bot.HandleLoginStoresBeforeDump | src/bot/mod.rs:130-147 | the base request is built from the credentials; request and login info are stored before the dump; a failed dump stops before `web_init`; a successful `web_init` result is stored |
| Bot.TerminatesTail | src/bot/mod.rs:83-121 | a poll stream that ends still ends after a continuing poll |
| Bot.AfterPoll | src/bot/mod.rs:84-121 | Wait and Scanned continue; every other answer ends the loop; the uuid is kept |
| Bot.PollStepSpec | src/bot/mod.rs:83-121 | one poll continues iff its answer is Wait or Scanned |
| Bot.PollSpecUnfold | src/bot/mod.rs:83-121 | the loop is one poll step followed by the loop on the rest |
| Bot.PollOutcomes | src/bot/mod.rs:83-121 | a poll error propagates; Timeout gives `LoginTimeout`; Unknown gives `StatusUnknown` with the code; Wait continues unchanged |
| Bot.SuccessNeedsRedirectUri | src/bot/mod.rs:85-94 | Success without a redirect-URI capture gives a `GetLoginInfo` error |
| Bot.AfterPollFrame | src/bot/mod.rs:84-121 | a poll step adds only scan notices, and a login notice only on success |
| Bot.PollFrameExtend | src/bot/mod.rs:83-121 | the poll frame carries across a step that adds scan notices |
| Bot.PollKeepsFrame | src/bot/mod.rs:83-121 | the whole loop keeps the uuid and callbacks and adds only scan notices plus a login notice on success |
| Bot.LoginWithUuidCallbacks | src/bot/mod.rs:76-124 | the uuid is recorded; the uuid callback runs at most once, before any poll; the login callback only when the call returns Ok |
| Bot.HotLoginInitRestores | src/bot/mod.rs:63-73 | every snapshot cookie enters the jar; credentials, request and domain are overwritten, absent ones included; the saved uuid is taken; the device id is untouched |
| Bot.HotLoginFallsBack | src/bot/mod.rs:41-56 | a failed fetch is a full login; a failed restored `web_init` falls back to login; a successful one returns Ok without storing the init answer |
| Bot.Bot.Default | src/bot/mod.rs:221-237 | a new bot has no callbacks, an empty uuid and device id, empty storage and a default client |
| Bot.Bot.SetUuidCallback | src/bot/mod.rs:173-175 | sets only the uuid callback |
| Bot.Bot.SetScanCallback | src/bot/mod.rs:181-183 | sets only the scan callback |
| Bot.Bot.SetLoginCallback | src/bot/mod.rs:185-187 | sets only the login callback |
| Bot.Bot.SetMode | src/bot/mod.rs:201-203 | sets only the client's mode |
| Bot.Bot.WebInit | src/bot/mod.rs:165-171 | new state and result equal `BotWebInitSpec` |
| Bot.Bot.DumpHotReloadStorage | src/bot/mod.rs:151-163 | records the snapshot write and its outcome as `DumpSpec` says |
| Bot.Bot.HandleLogin | src/bot/mod.rs:126-149 | new state and result equal `HandleLoginSpec` |
| Bot.Bot.PollOnce | src/bot/mod.rs:83-121 | one loop iteration equals `PollStepSpec` |
| Bot.Bot.OnPollAnswer | src/bot/mod.rs:85-121 | the reaction to one answer equals `AfterPoll` |
| Bot.Bot.PollLoop | src/bot/mod.rs:82-123 | the loop equals `PollSpec` |
| Bot.Bot.LoginWithUuid | src/bot/mod.rs:76-124 | new state and result equal `LoginWithUuidSpec` |
| Bot.Bot.Login | src/bot/mod.rs:58-61 | new state and result equal `LoginSpec` |
| Bot.Bot.HotLoginInit | src/bot/mod.rs:63-73 | the loop over the snapshot cookies gives `HotLoginInitSpec` |
| Bot.Bot.HotLogin | src/bot/mod.rs:41-56 | new state and result equal `HotLoginSpec` |

## Left out

- The network is not modelled: reqwest's sending, the 30-second timeout, the no-redirect policy and the text/JSON body readers. Each call takes its attempt outcomes and its body text as data.
- URL parsing and percent-encoding are left to a `parseUrl` parameter and a plain `Serialize`. The fixed URL constants are built from parts, not parsed.
- The Set-Cookie parsing of section 5.2 of RFC 6265 and the internals of the cookie store are not modelled. A store is opaque and is built from the response's Set-Cookie values.
- JSON and XML decoding of `LoginInfo`, `ResponseWebInit` and the notify envelope are decoder parameters.
- `Utc::now()` and `rand::thread_rng` become a clock reading and a `Draws` parameter.
- The tokio `Mutex` around the jar is left out, because it only serves concurrency. The jar is a plain map field.
- File persistence is not modelled: `src/storage.rs`, `src/storage/json/*.rs` and their lazy file opening. `dump` is a write outcome; `fetch` is a stored `Result`.
- The sync loop `message_loop` is not modelled: src/bot/mod.rs does not define it.
- `REGEX_SYNC_CHECK` is not defined in src/consts.rs, so its match is a `capture` parameter: the groups after group 0, or None. A group that did not take part, where `unwrap` would panic, is not modelled.
- `SYNC_CHECK`, `UOS_PATCH_CLIENT_VERSION` and `UOS_PATCH_EXTSPAM` are opaque constants, because `src/consts.rs` does not define them.
- The `unwrap()` panics on the domain and on the notify body are preconditions (`domain.Some?`, `DecodesNotify`), not behaviour.
- Bot.Bot.HotLoginInit: the `items.uuid.unwrap()` at src/bot/mod.rs:71 is a precondition (`items.uuid.Some?`, also on `Bot.HotLoginInitSpec`). A snapshot without a uuid, which src/storage/mod.rs:41 allows, panics there, and that panic is not modelled.
- Bot.Bot.HotLogin: a fetched snapshot must carry a uuid (`stored.Ok? ==> stored.value.uuid.Some?`, also on `Bot.HotLoginSpec`), since `hot_login` (src/bot/mod.rs:47) hands it to `hot_login_init`, whose unwrap panics otherwise; that panic is not modelled.
- The logout, sync-check and message callbacks are not modelled; only the flags for the three login callbacks are kept.
- `set_hot_reload_storage` and the message handler are not modelled: the login core never reads them.
- The `Caller` delegation in `src/caller/mod.rs` is folded into `Client`. The process spawn in `src/bootstrap.rs` is left out.
- After-request hooks are not modelled as functions: the hooks in src/caller/client.rs never change a response. `DoHttp` records when they run in its event trace.
- Caller.ExecuteJarEffect: states the jar key of the URL after the before-hooks, which for custom hooks may differ from the caller's URL. It does not state the redirect-resolved response URL, since redirects are off.
- Bot.PollSpec: the source's `loop` polls forever. The model takes a finite stream of polls that contains a terminal answer (`Terminates`). A stream that never ends is not modelled.
- Bot.HandleLoginDeviceId: the device id comes from the supplied draws, not from a random source, so it is stated only as kept or freshly drawn.
- Bot.Bot.DumpHotReloadStorage: the snapshot is logged even when the write fails. The write's failure is then reported as `DumpHotReloadStorage`; partial files are not modelled.
- Consts.CaptureStatusCode: `\d` is read as the ASCII digits. The regex crate's `\d` is Unicode-aware, so a body `window.code=２０１;` in fullwidth digits matches there and not in the model.
- `LoginInfo`'s `ret` and `isgrayscale` and its `wxuin` are the range-checked subset types `i32` and `i64`, and so is `BaseRequest`'s `uin`; `Storages.BaseRequestFromJson` rejects a `Uin` outside `i64`. Other integers, such as the sync key's `count`, are unbounded `int`, since they are only carried.
- The `debug!` at src/caller/http.rs:215-218 reads a non-301 body with `unwrap()`, which panics on an unreadable body when debug logging is on. Logging is not modelled, so `Http.LoginInfoResult` returns the Forbidden error there.

## Findings

| source | as written | input that shows it | evidently intended | confidence | as-written member | corrected member |
|---|---|---|---|---|---|---|
| src/resp/sync_check.rs:59-62 | on a rejected selector, `de_selector` reports the accepted variants as "0", "1", "2", "3", "4" | `de_selector("5")` lists "1" and "3", which `de_selector` itself rejects, and omits "6" and "7", which it accepts | the expected list names exactly the accepted strings "0", "2", "4", "6", "7" | not executed | RespSyncCheck.ExpectedListNamesRejectedVariant | RespSyncCheck.ExpectedVariantsAccurate |
| src/caller/http.rs:288-294 | `sync_check` builds `{"retcode": …, "selector": …}` and decodes it as `ResponseSyncCheck`, whose fields are renamed `RetCode` and `Selector` | any body with two captured groups, e.g. `window.synccheck={retcode:"0",selector:"2"}`, fails with "missing field `RetCode`" | the object is keyed `RetCode` and `Selector`, so the groups decode; the corrected member also decodes the selector with the corrected `RespSyncCheck.DeSelector` of the row above, which accepts the same texts as the as-written decoder and differs only in the expected list it reports | not executed | Http.SyncCheckNewMessageExample | Http.SyncCheckResultRenamed |
