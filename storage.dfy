/** Session state and the hot-reload snapshot (src/storage/mod.rs): the service
    domain, the base request, the stored responses and the cookie-map codecs. */
module Storages {
  import opened Wrappers
  import opened Net
  import Resp
  import opened RespLoginInfo

  /** The WeChat service domain, e.g. "wx2.qq.com". */
  datatype WechatDomain = WechatDomain(name: string) {
    /** `Display`: the wrapped text unchanged. */
    function Display(): (s: string)
      ensures s == name
    {
      name
    }

    function BaseHost(): (h: string) {
      "https://" + name
    }

    function FileHost(): (h: string) {
      "https://file." + name
    }

    function SyncHost(): (h: string) {
      "https://webpush." + name
    }
  }

  /** `WechatDomain::new` and `From<String>`: the argument wrapped unchanged. */
  function NewDomain(domain: string): (d: WechatDomain)
    ensures d.Display() == domain
  {
    WechatDomain(domain)
  }

  /** Each host is a fixed prefix followed by the domain, so each host determines the domain. */
  lemma HostsStripToDomain(d: WechatDomain)
    ensures |d.BaseHost()| == 8 + |d.name| && d.BaseHost()[..8] == "https://" && d.BaseHost()[8..] == d.name
    ensures |d.FileHost()| == 13 + |d.name| && d.FileHost()[..13] == "https://file." && d.FileHost()[13..] == d.name
    ensures |d.SyncHost()| == 16 + |d.name| && d.SyncHost()[..16] == "https://webpush." && d.SyncHost()[16..] == d.name
  {
  }

  lemma HostsInjective(d: WechatDomain, e: WechatDomain)
    requires d.BaseHost() == e.BaseHost() || d.FileHost() == e.FileHost() || d.SyncHost() == e.SyncHost()
    ensures d == e
  {
    HostsStripToDomain(d);
    HostsStripToDomain(e);
  }

  /** The file and push hosts are the base host of the "file." and "webpush." subdomains. */
  lemma SubdomainHosts(d: WechatDomain)
    ensures d.FileHost() == WechatDomain("file." + d.name).BaseHost()
    ensures d.SyncHost() == WechatDomain("webpush." + d.name).BaseHost()
  {
    assert "https://" + ("file." + d.name) == "https://file." + d.name;
    assert "https://" + ("webpush." + d.name) == "https://webpush." + d.name;
  }

  /** The credentials every later call sends, as the JSON object `BaseRequest`. */
  datatype BaseRequest = BaseRequest(uin: i64, sid: string, skey: string, deviceId: string)

  function BaseRequestToJson(b: BaseRequest): Json {
    JObj([("Uin", JInt(b.uin)), ("Sid", JStr(b.sid)), ("Skey", JStr(b.skey)), ("DeviceID", JStr(b.deviceId))])
  }

  /** `BaseRequest` from its JSON object: each of the four renamed keys exactly once, `Uin` an
      integer in i64's range and the others strings. */
  function BaseRequestFromJson(j: Json): (r: Option<BaseRequest>)
    ensures r.Some? ==> j.JObj? && Resp.Field(j.fields, "Uin") == Some(JInt(r.value.uin))
    ensures r.Some? ==> Resp.Field(j.fields, "Sid") == Some(JStr(r.value.sid))
    ensures r.Some? ==> Resp.Field(j.fields, "Skey") == Some(JStr(r.value.skey))
    ensures r.Some? ==> Resp.Field(j.fields, "DeviceID") == Some(JStr(r.value.deviceId))
    ensures r.Some? ==> Resp.Occurrences(j.fields, "Uin") == 1 && Resp.Occurrences(j.fields, "Sid") == 1 &&
                        Resp.Occurrences(j.fields, "Skey") == 1 && Resp.Occurrences(j.fields, "DeviceID") == 1
  {
    if !j.JObj? then None
    else if Resp.Occurrences(j.fields, "Uin") > 1 || Resp.Occurrences(j.fields, "Sid") > 1 ||
            Resp.Occurrences(j.fields, "Skey") > 1 || Resp.Occurrences(j.fields, "DeviceID") > 1 then None
    else match (Resp.Field(j.fields, "Uin"), Resp.Field(j.fields, "Sid"), Resp.Field(j.fields, "Skey"), Resp.Field(j.fields, "DeviceID"))
      case (Some(JInt(u)), Some(JStr(sid)), Some(JStr(skey)), Some(JStr(dev))) =>
        if -0x8000_0000_0000_0000 <= u < 0x8000_0000_0000_0000 then Some(BaseRequest(u, sid, skey, dev)) else None
      case _ => None
  }

  /** The serde renames are distinct, so the JSON form decodes back to the same request. */
  lemma BaseRequestRoundTrip(b: BaseRequest)
    ensures BaseRequestFromJson(BaseRequestToJson(b)) == Some(b)
  {
    var fs := BaseRequestToJson(b).fields;
    Resp.UniqueField(fs, "Uin", 0);
    Resp.UniqueField(fs, "Sid", 1);
    Resp.UniqueField(fs, "Skey", 2);
    Resp.UniqueField(fs, "DeviceID", 3);
  }

  /** What a logged-in session keeps: credentials, base request and the init answer. */
  datatype Storage = Storage(
    loginInfo: Option<LoginInfo>,
    request: Option<BaseRequest>,
    webInitResponse: Option<Resp.ResponseWebInit>)

  /** `Storage::default()`. */
  const EmptyStorage := Storage(None, None, None)

  /** The snapshot written after login and read back by a hot login. */
  datatype HotReloadStorageItem = HotReloadStorageItem(
    cookies: map<string, CookieStore>,
    baseRequest: Option<BaseRequest>,
    loginInfo: Option<LoginInfo>,
    wechatDomain: Option<WechatDomain>,
    uuid: Option<string>)

  // ---------------------------------------------------------------------------
  // Cookie-map codecs.  The store's own text format is foreign: `save` and `load`
  // stand for `save_incl_expired_and_nonpersistent` and `CookieStore::load`.

  ghost predicate AllSave(cookies: map<string, CookieStore>, save: CookieStore -> Result<string, string>) {
    forall k :: k in cookies ==> save(cookies[k]).Ok?
  }

  /** The serialised map: the same keys, each store replaced by its saved text. */
  function SavedMap(cookies: map<string, CookieStore>, save: CookieStore -> Result<string, string>): (m: map<string, string>)
    requires AllSave(cookies, save)
    ensures m.Keys == cookies.Keys
  {
    map k | k in cookies :: save(cookies[k]).value
  }

  ghost predicate AllLoad(texts: map<string, string>, load: string -> Result<CookieStore, string>) {
    forall k :: k in texts ==> load(texts[k]).Ok?
  }

  /** The decoded jar: the same keys, each text replaced by the store it loads. */
  function LoadedMap(texts: map<string, string>, load: string -> Result<CookieStore, string>): (m: map<string, CookieStore>)
    requires AllLoad(texts, load)
    ensures m.Keys == texts.Keys
  {
    map k | k in texts :: load(texts[k]).value
  }

  /** `ser_cookies`: one entry per jar key, the key unchanged; the first failing save aborts. */
  method SerCookies(cookies: map<string, CookieStore>, save: CookieStore -> Result<string, string>)
    returns (r: Result<map<string, string>, string>)
    ensures r.Ok? <==> AllSave(cookies, save)
    ensures r.Ok? ==> r.value == SavedMap(cookies, save) && |r.value| == |cookies|
    ensures r.Err? ==> exists k :: k in cookies && save(cookies[k]) == Err(r.error)
  {
    var out: map<string, string> := map[];
    var rest := cookies.Keys;
    while rest != {}
      invariant rest <= cookies.Keys
      invariant out.Keys == cookies.Keys - rest
      invariant forall k :: k in out ==> save(cookies[k]) == Ok(out[k])
      decreases |rest|
    {
      var k :| k in rest;
      match save(cookies[k]) {
        case Err(e) =>
          return Err(e);
        case Ok(text) =>
          out := out[k := text];
      }
      rest := rest - {k};
    }
    assert out == SavedMap(cookies, save);
    assert |out| == |out.Keys|;
    return Ok(out);
  }

  /** `de_cookies`: exactly the input keys; the first value that fails to load aborts. */
  method DeCookies(texts: map<string, string>, load: string -> Result<CookieStore, string>)
    returns (r: Result<map<string, CookieStore>, string>)
    ensures r.Ok? <==> AllLoad(texts, load)
    ensures r.Ok? ==> r.value == LoadedMap(texts, load)
    ensures r.Err? ==> exists k :: k in texts && load(texts[k]) == Err(r.error)
  {
    var cookies: map<string, CookieStore> := map[];
    var rest := texts.Keys;
    while rest != {}
      invariant rest <= texts.Keys
      invariant cookies.Keys == texts.Keys - rest
      invariant forall k :: k in cookies ==> load(texts[k]) == Ok(cookies[k])
      decreases |rest|
    {
      var k :| k in rest;
      match load(texts[k]) {
        case Err(e) =>
          return Err(e);
        case Ok(store) =>
          cookies := cookies[k := store];
      }
      rest := rest - {k};
    }
    assert cookies == LoadedMap(texts, load);
    return Ok(cookies);
  }

  /** When loading undoes saving, decoding the serialised jar gives the jar back. */
  lemma CookiesRoundTrip(cookies: map<string, CookieStore>,
                         save: CookieStore -> Result<string, string>,
                         load: string -> Result<CookieStore, string>)
    requires forall c :: save(c).Ok? && load(save(c).value) == Ok(c)
    ensures AllSave(cookies, save)
    ensures AllLoad(SavedMap(cookies, save), load)
    ensures LoadedMap(SavedMap(cookies, save), load) == cookies
  {
    var saved := SavedMap(cookies, save);
    assert forall k :: k in saved ==> load(saved[k]) == Ok(cookies[k]);
  }

  /** A snapshot whose values are all "" decodes as soon as the empty text loads, as the
      dump test's entries do. */
  lemma EmptyValuesDecode(texts: map<string, string>, load: string -> Result<CookieStore, string>)
    requires load("").Ok?
    requires forall k :: k in texts ==> texts[k] == ""
    ensures AllLoad(texts, load)
    ensures forall k :: k in texts ==> LoadedMap(texts, load)[k] == load("").value
  {
  }
}
