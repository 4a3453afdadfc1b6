/** Endpoint constants, login status codes, the `Status` enum and the three fixed
    capture patterns of src/consts.rs, the patterns written as scanners. */
module Consts {
  import opened Wrappers
  import opened Net

  const WebWxInit := "/cgi-bin/mmwebwx-bin/webwxinit"
  const WebWxStatusNotify := "/cgi-bin/mmwebwx-bin/webwxstatusnotify"
  const QrCode := "https://login.weixin.qq.com/qrcode/"
  const AppId := "wx782c26e4c19acffb"
  const JsonContentType := "application/json; charset=utf-8"

  /** The three absolute endpoints, kept in parsed form; their text is the serialisation. */
  const NewLoginPageUrl := Url("https", Domain("wx.qq.com"), "/cgi-bin/mmwebwx-bin/webwxnewloginpage", [])
  const JsLoginUrl := Url("https", Domain("login.wx.qq.com"), "/jslogin", [])
  const LoginUrl := Url("https", Domain("login.wx.qq.com"), "/cgi-bin/mmwebwx-bin/login", [])
  const WebWxNewLoginPage := Serialize(NewLoginPageUrl)
  const JsLogin := Serialize(JsLoginUrl)
  const Login := Serialize(LoginUrl)

  /** Endpoint path and desktop-mode header values that the protocol calls name but
      whose definitions are not part of this model; their values stay unspecified. */
  const SyncCheckPath: string
  const UosPatchClientVersion: string
  const UosPatchExtspam: string

  const StatusCodeSuccess := "200"
  const StatusCodeScanned := "201"
  const StatusCodeTimeout := "400"
  const StatusCodeWait := "408"

  /** Outcome of one login poll; only `Unknown` carries data, the raw code text. */
  datatype Status = Success | Scanned | Timeout | Wait | Unknown(code: string)

  /** The four status codes are distinct, so the status mapping is unambiguous. */
  lemma StatusCodesDistinct()
    ensures StatusCodeSuccess != StatusCodeScanned && StatusCodeSuccess != StatusCodeTimeout
    ensures StatusCodeSuccess != StatusCodeWait && StatusCodeScanned != StatusCodeTimeout
    ensures StatusCodeScanned != StatusCodeWait && StatusCodeTimeout != StatusCodeWait
  {
  }

  // ---------------------------------------------------------------------------
  // Pattern matching.  Rust's `regex` reports the leftmost match; within it a lazy
  // `.*?` stops at the first place the rest of the pattern fits, and `.` matches any
  // character except a newline.  In the literal prefixes below `.` keeps that meaning.

  /** `p` matches at position `i` of `s`, reading `.` in `p` as "any character but newline". */
  predicate PrefixAt(s: string, i: nat, p: string) {
    i + |p| <= |s| &&
    forall k :: 0 <= k < |p| ==> if p[k] == '.' then s[i + k] != '\n' else s[i + k] == p[k]
  }

  predicate LiteralAt(s: string, t: nat, lit: string) {
    t + |lit| <= |s| && forall m :: 0 <= m < |lit| ==> s[t + m] == lit[m]
  }

  /** `s[a..b]` can be spanned by `.*`. */
  predicate NoNewline(s: string, a: nat, b: nat)
    requires a <= b <= |s|
  {
    forall k :: a <= k < b ==> s[k] != '\n'
  }

  predicate IsDigit(c: char) {
    '0' <= c <= '9'
  }

  /** The pattern `p(.*?)term` matches from `i`, its group ending at `t`. */
  ghost predicate LazyMatch(s: string, p: string, term: string, i: nat, t: nat) {
    PrefixAt(s, i, p) && i + |p| <= t <= |s| && NoNewline(s, i + |p|, t) && LiteralAt(s, t, term)
  }

  /** The pattern `p(\d+);` matches from `i`, its group ending at `t`. */
  ghost predicate DigitsMatch(s: string, p: string, i: nat, t: nat) {
    PrefixAt(s, i, p) && i + |p| < t < |s| &&
    (forall k :: i + |p| <= k < t ==> IsDigit(s[k])) && s[t] == ';'
  }

  /** The first place at or after `j` where `term` occurs with no newline before it. */
  function LazyEnd(s: string, j: nat, term: string): (r: Option<nat>)
    requires j <= |s|
    ensures r.Some? ==> j <= r.value <= |s| && NoNewline(s, j, r.value) && LiteralAt(s, r.value, term)
    ensures r.Some? ==> forall t :: j <= t < r.value ==> !LiteralAt(s, t, term)
    ensures r.None? ==> forall t :: j <= t <= |s| && NoNewline(s, j, t) ==> !LiteralAt(s, t, term)
    decreases |s| - j
  {
    if LiteralAt(s, j, term) then Some(j)
    else if j == |s| || s[j] == '\n' then None
    else
      var r := LazyEnd(s, j + 1, term);
      assert r.None? ==> forall t :: j < t <= |s| && NoNewline(s, j, t) ==> NoNewline(s, j + 1, t);
      r
  }

  /** Leftmost match of `p(.*?)term` starting at or after `i`: its start and the end of its group. */
  function LazyFind(s: string, p: string, term: string, i: nat): (r: Option<(nat, nat)>)
    requires i <= |s| && |p| > 0
    ensures r.Some? ==> i <= r.value.0 && LazyMatch(s, p, term, r.value.0, r.value.1)
    ensures r.Some? ==> forall t :: r.value.0 + |p| <= t < r.value.1 ==> !LiteralAt(s, t, term)
    ensures r.Some? ==> forall a: nat, t: nat :: i <= a < r.value.0 ==> !LazyMatch(s, p, term, a, t)
    ensures r.None? ==> forall a: nat, t: nat :: i <= a ==> !LazyMatch(s, p, term, a, t)
    decreases |s| - i
  {
    if i + |p| > |s| then None
    else if PrefixAt(s, i, p) && LazyEnd(s, i + |p|, term).Some? then
      Some((i, LazyEnd(s, i + |p|, term).value))
    else
      LazyFind(s, p, term, i + 1)
  }

  /** End of the run of digits that starts at `j`. */
  function DigitRunEnd(s: string, j: nat): (e: nat)
    requires j <= |s|
    ensures j <= e <= |s|
    ensures forall k :: j <= k < e ==> IsDigit(s[k])
    ensures e < |s| ==> !IsDigit(s[e])
    decreases |s| - j
  {
    if j < |s| && IsDigit(s[j]) then DigitRunEnd(s, j + 1) else j
  }

  /** Leftmost match of `p(\d+);` starting at or after `i`: its start and the end of its group. */
  function DigitsFind(s: string, p: string, i: nat): (r: Option<(nat, nat)>)
    requires i <= |s| && |p| > 0
    ensures r.Some? ==> i <= r.value.0 && DigitsMatch(s, p, r.value.0, r.value.1)
    ensures r.Some? ==> forall a: nat, t: nat :: i <= a < r.value.0 ==> !DigitsMatch(s, p, a, t)
    ensures r.None? ==> forall a: nat, t: nat :: i <= a ==> !DigitsMatch(s, p, a, t)
    decreases |s| - i
  {
    if i + |p| > |s| then None
    else
      var e := DigitRunEnd(s, i + |p|);
      if PrefixAt(s, i, p) && i + |p| < e < |s| && s[e] == ';' then Some((i, e))
      else
        assert forall t: nat :: !DigitsMatch(s, p, i, t);
        DigitsFind(s, p, i + 1)
  }

  const UuidOpen := "uuid = \""
  const UuidClose := "\";"
  const StatusCodeOpen := "window.code="
  const RedirectUriOpen := "window.redirect_uri=\""
  const RedirectUriClose := "\""

  /** `REGEX_UUID` = `uuid = "(.*?)";`: the first capture group, if the pattern matches. */
  function CaptureUuid(s: string): (r: Option<string>)
    ensures r.None? <==> forall a: nat, t: nat :: !LazyMatch(s, UuidOpen, UuidClose, a, t)
    ensures r.Some? ==> exists a: nat, t: nat ::
      LazyMatch(s, UuidOpen, UuidClose, a, t) && r.value == s[a + |UuidOpen|..t] &&
      (forall a': nat, t': nat :: a' < a ==> !LazyMatch(s, UuidOpen, UuidClose, a', t')) &&
      (forall t' :: a + |UuidOpen| <= t' < t ==> !LiteralAt(s, t', UuidClose))
  {
    match LazyFind(s, UuidOpen, UuidClose, 0)
    case None => None
    case Some((a, t)) => Some(s[a + |UuidOpen|..t])
  }

  /** `REGEX_STATUS_CODE` = `window.code=(\d+);`: the first capture group, if the pattern matches. */
  function CaptureStatusCode(s: string): (r: Option<string>)
    ensures r.None? <==> forall a: nat, t: nat :: !DigitsMatch(s, StatusCodeOpen, a, t)
    ensures r.Some? ==> |r.value| > 0 && forall k :: 0 <= k < |r.value| ==> IsDigit(r.value[k])
    ensures r.Some? ==> exists a: nat, t: nat ::
      DigitsMatch(s, StatusCodeOpen, a, t) && r.value == s[a + |StatusCodeOpen|..t] &&
      (forall a': nat, t': nat :: a' < a ==> !DigitsMatch(s, StatusCodeOpen, a', t'))
  {
    match DigitsFind(s, StatusCodeOpen, 0)
    case None => None
    case Some((a, t)) => Some(s[a + |StatusCodeOpen|..t])
  }

  /** `REGEX_REDIRECT_URI` = `window.redirect_uri="(.*?)"`: the first capture group, if the pattern matches. */
  function CaptureRedirectUri(s: string): (r: Option<string>)
    ensures r.None? <==> forall a: nat, t: nat :: !LazyMatch(s, RedirectUriOpen, RedirectUriClose, a, t)
    ensures r.Some? ==> '"' !in r.value && '\n' !in r.value
    ensures r.Some? ==> exists a: nat, t: nat ::
      LazyMatch(s, RedirectUriOpen, RedirectUriClose, a, t) && r.value == s[a + |RedirectUriOpen|..t] &&
      (forall a': nat, t': nat :: a' < a ==> !LazyMatch(s, RedirectUriOpen, RedirectUriClose, a', t'))
  {
    match LazyFind(s, RedirectUriOpen, RedirectUriClose, 0)
    case None => None
    case Some((a, t)) =>
      var c := s[a + |RedirectUriOpen|..t];
      assert forall k :: 0 <= k < |c| ==> c[k] == s[a + |RedirectUriOpen| + k];
      forall k | a + |RedirectUriOpen| <= k < t
        ensures s[k] != '"'
      {
        assert !LiteralAt(s, k, RedirectUriClose);
        assert s[k + 0] == s[k];
      }
      Some(c)
  }

  /** A login poll answer `window.code=201;` yields the code "201". */
  lemma StatusCodeExample()
    ensures CaptureStatusCode("window.code=201;") == Some("201")
  {
    var s := "window.code=201;";
    assert DigitsMatch(s, StatusCodeOpen, 0, 15);
    var r := CaptureStatusCode(s);
    var a: nat, t: nat :| DigitsMatch(s, StatusCodeOpen, a, t) && r.value == s[a + |StatusCodeOpen|..t] &&
      (forall a': nat, t': nat :: a' < a ==> !DigitsMatch(s, StatusCodeOpen, a', t'));
    assert a == 0;
    assert t == 15;
    assert s[12..15] == "201";
  }

  /** The uuid group is lazy: it ends at the first `";`, not the last. */
  lemma UuidStopsAtFirstClose()
    ensures CaptureUuid("uuid = \"gY==\";x\";") == Some("gY==")
  {
    var s := "uuid = \"gY==\";x\";";
    assert PrefixAt(s, 0, UuidOpen);
    assert LazyEnd(s, 12, UuidClose) == Some(12);
    assert s[11 + 0] == '=' && UuidClose[0] == '"' && !LiteralAt(s, 11, UuidClose);
    assert LazyEnd(s, 11, UuidClose) == Some(12);
    assert s[10 + 0] == '=' && !LiteralAt(s, 10, UuidClose);
    assert LazyEnd(s, 10, UuidClose) == Some(12);
    assert s[9 + 0] == 'Y' && !LiteralAt(s, 9, UuidClose);
    assert LazyEnd(s, 9, UuidClose) == Some(12);
    assert s[8 + 0] == 'g' && !LiteralAt(s, 8, UuidClose);
    assert LazyEnd(s, 8, UuidClose) == Some(12);
    assert s[8..12] == "gY==";
  }
}
