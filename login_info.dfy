/** The credentials record returned by the login redirect (src/resp/login_info.rs). */
module RespLoginInfo {
  import opened Wrappers

  type i32 = x: int | -0x8000_0000 <= x < 0x8000_0000
  type i64 = x: int | -0x8000_0000_0000_0000 <= x < 0x8000_0000_0000_0000

  datatype LoginInfo = LoginInfo(
    ret: i32,
    wxuin: i64,
    isGrayScale: i32,
    message: string,
    skey: string,
    wxsid: string,
    passTicket: string)
  {
    predicate Ok() {
      ret == 0
    }

    /** The server's message, reported only when the login was refused. */
    function Error(): (r: Option<string>)
      ensures r.None? <==> Ok()
      ensures r.Some? ==> r.value == message
    {
      if Ok() then None else Some(message)
    }
  }

  /** Two answers that differ only outside `ret` and `message` report the same error. */
  lemma ErrorIgnoresOtherFields(a: LoginInfo, b: LoginInfo)
    requires a.ret == b.ret && a.message == b.message
    ensures a.Error() == b.Error()
  {
  }
}
