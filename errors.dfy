/** The crate's error enum (src/errors.rs) and the text each variant displays as. */
module Errors {
  import opened Net

  datatype Error =
    | GetLoginUuid(msg: string)
    | StatusUnknown(code: string)
    | LoginTimeout
    | GetLoginInfo(msg: string)
    | Reqwest(cause: TransportError)
    | RequestClone
    | CookieParseError(msg: string)
    | Forbidden
    | DumpHotReloadStorage(msg: string)
    | FetchStorage(msg: string)
    | WebInit(msg: string)
    | NoBaseRequest
    | StatusNotify(msg: string)
      /** Raised by the sync-check call; this variant has no declaration among
          the other variants, so its display text follows theirs. */
    | SyncCheck(msg: string)

  /** The `Display` text derived from each variant's error attribute. */
  function Display(e: Error): string {
    match e
    case GetLoginUuid(m) => "GetLoginUuid error: " + m
    case StatusUnknown(c) => "Unknown status error: " + c
    case LoginTimeout => "Login timeout"
    case GetLoginInfo(m) => "GetLoginInfo error: " + m
    case Reqwest(t) => "Reqwest error: " + t.text
    case RequestClone => "Request clone failed"
    case CookieParseError(m) => "Cookie parse error: " + m
    case Forbidden => "Login forbidden"
    case DumpHotReloadStorage(m) => "DumpHotReloadStorage error: " + m
    case FetchStorage(m) => "FetchStorage error: " + m
    case WebInit(m) => "WebInit error: " + m
    case NoBaseRequest => "No base request"
    case StatusNotify(m) => "StatusNotify error: " + m
    case SyncCheck(m) => "SyncCheck error: " + m
  }
}
