/** Response envelopes (src/resp/mod.rs) and the data-only response records the
    protocol calls consume (src/resp/check_login.rs, src/resp/web_init.rs). */
module Resp {
  import opened Wrappers
  import opened Net
  import opened Consts

  /** The server's `Ret` code table; on the wire each variant is its integer. */
  datatype Ret =
    | Ok | Ticket | Logic | System | Param
    | FailedLoginWarn | FailedLoginCheck | CookieInvalid | LoginEnvAbnormality | OperateTooOften

  function Code(r: Ret): int {
    match r
    case Ok => 0
    case Ticket => -14
    case Logic => -2
    case System => -1
    case Param => 1
    case FailedLoginWarn => 1100
    case FailedLoginCheck => 1101
    case CookieInvalid => 1102
    case LoginEnvAbnormality => 1203
    case OperateTooOften => 1205
  }

  /** `Deserialize_repr`: only the ten listed integers decode. */
  function FromCode(i: int): (r: Option<Ret>)
    ensures r.Some? ==> Code(r.value) == i
  {
    if i == 0 then Some(Ret.Ok)
    else if i == -14 then Some(Ticket)
    else if i == -2 then Some(Logic)
    else if i == -1 then Some(System)
    else if i == 1 then Some(Param)
    else if i == 1100 then Some(FailedLoginWarn)
    else if i == 1101 then Some(FailedLoginCheck)
    else if i == 1102 then Some(CookieInvalid)
    else if i == 1203 then Some(LoginEnvAbnormality)
    else if i == 1205 then Some(OperateTooOften)
    else None
  }

  /** Encoding then decoding gives the same variant back. */
  lemma RetRoundTrip(r: Ret)
    ensures FromCode(Code(r)) == Some(r)
  {
  }

  /** A code decodes exactly when it is one of the ten table entries. */
  lemma FromCodeExactlyTable(i: int)
    ensures FromCode(i).Some? <==> exists r: Ret :: Code(r) == i
  {
    if exists r: Ret :: Code(r) == i {
      var r: Ret :| Code(r) == i;
      RetRoundTrip(r);
    }
  }

  /** The ten codes are pairwise distinct. */
  lemma CodesDistinct(r: Ret, r': Ret)
    requires r != r'
    ensures Code(r) != Code(r')
  {
    RetRoundTrip(r);
    RetRoundTrip(r');
  }

  datatype BaseResponse = BaseResponse(ret: Ret, errmsg: string) {
    predicate IsOk() {
      ret == Ret.Ok
    }
  }

  /** `is_ok` is exactly "the wire code was 0". */
  lemma IsOkIffCodeZero(b: BaseResponse)
    ensures b.IsOk() <==> Code(b.ret) == 0
  {
    RetRoundTrip(b.ret);
  }

  /** The value of the first field named `name`.  A derived struct decoder also rejects a
      name that occurs twice (see `Occurrences`), so this alone is not serde's lookup. */
  function Field(fields: seq<(string, Json)>, name: string): (r: Option<Json>)
    ensures r.Some? ==> exists k :: 0 <= k < |fields| && fields[k] == (name, r.value)
    ensures r.None? ==> forall k :: 0 <= k < |fields| ==> fields[k].0 != name
    decreases |fields|
  {
    if |fields| == 0 then None
    else if fields[0].0 == name then Some(fields[0].1)
    else
      var r := Field(fields[1..], name);
      assert r.Some? ==> exists k :: 0 <= k < |fields[1..]| && fields[1..][k] == (name, r.value);
      r
  }

  /** How many entries carry the name `name`; serde's derived decoders fail with
      `duplicate field` once a struct field's name is seen a second time. */
  function Occurrences(fields: seq<(string, Json)>, name: string): (n: nat)
    ensures n == 0 <==> forall k :: 0 <= k < |fields| ==> fields[k].0 != name
    ensures n <= |fields|
    decreases |fields|
  {
    if |fields| == 0 then 0
    else
      var n := Occurrences(fields[1..], name);
      assert forall k :: 1 <= k < |fields| ==> fields[k] == fields[1..][k - 1];
      (if fields[0].0 == name then 1 else 0) + n
  }

  /** A name carried by entry `i` and by no other entry is found there, exactly once. */
  lemma {:induction false} UniqueField(fields: seq<(string, Json)>, name: string, i: nat)
    requires i < |fields| && fields[i].0 == name
    requires forall k :: 0 <= k < |fields| && k != i ==> fields[k].0 != name
    ensures Field(fields, name) == Some(fields[i].1)
    ensures Occurrences(fields, name) == 1
    decreases i
  {
    if i == 0 {
      assert forall k :: 0 <= k < |fields[1..]| ==> fields[1..][k] == fields[k + 1];
      assert Occurrences(fields[1..], name) == 0;
    } else {
      assert forall k :: 0 <= k < |fields[1..]| ==> fields[1..][k] == fields[k + 1];
      UniqueField(fields[1..], name, i - 1);
    }
  }

  /** `BaseResponse` from its JSON object: `Ret` a known code and `ErrMsg` a string, each
      present exactly once. */
  function DecodeBaseResponse(j: Json): (r: Option<BaseResponse>)
    ensures r.Some? ==> j.JObj? && Field(j.fields, "Ret") == Some(JInt(Code(r.value.ret)))
    ensures r.Some? ==> Field(j.fields, "ErrMsg") == Some(JStr(r.value.errmsg))
    ensures r.Some? ==> Occurrences(j.fields, "Ret") == 1 && Occurrences(j.fields, "ErrMsg") == 1
  {
    if !j.JObj? || Occurrences(j.fields, "Ret") > 1 || Occurrences(j.fields, "ErrMsg") > 1 then None
    else match (Field(j.fields, "Ret"), Field(j.fields, "ErrMsg"))
      case (Some(JInt(code)), Some(JStr(m))) =>
        (match FromCode(code)
         case Some(ret) => Some(BaseResponse(ret, m))
         case None => None)
      case _ => None
  }

  /** `{"Ret":0,"ErrMsg":"ok"}` decodes to an OK response whose message is "ok". */
  lemma DecodeBaseResponseExample()
    ensures DecodeBaseResponse(JObj([("Ret", JInt(0)), ("ErrMsg", JStr("ok"))]))
            == Some(BaseResponse(Ret.Ok, "ok"))
  {
    var fs := [("Ret", JInt(0)), ("ErrMsg", JStr("ok"))];
    assert fs[1..] == [("ErrMsg", JStr("ok"))];
    assert fs[1..][1..] == [];
    assert Field(fs, "ErrMsg") == Some(JStr("ok")) by {
      assert fs[0].0 != "ErrMsg";
    }
  }

  /** `{"Ret":0,"ErrMsg":"ok","Ret":1}` is rejected: `Ret` occurs twice. */
  lemma DecodeBaseResponseRejectsDuplicate()
    ensures DecodeBaseResponse(JObj([("Ret", JInt(0)), ("ErrMsg", JStr("ok")), ("Ret", JInt(1))])).None?
  {
    var fs := [("Ret", JInt(0)), ("ErrMsg", JStr("ok")), ("Ret", JInt(1))];
    assert fs[1..][1..] == [("Ret", JInt(1))];
    assert Occurrences(fs[1..][1..], "Ret") == 1 by {
      assert fs[1..][1..][1..] == [];
    }
  }

  /** Any object carrying a known code and a message, followed by other keys, decodes to
      exactly those. */
  lemma DecodeBaseResponseComplete(b: BaseResponse, extra: seq<(string, Json)>)
    requires forall k :: 0 <= k < |extra| ==> extra[k].0 != "Ret" && extra[k].0 != "ErrMsg"
    ensures DecodeBaseResponse(JObj([("Ret", JInt(Code(b.ret))), ("ErrMsg", JStr(b.errmsg))] + extra)) == Some(b)
  {
    var fs := [("Ret", JInt(Code(b.ret))), ("ErrMsg", JStr(b.errmsg))] + extra;
    RetRoundTrip(b.ret);
    assert fs[1..][1..] == extra;
    assert Occurrences(extra, "Ret") == 0 && Occurrences(extra, "ErrMsg") == 0;
    assert Occurrences(fs[1..], "Ret") == 0 && Occurrences(fs[1..], "ErrMsg") == 1;
    assert Occurrences(fs, "Ret") == 1 && Occurrences(fs, "ErrMsg") == 1;
    assert Field(fs, "ErrMsg") == Some(JStr(b.errmsg)) by {
      assert fs[0].0 != "ErrMsg";
      assert fs[1..][0] == ("ErrMsg", JStr(b.errmsg));
    }
  }

  /** One login poll's result: the mapped status and the unmodified body. */
  datatype ResponseCheckLogin = ResponseCheckLogin(status: Status, raw: string)

  datatype KVPair = KVPair(key: string, val: string)

  datatype SyncKey = SyncKey(count: int, list: seq<KVPair>)

  /** The parts of the web-init answer the model reads; the other fields are opaque. */
  datatype ResponseWebInit = ResponseWebInit(baseResponse: BaseResponse, syncKey: SyncKey, skey: string)
}
