/** What every request-assembling operation shares: the process-wide
    defaults, the serialisers it calls but does not define, and the
    arguments of the one `make_request` call it ends with. */
module WechatPay {
  import opened RubyHash

  datatype Option<T> = None | Some(value: T)

  /** `WechatPay.app_id` and `WechatPay.mch_id`; `Nil` when not configured. */
  datatype Config = Config(appId: Value, mchId: Value)

  /** The serialisers: `to_json`, `build_query`, and `to_s` for the values
      that string interpolation does not render itself. */
  datatype Codec = Codec(
    toJson: Entries -> string,
    buildQuery: Entries -> string,
    toS: Value -> string)
  {
    /** Ruby string interpolation `"#{v}"`: nil renders as "", a string as itself. */
    function Interp(v: Value): (s: string)
      ensures v == Nil ==> s == ""
      ensures v.Str? ==> s == v.s
      ensures !v.Nil? && !v.Str? ==> s == toS(v)
    {
      match v
      case Nil => ""
      case Str(s) => s
      case _ => toS(v)
    }
  }

  datatype HttpMethod = Get | Post

  /** The keyword arguments of one `make_request` call; an argument the
      caller leaves out is `None` or, for the headers, empty. */
  datatype Request = Request(
    httpMethod: HttpMethod,
    path: string,
    forSign: Option<string>,
    payload: Option<string>,
    extraHeaders: seq<(string, Value)>,
    options: Entries)
  {
    /** A POST hands over one string as both the signing input and the
        body; a GET hands over neither. */
    predicate Signable() {
      && (httpMethod == Post ==> forSign.Some? && forSign == payload)
      && (httpMethod == Get ==> forSign.None? && payload.None?)
    }
  }

  // The hash keys the operations read, write or delete.
  const APPID: Key := "appid"
  const WEIXIN_APPID: Key := "weixin_appid"
  const APP_ID: Key := "app_id"
  const PLATFORM_SERIAL_NO: Key := "platform_serial_no"
  const OUT_ORDER_NO: Key := "out_order_no"
  const OUT_RETURN_NO: Key := "out_return_no"
  const TRANSACTION_ID: Key := "transaction_id"
  const OUT_TRADE_NO: Key := "out_trade_no"
  const MCH_ID: Key := "mch_id"
  const SP_MCHID: Key := "sp_mchid"
  const SP_APPID: Key := "sp_appid"

  /** The header every GET lookup sends. */
  const FORM_CONTENT_TYPE: (string, Value) := ("Content-Type", Str("application/x-www-form-urlencoded"))
}
