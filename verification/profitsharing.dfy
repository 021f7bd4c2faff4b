/** Profit-sharing (settlement) requests: ask for a split, query it, return
    it, query the return, unfreeze the rest, query the splittable amount,
    and add or delete a receiver. Each operation ends in one `make_request`
    call, modelled as the `Request` it returns. */
module Profitsharing {
  import opened RubyHash
  import opened WechatPay

  // The parameter keys each operation documents; nothing checks them.
  const REQUEST_PROFITSHARING_FIELDS: seq<Key> :=
    ["out_trade_no", "transaction_id", "sub_mchid", "out_order_no", "receivers", "unfreeze_unsplit"]
  const QUERY_PROFITSHARING_FIELDS: seq<Key> := ["transaction_id", "sub_mchid"]
  const RETURN_PROFITSHARING_FIELDS: seq<Key> :=
    ["sub_mchid", "order_id", "out_order_no", "out_return_no", "return_mchid", "amount", "description"]
  const QUERY_RETURN_PROFITSHARING_FIELDS: seq<Key> := ["sub_mchid", "order_id", "out_order_no", "out_return_no"]
  const ORDERS_UNFREEZE_FIELDS: seq<Key> := ["transaction_id", "sub_mchid", "out_order_no", "description"]
  const QUERY_PROFITSHARING_AMOUNT_FIELDS: seq<Key> := ["transaction_id"]
  const ADD_PROFITSHARING_RECEIVERS_FIELDS: seq<Key> := ["sub_mchid", "type", "account", "name", "relation_type"]
  const DELETE_PROFITSHARING_RECEIVERS_FIELDS: seq<Key> := ["sub_mchid", "type", "account"]

  /** `request_profitsharing`: POST the caller's params behind a leading
      `appid` (the caller's own `appid` wins, else `options[:weixin_appid]`,
      else the configured app id), with the platform certificate serial as
      `Wechatpay-Serial`. The caller's hash is not changed. */
  function RequestProfitsharing(params: Entries, options: Entries, config: Config, codec: Codec): (r: Request)
    requires DistinctKeys(params)
    ensures r.httpMethod == Post && r.Signable()
    ensures r.path == "/v3/profitsharing/orders"
    ensures var appId := Or(Lookup(options, WEIXIN_APPID), config.appId);
      r.payload == Some(codec.toJson([(APPID, ValueOr(params, APPID, appId))] + Without(params, APPID)))
    ensures r.extraHeaders == [("Wechatpay-Serial", Lookup(options, PLATFORM_SERIAL_NO))]
    ensures r.options == options
  {
    var appId := Or(Lookup(options, WEIXIN_APPID), config.appId);
    var body := Merge([(APPID, appId)], params);
    var payloadJson := codec.toJson(body);
    MergeOntoDefault(APPID, appId, params);
    Request(Post, "/v3/profitsharing/orders", Some(payloadJson), Some(payloadJson),
            [("Wechatpay-Serial", Lookup(options, "platform_serial_no"))], options)
  }

  /** `query_profitsharing`: GET by `out_order_no`. The query string is
      built from the params as the caller passed them, `out_order_no`
      included; only then is `out_order_no` deleted from the caller's hash. */
  method QueryProfitsharing(params: Hash, options: Hash, codec: Codec) returns (req: Request)
    requires params.Valid()
    modifies params
    ensures params.Valid() && params.entries == Without(old(params.entries), OUT_ORDER_NO)
    ensures req.httpMethod == Get && req.Signable()
    ensures req.path == "/v3/profitsharing/orders/" + codec.Interp(Lookup(old(params.entries), OUT_ORDER_NO))
                        + "?" + codec.buildQuery(old(params.entries))
    ensures req.extraHeaders == [FORM_CONTENT_TYPE]
    ensures req.options == options.entries
  {
    var query := codec.buildQuery(params.entries);
    var outOrderNo := params.Delete(OUT_ORDER_NO);
    var path := "/v3/profitsharing/orders/" + codec.Interp(outOrderNo);
    var url := path + "?" + query;
    req := Request(Get, url, None, None, [FORM_CONTENT_TYPE], options.entries);
  }

  /** `return_profitsharing`: POST the caller's params unchanged; no default is added. */
  function ReturnProfitsharing(params: Entries, options: Entries, codec: Codec): (r: Request)
    ensures r.httpMethod == Post && r.Signable()
    ensures r.path == "/v3/profitsharing/return-orders"
    ensures r.payload == Some(codec.toJson(params))
    ensures r.extraHeaders == [] && r.options == options
  {
    var payloadJson := codec.toJson(params);
    Request(Post, "/v3/profitsharing/return-orders", Some(payloadJson), Some(payloadJson), [], options)
  }

  /** `query_return_profitsharing`: GET by `out_return_no`, with the query
      built before `out_return_no` is deleted from the caller's hash. */
  method QueryReturnProfitsharing(params: Hash, options: Hash, codec: Codec) returns (req: Request)
    requires params.Valid()
    modifies params
    ensures params.Valid() && params.entries == Without(old(params.entries), OUT_RETURN_NO)
    ensures req.httpMethod == Get && req.Signable()
    ensures req.path == "/v3/profitsharing/return-orders/" + codec.Interp(Lookup(old(params.entries), OUT_RETURN_NO))
                        + "?" + codec.buildQuery(old(params.entries))
    ensures req.extraHeaders == [FORM_CONTENT_TYPE]
    ensures req.options == options.entries
  {
    var query := codec.buildQuery(params.entries);
    var outReturnNo := params.Delete(OUT_RETURN_NO);
    var path := "/v3/profitsharing/return-orders/" + codec.Interp(outReturnNo);
    var url := path + "?" + query;
    req := Request(Get, url, None, None, [FORM_CONTENT_TYPE], options.entries);
  }

  /** `orders_unfreeze`: POST the caller's params unchanged; no default is added. */
  function OrdersUnfreeze(params: Entries, options: Entries, codec: Codec): (r: Request)
    ensures r.httpMethod == Post && r.Signable()
    ensures r.path == "/v3/profitsharing/orders/unfreeze"
    ensures r.payload == Some(codec.toJson(params))
    ensures r.extraHeaders == [] && r.options == options
  {
    var payloadJson := codec.toJson(params);
    Request(Post, "/v3/profitsharing/orders/unfreeze", Some(payloadJson), Some(payloadJson), [], options)
  }

  /** `query_profitsharing_amount`: GET with `transaction_id` moved from the
      caller's hash into the path; no query string is sent. */
  method QueryProfitsharingAmount(params: Hash, options: Hash, codec: Codec) returns (req: Request)
    requires params.Valid()
    modifies params
    ensures params.Valid() && params.entries == Without(old(params.entries), TRANSACTION_ID)
    ensures req.httpMethod == Get && req.Signable()
    ensures req.path == "/v3/profitsharing/transactions/"
                        + codec.Interp(Lookup(old(params.entries), TRANSACTION_ID)) + "/amounts"
    ensures req.extraHeaders == [FORM_CONTENT_TYPE]
    ensures req.options == options.entries
  {
    var transactionId := params.Delete(TRANSACTION_ID);
    var url := "/v3/profitsharing/transactions/" + codec.Interp(transactionId) + "/amounts";
    req := Request(Get, url, None, None, [FORM_CONTENT_TYPE], options.entries);
  }

  /** `add_profitsharing_receivers`: POST behind a leading `appid` resolved
      from `options[:app_id]` (not `:weixin_appid`), else the configured app id. */
  function AddProfitsharingReceivers(params: Entries, options: Entries, config: Config, codec: Codec): (r: Request)
    requires DistinctKeys(params)
    ensures r.httpMethod == Post && r.Signable()
    ensures r.path == "/v3/profitsharing/receivers/add"
    ensures var appId := Or(Lookup(options, APP_ID), config.appId);
      r.payload == Some(codec.toJson([(APPID, ValueOr(params, APPID, appId))] + Without(params, APPID)))
    ensures r.extraHeaders == [] && r.options == options
  {
    var appId := Or(Lookup(options, APP_ID), config.appId);
    var body := Merge([(APPID, appId)], params);
    var payloadJson := codec.toJson(body);
    MergeOntoDefault(APPID, appId, params);
    Request(Post, "/v3/profitsharing/receivers/add", Some(payloadJson), Some(payloadJson), [], options)
  }

  /** `delete_profitsharing_receivers`: as adding, at the delete path. */
  function DeleteProfitsharingReceivers(params: Entries, options: Entries, config: Config, codec: Codec): (r: Request)
    requires DistinctKeys(params)
    ensures r.httpMethod == Post && r.Signable()
    ensures r.path == "/v3/profitsharing/receivers/delete"
    ensures var appId := Or(Lookup(options, APP_ID), config.appId);
      r.payload == Some(codec.toJson([(APPID, ValueOr(params, APPID, appId))] + Without(params, APPID)))
    ensures r.extraHeaders == [] && r.options == options
  {
    var appId := Or(Lookup(options, APP_ID), config.appId);
    var body := Merge([(APPID, appId)], params);
    var payloadJson := codec.toJson(body);
    MergeOntoDefault(APPID, appId, params);
    Request(Post, "/v3/profitsharing/receivers/delete", Some(payloadJson), Some(payloadJson), [], options)
  }
}
