/** Partner orders: the five "create transaction" entry points, order
    lookup and order closing. Each operation changes a hash the caller
    owns (options for create, params otherwise) before its one
    `make_request` call, modelled as the `Request` it returns. */
module EcommerceOrder {
  import opened RubyHash
  import opened WechatPay

  /** The five generated `invoke_transactions_in_<key>` entry points, as data. */
  datatype Channel = Native | Js | App | H5 | MiniProgram
  {
    /** The `<key>` in the entry point's name. */
    function Key(): string {
      match this
      case Native => "native"
      case Js => "js"
      case App => "app"
      case H5 => "h5"
      case MiniProgram => "miniprogram"
    }

    /** The path suffix the entry point hands to `transactions_method_by_suffix`. */
    function Suffix(): string {
      match this
      case Native => "native"
      case Js => "jsapi"
      case App => "app"
      case H5 => "h5"
      case MiniProgram => "jsapi"
    }

    function EntryPoint(): string {
      "invoke_transactions_in_" + Key()
    }
  }

  /** The parameter keys every create entry point documents; nothing checks them. */
  const INVOKE_TRANSACTIONS_FIELDS: seq<Key> :=
    ["sub_mchid", "description", "out_trade_no", "notify_url", "amount", "settle_info"]
  const QUERY_ORDER_FIELDS: seq<Key> := ["sub_mchid", "out_trade_no", "transaction_id"]
  const CLOSE_ORDER_FIELDS: seq<Key> := ["sub_mchid", "out_trade_no"]

  const TRANSACTIONS_PATH := "/v3/pay/partner/transactions/"

  /** Five distinct entry points are generated, one per channel. */
  lemma EntryPointsDistinct(c: Channel, d: Channel)
    ensures c.EntryPoint() == d.EntryPoint() <==> c == d
  {
    if c.EntryPoint() == d.EntryPoint() {
      var n := |"invoke_transactions_in_"|;
      assert c.Key() == c.EntryPoint()[n..] && d.Key() == d.EntryPoint()[n..];
    }
  }

  /** Two channels post to the same path exactly when they are the same
      channel or are `js` and `miniprogram`, which share `jsapi`. */
  lemma SharedSuffix(c: Channel, d: Channel)
    ensures c.Suffix() == d.Suffix() <==> c == d || {c, d} == {Js, MiniProgram}
  {
  }

  /** `transactions_method_by_suffix`: delete `:appid` and `:mch_id` from
      the caller's options (in that order, whether or not they are there),
      resolve each against the configured default, and POST the params
      behind leading `sp_appid` and `sp_mchid` (the caller's own values win
      and keep the lead). The options left after the deletions are forwarded. */
  method TransactionsMethodBySuffix(suffix: string, params: Hash, options: Hash, config: Config, codec: Codec)
    returns (req: Request)
    requires params.Valid() && options.Valid()
    modifies options
    ensures options.Valid()
    ensures options.entries == Without(Without(old(options.entries), APPID), MCH_ID)
    ensures params != options ==> params.entries == old(params.entries)
    ensures params.Valid()
    ensures req.httpMethod == Post && req.Signable()
    ensures req.path == TRANSACTIONS_PATH + suffix
    ensures var spAppId := Or(Lookup(old(options.entries), APPID), config.appId);
      var spMchId := Or(Lookup(old(options.entries), MCH_ID), config.mchId);
      var p := params.entries;
      req.payload == Some(codec.toJson(
        [("sp_appid", ValueOr(p, "sp_appid", spAppId)), ("sp_mchid", ValueOr(p, "sp_mchid", spMchId))]
        + Without(Without(p, SP_APPID), SP_MCHID)))
    ensures req.extraHeaders == [] && req.options == options.entries
  {
    var url := TRANSACTIONS_PATH + suffix;
    var appId := options.Delete(APPID);
    var spAppId := Or(appId, config.appId);
    var mchId := options.Delete(MCH_ID);
    var spMchId := Or(mchId, config.mchId);
    var body := Merge([(SP_APPID, spAppId), (SP_MCHID, spMchId)], params.entries);
    MergeOntoDefaults(SP_APPID, spAppId, SP_MCHID, spMchId, params.entries);
    var payloadJson := codec.toJson(body);
    req := Request(Post, url, Some(payloadJson), Some(payloadJson), [], options.entries);
  }

  /** `invoke_transactions_in_<key>`: create through the channel's suffix. */
  method InvokeTransactions(channel: Channel, params: Hash, options: Hash, config: Config, codec: Codec)
    returns (req: Request)
    requires params.Valid() && options.Valid()
    modifies options
    ensures options.Valid()
    ensures options.entries == Without(Without(old(options.entries), APPID), MCH_ID)
    ensures params != options ==> params.entries == old(params.entries)
    ensures req.httpMethod == Post && req.Signable()
    ensures req.path == TRANSACTIONS_PATH + channel.Suffix()
    ensures var spAppId := Or(Lookup(old(options.entries), APPID), config.appId);
      var spMchId := Or(Lookup(old(options.entries), MCH_ID), config.mchId);
      var p := params.entries;
      req.payload == Some(codec.toJson(
        [("sp_appid", ValueOr(p, "sp_appid", spAppId)), ("sp_mchid", ValueOr(p, "sp_mchid", spMchId))]
        + Without(Without(p, SP_APPID), SP_MCHID)))
    ensures req.extraHeaders == [] && req.options == options.entries
  {
    req := TransactionsMethodBySuffix(channel.Suffix(), params, options, config, codec);
  }

  /** `query_order`: GET by `transaction_id` when it is truthy, otherwise by
      `out_trade_no`; both keys leave the caller's hash either way. The query
      is the remaining params with `sp_mchid` stored over them, resolved from
      `options[:mch_id]`, else the configured merchant id. */
  method QueryOrder(params: Hash, options: Hash, config: Config, codec: Codec) returns (req: Request)
    requires params.Valid()
    modifies params
    ensures params.Valid()
    ensures params.entries == Without(Without(old(params.entries), OUT_TRADE_NO), TRANSACTION_ID)
    ensures params != options ==> options.entries == old(options.entries)
    ensures req.httpMethod == Get && req.Signable()
    ensures var tid := Lookup(old(params.entries), TRANSACTION_ID);
      var spMchId := Or(Lookup(old(options.entries), MCH_ID), config.mchId);
      var query := codec.buildQuery(Store(params.entries, SP_MCHID, spMchId));
      req.path == if Truthy(tid)
                  then TRANSACTIONS_PATH + "id/" + codec.Interp(tid) + "?" + query
                  else TRANSACTIONS_PATH + "out-trade-no/" + codec.Interp(Lookup(old(params.entries), OUT_TRADE_NO))
                       + "?" + query
    ensures req.extraHeaders == [FORM_CONTENT_TYPE]
    ensures req.options == options.entries
  {
    ghost var p0, o0 := params.entries, options.entries;
    ghost var tid := Lookup(p0, TRANSACTION_ID);
    ghost var expected := if Truthy(tid) then TRANSACTIONS_PATH + "id/" + codec.Interp(tid)
                          else TRANSACTIONS_PATH + "out-trade-no/" + codec.Interp(Lookup(p0, OUT_TRADE_NO));
    ghost var rest := Without(Without(p0, OUT_TRADE_NO), TRANSACTION_ID);
    var path;
    if Truthy(Lookup(params.entries, TRANSACTION_ID)) {
      var _ := params.Delete(OUT_TRADE_NO);
      var transactionId := params.Delete(TRANSACTION_ID);
      assert transactionId == tid;
      path := TRANSACTIONS_PATH + "id/" + codec.Interp(transactionId);
    } else {
      var _ := params.Delete(TRANSACTION_ID);
      var outTradeNo := params.Delete(OUT_TRADE_NO);
      assert outTradeNo == Lookup(p0, OUT_TRADE_NO);
      path := TRANSACTIONS_PATH + "out-trade-no/" + codec.Interp(outTradeNo);
      WithoutCommutes(p0, OUT_TRADE_NO, TRANSACTION_ID);
    }
    assert path == expected && params.entries == rest;
    var spMchId := Or(Lookup(options.entries, MCH_ID), config.mchId);
    if params == options {
      // The deletions above were made on the options too; `:mch_id` survives them.
      assert MCH_ID != OUT_TRADE_NO && MCH_ID != TRANSACTION_ID;
      assert Lookup(Without(p0, OUT_TRADE_NO), MCH_ID) == Lookup(p0, MCH_ID);
    }
    assert spMchId == Or(Lookup(o0, MCH_ID), config.mchId);
    var query := Merge(params.entries, [(SP_MCHID, spMchId)]);
    MergeOne(params.entries, SP_MCHID, spMchId);
    var url := path + "?" + codec.buildQuery(query);
    req := Request(Get, url, None, None, [FORM_CONTENT_TYPE], options.entries);
  }

  /** `close_order`: POST to the close path of the deleted `out_trade_no`,
      with `sp_mchid` stored over the remaining params from the configured
      merchant id alone; the options are not consulted for it. */
  method CloseOrder(params: Hash, options: Hash, config: Config, codec: Codec) returns (req: Request)
    requires params.Valid()
    modifies params
    ensures params.Valid()
    ensures params.entries == Without(old(params.entries), OUT_TRADE_NO)
    ensures req.httpMethod == Post && req.Signable()
    ensures req.path == TRANSACTIONS_PATH + "out-trade-no/"
                        + codec.Interp(Lookup(old(params.entries), OUT_TRADE_NO)) + "/close"
    ensures req.payload == Some(codec.toJson(Store(params.entries, SP_MCHID, config.mchId)))
    ensures req.extraHeaders == [] && req.options == options.entries
  {
    var outTradeNo := params.Delete(OUT_TRADE_NO);
    var url := TRANSACTIONS_PATH + "out-trade-no/" + codec.Interp(outTradeNo) + "/close";
    var body := Merge(params.entries, [(SP_MCHID, config.mchId)]);
    MergeOne(params.entries, SP_MCHID, config.mchId);
    req := Request(Post, url, Some(codec.toJson(body)), Some(codec.toJson(body)), [], options.entries);
  }

  /** The query `query_order` sends never names either identifier, carries
      the resolved `sp_mchid`, and keeps every other parameter's value. */
  lemma OrderQueryOmitsIdentifiers(p: Entries, spMchId: Value)
    requires DistinctKeys(p)
    ensures var q := Store(Without(Without(p, OUT_TRADE_NO), TRANSACTION_ID), SP_MCHID, spMchId);
      && OUT_TRADE_NO !in Keys(q) && TRANSACTION_ID !in Keys(q)
      && Lookup(q, SP_MCHID) == spMchId
      && DistinctKeys(q)
      && forall k :: k !in {OUT_TRADE_NO, TRANSACTION_ID, SP_MCHID} ==> Lookup(q, k) == Lookup(p, k)
  {
  }
}
