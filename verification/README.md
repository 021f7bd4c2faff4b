# Request assembly of the WeChat Pay partner client, in Dafny

This project models the request-assembly layer of a Ruby client for the WeChat Pay partner API. Each operation takes the caller's `params` hash and an `options` hash and ends in exactly one `make_request` call. The model covers two source files. `lib/wechat-pay/ecommerce/order.rb` holds the five "create transaction" entry points, order lookup and order closing. `lib/wechat-pay/profitsharing.rb` holds the profit-sharing (settlement) requests.

For every operation the model states what it hands to `make_request`:

- the HTTP method;
- the path, with the identifier interpolated and, for lookups, the `?query` suffix;
- the signing input (`for_sign`) and the body (`payload`);
- the extra headers;
- the options it forwards.

It also states what the operation leaves in the hashes the caller passed in.

Modules:

- `RubyHash` (`ruby_hash.dfy`): Ruby's insertion-ordered `Hash`, as a sequence of key/value pairs with distinct keys.
  - Lookup `h[k]`, where an absent key reads as nil.
  - `merge`, built from `Store`: an existing key keeps its position and takes the new value; a new key is appended.
  - `delete`, as `Without` for the value and as the in-place `Hash.Delete` method on a `Hash` object.
  - Ruby truthiness and `||`.
- `WechatPay` (`wechat_pay.dfy`):
  - `Config`: the process-wide `WechatPay.app_id` and `WechatPay.mch_id`, which are nil when unset.
  - `Codec`: the serialisers `to_json`, `build_query` and `to_s`, passed in as functions.
  - `Request`: the arguments of one `make_request` call.
  - the hash keys the operations use.
- `Profitsharing` (`profitsharing.dfy`):
  - `request_profitsharing`, `return_profitsharing`, `orders_unfreeze`, `add_profitsharing_receivers` and `delete_profitsharing_receivers` only build new hashes, so they are functions on hash values.
  - The three lookups delete a key from the caller's hash in place, so they are methods on a `Hash` object.
- `EcommerceOrder` (`ecommerce_order.dfy`):
  - The five generated `invoke_transactions_in_<key>` methods are the `Channel` datatype, with the path suffix as data.
  - The create path deletes `:appid` and `:mch_id` from the caller's `options`.
  - `query_order` and `close_order` delete identifiers from the caller's `params`.
  - All of these are methods on `Hash` objects.

What the code does in the places where a reader might expect otherwise:

- When neither the option nor the process-wide value is set, `||` yields nil and the request carries that nil; nothing is raised.
- `query_profitsharing` and `query_return_profitsharing` build the query string from the caller's params before deleting the path identifier. So that identifier also appears in the query.
- `query_profitsharing_amount` sends no query string and adds no merchant id.
- `close_order` adds `sp_mchid` to its body, taken from `WechatPay.mch_id` only. Its `options` are ignored for this.
- `return_profitsharing` and `orders_unfreeze` add no default at all.
- Among the lookups, only `query_order` adds a merchant id (`sp_mchid`). It stores it over the remaining params.
- `query_order` lets `transaction_id` win only when it is truthy. Both identifiers are deleted from the caller's hash in both branches.

## Model

| member | source | states |
|---|---|---|
| RubyHash.Lookup | lib/wechat-pay/ecommerce/order.rb:58 | reading a key the hash does not hold gives nil |
| RubyHash.Or | lib/wechat-pay/profitsharing.rb:25 | Ruby's `or` operator on `a` and `b` gives `a` when `a` is truthy and `b` otherwise, nil included; the result is truthy exactly when one of them is; nothing is raised when both are nil |
| RubyHash.Store | lib/wechat-pay/ecommerce/order.rb:68-70 | storing `k`: an existing key keeps its place and a new key goes last; `k` then reads as the new value, every other key reads as before, and distinct keys stay distinct |
| RubyHash.Merge | lib/wechat-pay/profitsharing.rb:24-26 | `a.merge(b)` holds the keys of both; keys of `b` read as in `b`, the others as in `a`; distinct keys stay distinct |
| RubyHash.Without | lib/wechat-pay/profitsharing.rb:57 | what `delete(k)` leaves: `k` is gone, every other key is kept with its value, nothing changes when `k` was absent, distinct keys stay distinct; the order of the remaining pairs is stated by `WithoutRemovesOne` |
| RubyHash.WithoutRemovesOne | lib/wechat-pay/profitsharing.rb:57 | deleting a key the hash holds cuts out exactly the one pair under it; the pairs before and after it stay in their order |
| RubyHash.Hash.Delete | lib/wechat-pay/profitsharing.rb:57 | deletes `k` from the object in place and returns the value it had, or nil |
| RubyHash.MergeOne | lib/wechat-pay/ecommerce/order.rb:99-101 | merging a one-pair hash is storing that pair |
| RubyHash.StoreAppends | lib/wechat-pay/ecommerce/order.rb:68-70 | storing a key the hash lacks appends the pair at the end |
| RubyHash.MergeAppends | lib/wechat-pay/profitsharing.rb:24-26 | merging in pairs whose keys are all new appends them in their order |
| RubyHash.MergeUnderLeading | lib/wechat-pay/ecommerce/order.rb:121-124 | merging onto a hash led by `k` keeps `k` first, with the merged-in value when there is one, and merges the rest without `k` |
| RubyHash.MergeOntoDefault | lib/wechat-pay/profitsharing.rb:24-26 | `{k => d}.merge(p)` is `k` first, holding p's value if p has `k` (even nil) and `d` otherwise, then p's other pairs in p's order |
| RubyHash.MergeOntoDefaults | lib/wechat-pay/ecommerce/order.rb:121-124 | `{k1 => d1, k2 => d2}.merge(p)` is `k1`, then `k2`, each overridden by p's value when present, then p's remaining pairs in order |
| RubyHash.WithoutCommutes | lib/wechat-pay/ecommerce/order.rb:58-65 | deleting two keys in either order leaves the same hash, so both branches of `query_order` leave the caller the same params |
| WechatPay.Codec.Interp | lib/wechat-pay/profitsharing.rb:58 | string interpolation `"#{v}"`: nil renders as the empty string, a string as itself, any other value through `to_s` |
| Profitsharing.RequestProfitsharing | lib/wechat-pay/profitsharing.rb:21-40 | POST `/v3/profitsharing/orders`. The identical JSON is both signing input and body. The body leads with `appid`: the caller's value if given, else `options[:weixin_appid]` when truthy, else the configured app id. The caller's other pairs follow in order. The only extra header is `Wechatpay-Serial` with `options[:platform_serial_no]` |
| Profitsharing.QueryProfitsharing | lib/wechat-pay/profitsharing.rb:54-69 | GET `/v3/profitsharing/orders/<out_order_no, "" if absent>?<query>`, where the query is built from the params as passed. No signing input or body; form content type. The caller's params lose `out_order_no` and nothing else |
| Profitsharing.ReturnProfitsharing | lib/wechat-pay/profitsharing.rb:80-93 | POST `/v3/profitsharing/return-orders`. The body is exactly `to_json` of the caller's params, with no default added. The signing input is the same string. No extra headers |
| Profitsharing.QueryReturnProfitsharing | lib/wechat-pay/profitsharing.rb:106-121 | GET `/v3/profitsharing/return-orders/<out_return_no>?<query of the params as passed>`. The caller's params lose `out_return_no` and nothing else. Form content type |
| Profitsharing.OrdersUnfreeze | lib/wechat-pay/profitsharing.rb:135-148 | POST `/v3/profitsharing/orders/unfreeze`. The body is exactly `to_json` of the caller's params. The signing input is the same string. No default is added |
| Profitsharing.QueryProfitsharingAmount | lib/wechat-pay/profitsharing.rb:162-175 | GET `/v3/profitsharing/transactions/<transaction_id>/amounts` with no query string and no body. The caller's params lose `transaction_id` only. Form content type |
| Profitsharing.AddProfitsharingReceivers | lib/wechat-pay/profitsharing.rb:189-206 | POST `/v3/profitsharing/receivers/add`. The identical JSON is signed and sent. It leads with `appid`: the caller's value, else `options[:app_id]` (not `:weixin_appid`), else the configured app id |
| Profitsharing.DeleteProfitsharingReceivers | lib/wechat-pay/profitsharing.rb:220-237 | the same as adding, at `/v3/profitsharing/receivers/delete` |
| EcommerceOrder.EntryPointsDistinct | lib/wechat-pay/ecommerce/order.rb:32-44 | the five generated `invoke_transactions_in_<key>` names are pairwise distinct |
| EcommerceOrder.SharedSuffix | lib/wechat-pay/ecommerce/order.rb:40-44 | two channels post to the same path exactly when they are the same channel or are `js` and `miniprogram`, which share `jsapi` |
| EcommerceOrder.TransactionsMethodBySuffix | lib/wechat-pay/ecommerce/order.rb:117-135 | POST `/v3/pay/partner/transactions/<suffix>`. The identical JSON is signed and sent. The body is `sp_appid`, then `sp_mchid`, then the caller's other pairs in order. Defaults are `options[:appid]` / `options[:mch_id]` when truthy, else the configured ids; the caller's own values win and keep the lead. `:appid` and `:mch_id` are deleted from the caller's options, which are then forwarded. Params are untouched unless they are the options object itself |
| EcommerceOrder.InvokeTransactions | lib/wechat-pay/ecommerce/order.rb:35-37 | each entry point posts to `/v3/pay/partner/transactions/` plus its channel's suffix, with the create body and the options deletions above |
| EcommerceOrder.QueryOrder | lib/wechat-pay/ecommerce/order.rb:57-84 | GET `/v3/pay/partner/transactions/id/<transaction_id>` when `transaction_id` is truthy, otherwise `.../out-trade-no/<out_trade_no>`. Then `?` and the query built from the remaining params with `sp_mchid` stored over them, from `options[:mch_id]` else the configured id. Both identifiers leave the caller's params in either branch, and nothing else does. Form content type |
| EcommerceOrder.CloseOrder | lib/wechat-pay/ecommerce/order.rb:96-112 | POST `/v3/pay/partner/transactions/out-trade-no/<out_trade_no>/close`. The identical JSON of the remaining params, with `sp_mchid` stored from the configured merchant id alone, is signed and sent. The caller's params lose `out_trade_no` only |
| EcommerceOrder.OrderQueryOmitsIdentifiers | lib/wechat-pay/ecommerce/order.rb:58-73 | the query hash of `query_order` never contains `out_trade_no` or `transaction_id`, carries the resolved `sp_mchid`, and keeps every other parameter's value |

## Left out

- `make_request` (signing, authentication headers, the HTTP call, response signature verification) lives in `WechatPayHelper`, which is not part of this model. Each operation returns the `Request` holding the arguments it passes, not the response. For a keyword argument that the source leaves out, the model records `None` for `for_sign`/`payload` and an empty list for `extra_headers`. The defaults `make_request` itself applies are not modelled.
- `to_json`, `build_query` and `to_s` are serialisers this model does not see. They enter as the function-valued fields of `Codec`. Because they are functions, calling one twice on the same hash gives the same string. That is all the equality of signing input and body needs.
- `Rails.logger.info` in the create path (`lib/wechat-pay/ecommerce/order.rb:120`) is logging output only.
- Ruby metaprogramming (`const_set`, `define_singleton_method`) is replaced by the `Channel` datatype. The five `INVOKE_TRANSACTIONS_IN_<KEY>_FIELDS` constants hold the same list, so they are one constant here. The unused documentation-URL argument is dropped.
- The `*_FIELDS` constants are kept as declarations only, because the source only declares them and never checks them.
- Ruby's distinction between symbol and string keys is not modelled: a key is its name.
- Encryption of `receiver_name` and the management of platform certificates happen outside these files.
- Process-wide configuration is an explicit `Config` argument, read and never written.
- RubyHash.Merge: its contract gives only the keys and values of the result. The key order is stated separately for the shapes the operations use: `MergeOntoDefault`, `MergeOntoDefaults`, `MergeAppends`, and `MergeOne` together with `Store`.
