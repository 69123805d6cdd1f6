/** The Ave.ai client: one GET for the treasure list, a reply check on the
    `status` field, and the projection of every listed pair into the shape
    the GMGN pairs have, with fixed placeholders where Ave.ai has no value.
    Exceptions are re-raised unchanged. */
module Aveai {
  import opened Json
  import opened Backend
  import opened Projection

  const BaseUrl: string := "https://febweb002.com"
  const ListPath: string := "/v1api/v4/tokens/treasure/list"
  const FetchFailed: string := "Failed to fetch data from Ave.ai"

  /** The exception `x["k"]` raises when a listed pair is a string. */
  const StrIndexError: string := StrSubscriptError(JStr(""))

  const BuyKey: string := "smart_money_buy_count_24h_min"
  const SellKey: string := "smart_money_sell_count_24h_min"

  // ---------------------------------------------------------------------
  // Request parameters

  /** The five entries every request carries. */
  function BaseParams(marketcapMin: int, tvlMin: int, pageNo: int, pageSize: int, category: string)
    : map<string, Json>
  {
    map["marketcap_min" := JInt(marketcapMin), "tvl_min" := JInt(tvlMin), "pageNO" := JInt(pageNo),
        "pageSize" := JInt(pageSize), "category" := JStr(category)]
  }

  /** The request parameters: the five base entries, and each smart-money
      minimum only when it is positive. */
  function TreasureParams(marketcapMin: int, tvlMin: int, buyMin: int, sellMin: int, pageNo: int,
                          pageSize: int, category: string): map<string, Json>
  {
    var base := BaseParams(marketcapMin, tvlMin, pageNo, pageSize, category);
    var withBuy := if buyMin > 0 then base[BuyKey := JInt(buyMin)] else base;
    if sellMin > 0 then withBuy[SellKey := JInt(sellMin)] else withBuy
  }

  lemma BaseParamsValues(marketcapMin: int, tvlMin: int, pageNo: int, pageSize: int, category: string)
    ensures var p := BaseParams(marketcapMin, tvlMin, pageNo, pageSize, category);
            && p.Keys == {"marketcap_min", "tvl_min", "pageNO", "pageSize", "category"}
            && p["marketcap_min"] == JInt(marketcapMin) && p["tvl_min"] == JInt(tvlMin)
            && p["pageNO"] == JInt(pageNo) && p["pageSize"] == JInt(pageSize)
            && p["category"] == JStr(category)
  {
  }

  /** The base entries are always sent with the caller's values, and a
      smart-money minimum is sent exactly when it is positive. */
  lemma TreasureParamsKeys(marketcapMin: int, tvlMin: int, buyMin: int, sellMin: int, pageNo: int,
                           pageSize: int, category: string)
    ensures var p := TreasureParams(marketcapMin, tvlMin, buyMin, sellMin, pageNo, pageSize, category);
            && p.Keys == {"marketcap_min", "tvl_min", "pageNO", "pageSize", "category"}
                         + (if buyMin > 0 then {BuyKey} else {})
                         + (if sellMin > 0 then {SellKey} else {})
            && p["marketcap_min"] == JInt(marketcapMin) && p["tvl_min"] == JInt(tvlMin)
            && p["pageNO"] == JInt(pageNo) && p["pageSize"] == JInt(pageSize)
            && p["category"] == JStr(category)
            && (buyMin > 0 ==> p[BuyKey] == JInt(buyMin))
            && (sellMin > 0 ==> p[SellKey] == JInt(sellMin))
  {
    BaseParamsValues(marketcapMin, tvlMin, pageNo, pageSize, category);
  }

  // ---------------------------------------------------------------------
  // The reply check

  /** `data.get("status") != 1`: the status must equal 1 (True does too, in
      Python); otherwise `data.get("msg", <default>)` becomes the exception,
      as `str` renders it. A reply that is not a dict has no `get`. */
  function Accept(data: Json): Result<Json> {
    var status :- Get(data, "status", JNull);
    if status != JInt(1) && status != JBool(true) then
      var msg :- Get(data, "msg", JStr(FetchFailed));
      Err(Show(msg))
    else Ok(data)
  }

  /** The reply is accepted, unchanged, exactly when it is a dict whose
      status is 1; a rejected dict's `msg` is used whenever the key is
      present, even when it is None or empty, and the fixed text only when
      it is absent. */
  lemma AcceptIff(data: Json)
    ensures Accept(data).Ok? <==>
            data.JObj? && "status" in data.fields
            && (data.fields["status"] == JInt(1) || data.fields["status"] == JBool(true))
    ensures Accept(data).Ok? ==> Accept(data).value == data
    ensures !data.JObj? ==> Accept(data) == Err(NoAttributeText(TypeName(data), "get"))
    ensures data.JObj? && Accept(data).Err? ==>
              Accept(data).msg == if "msg" in data.fields then Show(data.fields["msg"]) else FetchFailed
  {
  }

  // ---------------------------------------------------------------------
  // The projection of one listed pair

  /** `float(pair[key])` */
  function FloatOf(lib: Lib, pair: Json, key: string): Result<Json> {
    var v :- Index(pair, key);
    lib.toFloat(v)
  }

  /** `int(pair[key])` */
  function IntOf(pair: Json, key: string): Result<Json> {
    var v :- Index(pair, key);
    var n :- PyInt(v);
    Ok(JInt(n))
  }

  /** The dict literal of the nested token info, placeholders included.
      A map has no order, so the entries are listed here grouped by kind
      rather than in the literal's order. */
  function InfoEntries(symbol: Json, logo: Json, price: Json, holders: Json, marketCap: Json,
                       liquidity: Json, volume: Json, swaps: Json, buys: Json, sells: Json,
                       top10: Json, creatorRate: Json, smartDegens: Json): map<string, Json>
  {
    map["logo" := logo, "price" := price, "holder_count" := holders, "market_cap" := marketCap,
        "volume" := volume, "swaps" := swaps, "buys" := buys, "sells" := sells,
        "top_10_holder_rate" := top10, "creator_balance_rate" := creatorRate,
        "smart_degen_count" := smartDegens,
        "total_supply" := JInt(0), "is_honeypot" := JBool(false), "renounced" := JBool(false),
        "burn_ratio" := JInt(0), "burn_status" := JStr(""), "renowned_count" := JInt(0),
        "social_links" := JObj(map[]),
        "liquidity" := liquidity, "name" := symbol, "symbol" := symbol]
  }

  /** The dict literal of one formatted pair. */
  function PairEntries(id: Json, address: Json, chain: Json, amm: Json, quoteReserve: Json,
                       initialLiquidity: Json, tvl: Json, quoteSymbol: Json, info: Json): map<string, Json>
  {
    map["chain" := chain, "amm" := amm, "quote_reserve" := quoteReserve,
        "initial_liquidity" := initialLiquidity, "creator" := JStr(""),
        "id" := id, "address" := address, "tvl" := tvl, "pool_type_str" := amm, "pool_type" := amm,
        "quote_symbol" := quoteSymbol, "base_token_info" := info]
  }

  /** The nested token info, its entries read in the order the dict
      literal lists them; `name` repeats the read of `token0_symbol`, which
      cannot fail the second time, so it is read once. */
  function TreasureTokenInfo(lib: Lib, pair: Json): Result<map<string, Json>> {
    var symbol :- Index(pair, "token0_symbol");
    var logo :- Index(pair, "token0_logo_url");
    var price :- FloatOf(lib, pair, "current_price_usd");
    var holders :- IntOf(pair, "holders");
    var marketCap :- FloatOf(lib, pair, "market_cap");
    var liquidity :- FloatOf(lib, pair, "tvl");
    var volume :- FloatOf(lib, pair, "volume_u_24h");
    var swaps :- IntOf(pair, "tx_24h_count");
    var buys :- IntOf(pair, "buys_tx_24h_count");
    var sells :- IntOf(pair, "sells_tx_24h_count");
    var top10 :- FloatOf(lib, pair, "holders_top10_ratio");
    var creatorRate :- FloatOf(lib, pair, "dev_balance_ratio_cur");
    var smartDegens :- IntOf(pair, "smart_money_buy_count_24h");
    Ok(InfoEntries(symbol, logo, price, holders, marketCap, liquidity, volume, swaps, buys, sells, top10,
                   creatorRate, smartDegens))
  }

  /** One formatted pair; `pool_type_str` and `pool_type` repeat the read
      of `amm`, which is read once. */
  function TreasureRecord(lib: Lib, pair: Json): Result<Json> {
    var id :- Index(pair, "pair");
    var address :- Index(pair, "target_token");
    var chain :- Index(pair, "chain");
    var amm :- Index(pair, "amm");
    var quoteReserve :- FloatOf(lib, pair, "reserve1");
    var initialLiquidity :- FloatOf(lib, pair, "init_tvl");
    var tvl :- FloatOf(lib, pair, "tvl");
    var quoteSymbol :- Index(pair, "token1_symbol");
    var info :- TreasureTokenInfo(lib, pair);
    Ok(JObj(PairEntries(id, address, chain, amm, quoteReserve, initialLiquidity, tvl, quoteSymbol,
                        JObj(info))))
  }

  function TreasureRecords(lib: Lib): Json -> Result<Json> {
    pair => TreasureRecord(lib, pair)
  }

  lemma TreasureRecordOfString(lib: Lib, s: string)
    ensures TreasureRecord(lib, JStr(s)) == Err(StrIndexError)
  {
  }

  /** The first entry read is `pair`: a pair without it fails on it. */
  lemma TreasureRecordNeedsPair(lib: Lib, m: map<string, Json>)
    requires "pair" !in m
    ensures TreasureRecord(lib, JObj(m)) == Err(KeyErrorText("pair"))
  {
  }

  /** A formatted pair is the literal over the values its reads gave. */
  lemma TreasureRecordParts(lib: Lib, pair: Json)
    requires TreasureRecord(lib, pair).Ok?
    ensures pair.JObj?
    ensures var m := pair.fields;
            && "pair" in m && "target_token" in m && "chain" in m && "amm" in m
            && "token1_symbol" in m && "token0_symbol" in m
    ensures FloatOf(lib, pair, "tvl").Ok? && TreasureTokenInfo(lib, pair).Ok?
    ensures var m := pair.fields;
            TreasureRecord(lib, pair).value.fields ==
            PairEntries(m["pair"], m["target_token"], m["chain"], m["amm"],
                        FloatOf(lib, pair, "reserve1").value, FloatOf(lib, pair, "init_tvl").value,
                        FloatOf(lib, pair, "tvl").value, m["token1_symbol"],
                        JObj(TreasureTokenInfo(lib, pair).value))
  {
  }

  /** The token info is the literal over the values its reads gave. */
  lemma TreasureTokenInfoParts(lib: Lib, pair: Json)
    requires TreasureTokenInfo(lib, pair).Ok?
    ensures pair.JObj? && "token0_symbol" in pair.fields && "token0_logo_url" in pair.fields
    ensures && FloatOf(lib, pair, "current_price_usd").Ok? && IntOf(pair, "holders").Ok?
            && FloatOf(lib, pair, "market_cap").Ok? && FloatOf(lib, pair, "tvl").Ok?
            && FloatOf(lib, pair, "volume_u_24h").Ok? && IntOf(pair, "tx_24h_count").Ok?
            && IntOf(pair, "buys_tx_24h_count").Ok? && IntOf(pair, "sells_tx_24h_count").Ok?
            && FloatOf(lib, pair, "holders_top10_ratio").Ok? && FloatOf(lib, pair, "dev_balance_ratio_cur").Ok?
            && IntOf(pair, "smart_money_buy_count_24h").Ok?
    ensures TreasureTokenInfo(lib, pair).value ==
            InfoEntries(pair.fields["token0_symbol"], pair.fields["token0_logo_url"],
                        FloatOf(lib, pair, "current_price_usd").value, IntOf(pair, "holders").value,
                        FloatOf(lib, pair, "market_cap").value, FloatOf(lib, pair, "tvl").value,
                        FloatOf(lib, pair, "volume_u_24h").value, IntOf(pair, "tx_24h_count").value,
                        IntOf(pair, "buys_tx_24h_count").value, IntOf(pair, "sells_tx_24h_count").value,
                        FloatOf(lib, pair, "holders_top10_ratio").value,
                        FloatOf(lib, pair, "dev_balance_ratio_cur").value,
                        IntOf(pair, "smart_money_buy_count_24h").value)
  {
  }

  /** The token info's name and symbol are one value; its liquidity is the
      value given. */
  lemma InfoEntriesCopied(symbol: Json, logo: Json, price: Json, holders: Json, marketCap: Json,
                          liquidity: Json, volume: Json, swaps: Json, buys: Json, sells: Json,
                          top10: Json, creatorRate: Json, smartDegens: Json)
    ensures var info := InfoEntries(symbol, logo, price, holders, marketCap, liquidity, volume,
                                    swaps, buys, sells, top10, creatorRate, smartDegens);
            && "symbol" in info && info["symbol"] == symbol
            && "name" in info && info["name"] == symbol
            && "liquidity" in info && info["liquidity"] == liquidity
  {
  }

  /** The entries Ave.ai lacks carry fixed placeholders. */
  lemma InfoEntriesPlaceholders(symbol: Json, logo: Json, price: Json, holders: Json, marketCap: Json,
                                liquidity: Json, volume: Json, swaps: Json, buys: Json, sells: Json,
                                top10: Json, creatorRate: Json, smartDegens: Json)
    ensures var info := InfoEntries(symbol, logo, price, holders, marketCap, liquidity, volume,
                                    swaps, buys, sells, top10, creatorRate, smartDegens);
            && "total_supply" in info && info["total_supply"] == JInt(0)
            && "is_honeypot" in info && info["is_honeypot"] == JBool(false)
            && "renounced" in info && info["renounced"] == JBool(false)
            && "burn_ratio" in info && info["burn_ratio"] == JInt(0)
            && "burn_status" in info && info["burn_status"] == JStr("")
            && "renowned_count" in info && info["renowned_count"] == JInt(0)
            && "social_links" in info && info["social_links"] == JObj(map[])
  {
  }

  lemma PairEntriesValues(id: Json, address: Json, chain: Json, amm: Json, quoteReserve: Json,
                          initialLiquidity: Json, tvl: Json, quoteSymbol: Json, info: Json)
    ensures var out := PairEntries(id, address, chain, amm, quoteReserve, initialLiquidity, tvl,
                                   quoteSymbol, info);
            && "id" in out && out["id"] == id
            && "address" in out && out["address"] == address
            && "pool_type" in out && out["pool_type"] == amm
            && "pool_type_str" in out && out["pool_type_str"] == amm
            && "quote_symbol" in out && out["quote_symbol"] == quoteSymbol
            && "tvl" in out && out["tvl"] == tvl
            && "creator" in out && out["creator"] == JStr("")
            && "base_token_info" in out && out["base_token_info"] == info
  {
  }

  /** The renamed entries: `id` from `pair`, `address` from
      `target_token`, both pool types from `amm`, the quote symbol from
      `token1_symbol`, and the info's name and symbol both from
      `token0_symbol`; the info's liquidity is the pair's tvl. */
  lemma TreasureRecordRenames(lib: Lib, pair: Json)
    requires TreasureRecord(lib, pair).Ok?
    ensures pair.JObj?
    ensures var m := pair.fields;
            && "pair" in m && "target_token" in m && "amm" in m && "token1_symbol" in m
            && "token0_symbol" in m
    ensures var m := pair.fields;
            var out := TreasureRecord(lib, pair).value.fields;
            && "id" in out && out["id"] == m["pair"]
            && "address" in out && out["address"] == m["target_token"]
            && "pool_type" in out && out["pool_type"] == m["amm"]
            && "pool_type_str" in out && out["pool_type_str"] == m["amm"]
            && "quote_symbol" in out && out["quote_symbol"] == m["token1_symbol"]
    ensures var m := pair.fields;
            var out := TreasureRecord(lib, pair).value.fields;
            && "base_token_info" in out && out["base_token_info"].JObj?
            && var info := out["base_token_info"].fields;
               && "symbol" in info && info["symbol"] == m["token0_symbol"]
               && "name" in info && info["name"] == m["token0_symbol"]
               && "tvl" in out && "liquidity" in info && info["liquidity"] == out["tvl"]
  {
    TreasureRecordParts(lib, pair);
    TreasureTokenInfoParts(lib, pair);
    var m := pair.fields;
    var tvl := FloatOf(lib, pair, "tvl").value;
    InfoEntriesCopied(m["token0_symbol"], m["token0_logo_url"],
                      FloatOf(lib, pair, "current_price_usd").value, IntOf(pair, "holders").value,
                      FloatOf(lib, pair, "market_cap").value, tvl,
                      FloatOf(lib, pair, "volume_u_24h").value, IntOf(pair, "tx_24h_count").value,
                      IntOf(pair, "buys_tx_24h_count").value, IntOf(pair, "sells_tx_24h_count").value,
                      FloatOf(lib, pair, "holders_top10_ratio").value,
                      FloatOf(lib, pair, "dev_balance_ratio_cur").value,
                      IntOf(pair, "smart_money_buy_count_24h").value);
    PairEntriesValues(m["pair"], m["target_token"], m["chain"], m["amm"],
                      FloatOf(lib, pair, "reserve1").value, FloatOf(lib, pair, "init_tvl").value,
                      tvl, m["token1_symbol"], JObj(TreasureTokenInfo(lib, pair).value));
  }

  /** The entries Ave.ai does not provide always carry the same
      placeholders. */
  lemma TreasureRecordPlaceholders(lib: Lib, pair: Json)
    requires TreasureRecord(lib, pair).Ok?
    ensures var out := TreasureRecord(lib, pair).value.fields;
            && "creator" in out && out["creator"] == JStr("")
            && "base_token_info" in out && out["base_token_info"].JObj?
            && var info := out["base_token_info"].fields;
               && "total_supply" in info && info["total_supply"] == JInt(0)
               && "is_honeypot" in info && info["is_honeypot"] == JBool(false)
               && "renounced" in info && info["renounced"] == JBool(false)
               && "burn_ratio" in info && info["burn_ratio"] == JInt(0)
               && "burn_status" in info && info["burn_status"] == JStr("")
               && "renowned_count" in info && info["renowned_count"] == JInt(0)
               && "social_links" in info && info["social_links"] == JObj(map[])
  {
    TreasureRecordParts(lib, pair);
    TreasureTokenInfoParts(lib, pair);
    var m := pair.fields;
    var tvl := FloatOf(lib, pair, "tvl").value;
    InfoEntriesPlaceholders(m["token0_symbol"], m["token0_logo_url"],
                            FloatOf(lib, pair, "current_price_usd").value, IntOf(pair, "holders").value,
                            FloatOf(lib, pair, "market_cap").value, tvl,
                            FloatOf(lib, pair, "volume_u_24h").value, IntOf(pair, "tx_24h_count").value,
                            IntOf(pair, "buys_tx_24h_count").value, IntOf(pair, "sells_tx_24h_count").value,
                            FloatOf(lib, pair, "holders_top10_ratio").value,
                            FloatOf(lib, pair, "dev_balance_ratio_cur").value,
                            IntOf(pair, "smart_money_buy_count_24h").value);
    PairEntriesValues(m["pair"], m["target_token"], m["chain"], m["amm"],
                      FloatOf(lib, pair, "reserve1").value, FloatOf(lib, pair, "init_tvl").value,
                      tvl, m["token1_symbol"], JObj(TreasureTokenInfo(lib, pair).value));
  }

  // ---------------------------------------------------------------------
  // `get_treasure_list`

  /** The listed pairs of an accepted reply, `data["data"]["data"]`,
      each formatted. */
  function PairsOf(lib: Lib, data: Json): Result<seq<Json>> {
    var outer :- Index(data, "data");
    var listed :- Index(outer, "data");
    Iterate(listed, TreasureRecords(lib), StrIndexError)
  }

  function ListRequest(marketcapMin: int, tvlMin: int, buyMin: int, sellMin: int, pageNo: int,
                       pageSize: int, category: string): Request
  {
    HttpGet(BaseUrl + ListPath, TreasureParams(marketcapMin, tvlMin, buyMin, sellMin, pageNo, pageSize, category))
  }

  function TreasureList(backend: Transport, lib: Lib, marketcapMin: int, tvlMin: int, buyMin: int,
                        sellMin: int, pageNo: int, pageSize: int, category: string): Outcome<seq<Json>>
  {
    Then(Exchange(backend, ListRequest(marketcapMin, tvlMin, buyMin, sellMin, pageNo, pageSize, category),
                  Accept),
         (data: Json) => PairsOf(lib, data))
  }

  /** The parameter dict, its smart-money entries inserted in place. */
  method BuildParams(marketcapMin: int, tvlMin: int, buyMin: int, sellMin: int, pageNo: int,
                     pageSize: int, category: string) returns (params: map<string, Json>)
    ensures params == TreasureParams(marketcapMin, tvlMin, buyMin, sellMin, pageNo, pageSize, category)
  {
    params := map["marketcap_min" := JInt(marketcapMin), "tvl_min" := JInt(tvlMin),
                  "pageNO" := JInt(pageNo), "pageSize" := JInt(pageSize), "category" := JStr(category)];
    if buyMin > 0 {
      params := params[BuyKey := JInt(buyMin)];
    }
    if sellMin > 0 {
      params := params[SellKey := JInt(sellMin)];
    }
  }

  /** `get_treasure_list`: the parameters built in place, one request, and
      the formatting loop, proved to produce what `TreasureList` specifies. */
  method GetTreasureList(backend: Transport, lib: Lib, marketcapMin: int, tvlMin: int, buyMin: int,
                         sellMin: int, pageNo: int, pageSize: int, category: string)
    returns (o: Outcome<seq<Json>>)
    ensures o == TreasureList(backend, lib, marketcapMin, tvlMin, buyMin, sellMin, pageNo, pageSize, category)
  {
    var params := BuildParams(marketcapMin, tvlMin, buyMin, sellMin, pageNo, pageSize, category);
    var req := HttpGet(BaseUrl + ListPath, params);
    var fetched := Exchange(backend, req, Accept);
    if fetched.result.Err? {
      return Outcome(Err(fetched.result.msg), fetched.sent);
    }
    var outer := Index(fetched.result.value, "data");
    if outer.Err? {
      return Outcome(Err(outer.msg), fetched.sent);
    }
    var listed := Index(outer.value, "data");
    if listed.Err? {
      return Outcome(Err(listed.msg), fetched.sent);
    }
    var elements := Elements(listed.value, StrIndexError);
    if elements.Err? {
      return Outcome(Err(elements.msg), fetched.sent);
    }
    var pairs := elements.value;
    var formatted := FormatEach(pairs, TreasureRecords(lib));
    if formatted.Err? {
      return Outcome(Err(formatted.msg), fetched.sent);
    }
    o := Outcome(Ok(formatted.value), fetched.sent);
  }

  /** One GET to the list path with the parameters above; a reply whose
      status is 1 and whose `data.data` is a list gives one formatted pair
      per listed pair, in order, or the first pair's failure unchanged. */
  lemma {:induction false} TreasureListShape(backend: Transport, lib: Lib, marketcapMin: int, tvlMin: int,
                                             buyMin: int, sellMin: int, pageNo: int, pageSize: int,
                                             category: string, listed: seq<Json>)
    requires var req := ListRequest(marketcapMin, tvlMin, buyMin, sellMin, pageNo, pageSize, category);
             var reply := backend(req);
             && reply.Ok? && reply.value.JObj? && "status" in reply.value.fields
             && (reply.value.fields["status"] == JInt(1) || reply.value.fields["status"] == JBool(true))
             && "data" in reply.value.fields && reply.value.fields["data"].JObj?
             && "data" in reply.value.fields["data"].fields
             && reply.value.fields["data"].fields["data"] == JList(listed)
    ensures var o := TreasureList(backend, lib, marketcapMin, tvlMin, buyMin, sellMin, pageNo, pageSize, category);
            && o.sent == [HttpGet(BaseUrl + ListPath,
                                  TreasureParams(marketcapMin, tvlMin, buyMin, sellMin, pageNo, pageSize, category))]
            && (o.result.Ok? <==> forall i :: 0 <= i < |listed| ==> TreasureRecord(lib, listed[i]).Ok?)
            && (o.result.Ok? ==>
                  |o.result.value| == |listed|
                  && forall i :: 0 <= i < |listed| ==> TreasureRecord(lib, listed[i]) == Ok(o.result.value[i]))
  {
    var reply := backend(ListRequest(marketcapMin, tvlMin, buyMin, sellMin, pageNo, pageSize, category)).value;
    AcceptIff(reply);
    assert PairsOf(lib, reply) == MapAll(listed, TreasureRecords(lib));
    MapAllOk(listed, TreasureRecords(lib));
  }

  /** A reply whose status is not 1 raises its own `msg` as it is,
      unprefixed, after the one request. */
  lemma TreasureListRejected(backend: Transport, lib: Lib, marketcapMin: int, tvlMin: int, buyMin: int,
                             sellMin: int, pageNo: int, pageSize: int, category: string,
                             m: map<string, Json>)
    requires var req := ListRequest(marketcapMin, tvlMin, buyMin, sellMin, pageNo, pageSize, category);
             backend(req) == Ok(JObj(m))
    requires "status" !in m || (m["status"] != JInt(1) && m["status"] != JBool(true))
    ensures var o := TreasureList(backend, lib, marketcapMin, tvlMin, buyMin, sellMin, pageNo, pageSize, category);
            o.result == Err(if "msg" in m then Show(m["msg"]) else FetchFailed) && |o.sent| == 1
  {
    AcceptIff(JObj(m));
  }
}
