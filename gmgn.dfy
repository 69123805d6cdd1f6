/** The GMGN client: GET requests under one base URL, a reply check on the
    `code` field, and the four operations the server uses. `_make_request`
    re-raises its exceptions unchanged; each operation prefixes them. */
module Gmgn {
  import opened Json
  import opened Backend
  import opened Projection

  const BaseUrl: string := "https://gmgn.ai"
  const FetchFailed: string := "Failed to fetch data from GMGN"

  const NewPairsPrefix: string := "Failed to get new pairs: "
  const KlinePrefix: string := "Failed to get token kline: "
  const HoldingsPrefix: string := "Failed to get wallet holdings: "

  function SecurityPrefix(token: string): string {
    "Failed to get token security info for " + token + ": "
  }

  /** The exception `x["k"]` raises when a pair record is a string. */
  const StrIndexError: string := StrSubscriptError(JStr(""))

  // ---------------------------------------------------------------------
  // `_make_request`

  /** The reply check: `code` must equal 0 (False does too, in Python);
      otherwise the reply's `msg`, re-encoded as text, or a fixed text when
      it has none, becomes the exception. A `msg` that is not a string has
      no `encode`, which raises instead. */
  function Accept(data: Json): Result<Json> {
    var code :- Get(data, "code", JNull);
    if code != JInt(0) && code != JBool(false) then
      var msg :- Get(data, "msg", JNull);
      if !Truthy(msg) then Err(FetchFailed)
      else if msg.JStr? then Err(msg.s)
      else Err(NoAttributeText(TypeName(msg), "encode"))
    else Index(data, "data")
  }

  function Fetch(backend: Transport, endpoint: string, params: map<string, Json>): Outcome<Json> {
    Exchange(backend, HttpGet(BaseUrl + endpoint, params), Accept)
  }

  /** A reply is accepted exactly when it is a dict whose code is 0 and
      which has a `data` entry, which is then handed on; a failing reply's
      own text message is passed through as the exception. */
  lemma AcceptIff(data: Json)
    ensures Accept(data).Ok? <==>
            data.JObj? && "code" in data.fields
            && (data.fields["code"] == JInt(0) || data.fields["code"] == JBool(false))
            && "data" in data.fields
    ensures Accept(data).Ok? ==> Accept(data).value == data.fields["data"]
    ensures data.JObj? ==>
              var code := if "code" in data.fields then data.fields["code"] else JNull;
              var msg := if "msg" in data.fields then data.fields["msg"] else JNull;
              code != JInt(0) && code != JBool(false) ==>
                Accept(data) == (if !Truthy(msg) then Err(FetchFailed)
                                 else if msg.JStr? then Err(msg.s)
                                 else Err(NoAttributeText(TypeName(msg), "encode")))
  {
  }

  // ---------------------------------------------------------------------
  // `get_new_pairs`

  function NewPairsParams(period: string, limit: int, minMarketcap: int, minSwaps1h: int,
                          minHolderCount: int, filters: seq<string>, launchpad: string,
                          orderby: string, direction: string): map<string, Json> {
    map["limit" := JInt(limit), "orderby" := JStr(orderby), "direction" := JStr(direction),
        "launchpad" := JStr(launchpad), "period" := JStr(period),
        "filters[]" := JList(seq(|filters|, i requires 0 <= i < |filters| => JStr(filters[i]))),
        "min_marketcap" := JInt(minMarketcap), "min_swaps1h" := JInt(minSwaps1h),
        "min_holder_count" := JInt(minHolderCount)]
  }

  function NewPairsPath(chain: string, period: string): string {
    "/defi/quotation/v1/pairs/" + chain + "/new_pairs/" + period
  }

  /** The entries of a formatted pair before its token info. */
  const PairHead: seq<Field> := [
    Field("id", Required("id")),
    Field("address", Required("base_address")),
    Field("quote_reserve", Required("quote_reserve")),
    Field("initial_liquidity", Required("initial_liquidity")),
    Field("initial_quote_reserve", Required("initial_quote_reserve")),
    Field("creator", Required("creator")),
    Field("pool_type_str", Required("pool_type_str")),
    Field("pool_type", Required("pool_type")),
    Field("quote_symbol", Required("quote_symbol"))
  ]

  /** The entries of a formatted pair after its token info. */
  const PairTail: seq<Field> := [
    Field("open_timestamp", Required("open_timestamp")),
    Field("launchpad", Optional("launchpad", JNull))
  ]

  function Opt(k: string): Field {
    Field(k, Optional(k, JNull))
  }

  function Req(k: string): Field {
    Field(k, Required(k))
  }

  /** The token info of a formatted pair, in five runs: six entries the
      reply must carry (three in the first run, one in the third), three
      with defaults, and the rest None when absent. */
  const InfoA: seq<Field> := [
    Req("symbol"), Req("name"), Opt("logo"), Req("total_supply"), Req("price"), Req("holder_count")
  ]

  const InfoB: seq<Field> := [
    Opt("launchpad_status"), Opt("price_change_percent1m"), Opt("price_change_percent5m"),
    Opt("price_change_percent1h"), Opt("burn_ratio"), Opt("burn_status"),
    Field("is_show_alert", Optional("is_show_alert", JBool(false))),
    Field("hot_level", Optional("hot_level", JInt(0)))
  ]

  const InfoC: seq<Field> := [Req("liquidity")]

  const InfoDKeys: seq<string> := [
    "top_10_holder_rate", "renounced_mint", "renounced_freeze_account", "market_cap",
    "creator_balance_rate", "creator_token_status", "rat_trader_amount_rate",
    "bluechip_owner_percentage", "smart_degen_count", "renowned_count", "volume", "swaps", "buys",
    "sells", "buy_tax", "sell_tax", "is_honeypot", "renounced", "dev_token_burn_amount",
    "dev_token_burn_ratio", "dexscr_ad", "dexscr_update_link", "cto_flag", "twitter_change_flag",
    "address"
  ]

  const InfoE: seq<Field> := [Field("social_links", Optional("social_links", JObj(map[])))]

  const TokenInfoFields: seq<Field> := InfoA + InfoB + InfoC + Optionals(InfoDKeys) + InfoE

  /** One formatted pair: `pair["base_token_info"]` is read first, then the
      entries in order, the nested token info in its place. */
  function PairRecord(pair: Json): Result<Json> {
    var tokenInfo :- Index(pair, "base_token_info");
    var head :- Project(pair, PairHead);
    var info :- TokenInfo(tokenInfo);
    var tail :- Project(pair, PairTail);
    Ok(JObj(head["base_token_info" := JObj(info)] + tail))
  }

  lemma PairRecordOfString(s: string)
    ensures PairRecord(JStr(s)) == Err(StrIndexError)
  {
  }

  lemma InfoARequired()
    ensures RequiredKeys(InfoA) == {"symbol", "name", "total_supply", "price", "holder_count"}
  {
    assert InfoA[0].source.key == "symbol" && InfoA[1].source.key == "name";
    assert InfoA[3].source.key == "total_supply" && InfoA[4].source.key == "price";
    assert InfoA[5].source.key == "holder_count";
  }

  lemma InfoBRequired()
    ensures RequiredKeys(InfoB) == {}
  {
    assert forall i :: 0 <= i < |InfoB| ==> !InfoB[i].source.Required?;
  }

  lemma InfoCERequired()
    ensures RequiredKeys(InfoC) == {"liquidity"} && RequiredKeys(InfoE) == {}
  {
    assert InfoC[0].source.key == "liquidity";
  }

  /** The token info keys a pair must carry. */
  lemma TokenInfoRequired()
    ensures RequiredKeys(TokenInfoFields) ==
            {"symbol", "name", "total_supply", "price", "holder_count", "liquidity"}
  {
    var d := Optionals(InfoDKeys);
    RequiredKeysAppend(InfoA + InfoB + InfoC + d, InfoE);
    RequiredKeysAppend(InfoA + InfoB + InfoC, d);
    RequiredKeysAppend(InfoA + InfoB, InfoC);
    RequiredKeysAppend(InfoA, InfoB);
    RequiredKeysOptionals(InfoDKeys);
    InfoARequired();
    InfoBRequired();
    InfoCERequired();
  }

  /** The names the later runs of the token info table use. */
  lemma InfoNames()
    ensures "name" !in Names(InfoB) && "symbol" !in Names(InfoB)
    ensures Names(InfoC) == {"liquidity"} && Names(InfoE) == {"social_links"}
  {
    assert InfoC[0].name == "liquidity";
    assert InfoE[0].name == "social_links";
  }

  /** None of the keys the other parts of the token info set is copied again from the plain list. */
  lemma NotInfoDKey(key: string)
    requires key in {"name", "symbol", "liquidity", "is_show_alert", "hot_level"}
    ensures key !in InfoDKeys
  {}

  /** The token info dict literal, read run by run. */
  function TokenInfo(t: Json): Result<map<string, Json>> {
    var a :- Project(t, InfoA);
    var b :- Project(t, InfoB);
    var c :- Project(t, InfoC);
    var d :- Project(t, Optionals(InfoDKeys));
    var e :- Project(t, InfoE);
    Ok(a + b + c + d + e)
  }

  /** Reading the runs in turn is evaluating the whole literal. */
  lemma TokenInfoIsLiteral(t: Json)
    ensures TokenInfo(t) == Project(t, TokenInfoFields)
  {
    var d := Optionals(InfoDKeys);
    ProjectAppend(t, InfoA + InfoB + InfoC + d, InfoE);
    ProjectAppend(t, InfoA + InfoB + InfoC, d);
    ProjectAppend(t, InfoA + InfoB, InfoC);
    ProjectAppend(t, InfoA, InfoB);
  }

  lemma InfoAValues(t: Json)
    requires Project(t, InfoA).Ok?
    ensures t.JObj? && "name" in t.fields && "symbol" in t.fields
    ensures var x := Project(t, InfoA).value;
            "name" in x && "symbol" in x && x["name"] == t.fields["name"] && x["symbol"] == t.fields["symbol"]
  {
    ProjectAt(t, InfoA, 0);
    ProjectAt(t, InfoA, 1);
  }

  lemma InfoBValues(t: Json)
    requires t.JObj? && Project(t, InfoB).Ok?
    ensures var x := Project(t, InfoB).value;
            var m := t.fields;
            && "is_show_alert" in x && "hot_level" in x
            && x["is_show_alert"] == (if "is_show_alert" in m then m["is_show_alert"] else JBool(false))
            && x["hot_level"] == (if "hot_level" in m then m["hot_level"] else JInt(0))
            && "name" !in x && "symbol" !in x
  {
    ProjectAt(t, InfoB, 6);
    ProjectAt(t, InfoB, 7);
    ProjectKeys(t, InfoB);
    InfoNames();
  }

  lemma InfoCEValues(t: Json)
    requires t.JObj? && Project(t, InfoC).Ok? && Project(t, InfoE).Ok?
    ensures Project(t, InfoC).value == map["liquidity" := t.fields["liquidity"]]
    ensures Project(t, InfoE).value ==
            map["social_links" := if "social_links" in t.fields then t.fields["social_links"] else JObj(map[])]
  {
  }

  lemma TokenInfoParts(t: Json)
    requires TokenInfo(t).Ok?
    ensures t.JObj?
    ensures Project(t, InfoA).Ok? && Project(t, InfoB).Ok? && Project(t, InfoC).Ok? && Project(t, InfoE).Ok?
    ensures TokenInfo(t).value == Project(t, InfoA).value + Project(t, InfoB).value + Project(t, InfoC).value
                                  + GetAll(t.fields, InfoDKeys) + Project(t, InfoE).value
  {
    assert Read(t, InfoA[0].source).Ok?;
    ProjectOptionals(t.fields, InfoDKeys);
  }

  lemma TokenInfoNameSymbol(t: Json)
    requires TokenInfo(t).Ok?
    ensures t.JObj? && "name" in t.fields && "symbol" in t.fields
    ensures var info := TokenInfo(t).value;
            "name" in info && "symbol" in info
            && info["name"] == t.fields["name"] && info["symbol"] == t.fields["symbol"]
  {
    TokenInfoParts(t);
    InfoAValues(t);
    InfoBValues(t);
    InfoCEValues(t);
    NotInfoDKey("name");
    NotInfoDKey("symbol");
    var a := Project(t, InfoA).value;
    var b := Project(t, InfoB).value;
    var c := Project(t, InfoC).value;
    var d := GetAll(t.fields, InfoDKeys);
    var e := Project(t, InfoE).value;
    assert TokenInfo(t).value == a + b + c + d + e;
    assert "name" !in c && "name" !in d && "name" !in e;
    assert "symbol" !in c && "symbol" !in d && "symbol" !in e;
  }

  lemma TokenInfoLiquidity(t: Json)
    requires TokenInfo(t).Ok?
    ensures t.JObj? && "liquidity" in t.fields
    ensures "liquidity" in TokenInfo(t).value && TokenInfo(t).value["liquidity"] == t.fields["liquidity"]
  {
    TokenInfoParts(t);
    InfoCEValues(t);
    NotInfoDKey("liquidity");
    var a := Project(t, InfoA).value;
    var b := Project(t, InfoB).value;
    var c := Project(t, InfoC).value;
    var d := GetAll(t.fields, InfoDKeys);
    var e := Project(t, InfoE).value;
    assert TokenInfo(t).value == a + b + c + d + e;
    assert "liquidity" !in d && "liquidity" !in e;
  }

  lemma TokenInfoFlags(t: Json)
    requires TokenInfo(t).Ok?
    ensures t.JObj?
    ensures var info := TokenInfo(t).value;
            var m := t.fields;
            && "is_show_alert" in info && "hot_level" in info
            && info["is_show_alert"] == (if "is_show_alert" in m then m["is_show_alert"] else JBool(false))
            && info["hot_level"] == (if "hot_level" in m then m["hot_level"] else JInt(0))
  {
    TokenInfoParts(t);
    InfoBValues(t);
    InfoCEValues(t);
    NotInfoDKey("is_show_alert");
    NotInfoDKey("hot_level");
    var a := Project(t, InfoA).value;
    var b := Project(t, InfoB).value;
    var c := Project(t, InfoC).value;
    var d := GetAll(t.fields, InfoDKeys);
    var e := Project(t, InfoE).value;
    assert TokenInfo(t).value == a + b + c + d + e;
    assert "is_show_alert" !in c && "is_show_alert" !in d && "is_show_alert" !in e;
    assert "hot_level" !in c && "hot_level" !in d && "hot_level" !in e;
    assert (a + b + c + d + e)["is_show_alert"] == b["is_show_alert"];
    assert (a + b + c + d + e)["hot_level"] == b["hot_level"];
  }

  lemma TokenInfoSocialLinks(t: Json)
    requires TokenInfo(t).Ok?
    ensures t.JObj?
    ensures var info := TokenInfo(t).value;
            var m := t.fields;
            "social_links" in info
            && info["social_links"] == (if "social_links" in m then m["social_links"] else JObj(map[]))
  {
    TokenInfoParts(t);
    InfoCEValues(t);
  }

  /** The formatted token info keeps the token's name, symbol and liquidity,
      and fills in the alert flag (False), hot level (0) and social links
      (an empty dict) when the token lacks them. */
  lemma TokenInfoValues(t: Json)
    requires TokenInfo(t).Ok?
    ensures t.JObj?
    ensures var info := TokenInfo(t).value;
            var m := t.fields;
            && "name" in m && "symbol" in m && "liquidity" in m
            && "name" in info && "symbol" in info && "liquidity" in info
            && "is_show_alert" in info && "hot_level" in info && "social_links" in info
            && info["name"] == m["name"] && info["symbol"] == m["symbol"]
            && info["liquidity"] == m["liquidity"]
            && info["is_show_alert"] == (if "is_show_alert" in m then m["is_show_alert"] else JBool(false))
            && info["hot_level"] == (if "hot_level" in m then m["hot_level"] else JInt(0))
            && info["social_links"] == (if "social_links" in m then m["social_links"] else JObj(map[]))
  {
    TokenInfoNameSymbol(t);
    TokenInfoLiquidity(t);
    TokenInfoFlags(t);
    TokenInfoSocialLinks(t);
  }

  /** A pair is formatted exactly when it is a dict with every required
      outer entry and a token info dict with every required entry. */
  lemma PairRecordOkIff(pair: Json)
    ensures PairRecord(pair).Ok? <==>
            && pair.JObj? && "base_token_info" in pair.fields
            && RequiredKeys(PairHead) <= pair.fields.Keys && RequiredKeys(PairTail) <= pair.fields.Keys
            && pair.fields["base_token_info"].JObj?
            && RequiredKeys(TokenInfoFields) <= pair.fields["base_token_info"].fields.Keys
  {
    if pair.JObj? && "base_token_info" in pair.fields {
      var info := pair.fields["base_token_info"];
      ProjectOkOnDict(pair.fields, PairHead);
      ProjectOkOnDict(pair.fields, PairTail);
      TokenInfoIsLiteral(info);
      if info.JObj? {
        ProjectOkOnDict(info.fields, TokenInfoFields);
      } else {
        assert Read(info, InfoA[0].source).Err?;
      }
    }
  }

  /** What a formatted pair holds: the pair's id, its base token address as
      `address`, its open timestamp, and the token info described by
      `TokenInfoValues`. */
  lemma PairRecordParts(pair: Json)
    requires PairRecord(pair).Ok?
    ensures pair.JObj? && "base_token_info" in pair.fields
    ensures Project(pair, PairHead).Ok? && Project(pair, PairTail).Ok?
    ensures TokenInfo(pair.fields["base_token_info"]).Ok?
    ensures PairRecord(pair).value ==
            JObj(Project(pair, PairHead).value["base_token_info" := JObj(TokenInfo(pair.fields["base_token_info"]).value)]
                 + Project(pair, PairTail).value)
  {
  }

  lemma PairHeadValues(pair: Json)
    requires Project(pair, PairHead).Ok?
    ensures pair.JObj? && "id" in pair.fields && "base_address" in pair.fields
    ensures var head := Project(pair, PairHead).value;
            && "id" in head && "address" in head
            && head["id"] == pair.fields["id"] && head["address"] == pair.fields["base_address"]
  {
    ProjectAt(pair, PairHead, 0);
    ProjectAt(pair, PairHead, 1);
  }

  lemma PairTailValues(pair: Json)
    requires Project(pair, PairTail).Ok?
    ensures pair.JObj? && "open_timestamp" in pair.fields
    ensures var tail := Project(pair, PairTail).value;
            && tail.Keys == {"open_timestamp", "launchpad"}
            && "id" !in tail && "address" !in tail && "base_token_info" !in tail
            && tail["open_timestamp"] == pair.fields["open_timestamp"]
  {
    ProjectAt(pair, PairTail, 0);
    ProjectKeys(pair, PairTail);
    assert Names(PairTail) == {"open_timestamp", "launchpad"} by {
      assert PairTail[0].name == "open_timestamp" && PairTail[1].name == "launchpad";
    }
  }

  /** A formatted pair carries the pair's id, its base address under
      `address`, its open timestamp and the formatted token info. */
  lemma PairRecordFields(pair: Json)
    requires PairRecord(pair).Ok?
    ensures pair.JObj?
    ensures && "id" in pair.fields && "base_address" in pair.fields && "open_timestamp" in pair.fields
            && "base_token_info" in pair.fields
    ensures var out := PairRecord(pair).value.fields;
            && "id" in out && "address" in out && "open_timestamp" in out && "base_token_info" in out
            && out["id"] == pair.fields["id"]
            && out["address"] == pair.fields["base_address"]
            && out["open_timestamp"] == pair.fields["open_timestamp"]
            && out["base_token_info"] == JObj(TokenInfo(pair.fields["base_token_info"]).value)
  {
    PairRecordParts(pair);
    PairHeadValues(pair);
    PairTailValues(pair);
    MergeLookup(Project(pair, PairHead).value, JObj(TokenInfo(pair.fields["base_token_info"]).value),
                Project(pair, PairTail).value);
  }

  /** Looking up the merged entries of a formatted pair. */
  lemma MergeLookup(head: map<string, Json>, info: Json, tail: map<string, Json>)
    requires "id" in head && "address" in head && "open_timestamp" in tail
    requires "id" !in tail && "address" !in tail && "base_token_info" !in tail
    ensures var out := head["base_token_info" := info] + tail;
            && "id" in out && "address" in out && "open_timestamp" in out && "base_token_info" in out
            && out["id"] == head["id"] && out["address"] == head["address"]
            && out["open_timestamp"] == tail["open_timestamp"] && out["base_token_info"] == info
  {
  }

  function PairRecords(): Json -> Result<Json> {
    pair => PairRecord(pair)
  }

  function NewPairs(backend: Transport, chain: string, period: string, limit: int, minMarketcap: int,
                    minSwaps1h: int, minHolderCount: int, filters: seq<string>, launchpad: string,
                    orderby: string, direction: string): Outcome<seq<Json>> {
    WithPrefix(NewPairsPrefix,
      Then(Fetch(backend, NewPairsPath(chain, period),
                 NewPairsParams(period, limit, minMarketcap, minSwaps1h, minHolderCount, filters,
                                launchpad, orderby, direction)),
           PairsOf))
  }

  /** The formatted pairs of an accepted reply's `data`. */
  function PairsOf(data: Json): Result<seq<Json>> {
    var pairs :- Index(data, "pairs");
    Iterate(pairs, PairRecords(), StrIndexError)
  }

  /** `get_new_pairs`: the formatting loop, proved to produce what
      `NewPairs` specifies. */
  method GetNewPairs(backend: Transport, chain: string, period: string, limit: int, minMarketcap: int,
                     minSwaps1h: int, minHolderCount: int, filters: seq<string>, launchpad: string,
                     orderby: string, direction: string) returns (o: Outcome<seq<Json>>)
    ensures o == NewPairs(backend, chain, period, limit, minMarketcap, minSwaps1h, minHolderCount,
                          filters, launchpad, orderby, direction)
  {
    var params := NewPairsParams(period, limit, minMarketcap, minSwaps1h, minHolderCount, filters,
                                 launchpad, orderby, direction);
    var fetched := Fetch(backend, NewPairsPath(chain, period), params);
    if fetched.result.Err? {
      return Outcome(Err(NewPairsPrefix + fetched.result.msg), fetched.sent);
    }
    var data := Index(fetched.result.value, "pairs");
    if data.Err? {
      return Outcome(Err(NewPairsPrefix + data.msg), fetched.sent);
    }
    var elements := Elements(data.value, StrIndexError);
    if elements.Err? {
      return Outcome(Err(NewPairsPrefix + elements.msg), fetched.sent);
    }
    var pairs := elements.value;
    var formatted := FormatEach(pairs, PairRecords());
    if formatted.Err? {
      return Outcome(Err(NewPairsPrefix + formatted.msg), fetched.sent);
    }
    o := Outcome(Ok(formatted.value), fetched.sent);
  }

  /** One GET to the new-pairs path of the chain and period, carrying the
      filters in order; on success one formatted pair per listed pair. */
  lemma {:induction false} NewPairsShape(backend: Transport, chain: string, period: string, limit: int,
                                         minMarketcap: int, minSwaps1h: int, minHolderCount: int,
                                         filters: seq<string>, launchpad: string, orderby: string,
                                         direction: string, listed: seq<Json>)
    requires var q := NewPairsParams(period, limit, minMarketcap, minSwaps1h, minHolderCount, filters,
                                     launchpad, orderby, direction);
             var data := Fetch(backend, NewPairsPath(chain, period), q).result;
             data.Ok? && data.value.JObj? && "pairs" in data.value.fields
             && data.value.fields["pairs"] == JList(listed)
    ensures var o := NewPairs(backend, chain, period, limit, minMarketcap, minSwaps1h, minHolderCount,
                              filters, launchpad, orderby, direction);
            && |o.sent| == 1 && o.sent[0].url == BaseUrl + NewPairsPath(chain, period)
            && o.sent[0].query["filters[]"].items == seq(|filters|, i requires 0 <= i < |filters| => JStr(filters[i]))
            && (o.result.Ok? <==> forall i :: 0 <= i < |listed| ==> PairRecord(listed[i]).Ok?)
            && (o.result.Ok? ==>
                  |o.result.value| == |listed|
                  && forall i :: 0 <= i < |listed| ==> PairRecord(listed[i]) == Ok(o.result.value[i]))
  {
    var q := NewPairsParams(period, limit, minMarketcap, minSwaps1h, minHolderCount, filters,
                            launchpad, orderby, direction);
    var fetched := Fetch(backend, NewPairsPath(chain, period), q);
    assert fetched.sent == [HttpGet(BaseUrl + NewPairsPath(chain, period), q)];
    assert PairsOf(fetched.result.value) == MapAll(listed, PairRecords());
    assert Then(fetched, PairsOf).result == MapAll(listed, PairRecords());
    MapAllOk(listed, PairRecords());
  }

  // ---------------------------------------------------------------------
  // `get_token_kline`

  function KlineParams(resolution: string, fromTime: int, toTime: int): map<string, Json> {
    map["resolution" := JStr(resolution), "from" := JInt(fromTime), "to" := JInt(toTime)]
  }

  function KlinePath(chain: string, token: string): string {
    "/api/v1/token_kline/" + chain + "/" + token
  }

  /** The candle list, whose length is logged first (so it must have one). */
  function KlineList(data: Json): Result<Json> {
    var candles :- Index(data, "list");
    var _ :- Len(candles);
    Ok(candles)
  }

  function TokenKline(backend: Transport, chain: string, token: string, resolution: string,
                      fromTime: int, toTime: int): Outcome<Json> {
    WithPrefix(KlinePrefix,
      Then(Fetch(backend, KlinePath(chain, token), KlineParams(resolution, fromTime, toTime)), KlineList))
  }

  /** The candles are the reply's `list` entry, which must be a sized value. */
  lemma KlineListIff(data: Json)
    ensures KlineList(data).Ok? <==>
            data.JObj? && "list" in data.fields
            && (data.fields["list"].JList? || data.fields["list"].JStr? || data.fields["list"].JObj?)
    ensures KlineList(data).Ok? ==> KlineList(data).value == data.fields["list"]
    ensures data.JObj? && "list" in data.fields && data.fields["list"] == JNull ==>
              KlineList(data) == Err("object of type 'NoneType' has no len()")
  {
  }

  /** One GET to the token's kline path with the window as query; a reply
      the backend refuses, or whose candles are missing, fails under the
      kline prefix, and a kept reply hands back its `list` unchanged. */
  lemma TokenKlineShape(backend: Transport, chain: string, token: string, resolution: string,
                        fromTime: int, toTime: int)
    ensures var o := TokenKline(backend, chain, token, resolution, fromTime, toTime);
            var req := HttpGet(BaseUrl + KlinePath(chain, token), KlineParams(resolution, fromTime, toTime));
            && o.sent == [req]
            && o.sent[0].query["resolution"] == JStr(resolution)
            && o.sent[0].query["from"] == JInt(fromTime) && o.sent[0].query["to"] == JInt(toTime)
            && (backend(req).Err? ==> o.result == Err(KlinePrefix + backend(req).msg))
            && (o.result.Err? ==> KlinePrefix <= o.result.msg)
            && (o.result.Ok? ==> backend(req).Ok? && Accept(backend(req).value).Ok?
                                 && o.result == KlineList(Accept(backend(req).value).value))
  {
  }

  // ---------------------------------------------------------------------
  // `get_wallet_holdings`

  /** `str(b).lower()` */
  function BoolText(b: bool): string {
    if b then "true" else "false"
  }

  function HoldingsParams(limit: int, orderby: string, direction: string, showsmall: bool, sellout: bool,
                          hideAbnormal: bool): map<string, Json> {
    map["limit" := JInt(limit), "orderby" := JStr(orderby), "direction" := JStr(direction),
        "showsmall" := JStr(BoolText(showsmall)), "sellout" := JStr(BoolText(sellout)),
        "hide_abnormal" := JStr(BoolText(hideAbnormal))]
  }

  function HoldingsPath(chain: string, address: string): string {
    "/api/v1/wallet_holdings/" + chain + "/" + address
  }

  function WalletHoldings(backend: Transport, chain: string, address: string, limit: int, orderby: string,
                          direction: string, showsmall: bool, sellout: bool, hideAbnormal: bool): Outcome<Json> {
    WithPrefix(HoldingsPrefix,
      Then(Fetch(backend, HoldingsPath(chain, address),
                 HoldingsParams(limit, orderby, direction, showsmall, sellout, hideAbnormal)),
           (data: Json) => Index(data, "holdings")))
  }

  /** The three flags travel as "true"/"false", and the holdings are the
      reply's `holdings` entry as it is. */
  lemma WalletHoldingsShape(backend: Transport, chain: string, address: string, limit: int, orderby: string,
                            direction: string, showsmall: bool, sellout: bool, hideAbnormal: bool)
    ensures var o := WalletHoldings(backend, chain, address, limit, orderby, direction, showsmall, sellout,
                                    hideAbnormal);
            && |o.sent| == 1 && o.sent[0].HttpGet?
            && o.sent[0].url == BaseUrl + HoldingsPath(chain, address)
            && (o.sent[0].query["hide_abnormal"] == JStr("true") <==> hideAbnormal)
            && (o.sent[0].query["showsmall"] == JStr("true") <==> showsmall)
            && (o.sent[0].query["sellout"] == JStr("true") <==> sellout)
            && (o.result.Ok? ==>
                  var data := Fetch(backend, HoldingsPath(chain, address),
                                    HoldingsParams(limit, orderby, direction, showsmall, sellout, hideAbnormal)).result;
                  data.Ok? && data.value.JObj? && "holdings" in data.value.fields
                  && o.result.value == data.value.fields["holdings"])
  {
  }

  // ---------------------------------------------------------------------
  // `get_token_security`

  function SecurityPath(chain: string, token: string): string {
    "/api/v1/token_security_" + chain + "/" + chain + "/" + token
  }

  /** Nine keys, each None when the reply lacks it. */
  const SecurityKeys: seq<string> := [
    "address", "is_show_alert", "top_10_holder_rate", "renounced_mint", "renounced_freeze_account",
    "burn_ratio", "burn_status", "dev_token_burn_amount", "dev_token_burn_ratio"
  ]

  function SecurityRecord(data: Json): Result<map<string, Json>> {
    Project(data, Optionals(SecurityKeys))
  }

  function TokenSecurity(backend: Transport, chain: string, token: string): Outcome<map<string, Json>> {
    WithPrefix(SecurityPrefix(token),
      Then(Fetch(backend, SecurityPath(chain, token), map[]), SecurityRecord))
  }

  /** Any dict yields the nine keys, each the reply's value or None; anything
      else has no `get`. */
  lemma SecurityRecordIff(data: Json)
    ensures data.JObj? ==> SecurityRecord(data) == Ok(GetAll(data.fields, SecurityKeys))
    ensures !data.JObj? ==> SecurityRecord(data) == Err(NoAttributeText(TypeName(data), "get"))
  {
    if data.JObj? {
      ProjectOptionals(data.fields, SecurityKeys);
    } else {
      assert Read(data, Optionals(SecurityKeys)[0].source).Err?;
    }
  }

  /** One GET with no query to the path that names the chain twice; a
      failure names the token in its message. */
  lemma TokenSecurityShape(backend: Transport, chain: string, token: string)
    ensures var o := TokenSecurity(backend, chain, token);
            var req := HttpGet(BaseUrl + "/api/v1/token_security_" + chain + "/" + chain + "/" + token, map[]);
            && o.sent == [req]
            && (backend(req).Err? ==> o.result == Err(SecurityPrefix(token) + backend(req).msg))
            && (o.result.Err? ==> "Failed to get token security info for " + token <= o.result.msg)
  {
    var o := TokenSecurity(backend, chain, token);
    assert BaseUrl + SecurityPath(chain, token) == BaseUrl + "/api/v1/token_security_" + chain + "/" + chain + "/" + token;
    if o.result.Err? {
      var p := "Failed to get token security info for " + token;
      assert SecurityPrefix(token) == p + ": ";
      assert o.result.msg == SecurityPrefix(token) + Then(Fetch(backend, SecurityPath(chain, token), map[]), SecurityRecord).result.msg;
      assert o.result.msg[..|p|] == p;
    }
  }
}
