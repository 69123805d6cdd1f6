/** The Etherscan client: one GET endpoint with the API key added to every
    query, a status check on the reply, and the six operations the server
    uses. Every operation turns any exception into one with an
    operation-specific prefix. */
module Etherscan {
  import opened Json
  import opened Backend
  import opened Projection

  const BaseUrl: string := "https://api.etherscan.io/api"
  const InvalidAddress: string := "Invalid Ethereum address format"
  const FetchFailed: string := "Failed to fetch data from Etherscan"

  const BalancePrefix: string := "Failed to get address balance: "
  const HistoryPrefix: string := "Failed to get transaction history: "
  const TransfersPrefix: string := "Failed to get token transfers: "
  const AbiPrefix: string := "Failed to get contract ABI: "
  const GasPrefix: string := "Failed to get gas prices: "
  const EnsPrefix: string := "Failed to get ENS name: "

  /** The exception `x.get(..)` raises when a transaction record is a string. */
  const StrGetError: string := NoAttributeText("str", "get")

  // ---------------------------------------------------------------------
  // `_make_request`

  /** The reply check of `_make_request`: the status must be the string "1"
      and the result truthy; otherwise the reply's message, or a fixed text
      when it has none, becomes the exception. */
  function Accept(data: Json): Result<Json> {
    var status :- Index(data, "status");
    var result :- if status != JStr("1") then Ok(JNull) else Get(data, "result", JNull);
    if status != JStr("1") || !Truthy(result) then
      var message :- Get(data, "message", JNull);
      Err(if Truthy(message) then Show(message) else FetchFailed)
    else Index(data, "result")
  }

  /** The exchange `_make_request` performs for a parameter dict: the dict
      with the API key written into it is sent as the query. */
  function Fetch(backend: Transport, apiKey: string, params: map<string, Json>): Outcome<Json> {
    Exchange(backend, HttpGet(BaseUrl, params["apikey" := JStr(apiKey)]), Accept)
  }

  /** A reply is accepted exactly when it is a dict whose status is "1" and
      whose result is truthy, and then the result is handed on unchanged;
      a rejected reply fails with its message as `str` renders it, or with
      the fixed text when the message is absent or falsy. */
  lemma AcceptIff(data: Json)
    ensures Accept(data).Ok? <==>
            data.JObj? && "status" in data.fields && data.fields["status"] == JStr("1")
            && "result" in data.fields && Truthy(data.fields["result"])
    ensures Accept(data).Ok? ==> Accept(data).value == data.fields["result"] && Truthy(Accept(data).value)
    ensures data.JObj? && "status" in data.fields ==>
              var result := if "result" in data.fields then data.fields["result"] else JNull;
              var message := if "message" in data.fields then data.fields["message"] else JNull;
              (data.fields["status"] != JStr("1") || !Truthy(result)) ==>
                Accept(data) == Err(if Truthy(message) then Show(message) else FetchFailed)
  {
  }

  /** The parameter dict the service passes to `_make_request`, which writes
      the API key into it. */
  class QueryParams {
    var entries: map<string, Json>

    constructor(entries: map<string, Json>)
      ensures this.entries == entries
    {
      this.entries := entries;
    }
  }

  /** The service object: its API key, the address checks and unit
      conversions of its web3 instance, and the remote side. */
  class EtherscanService {
    const apiKey: string
    const lib: Lib
    const backend: Transport

    constructor(apiKey: string, lib: Lib, backend: Transport)
      ensures this.apiKey == apiKey && this.lib == lib && this.backend == backend
    {
      this.apiKey := apiKey;
      this.lib := lib;
      this.backend := backend;
    }

    /** `_make_request(params)`: stores the key in the caller's dict, then
        sends that dict. */
    method MakeRequest(params: QueryParams) returns (o: Outcome<Json>)
      modifies params
      ensures params.entries == old(params.entries)["apikey" := JStr(apiKey)]
      ensures o == Fetch(backend, apiKey, old(params.entries))
    {
      params.entries := params.entries["apikey" := JStr(apiKey)];
      o := Exchange(backend, HttpGet(BaseUrl, params.entries), Accept);
    }

    /** `get_transaction_history`: the request and the transaction loop, proved to
        produce what `TransactionHistory` specifies. */
    method GetTransactionHistory(address: string, startblock: Option<int>, endblock: Option<int>,
                                 page: Option<int>, offset: Option<int>, sort: Option<string>)
      returns (o: Outcome<seq<Transaction>>)
      ensures o == TransactionHistory(lib, backend, apiKey, address, startblock, endblock, page, offset, sort)
    {
      if !lib.isAddress(address) {
        return Outcome(Err(HistoryPrefix + InvalidAddress), []);
      }
      var params := new QueryParams(TxListParams(address, startblock, endblock, page, offset, sort));
      var fetched := MakeRequest(params);
      if fetched.result.Err? {
        return Outcome(Err(HistoryPrefix + fetched.result.msg), fetched.sent);
      }
      var elements := Elements(fetched.result.value, StrGetError);
      if elements.Err? {
        return Outcome(Err(HistoryPrefix + elements.msg), fetched.sent);
      }
      var txs := elements.value;
      var formatted := FormatEach(txs, TxRecords(lib));
      if formatted.Err? {
        return Outcome(Err(HistoryPrefix + formatted.msg), fetched.sent);
      }
      o := Outcome(Ok(formatted.value), fetched.sent);
    }
  }

  // ---------------------------------------------------------------------
  // The operations.

  /** `get_address_balance`: the reply's result, read with `int(..)` and
      converted from wei, as the ether balance of the address. */
  datatype Balance = Balance(address: string, balanceInEth: string)

  function BalanceParams(address: string): map<string, Json> {
    map["module" := JStr("account"), "action" := JStr("balance"), "address" := JStr(address),
        "tag" := JStr("latest")]
  }

  function AddressBalance(lib: Lib, backend: Transport, apiKey: string, address: string): Outcome<Balance> {
    WithPrefix(BalancePrefix,
      if !lib.isAddress(address) then Outcome(Err(InvalidAddress), [])
      else Then(Fetch(backend, apiKey, BalanceParams(address)),
                (wei: Json) =>
                  var n :- PyInt(wei);
                  var eth :- lib.fromWei(n);
                  Ok(Balance(address, eth))))
  }

  /** A balance query checks the address before sending anything; when the
      reply carries a balance in decimal text, the ether amount is the
      conversion of exactly that number. */
  lemma {:induction false} AddressBalanceReadsDecimal(lib: Lib, backend: Transport, apiKey: string,
                                                      address: string, wei: int)
    requires lib.isAddress(address)
    requires var reply := backend(HttpGet(BaseUrl, BalanceParams(address)["apikey" := JStr(apiKey)]));
             && reply.Ok? && reply.value.JObj?
             && "status" in reply.value.fields && reply.value.fields["status"] == JStr("1")
             && "result" in reply.value.fields && reply.value.fields["result"] == JStr(IntToDecimal(wei))
    requires lib.fromWei(wei).Ok?
    ensures AddressBalance(lib, backend, apiKey, address)
            == Outcome(Ok(Balance(address, lib.fromWei(wei).value)),
                       [HttpGet(BaseUrl, BalanceParams(address)["apikey" := JStr(apiKey)])])
  {
    ParseIntOfDecimal(wei);
    NatToDecimalDigits(if wei < 0 then -wei else wei);
    assert IntToDecimal(wei) != "";
  }

  /** An address the web3 check rejects fails every address operation
      without a request. */
  lemma InvalidAddressSendsNothing(lib: Lib, backend: Transport, apiKey: string, address: string)
    requires !lib.isAddress(address)
    ensures AddressBalance(lib, backend, apiKey, address) == Outcome(Err(BalancePrefix + InvalidAddress), [])
    ensures TokenTransfers(lib, backend, apiKey, address, None) == Outcome(Err(TransfersPrefix + InvalidAddress), [])
    ensures ContractAbi(lib, backend, apiKey, address) == Outcome(Err(AbiPrefix + InvalidAddress), [])
    ensures EnsName(lib, address) == Outcome(Err(EnsPrefix + InvalidAddress), [])
  {
  }

  /** `str(x)` of an optional integer argument. */
  function OptText(n: Option<int>): string {
    match n
    case None => "None"
    case Some(k) => IntToDecimal(k)
  }

  function TxListParams(address: string, startblock: Option<int>, endblock: Option<int>,
                        page: Option<int>, offset: Option<int>, sort: Option<string>): map<string, Json> {
    map["chainid" := JStr("1"), "module" := JStr("account"), "action" := JStr("txlist"),
        "address" := JStr(address),
        "startblock" := JStr(OptText(startblock)), "endblock" := JStr(OptText(endblock)),
        "page" := JStr(OptText(page)), "offset" := JStr(OptText(offset)),
        "sort" := (match sort case None => JNull case Some(s) => JStr(s))]
  }

  /** The numeric arguments travel as decimal text that reads back as the
      same numbers. */
  lemma TxListParamsRoundTrip(address: string, startblock: int, endblock: int, page: int, offset: int,
                              sort: Option<string>)
    ensures var q := TxListParams(address, Some(startblock), Some(endblock), Some(page), Some(offset), sort);
            && ParseInt(q["startblock"].s) == Ok(startblock) && ParseInt(q["endblock"].s) == Ok(endblock)
            && ParseInt(q["page"].s) == Ok(page) && ParseInt(q["offset"].s) == Ok(offset)
  {
    ParseIntOfDecimal(startblock);
    ParseIntOfDecimal(endblock);
    ParseIntOfDecimal(page);
    ParseIntOfDecimal(offset);
  }

  /** One formatted transaction: five fields read with `.get` (None when
      absent) and the value converted from wei. */
  datatype Transaction = Transaction(blockNumber: Json, timestamp: Json, hash: Json,
                                     from: Json, to: Json, value: string)

  function TxRecord(lib: Lib, tx: Json): Result<Transaction> {
    var blockNumber :- Get(tx, "blockNumber", JNull);
    var timestamp :- Get(tx, "timeStamp", JNull);
    var hash :- Get(tx, "hash", JNull);
    var from :- Get(tx, "from", JNull);
    var to :- Get(tx, "to", JNull);
    var raw :- Get(tx, "value", JStr("0"));
    var wei :- PyInt(raw);
    var value :- lib.fromWei(wei);
    Ok(Transaction(blockNumber, timestamp, hash, from, to, value))
  }

  function TxRecords(lib: Lib): Json -> Result<Transaction> {
    tx => TxRecord(lib, tx)
  }

  /** A string record fails with one text whatever it holds. */
  lemma TxRecordOfString(lib: Lib, s: string)
    ensures TxRecord(lib, JStr(s)) == Err(StrGetError)
  {
  }

  /** A record without a value counts as zero wei. */
  lemma TxRecordDefaultValue(lib: Lib, m: map<string, Json>)
    requires "value" !in m
    requires lib.fromWei(0).Ok?
    ensures TxRecord(lib, JObj(m)).Ok?
    ensures TxRecord(lib, JObj(m)).value.value == lib.fromWei(0).value
  {
    assert PyInt(JStr("0")) == Ok(0) by {
      assert "0"[..0] == [];
      assert DigitsValue("0") == 0;
    }
  }

  /** A formatted record carries the record's five fields, None where absent. */
  lemma TxRecordFields(lib: Lib, m: map<string, Json>)
    requires TxRecord(lib, JObj(m)).Ok?
    ensures var t := TxRecord(lib, JObj(m)).value;
            && t.blockNumber == (if "blockNumber" in m then m["blockNumber"] else JNull)
            && t.timestamp == (if "timeStamp" in m then m["timeStamp"] else JNull)
            && t.hash == (if "hash" in m then m["hash"] else JNull)
            && t.from == (if "from" in m then m["from"] else JNull)
            && t.to == (if "to" in m then m["to"] else JNull)
  {
  }

  function TransactionHistory(lib: Lib, backend: Transport, apiKey: string, address: string,
                              startblock: Option<int>, endblock: Option<int>, page: Option<int>,
                              offset: Option<int>, sort: Option<string>): Outcome<seq<Transaction>> {
    WithPrefix(HistoryPrefix,
      if !lib.isAddress(address) then Outcome(Err(InvalidAddress), [])
      else Then(Fetch(backend, apiKey, TxListParams(address, startblock, endblock, page, offset, sort)),
                (txs: Json) => Iterate(txs, TxRecords(lib), StrGetError)))
  }

  /** A transaction list reply yields one formatted transaction per record,
      in order, each the formatting of its record; one bad record fails the
      whole call with that record's exception. */
  lemma {:induction false} TransactionHistoryRecords(lib: Lib, backend: Transport, apiKey: string,
                                                     address: string, startblock: Option<int>,
                                                     endblock: Option<int>, page: Option<int>,
                                                     offset: Option<int>, sort: Option<string>,
                                                     records: seq<Json>)
    requires lib.isAddress(address)
    requires Fetch(backend, apiKey, TxListParams(address, startblock, endblock, page, offset, sort)).result
             == Ok(JList(records))
    ensures var o := TransactionHistory(lib, backend, apiKey, address, startblock, endblock, page, offset, sort);
            && (o.result.Ok? <==> forall i :: 0 <= i < |records| ==> TxRecord(lib, records[i]).Ok?)
            && (o.result.Ok? ==>
                  |o.result.value| == |records|
                  && forall i :: 0 <= i < |records| ==> TxRecord(lib, records[i]) == Ok(o.result.value[i]))
  {
    MapAllOk(records, TxRecords(lib));
  }

  /** An accepted transaction history is never empty: the reply check
      refuses a falsy result, and a truthy result either yields at least
      one record or fails. */
  lemma TransactionHistoryNonEmpty(lib: Lib, backend: Transport, apiKey: string, address: string,
                                   startblock: Option<int>, endblock: Option<int>, page: Option<int>,
                                   offset: Option<int>, sort: Option<string>)
    ensures var o := TransactionHistory(lib, backend, apiKey, address, startblock, endblock, page, offset, sort);
            o.result.Ok? ==> o.result.value != []
  {
    var fetched := Fetch(backend, apiKey, TxListParams(address, startblock, endblock, page, offset, sort));
    if lib.isAddress(address) && fetched.result.Ok? {
      var txs := fetched.result.value;
      var req := HttpGet(BaseUrl, TxListParams(address, startblock, endblock, page, offset, sort)["apikey" := JStr(apiKey)]);
      assert backend(req).Ok? && Accept(backend(req).value) == Ok(txs);
      AcceptIff(backend(req).value);
      var elements := Elements(txs, StrGetError);
      if elements.Ok? {
        MapAllOk(elements.value, TxRecords(lib));
      }
    }
  }

  function TransferParams(address: string, limit: Option<int>): map<string, Json> {
    map["module" := JStr("account"), "action" := JStr("tokentx"), "address" := JStr(address),
        "sort" := JStr("desc"), "page" := JInt(1),
        "offset" := JInt(match limit case Some(n) => if n != 0 then n else 10 case None => 10)]
  }

  /** `get_token_transfers`: the reply's result as it is. */
  function TokenTransfers(lib: Lib, backend: Transport, apiKey: string, address: string,
                          limit: Option<int>): Outcome<Json> {
    WithPrefix(TransfersPrefix,
      if !lib.isAddress(address) then Outcome(Err(InvalidAddress), [])
      else Fetch(backend, apiKey, TransferParams(address, limit)))
  }

  /** `offset` is `limit or 10`: an absent or zero limit asks for 10
      transfers, any other limit for exactly that many; the result is the
      accepted reply untouched. */
  lemma TokenTransfersOffset(lib: Lib, backend: Transport, apiKey: string, address: string, limit: Option<int>)
    requires lib.isAddress(address)
    ensures var o := TokenTransfers(lib, backend, apiKey, address, limit);
            && |o.sent| == 1 && o.sent[0].HttpGet? && o.sent[0].query["page"] == JInt(1)
            && o.sent[0].query["offset"] == JInt(if limit.Some? && limit.value != 0 then limit.value else 10)
            && (o.result.Ok? ==> backend(o.sent[0]).Ok? && o.result.value == backend(o.sent[0]).value.fields["result"])
  {
    var reply := backend(HttpGet(BaseUrl, TransferParams(address, limit)["apikey" := JStr(apiKey)]));
    if reply.Ok? {
      AcceptIff(reply.value);
    }
  }

  /** `get_contract_abi`: the result text decoded as JSON. */
  datatype ContractAbiReply = ContractAbiReply(address: string, abi: Json)

  function AbiParams(address: string): map<string, Json> {
    map["chainid" := JStr("1"), "module" := JStr("contract"), "action" := JStr("getabi"),
        "address" := JStr(address)]
  }

  function ContractAbi(lib: Lib, backend: Transport, apiKey: string, address: string): Outcome<ContractAbiReply> {
    WithPrefix(AbiPrefix,
      if !lib.isAddress(address) then Outcome(Err(InvalidAddress), [])
      else Then(Fetch(backend, apiKey, AbiParams(address)),
                (text: Json) => var abi :- lib.jsonLoads(text); Ok(ContractAbiReply(address, abi))))
  }

  /** The ABI handed back is the decoding of the accepted result, and the
      address is the one asked about. */
  lemma ContractAbiDecodes(lib: Lib, backend: Transport, apiKey: string, address: string)
    ensures var o := ContractAbi(lib, backend, apiKey, address);
            o.result.Ok? ==>
              && o.result.value.address == address
              && Fetch(backend, apiKey, AbiParams(address)).result.Ok?
              && lib.jsonLoads(Fetch(backend, apiKey, AbiParams(address)).result.value) == Ok(o.result.value.abi)
  {
  }

  /** `get_gas_oracle`: three prices read by key from the result. */
  datatype GasPrices = GasPrices(safeGwei: Json, proposeGwei: Json, fastGwei: Json)

  const GasParams: map<string, Json> := map["module" := JStr("gastracker"), "action" := JStr("gasoracle")]

  function GasRecord(gas: Json): Result<GasPrices> {
    var safe :- Index(gas, "SafeGasPrice");
    var propose :- Index(gas, "ProposeGasPrice");
    var fast :- Index(gas, "FastGasPrice");
    Ok(GasPrices(safe, propose, fast))
  }

  function GasOracle(backend: Transport, apiKey: string): Outcome<GasPrices> {
    WithPrefix(GasPrefix, Then(Fetch(backend, apiKey, GasParams), GasRecord))
  }

  /** The gas reply succeeds exactly when the result is a dict with all three
      prices; the first missing price is named in the error. */
  lemma GasRecordIff(gas: Json)
    ensures GasRecord(gas).Ok? <==>
            gas.JObj? && "SafeGasPrice" in gas.fields && "ProposeGasPrice" in gas.fields
            && "FastGasPrice" in gas.fields
    ensures GasRecord(gas).Ok? ==>
              GasRecord(gas).value == GasPrices(gas.fields["SafeGasPrice"], gas.fields["ProposeGasPrice"],
                                                gas.fields["FastGasPrice"])
    ensures gas.JObj? && "SafeGasPrice" !in gas.fields ==> GasRecord(gas) == Err("'SafeGasPrice'")
  {
  }

  /** `get_ens_name`: after the address check, always None. */
  function EnsName(lib: Lib, address: string): Outcome<Option<string>> {
    WithPrefix(EnsPrefix,
      if !lib.isAddress(address) then Outcome(Err(InvalidAddress), []) else Outcome(Ok(None), []))
  }

  /** No ENS lookup is ever made: a valid address gets None without a request. */
  lemma EnsNameNeverResolves(lib: Lib, address: string)
    ensures EnsName(lib, address).sent == []
    ensures EnsName(lib, address).result.Ok? <==> lib.isAddress(address)
    ensures EnsName(lib, address).result.Ok? ==> EnsName(lib, address).result.value == None
  {
  }
}
