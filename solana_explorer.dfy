/** The Solana explorer client: one JSON-RPC `getMultipleAccounts` POST for
    a single address, a guard that answers None when the reply holds no
    account, and the account's lamports converted to SOL. Exceptions are
    not caught here. */
module SolanaExplorer {
  import opened Json
  import opened Backend

  const BaseUrl: string := "https://explorer-api.mainnet-beta.solana.com/"

  /** What `get_address_balance` returns when there is an account. */
  datatype AccountBalance = AccountBalance(address: string, balance: string)

  // ---------------------------------------------------------------------
  // `get_multiple_accounts`

  /** The JSON-RPC 2.0 request object; the id is the caller's (a fresh
      UUID in the service). */
  function Payload(addresses: seq<string>, requestId: string): Json {
    JObj(map["method" := JStr("getMultipleAccounts"), "jsonrpc" := JStr("2.0"),
             "params" := JList([JList(seq(|addresses|, i requires 0 <= i < |addresses| => JStr(addresses[i]))),
                                JObj(map["encoding" := JStr("jsonParsed"),
                                         "commitment" := JStr("confirmed")])]),
             "id" := JStr(requestId)])
  }

  /** The payload is a request object of section 4 of the JSON-RPC 2.0
      specification: exactly the members `jsonrpc` ("2.0"), `method`,
      `params` and `id` (a string); its params are the addresses, in order,
      and the parsed-encoding, confirmed-commitment options. */
  lemma PayloadIsRequestObject(addresses: seq<string>, requestId: string)
    ensures var p := Payload(addresses, requestId);
            && p.JObj? && p.fields.Keys == {"method", "jsonrpc", "params", "id"}
            && p.fields["jsonrpc"] == JStr("2.0")
            && p.fields["method"] == JStr("getMultipleAccounts")
            && p.fields["id"] == JStr(requestId)
            && p.fields["params"].JList? && |p.fields["params"].items| == 2
            && p.fields["params"].items[1] ==
               JObj(map["encoding" := JStr("jsonParsed"), "commitment" := JStr("confirmed")])
            && var listed := p.fields["params"].items[0];
               && listed.JList? && |listed.items| == |addresses|
               && (forall i :: 0 <= i < |addresses| ==> listed.items[i] == JStr(addresses[i]))
  {
  }

  function MultipleAccounts(backend: Transport, addresses: seq<string>, requestId: string): Outcome<Json> {
    Exchange(backend, HttpPost(BaseUrl, Payload(addresses, requestId)), (reply: Json) => Ok(reply))
  }

  // ---------------------------------------------------------------------
  // `get_address_balance`

  /** The guard and the projection over a reply, in the order Python
      evaluates them: a falsy reply, `result`, `result.value` or
      `value[0]` gives None; a missing `lamports` counts as 0. */
  function Balance(lib: Lib, address: string, data: Json): Result<Option<AccountBalance>> {
    if !Truthy(data) then Ok(None)
    else
      var result :- Get(data, "result", JNull);
      if !Truthy(result) then Ok(None)
      else
        var value :- Get(result, "value", JNull);
        if !Truthy(value) then Ok(None)
        else
          var account :- IndexZero(value);
          if !Truthy(account) then Ok(None)
          else
            var lamports :- Get(account, "lamports", JInt(0));
            var balance :- lib.lamportsToSol(lamports);
            Ok(Some(AccountBalance(address, balance)))
  }

  function AddressBalance(backend: Transport, lib: Lib, address: string, requestId: string)
    : Outcome<Option<AccountBalance>>
  {
    Then(MultipleAccounts(backend, [address], requestId), (data: Json) => Balance(lib, address, data))
  }

  /** Exactly one POST, asking for the one address. */
  lemma AddressBalanceQueriesOne(backend: Transport, lib: Lib, address: string, requestId: string)
    ensures AddressBalance(backend, lib, address, requestId).sent == [HttpPost(BaseUrl, Payload([address], requestId))]
    ensures var listed := Payload([address], requestId).fields["params"].items[0];
            listed == JList([JStr(address)])
  {
    assert seq(1, i requires 0 <= i < 1 => JStr([address][i])) == [JStr(address)];
  }

  /** The ways a reply holds no account: a falsy reply, a falsy or absent
      `result` (None, an empty dict), a falsy or absent `result.value`
      (None, an empty list) or a falsy first account each give None. */
  lemma BalanceNone(lib: Lib, address: string, data: Json)
    ensures !Truthy(data) ==> Balance(lib, address, data) == Ok(None)
    ensures data.JObj? ==>
              var result := if "result" in data.fields then data.fields["result"] else JNull;
              !Truthy(result) ==> Balance(lib, address, data) == Ok(None)
    ensures data.JObj? && "result" in data.fields && data.fields["result"].JObj? ==>
              var r := data.fields["result"].fields;
              var value := if "value" in r then r["value"] else JNull;
              !Truthy(value) ==> Balance(lib, address, data) == Ok(None)
    ensures (data.JObj? && Truthy(data) && "result" in data.fields && data.fields["result"].JObj?
             && Truthy(data.fields["result"]) && "value" in data.fields["result"].fields
             && data.fields["result"].fields["value"].JList?
             && |data.fields["result"].fields["value"].items| > 0
             && !Truthy(data.fields["result"].fields["value"].items[0]))
            ==> Balance(lib, address, data) == Ok(None)
  {
  }

  /** An account is returned only from a reply whose `result.value` is a
      list with a dict first; it carries the queried address and the
      account's lamports (0 when absent) converted to SOL. */
  lemma BalanceFound(lib: Lib, address: string, data: Json)
    requires Balance(lib, address, data).Ok? && Balance(lib, address, data).value.Some?
    ensures data.JObj? && "result" in data.fields
    ensures var result := data.fields["result"];
            && result.JObj? && "value" in result.fields
            && result.fields["value"].JList? && |result.fields["value"].items| > 0
            && var account := result.fields["value"].items[0];
               && account.JObj? && account.fields != map[]
               && var lamports := if "lamports" in account.fields then account.fields["lamports"] else JInt(0);
                  && lib.lamportsToSol(lamports).Ok?
                  && Balance(lib, address, data).value.value ==
                     AccountBalance(address, lib.lamportsToSol(lamports).value)
  {
  }
}
