/** The Solscan client: one GET for an account's transfers, a reply check on
    the `success` field, and a renaming of every transfer record. Every
    failure is re-raised under one prefix. */
module Solscan {
  import opened Json
  import opened Backend
  import opened Projection

  const BaseUrl: string := "https://pro-api.solscan.io"
  const TransferPath: string := "/v2.0/account/transfer"
  const FetchFailed: string := "Failed to fetch data from Solscan"
  const TransfersPrefix: string := "Failed to get account transfers: "

  /** The exception `x["k"]` raises when a transfer record is a string. */
  const StrIndexError: string := StrSubscriptError(JStr(""))

  // ---------------------------------------------------------------------
  // `_make_request`

  /** `not data.get("success")` rejects the reply with its `message` when
      that is truthy (a text that is not a string has no `encode`), or with
      a fixed text; an accepted reply hands on `data["data"]`. */
  function Accept(data: Json): Result<Json> {
    var success :- Get(data, "success", JNull);
    if !Truthy(success) then
      var message :- Get(data, "message", JNull);
      if !Truthy(message) then Err(FetchFailed)
      else if message.JStr? then Err(message.s)
      else Err(NoAttributeText(TypeName(message), "encode"))
    else Index(data, "data")
  }

  function Fetch(backend: Transport, endpoint: string, params: map<string, Json>): Outcome<Json> {
    Exchange(backend, HttpGet(BaseUrl + endpoint, params), Accept)
  }

  /** A reply is accepted exactly when it is a dict with a truthy
      `success` and a `data` entry, which is handed on; a rejected dict
      fails with its text `message`, or with the fixed text when the
      message is absent or falsy. */
  lemma AcceptIff(data: Json)
    ensures Accept(data).Ok? <==>
            data.JObj? && "success" in data.fields && Truthy(data.fields["success"])
            && "data" in data.fields
    ensures Accept(data).Ok? ==> Accept(data).value == data.fields["data"]
    ensures data.JObj? && !(("success" in data.fields) && Truthy(data.fields["success"])) ==>
              Accept(data) ==
              var m := data.fields;
              if "message" !in m || !Truthy(m["message"]) then Err(FetchFailed)
              else if m["message"].JStr? then Err(m["message"].s)
              else Err(NoAttributeText(TypeName(m["message"]), "encode"))
  {
  }

  // ---------------------------------------------------------------------
  // `get_account_transfers`

  function TransferParams(address: string, page: int, pageSize: int, sortBy: string, sortOrder: string)
    : map<string, Json>
  {
    map["address" := JStr(address), "page" := JInt(page), "page_size" := JInt(pageSize),
        "sort_by" := JStr(sortBy), "sort_order" := JStr(sortOrder)]
  }

  /** The caller's five arguments are sent unchanged under their own names. */
  lemma TransferParamsValues(address: string, page: int, pageSize: int, sortBy: string, sortOrder: string)
    ensures var p := TransferParams(address, page, pageSize, sortBy, sortOrder);
            && p.Keys == {"address", "page", "page_size", "sort_by", "sort_order"}
            && p["address"] == JStr(address) && p["page"] == JInt(page)
            && p["page_size"] == JInt(pageSize) && p["sort_by"] == JStr(sortBy)
            && p["sort_order"] == JStr(sortOrder)
  {
  }

  /** The formatted transfer: eleven entries, each the required value of
      one reply key, nine of them renamed. */
  const TransferFields: seq<Field> := [
    Field("block_id", Required("block_id")),
    Field("transaction_id", Required("trans_id")),
    Field("timestamp", Required("block_time")),
    Field("datetime", Required("time")),
    Field("type", Required("activity_type")),
    Field("from", Required("from_address")),
    Field("to", Required("to_address")),
    Field("token", Required("token_address")),
    Field("decimals", Required("token_decimals")),
    Field("amount", Required("amount")),
    Field("direction", Required("flow"))
  ]

  function TransferRecord(transfer: Json): Result<Json> {
    var out :- Project(transfer, TransferFields);
    Ok(JObj(out))
  }

  function TransferRecords(): Json -> Result<Json> {
    transfer => TransferRecord(transfer)
  }

  lemma TransferRecordOfString(s: string)
    ensures TransferRecord(JStr(s)) == Err(StrIndexError)
  {
  }

  lemma TransferFieldsDistinct()
    ensures DistinctNames(TransferFields)
    ensures forall i :: 0 <= i < |TransferFields| ==> TransferFields[i].source.Required?
  {
  }

  lemma TransferFieldsRequired()
    ensures RequiredKeys(TransferFields) ==
            {"block_id", "trans_id", "block_time", "time", "activity_type", "from_address",
             "to_address", "token_address", "token_decimals", "amount", "flow"}
  {
    assert TransferFields[0].source.key == "block_id" && TransferFields[1].source.key == "trans_id";
    assert TransferFields[2].source.key == "block_time" && TransferFields[3].source.key == "time";
    assert TransferFields[4].source.key == "activity_type" && TransferFields[5].source.key == "from_address";
    assert TransferFields[6].source.key == "to_address" && TransferFields[7].source.key == "token_address";
    assert TransferFields[8].source.key == "token_decimals" && TransferFields[9].source.key == "amount";
    assert TransferFields[10].source.key == "flow";
  }

  /** A transfer is formatted exactly when it is a dict with all eleven
      reply keys. */
  lemma TransferRecordOkIff(transfer: Json)
    ensures TransferRecord(transfer).Ok? <==>
            transfer.JObj?
            && {"block_id", "trans_id", "block_time", "time", "activity_type", "from_address",
                "to_address", "token_address", "token_decimals", "amount", "flow"} <= transfer.fields.Keys
  {
    if transfer.JObj? {
      ProjectOkOnDict(transfer.fields, TransferFields);
      TransferFieldsRequired();
    }
  }

  /** Every entry of a formatted transfer is the value of its reply key:
      `transaction_id` from `trans_id`, `timestamp` from `block_time`,
      `datetime` from `time`, `type` from `activity_type`, `from` from
      `from_address`, `to` from `to_address`, `token` from
      `token_address`, `decimals` from `token_decimals`, `direction` from
      `flow`, and `block_id` and `amount` as they are. */
  lemma TransferRecordRenames(transfer: Json)
    requires TransferRecord(transfer).Ok?
    ensures transfer.JObj?
    ensures TransferRecord(transfer).value.fields.Keys == Names(TransferFields)
    ensures forall i :: 0 <= i < |TransferFields| ==>
              var f := TransferFields[i];
              f.source.key in transfer.fields
              && TransferRecord(transfer).value.fields[f.name] == transfer.fields[f.source.key]
  {
    TransferFieldsDistinct();
    ProjectAll(transfer, TransferFields);
    ProjectKeys(transfer, TransferFields);
  }

  function AccountTransfers(backend: Transport, address: string, page: int, pageSize: int,
                            sortBy: string, sortOrder: string): Outcome<seq<Json>>
  {
    WithPrefix(TransfersPrefix,
      Then(Fetch(backend, TransferPath, TransferParams(address, page, pageSize, sortBy, sortOrder)),
           (data: Json) => Iterate(data, TransferRecords(), StrIndexError)))
  }

  /** `get_account_transfers`: the formatting loop, proved to produce what
      `AccountTransfers` specifies. */
  method GetAccountTransfers(backend: Transport, address: string, page: int, pageSize: int,
                             sortBy: string, sortOrder: string) returns (o: Outcome<seq<Json>>)
    ensures o == AccountTransfers(backend, address, page, pageSize, sortBy, sortOrder)
  {
    var params := TransferParams(address, page, pageSize, sortBy, sortOrder);
    var fetched := Fetch(backend, TransferPath, params);
    if fetched.result.Err? {
      return Outcome(Err(TransfersPrefix + fetched.result.msg), fetched.sent);
    }
    var elements := Elements(fetched.result.value, StrIndexError);
    if elements.Err? {
      return Outcome(Err(TransfersPrefix + elements.msg), fetched.sent);
    }
    var transfers := elements.value;
    var formatted := FormatEach(transfers, TransferRecords());
    if formatted.Err? {
      return Outcome(Err(TransfersPrefix + formatted.msg), fetched.sent);
    }
    o := Outcome(Ok(formatted.value), fetched.sent);
  }

  /** One GET to the transfer path; a successful reply whose data is a
      list gives one formatted transfer per record, in order; every
      failure carries the prefix. */
  lemma {:induction false} AccountTransfersShape(backend: Transport, address: string, page: int,
                                                 pageSize: int, sortBy: string, sortOrder: string,
                                                 listed: seq<Json>)
    requires var q := TransferParams(address, page, pageSize, sortBy, sortOrder);
             Fetch(backend, TransferPath, q).result == Ok(JList(listed))
    ensures var o := AccountTransfers(backend, address, page, pageSize, sortBy, sortOrder);
            && o.sent == [HttpGet(BaseUrl + TransferPath, TransferParams(address, page, pageSize, sortBy, sortOrder))]
            && (o.result.Ok? <==> forall i :: 0 <= i < |listed| ==> TransferRecord(listed[i]).Ok?)
            && (o.result.Ok? ==>
                  |o.result.value| == |listed|
                  && forall i :: 0 <= i < |listed| ==> TransferRecord(listed[i]) == Ok(o.result.value[i]))
            && (o.result.Err? ==> TransfersPrefix <= o.result.msg)
  {
    MapAllOk(listed, TransferRecords());
  }
}
