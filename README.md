# MultiChains DarpServer — a verified model of its tool server and data services

DarpServer is an MCP (Model Context Protocol) server. It offers on-chain
data tools for Ethereum and Solana: balances, transaction and transfer
histories, contract ABIs, gas prices, new and hot trading pairs, candles,
wallet holdings and token security. Each tool call is validated against a
pydantic input model, then handed to one of five service clients:

- Etherscan;
- GMGN;
- Ave.ai;
- Solscan;
- the Solana JSON-RPC explorer.

The client's answer is rendered as text.

This project models that core in Dafny:

- **Json** (`json.dfy`): the JSON values the services receive, and the
  Python operations they apply: truth value, `d[k]`, `d.get(k, d)`,
  `int(x)`, `str(x)`, `len(x)` and `sep.join(xs)`. Each exception is kept as
  the text `str(e)` gives, with the differences listed under "Left out".
- **Backend** (`backend.dfy`): the remote side is a function from request
  to decoded reply. Every operation returns its result together with the
  requests it sent, so "nothing is sent" is a provable statement. Library
  behaviour the model does not open up (web3, json, datetime, float
  formatting) is a record of functions.
- **Projection** (`projection.dfy`): the dict literals the services build
  from reply records, and the `for x in xs: out.append(f(x))` loop that
  formats every record of a reply.
- **Inputs** (`inputs.dfy`): the server's input models, with their types,
  defaults, bounds and the Ethereum address pattern.
- **Etherscan**, **Gmgn**, **Aveai**, **Solscan**, **SolanaExplorer**: the
  requests each client sends, its reply check, its record formatting and
  its error prefixes. The formatting loops are methods proved to compute
  the specification functions.
- **Server** (`server.dfy`): the tool catalogue, the routing in
  `call_tool`, and every handler's validation, service call and rendering.

## Model

| member | source | states |
|---|---|---|
| Json.ParseIntOfDecimal | src/services/etherscan_service.py:69-79 | `int(str(n)) == n` for every integer: the decimal text sent for a number reads back as that number |
| Json.JoinContains | src/server.py:384-399 | every element of `sep.join(xs)` appears whole, in order, at its computed offset |
| Json.JoinStartsWithFirst | src/server.py:384-399 | a join of non-empty texts is non-empty and starts with the first text |
| Backend.Exchange | src/services/etherscan_service.py:12-24 | one request is sent; a transport failure becomes the operation's exception |
| Backend.Then | src/services/etherscan_service.py:26-53 | the continuation runs only on success, sends nothing more, and a failure passes through unchanged |
| Backend.WithPrefix | src/services/etherscan_service.py:51-53 | the requests sent are unchanged, success is unchanged, and a failure's text is the prefix followed by the original text |
| Projection.ProjectKeys | src/services/solscan_nokey_service.py:90-102 | a formatted record's keys are exactly the names of the literal's entries |
| Projection.ProjectOkIff | src/services/solscan_nokey_service.py:90-102 | a record literal evaluates exactly when every one of its entries can be read |
| Projection.ProjectOkOnDict | src/services/solscan_nokey_service.py:90-102 | over a dict, the literal evaluates exactly when every key read with `src["k"]` is present |
| Projection.ProjectMissingKey | src/services/solscan_nokey_service.py:90-102 | over a dict, a failing literal raises the KeyError of its first missing required key |
| Projection.ProjectAppend | src/services/gmgnscan_service.py:241-281 | a literal written in two parts evaluates part by part, the later part overriding shared names |
| Projection.ProjectOptionals | src/services/gmgnscan_service.py:448-459 | a table of `.get` entries never fails on a dict and gives None for every absent key |
| Projection.ProjectAt | src/services/solscan_nokey_service.py:90-102 | an entry no later entry overrides carries the value its source reads |
| Projection.ProjectAll | src/services/solscan_nokey_service.py:90-102 | with no repeated name, every entry carries the value its source reads |
| Projection.ProjectFirstError | src/services/solscan_nokey_service.py:90-102 | a failing literal fails with the exception of its first unreadable entry |
| Projection.MapAllOk | src/services/solscan_nokey_service.py:88-118 | the formatting loop yields one record per input record, in order, each the record function's result; it fails exactly when some record fails |
| Projection.MapAllFirstError | src/services/solscan_nokey_service.py:88-118 | a failed loop fails with the exception of the first failing record |
| Projection.MapAllAppend | src/services/solscan_nokey_service.py:88-118 | one more loop iteration appends the next formatted record |
| Projection.MapAllPrefixError | src/services/solscan_nokey_service.py:88-118 | an exception within a prefix of the records ends the whole loop with that exception |
| Projection.FormatEach | src/services/solscan_nokey_service.py:88-118 | the `for`/`append` loop ends with exactly what `MapAll` specifies |
| Projection.DictIterationAnyOrder | src/services/aveai_service.py:186-187 | iterating a non-empty dict's keys, in any order, ends with the same exception a record function raises on a string |
| Inputs.AddressPatternAgrees | src/server.py:59 | `^0x[a-fA-F0-9]{40}$` matches exactly the 42-character strings of `0x` followed by 40 hex digits |
| Inputs.EthAddressAccepted | src/server.py:58-78 | the four Ethereum address models accept exactly a pattern-matching string `address` and keep it unchanged |
| Inputs.SolAddressAccepted | src/server.py:79-84 | the two Solana account models accept exactly a string `address` and keep it unchanged |
| Inputs.TransactionHistoryBounds | src/server.py:61-67 | the arguments are accepted exactly when they are a mapping whose every given field has its type and bounds (page >= 1, offset in 1..100); the values kept are the given ones or the defaults 0, 99999999, 1, 10 and "desc" |
| Inputs.TransactionHistoryRejects | src/server.py:65-66 | a page below 1, or an offset outside 1..100, is rejected |
| Inputs.WalletHoldingsBounds | src/server.py:85-94 | accepted exactly when the wallet is a string and every given field has its type, with limit in 1..100; the values kept are the given ones or the defaults "sol", 10, "last_active_timestamp", "desc", false, false and true |
| Inputs.NewPairsBounds | src/server.py:95-153 | accepted exactly when every given field has its type, limit is in 1..100 and a filters list holds only strings; the values kept, filters element by element, are the given ones or the defaults |
| Inputs.TokenKlineDefaults | src/server.py:154-171 | token address required; chain and resolution must be strings when given, and default to "sol" and "1w" |
| Inputs.SolTransfersBounds | src/server.py:172-178 | accepted exactly when the address is a string and every given field has its type, with page >= 1 and page_size in 1..50; the values kept are the given ones or the defaults 1, 10, "block_time" and "desc" |
| Inputs.TokenSecurityDefaults | src/server.py:179-181 | token address required; chain must be a string when given, and defaults to "sol" |
| Inputs.TreasureListBounds | src/server.py:185-192 | accepted exactly when every given field has its type, with page_no >= 1 and page_size in 1..100; the values kept are the given ones or the defaults 100000, 100000, 0, 0, 1, 50 and "hot" |
| Inputs.TreasureListIgnoresUndeclared | src/server.py:185-192 | an argument the model does not declare changes nothing in validation |
| Etherscan.AcceptIff | src/services/etherscan_service.py:21-24 | a reply is accepted exactly when its status is "1" and its result truthy, and that result is handed on; any other reply with a status raises its message as `str` renders it when the message is truthy, and the fixed text otherwise |
| Etherscan.EtherscanService.MakeRequest | src/services/etherscan_service.py:12-24 | the API key is written into the caller's parameter dict, and that dict is sent |
| Etherscan.EtherscanService.GetTransactionHistory | src/services/etherscan_service.py:55-99 | the request and the transaction loop produce what `TransactionHistory` specifies |
| Etherscan.AddressBalanceReadsDecimal | src/services/etherscan_service.py:26-53 | for a valid address and any accepted reply whose result is a decimal text, the balance is the wei-to-ether conversion of that number, after one request |
| Etherscan.InvalidAddressSendsNothing | src/services/etherscan_service.py:30-31 | an address web3 rejects fails the balance, transfers, ABI and ENS operations under their prefixes, without any request |
| Etherscan.TxListParamsRoundTrip | src/services/etherscan_service.py:69-79 | the numeric history arguments travel as decimal text that reads back as the same numbers |
| Etherscan.TxRecordOfString | src/services/etherscan_service.py:84-96 | a string record fails with one text, whatever it holds |
| Etherscan.TxRecordDefaultValue | src/services/etherscan_service.py:84-96 | a record without a value counts as zero wei |
| Etherscan.TxRecordFields | src/services/etherscan_service.py:84-96 | a formatted transaction carries the record's five fields, None where absent |
| Etherscan.TransactionHistoryRecords | src/services/etherscan_service.py:55-99 | one formatted transaction per record, in order; it succeeds exactly when every record formats |
| Etherscan.TransactionHistoryNonEmpty | src/services/etherscan_service.py:55-99 | an accepted transaction history is never empty |
| Etherscan.TokenTransfersOffset | src/services/etherscan_service.py:101-124 | `offset` is the limit, or 10 when it is absent or zero; page is 1; the result is the accepted reply's result untouched |
| Etherscan.ContractAbiDecodes | src/services/etherscan_service.py:126-147 | the ABI handed back is the JSON decoding of the accepted result, for the address asked about |
| Etherscan.GasRecordIff | src/services/etherscan_service.py:149-165 | the gas answer succeeds exactly when all three prices are present, and carries them; the first missing price is named |
| Etherscan.EnsNameNeverResolves | src/services/etherscan_service.py:167-177 | no ENS lookup is made: a valid address gets None, without a request |
| Gmgn.AcceptIff | src/services/gmgnscan_service.py:162-167 | a reply is accepted exactly when its code is 0 and it has `data`, which is handed on; a reply with a nonzero code raises the fixed text when its message is falsy, the message when it is a string, and the `encode` attribute error otherwise |
| Gmgn.TokenInfoRequired | src/services/gmgnscan_service.py:241-281 | the token-info keys a pair must carry |
| Gmgn.TokenInfoIsLiteral | src/services/gmgnscan_service.py:241-281 | reading the token info run by run is evaluating the whole literal |
| Gmgn.TokenInfoValues | src/services/gmgnscan_service.py:241-281 | name, symbol and liquidity are kept; the alert flag, hot level and social links default to False, 0 and an empty dict |
| Gmgn.PairRecordOkIff | src/services/gmgnscan_service.py:225-286 | a pair is formatted exactly when it is a dict with every required outer entry and a token-info dict with every required entry |
| Gmgn.PairRecordOfString | src/services/gmgnscan_service.py:225-286 | a string pair fails with one text, whatever it holds |
| Gmgn.PairRecordFields | src/services/gmgnscan_service.py:225-286 | a formatted pair carries the pair's id, its base address as `address`, its open timestamp and the formatted token info |
| Gmgn.GetNewPairs | src/services/gmgnscan_service.py:173-320 | the request and the formatting loop produce what `NewPairs` specifies |
| Gmgn.NewPairsShape | src/services/gmgnscan_service.py:173-320 | one GET to the chain and period path, carrying the filters in order; for any accepted reply whose `pairs` is a list, one formatted pair per listed pair |
| Gmgn.KlineListIff | src/services/gmgnscan_service.py:358-361 | the candles are the reply's `list` entry, which must have a length |
| Gmgn.TokenKlineShape | src/services/gmgnscan_service.py:322-365 | one GET to the token's kline path with the time window as query; failures carry the kline prefix |
| Gmgn.WalletHoldingsShape | src/services/gmgnscan_service.py:402-427 | one GET; the three flags travel as "true"/"false"; the holdings are the reply's `holdings` entry |
| Gmgn.SecurityRecordIff | src/services/gmgnscan_service.py:441-464 | any dict yields the nine keys, each the reply's value or None; anything else fails for lack of `get` |
| Gmgn.TokenSecurityShape | src/services/gmgnscan_service.py:441-464 | one GET with no query, to a path naming the chain twice; a failure names the token |
| Aveai.BaseParamsValues | src/services/aveai_service.py:135-141 | the five base entries carry the caller's values |
| Aveai.TreasureParamsKeys | src/services/aveai_service.py:135-147 | the base entries are always sent, and a smart-money minimum is sent exactly when it is positive |
| Aveai.AcceptIff | src/services/aveai_service.py:181-184 | a reply is accepted, unchanged, exactly when its status is 1; a present `msg` is raised even when empty |
| Aveai.TreasureRecordOfString | src/services/aveai_service.py:186-224 | a string pair fails with one text, whatever it holds |
| Aveai.TreasureRecordNeedsPair | src/services/aveai_service.py:189 | a pair without its `pair` entry fails on that key first |
| Aveai.TreasureRecordRenames | src/services/aveai_service.py:188-223 | id, address, pool types, quote symbol, name and symbol come from their renamed sources; the info's liquidity is the pair's tvl |
| Aveai.TreasureRecordPlaceholders | src/services/aveai_service.py:196-221 | the entries Ave.ai lacks always carry the same placeholders |
| Aveai.BuildParams | src/services/aveai_service.py:135-147 | the parameter dict built step by step is `TreasureParams` |
| Aveai.GetTreasureList | src/services/aveai_service.py:123-230 | the parameters, one request and the formatting loop produce what `TreasureList` specifies |
| Aveai.TreasureListShape | src/services/aveai_service.py:123-230 | one GET to the list path; any accepted reply whose nested `data` is a list gives one formatted pair per listed pair, in order, or the first failure unchanged |
| Aveai.TreasureListRejected | src/services/aveai_service.py:182-184 | a reply whose status is not 1 raises its own `msg`, unprefixed, after the one request |
| Solscan.AcceptIff | src/services/solscan_nokey_service.py:41-45 | a reply is accepted exactly when `success` is truthy and it has `data`; a rejection uses its message or the fixed text |
| Solscan.TransferParamsValues | src/services/solscan_nokey_service.py:64-70 | the caller's five arguments are sent unchanged, under their own names |
| Solscan.TransferRecordOfString | src/services/solscan_nokey_service.py:89-102 | a string record fails with one text, whatever it holds |
| Solscan.TransferRecordOkIff | src/services/solscan_nokey_service.py:90-102 | a transfer is formatted exactly when it is a dict with all eleven reply keys |
| Solscan.TransferRecordRenames | src/services/solscan_nokey_service.py:90-102 | every entry of a formatted transfer is the value of its reply key, nine of them renamed |
| Solscan.GetAccountTransfers | src/services/solscan_nokey_service.py:47-122 | the request and the formatting loop produce what `AccountTransfers` specifies |
| Solscan.AccountTransfersShape | src/services/solscan_nokey_service.py:47-122 | one GET to the transfer path; an accepted list gives one formatted transfer per record, in order; every failure carries the prefix |
| SolanaExplorer.PayloadIsRequestObject | src/services/solana_explorer_service.py:24-30 | the payload is a JSON-RPC 2.0 request object for `getMultipleAccounts` over the given addresses |
| SolanaExplorer.AddressBalanceQueriesOne | src/services/solana_explorer_service.py:36-37 | exactly one POST, asking for the one address |
| SolanaExplorer.BalanceNone | src/services/solana_explorer_service.py:38-39 | a falsy reply, a missing or falsy result, a missing or falsy value, or a falsy first account gives None |
| SolanaExplorer.BalanceFound | src/services/solana_explorer_service.py:41-47 | an account is returned only from a reply with an account dict first; it carries the queried address and the lamports (0 when absent) converted to SOL |
| Server.CallTool | src/server.py:336-696 | at most one request; a failure carries the routed handler's prefix; an unknown name fails with "Unknown tool: " and its name, without a request |
| Server.Dispatch | src/server.py:341-693 | every handler's failure carries its prefix; it sends at most one request; arguments its model rejects fail before anything is sent |
| Server.EthBalanceCall | src/server.py:341-371 | the handler contract for `get-eth-balance`, whose prefix is the unknown-tool text |
| Server.TransactionsCall | src/server.py:373-402 | the handler contract for `get-transactions` |
| Server.TokenTransfersCall | src/server.py:404-425 | the handler contract for `get-token-transfers` |
| Server.ContractAbiCall | src/server.py:427-434 | the handler contract for `get-contract-abi` |
| Server.GasPricesCall | src/server.py:436-447 | `get-gas-prices` always sends one request, and its failures carry the prefix |
| Server.EnsNameCall | src/server.py:449-456 | the handler contract for `get-ens-name` |
| Server.NewPairsCall | src/server.py:458-516 | the handler contract for `get-new-pairs` |
| Server.TokenKlineCall | src/server.py:518-545 | the handler contract for `get-token-kline` |
| Server.SolTransfersCall | src/server.py:547-576 | the handler contract for `get-sol-transfers` |
| Server.SolBalanceCall | src/server.py:578-588 | the handler contract for `get-sol-balance` |
| Server.SolBalanceExplorerCall | src/server.py:590-600 | the handler contract for `get-sol-balance-explorer` |
| Server.WalletHoldingsCall | src/server.py:602-627 | the handler contract for `get-sol-wallet-holdings` |
| Server.TokenSecurityCall | src/server.py:629-650 | the handler contract for `get-sol-token-security` |
| Server.TreasureListCall | src/server.py:652-693 | the handler contract for `get-hot-pairs` and `get-pairs` |
| Server.CatalogueNamesDistinct | src/server.py:194-332 | thirteen tools are listed, each name once |
| Server.CatalogueRouted | src/server.py:194-332 | every listed tool has a handler |
| Server.RoutedListed | src/server.py:336-696 | every routed name other than `get-sol-transfers` and `get-sol-balance` is listed |
| Server.UnknownToolRejected | src/server.py:695-696 | a name neither listed nor unlisted-but-routed fails with the unknown-tool text and sends nothing |
| Server.UnlistedButRouted | src/server.py:295-299 | `get-sol-transfers` and `get-sol-balance` are not listed, yet still served |
| Server.PairsServedAsHotPairs | src/server.py:652 | `get-pairs` behaves exactly as `get-hot-pairs` on every input |
| Server.PairsSchemaMismatch | src/server.py:301-310 | `get-pairs` advertises the new-pairs schema but is served by the treasure-list handler |
| Server.LimitOnlyNewPairs | src/server.py:95-192 | a limit of 1000 is rejected by the advertised schema and accepted by the model `get-pairs` validates with |
| Server.GasIgnoresArguments | src/server.py:436-447 | `get-gas-prices` reads no arguments and sends the gas oracle request |
| Server.TokenTransfersNeverSent | src/server.py:404-425 | `get-token-transfers` never sends a request and always fails; valid arguments fail on the undeclared `limit` |
| Server.EnsNeverNamed | src/server.py:449-456 | `get-ens-name` never names an address: it answers with the not-found text exactly when the address is valid, without a request |
| Server.TransactionsAlwaysListed | src/server.py:384-399 | a `get-transactions` answer always starts with the listing header, never the not-found text |
| Server.ListingHolds | src/server.py:384-399 | a header followed by joined blocks holds every block whole at its offset |
| Server.TransactionsShowEach | src/server.py:384-399 | the `get-transactions` answer shows every returned transaction as its block, in order |
| Server.ListingShowsEach | src/server.py:472-512 | a header followed by the joined blocks of a record-by-record rendering shows each record's own block whole at its offset |
| Server.NewPairsShowEach | src/server.py:472-512 | the new-pairs listing renders exactly when every pair does, and then shows each pair's block, in order |
| Server.KlineShowsEach | src/server.py:518-545 | the kline listing renders exactly when every candle does, and then shows each candle's block, in order |
| Server.TransfersShowEach | src/server.py:547-576 | the transfers listing renders exactly when every transfer does, and then shows each transfer's block, in order |
| Server.HoldingsShowEach | src/server.py:602-627 | the holdings listing renders exactly when every holding does, and then shows each holding's block, in order |
| Server.HotPairsShowEach | src/server.py:666-688 | the hot-pairs listing renders exactly when every pair does, and then shows each pair's block, in order |
| Server.EthBalanceAnswer | src/server.py:341-371 | `get-eth-balance` sends what the service sends and answers with the balance text of the balance the service read, failing exactly when the service does |
| Server.ContractAbiAnswer | src/server.py:427-434 | `get-contract-abi` answers with the address asked about and the re-encoded ABI, failing exactly when the service does |
| Server.GasPricesAnswer | src/server.py:436-447 | `get-gas-prices` answers with the three oracle prices, failing exactly when the oracle does |
| Server.SolBalanceAlwaysFound | src/server.py:578-588 | `get-sol-balance` sends one GET and always answers with a balance; a falsy reply shows balance 0 |
| Server.ExplorerBalanceOfAddress | src/server.py:590-600 | `get-sol-balance-explorer` answers with the balance of the address asked for, or the not-found text exactly when the explorer has no account |
| Server.NewPairsAsksPump | src/server.py:458-471 | `get-new-pairs` asks for the launchpad "pump" and passes the validated limit |
| Server.KlineAsksLastThirtyDays | src/server.py:518-530 | `get-token-kline` asks for the thirty days up to the current time |
| Server.SecurityAlwaysRenders | src/server.py:629-650 | the token-security answer succeeds exactly when the service does |
| Server.TransferRendersRecord | src/server.py:547-576 | a transfer block fails only when its amount cannot be scaled |
| Server.HotPairTextOk | src/server.py:666-688 | a hot-pair block renders whenever the pair holds the entries it reads |
| Server.HotPairRendersRecord | src/server.py:666-688 | every pair the Ave.ai client formats renders as a hot-pair block |
| Server.HotPairsRender | src/server.py:652-693 | `get-hot-pairs` fails only when the Ave.ai client does |

## Left out

- HTTP transport is not modelled: headers, proxies, browser impersonation, `raise_for_status`, timeouts and response encoding. The remote side is a function from request to decoded JSON reply, and a transport failure is that function's error text.
- Logging, including the log files the services write, is left out because it does not affect any result.
- Floating point is not modelled. `float(..)`, the `:.2f`-style formatting, percentages, token-amount scaling, wei-to-ether and lamports-to-SOL conversion are abstract library functions. The model proves where they are applied, not their arithmetic.
- Date formatting, `time.time()` and `uuid.uuid4()` are abstract: the clock and the request id are parameters of the environment.
- The Solana Beach client beyond its balance (`src/services/solbreach.py:32-58`) is one abstract function, apart from the falsy-reply case, which gives balance 0.
- `str(d)` of a dict is rendered as `{...}`: a Dafny map has no insertion order, so Python's rendering cannot be reproduced.
- `str(e).encode('utf-8').decode('utf-8')` is the identity on text and is modelled as such.
- The MCP framework, the SSE transport and the Starlette application are not modelled.
- The service constructors (clients, headers and loggers) are not modelled.
- An entry read twice in one record literal (the Ave.ai `amm` and `token0_symbol`) is read once. The second read cannot fail.
- `json.dumps` and `json.loads` are abstract library functions.
- Pydantic coercion between types (for example `"5"` accepted as an int) is not modelled: a field accepts only values of its declared JSON type. `model_json_schema()` is represented by the model's name.
- Etherscan.TokenTransfers is modelled, but no tool reaches it: the handler fails on the undeclared `limit` first (see `Server.TokenTransfersNeverSent`).
- Server.GasPricesCall: no statement about validation, because the handler has no input model.
- Server.TransactionsShowEach: states each block and its offset. It does not restate the header's own text, which `Server.TransactionsAlwaysListed` covers.
- Json.ParseInt: accepts only an optional sign followed by ASCII digits. Python's `int()` also strips surrounding whitespace, allows single underscores between digits and reads non-ASCII decimal digits, so texts of those forms fail in the model.
- Inputs.ValidationText: keeps the error count, the model name, each location and each message. It leaves out pydantic v2's ` [type=..., input_value=..., input_type=...]` suffix and the "For further information visit https://errors.pydantic.dev/..." line, because `input_value` needs Python's `repr` of the input.
- Inputs.Mapping: the TypeError for non-mapping arguments names the model class without its module.
- Server.NewPairsShowEach, Server.KlineShowsEach, Server.TransfersShowEach, Server.HoldingsShowEach, Server.HotPairsShowEach: state each block and its offset. They do not restate the header text.
- Inputs.TransactionHistoryBounds, Inputs.WalletHoldingsBounds, Inputs.NewPairsBounds, Inputs.SolTransfersBounds, Inputs.TreasureListBounds: "has its type" means the field's JSON type exactly, because pydantic's lax coercion is not modelled (see above).
