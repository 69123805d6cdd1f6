/** The MCP server: the catalogue of tools it lists, and `call_tool`, which
    routes a tool name to a handler. A handler validates the arguments
    against its input model, calls one service, and renders the service's
    answer as text. Every exception inside a handler is re-raised as a
    `ValueError` whose text is the handler's prefix followed by the
    original text; an unknown name fails without any request. */
module Server {
  import opened Json
  import opened Backend
  import opened Projection
  import opened Inputs
  import Etherscan
  import Gmgn
  import Aveai
  import Solscan
  import SolanaExplorer

  /** What a call depends on besides its name and arguments: the library
      behaviour, the remote side, the Etherscan key read from the
      environment, the clock (`int(time.time())`) and the JSON-RPC request
      id (`str(uuid.uuid4())`). */
  datatype Env = Env(lib: Lib, backend: Transport, etherscanKey: string, now: int, requestId: string)

  // ---------------------------------------------------------------------
  // `handle_list_tools`

  /** A tool's input schema: the JSON schema of an input model, or the
      empty object schema. */
  datatype Schema = ModelSchema(model: InputModel) | EmptyObjectSchema

  datatype Tool = Tool(name: string, description: string, schema: Schema)

  /** The tools the server lists, in order. `get-sol-balance` and
      `get-sol-transfers` are not listed. */
  const Catalogue: seq<Tool> := [
    Tool("get-eth-balance", "Check the ETH balance of an Eth address", ModelSchema(CheckBalanceInput)),
    Tool("get-transactions", "Get transaction history for an Ethereum address",
         ModelSchema(TransactionHistoryInput)),
    Tool("get-token-transfers", "Get ERC20 token transfers for an Ethereum address",
         ModelSchema(TokenTransferInput)),
    Tool("get-contract-abi", "Get the ABI for a smart contract", ModelSchema(ContractInput)),
    Tool("get-gas-prices", "Get current gas prices in Gwei", EmptyObjectSchema),
    Tool("get-ens-name", "Get the ENS name for an Ethereum address", ModelSchema(ENSNameInput)),
    Tool("get-new-pairs", "Get new trading pairs from GMGN", ModelSchema(GetNewPairsInput)),
    Tool("get-token-kline", "Get token kline data OHLCV from GMGN", ModelSchema(GetTokenKlineInput)),
    Tool("get-hot-pairs", "Get hot trading pairs from ave with smart money analysis",
         ModelSchema(GetTreasureListInput)),
    Tool("get-pairs", "Get token trading pairs list with smart money analysis ",
         ModelSchema(GetNewPairsInput)),
    Tool("get-sol-balance-explorer", "Check the SOL balance of a Solana address ",
         ModelSchema(SolanaExplorerAccountInput)),
    Tool("get-sol-wallet-holdings", "Get sol wallet holdings  token from GMGN",
         ModelSchema(GetWalletHoldingsInput)),
    Tool("get-sol-token-security", "Get SOL token security information from GMGN",
         ModelSchema(GetSOLTokenSecurityInput))
  ]

  predicate Listed(name: string) {
    exists i :: 0 <= i < |Catalogue| && Catalogue[i].name == name
  }

  // ---------------------------------------------------------------------
  // Routing in `call_tool`

  /** The handlers of `call_tool`, one per `if`/`elif` branch. */
  datatype Handler =
    | EthBalance
    | Transactions
    | TokenTransfers
    | ContractAbi
    | GasPrices
    | EnsName
    | NewPairs
    | TokenKline
    | SolTransfers
    | SolBalance
    | SolBalanceExplorer
    | WalletHoldings
    | TokenSecurity
    | TreasureList

  /** The branch a name selects, tested in the order of the if/elif chain. */
  function Route(name: string): Option<Handler> {
    if name == "get-eth-balance" then Some(EthBalance)
    else if name == "get-transactions" then Some(Transactions)
    else if name == "get-token-transfers" then Some(TokenTransfers)
    else if name == "get-contract-abi" then Some(ContractAbi)
    else if name == "get-gas-prices" then Some(GasPrices)
    else if name == "get-ens-name" then Some(EnsName)
    else if name == "get-new-pairs" then Some(NewPairs)
    else if name == "get-token-kline" then Some(TokenKline)
    else if name == "get-sol-transfers" then Some(SolTransfers)
    else if name == "get-sol-balance" then Some(SolBalance)
    else if name == "get-sol-balance-explorer" then Some(SolBalanceExplorer)
    else if name == "get-sol-wallet-holdings" then Some(WalletHoldings)
    else if name == "get-sol-token-security" then Some(TokenSecurity)
    else if name == "get-hot-pairs" || name == "get-pairs" then Some(TreasureList)
    else None
  }

  const UnknownTool: string := "Unknown tool: "

  /** The text each handler puts in front of an exception it re-raises.
      Four handlers reuse the unknown-tool text. */
  function Prefix(h: Handler): string {
    match h
    case EthBalance => UnknownTool
    case Transactions => "Error getting transactions: "
    case TokenTransfers => UnknownTool
    case ContractAbi => "Error getting contract ABI: "
    case GasPrices => UnknownTool
    case EnsName => UnknownTool
    case NewPairs => "Error getting new pairs: "
    case TokenKline => "Error getting token kline: "
    case SolTransfers => "Error getting transfers: "
    case SolBalance => "Error getting solbeach account info: "
    case SolBalanceExplorer => "Error getting solana explorer account info: "
    case WalletHoldings => "Error getting wallet holdings: "
    case TokenSecurity => "Error getting token security: "
    case TreasureList => "Error getting treasure list: "
  }

  /** `call_tool(name, arguments)`: the text content it returns, or the
      text of the `ValueError` it raises, and the requests it sends. */
  function CallTool(env: Env, name: string, arguments: Json): (o: Outcome<string>)
    ensures |o.sent| <= 1
    ensures o.result.Err? ==>
              if Route(name).Some? then Prefix(Route(name).value) <= o.result.msg
              else o.result.msg == UnknownTool + name && o.sent == []
  {
    match Route(name)
    case None => Outcome(Err(UnknownTool + name), [])
    case Some(h) => Dispatch(env, h, arguments)
  }

  /** The handler's branch, by the service it calls. */
  function Dispatch(env: Env, h: Handler, arguments: Json): (o: Outcome<string>)
    ensures HandlerContract(h, arguments, o)
  {
    match h
    case EthBalance | Transactions | TokenTransfers | ContractAbi | GasPrices | EnsName =>
      EtherscanDispatch(env, h, arguments)
    case NewPairs | TokenKline | WalletHoldings | TokenSecurity => GmgnDispatch(env, h, arguments)
    case SolTransfers | SolBalance | SolBalanceExplorer => SolanaDispatch(env, h, arguments)
    case TreasureList => TreasureListCall(env, arguments)
  }

  predicate OnEtherscan(h: Handler) {
    h.EthBalance? || h.Transactions? || h.TokenTransfers? || h.ContractAbi? || h.GasPrices? || h.EnsName?
  }

  predicate OnGmgn(h: Handler) {
    h.NewPairs? || h.TokenKline? || h.WalletHoldings? || h.TokenSecurity?
  }

  predicate OnSolana(h: Handler) {
    h.SolTransfers? || h.SolBalance? || h.SolBalanceExplorer?
  }

  function EtherscanDispatch(env: Env, h: Handler, arguments: Json): (o: Outcome<string>)
    requires OnEtherscan(h)
    ensures HandlerContract(h, arguments, o)
  {
    if h.EthBalance? then EthBalanceCall(env, arguments)
    else if h.Transactions? then TransactionsCall(env, arguments)
    else if h.TokenTransfers? then TokenTransfersCall(arguments)
    else if h.ContractAbi? then ContractAbiCall(env, arguments)
    else if h.GasPrices? then GasPricesCall(env)
    else EnsNameCall(env, arguments)
  }

  function GmgnDispatch(env: Env, h: Handler, arguments: Json): (o: Outcome<string>)
    requires OnGmgn(h)
    ensures HandlerContract(h, arguments, o)
  {
    if h.NewPairs? then NewPairsCall(env, arguments)
    else if h.TokenKline? then TokenKlineCall(env, arguments)
    else if h.WalletHoldings? then WalletHoldingsCall(env, arguments)
    else TokenSecurityCall(env, arguments)
  }

  function SolanaDispatch(env: Env, h: Handler, arguments: Json): (o: Outcome<string>)
    requires OnSolana(h)
    ensures HandlerContract(h, arguments, o)
  {
    if h.SolTransfers? then SolTransfersCall(env, arguments)
    else if h.SolBalance? then SolBalanceCall(env, arguments)
    else SolBalanceExplorerCall(env, arguments)
  }

  /** The shape of a handler: validate, call the service, render; any
      exception on the way is re-raised under the prefix. A validation
      failure sends nothing. */
  function Handle<A, T>(prefix: string, parsed: Result<A>, call: A -> Outcome<T>,
                        render: (A, T) -> Result<string>): (o: Outcome<string>)
    ensures parsed.Err? ==> o == Outcome(Err(prefix + parsed.msg), [])
    ensures parsed.Ok? ==> o.sent == call(parsed.value).sent
    ensures o.result.Err? ==> prefix <= o.result.msg
  {
    WithPrefix(prefix,
      match parsed
      case Err(e) => Outcome(Err(e), [])
      case Ok(a) => Then(call(a), (t: T) => render(a, t)))
  }

  /** The validation text of a failed input model, if it failed. */
  function Failure<T>(r: Result<T>): Option<string> {
    if r.Err? then Some(r.msg) else None
  }

  /** What each handler's input model makes of the arguments
      (`get-gas-prices` has none). */
  function ValidationFailure(h: Handler, arguments: Json): Option<string> {
    match h
    case EthBalance => Failure(ParseEthAddress(CheckBalanceInput, arguments))
    case Transactions => Failure(ParseTransactionHistory(arguments))
    case TokenTransfers => Failure(ParseEthAddress(TokenTransferInput, arguments))
    case ContractAbi => Failure(ParseEthAddress(ContractInput, arguments))
    case GasPrices => None
    case EnsName => Failure(ParseEthAddress(ENSNameInput, arguments))
    case NewPairs => Failure(ParseNewPairs(arguments))
    case TokenKline => Failure(ParseTokenKline(arguments))
    case SolTransfers => Failure(ParseSolTransfers(arguments))
    case SolBalance => Failure(ParseSolAddress(SolbeachAccountInput, arguments))
    case SolBalanceExplorer => Failure(ParseSolAddress(SolanaExplorerAccountInput, arguments))
    case WalletHoldings => Failure(ParseWalletHoldings(arguments))
    case TokenSecurity => Failure(ParseTokenSecurity(arguments))
    case TreasureList => Failure(ParseTreasureList(arguments))
  }

  /** What every handler promises: an exception it raises carries its
      prefix; it sends at most one request; and arguments its input model
      rejects fail with the prefix and the validation text before anything
      is sent. */
  predicate HandlerContract(h: Handler, arguments: Json, o: Outcome<string>) {
    && (o.result.Err? ==> Prefix(h) <= o.result.msg)
    && |o.sent| <= 1
    && (ValidationFailure(h, arguments).Some? ==>
          o == Outcome(Err(Prefix(h) + ValidationFailure(h, arguments).value), []))
  }

  // ---------------------------------------------------------------------
  // The Ethereum handlers

  /** The text of a balance answer, shared by the three balance tools. */
  function BalanceText(address: string, balance: string): string {
    "Address: " + address + "\nBalance: " + balance + "\n"
  }

  /** `get-eth-balance` */
  function EthBalanceCall(env: Env, arguments: Json): (o: Outcome<string>)
    ensures o.result.Err? ==> Prefix(EthBalance) <= o.result.msg
    ensures |o.sent| <= 1
    ensures ValidationFailure(EthBalance, arguments).Some? ==>
              o == Outcome(Err(Prefix(EthBalance) + ValidationFailure(EthBalance, arguments).value), [])
  {
    var parsed := ParseEthAddress(CheckBalanceInput, arguments);
    assert ValidationFailure(EthBalance, arguments) == Failure(parsed);
    Handle(Prefix(EthBalance), parsed,
           (a: AddressArgs) => Etherscan.AddressBalance(env.lib, env.backend, env.etherscanKey, a.address),
           (a: AddressArgs, b: Etherscan.Balance) => Ok(BalanceText(b.address, b.balanceInEth)))
  }

  /** One transaction block of the `get-transactions` answer. */
  function TxText(tx: Etherscan.Transaction): string {
    "Block " + Show(tx.blockNumber) + ":\nTime: " + Show(tx.timestamp) + "\nHash: " + Show(tx.hash)
    + "\nFrom: " + Show(tx.from) + "\nTo: " + Show(tx.to) + "\nValue: " + tx.value + " ETH\n---\n"
  }

  function TxTexts(txs: seq<Etherscan.Transaction>): seq<string> {
    seq(|txs|, i requires 0 <= i < |txs| => TxText(txs[i]))
  }

  const TransactionsHeader: string := "Recent transactions for "

  function TransactionsText(address: string, txs: seq<Etherscan.Transaction>): string {
    if txs != [] then TransactionsHeader + address + ":\n\n" + Join("\n", TxTexts(txs))
    else "No transactions found for " + address
  }

  /** `get-transactions` */
  function TransactionsCall(env: Env, arguments: Json): (o: Outcome<string>)
    ensures o.result.Err? ==> Prefix(Transactions) <= o.result.msg
    ensures |o.sent| <= 1
    ensures ValidationFailure(Transactions, arguments).Some? ==>
              o == Outcome(Err(Prefix(Transactions) + ValidationFailure(Transactions, arguments).value), [])
  {
    var parsed := ParseTransactionHistory(arguments);
    assert ValidationFailure(Transactions, arguments) == Failure(parsed);
    Handle(Prefix(Transactions), parsed,
           (a: TransactionHistoryArgs) =>
             Etherscan.TransactionHistory(env.lib, env.backend, env.etherscanKey, a.address, a.startblock,
                                          a.endblock, a.page, a.offset, a.sort),
           (a: TransactionHistoryArgs, txs: seq<Etherscan.Transaction>) => Ok(TransactionsText(a.address, txs)))
  }

  /** The exception `input_data.limit` raises: the transfer model declares
      no `limit`. */
  const NoLimitError: string := NoAttributeText(ModelName(TokenTransferInput), "limit")

  /** `get-token-transfers`: reading the missing `limit` argument fails
      before the service is called. */
  function TokenTransfersCall(arguments: Json): (o: Outcome<string>)
    ensures o.result.Err? ==> Prefix(TokenTransfers) <= o.result.msg
    ensures |o.sent| <= 1
    ensures ValidationFailure(TokenTransfers, arguments).Some? ==>
              o == Outcome(Err(Prefix(TokenTransfers) + ValidationFailure(TokenTransfers, arguments).value), [])
  {
    match ParseEthAddress(TokenTransferInput, arguments)
    case Err(e) => Outcome(Err(Prefix(TokenTransfers) + e), [])
    case Ok(_) => Outcome(Err(Prefix(TokenTransfers) + NoLimitError), [])
  }

  /** `get-contract-abi` */
  function ContractAbiCall(env: Env, arguments: Json): (o: Outcome<string>)
    ensures o.result.Err? ==> Prefix(ContractAbi) <= o.result.msg
    ensures |o.sent| <= 1
    ensures ValidationFailure(ContractAbi, arguments).Some? ==>
              o == Outcome(Err(Prefix(ContractAbi) + ValidationFailure(ContractAbi, arguments).value), [])
  {
    var parsed := ParseEthAddress(ContractInput, arguments);
    assert ValidationFailure(ContractAbi, arguments) == Failure(parsed);
    Handle(Prefix(ContractAbi), parsed,
           (a: AddressArgs) => Etherscan.ContractAbi(env.lib, env.backend, env.etherscanKey, a.address),
           (a: AddressArgs, r: Etherscan.ContractAbiReply) =>
             Ok("Contract ABI for " + r.address + ":\n\n" + env.lib.jsonDumps(r.abi)))
  }

  function GasText(p: Etherscan.GasPrices): string {
    "Current Gas Prices:\nSafe Low: " + Show(p.safeGwei) + " Gwei\nStandard: " + Show(p.proposeGwei)
    + " Gwei\nFast: " + Show(p.fastGwei) + " Gwei"
  }

  /** `get-gas-prices`: no input model; the arguments are not read. */
  function GasPricesCall(env: Env): (o: Outcome<string>)
    ensures o.result.Err? ==> Prefix(GasPrices) <= o.result.msg
    ensures |o.sent| == 1
  {
    WithPrefix(Prefix(GasPrices),
      Then(Etherscan.GasOracle(env.backend, env.etherscanKey), (p: Etherscan.GasPrices) => Ok(GasText(p))))
  }

  /** `get-ens-name`: a name is shown only when it is a non-empty string. */
  function EnsNameCall(env: Env, arguments: Json): (o: Outcome<string>)
    ensures o.result.Err? ==> Prefix(EnsName) <= o.result.msg
    ensures |o.sent| <= 1
    ensures ValidationFailure(EnsName, arguments).Some? ==>
              o == Outcome(Err(Prefix(EnsName) + ValidationFailure(EnsName, arguments).value), [])
  {
    var parsed := ParseEthAddress(ENSNameInput, arguments);
    assert ValidationFailure(EnsName, arguments) == Failure(parsed);
    Handle(Prefix(EnsName), parsed,
           (a: AddressArgs) => Etherscan.EnsName(env.lib, a.address),
           (a: AddressArgs, n: Option<string>) =>
             Ok(if n.Some? && n.value != "" then "ENS name for " + a.address + ": " + n.value
                else "No ENS name found for " + a.address))
  }

  // ---------------------------------------------------------------------
  // The GMGN handlers

  /** `pair['base_token_info'][key]` */
  function InfoIndex(pair: Json, key: string): Result<Json> {
    var info :- Index(pair, "base_token_info");
    Index(info, key)
  }

  /** One pair block of the `get-new-pairs` answer, its reads in the order
      the f-string makes them. */
  function PairText(lib: Lib, pair: Json): Result<string> {
    var address :- Index(pair, "address");
    var name :- InfoIndex(pair, "name");
    var symbol :- InfoIndex(pair, "symbol");
    var price :- InfoIndex(pair, "price");
    var marketCap :- InfoIndex(pair, "market_cap");
    var change1h :- InfoIndex(pair, "price_change_percent1h");
    var change5m :- InfoIndex(pair, "price_change_percent5m");
    var change1m :- InfoIndex(pair, "price_change_percent1m");
    var liquidity :- InfoIndex(pair, "liquidity");
    var volume :- InfoIndex(pair, "volume");
    var swaps :- InfoIndex(pair, "swaps");
    var buys :- InfoIndex(pair, "buys");
    var sells :- InfoIndex(pair, "sells");
    var holders :- InfoIndex(pair, "holder_count");
    var top10 :- InfoIndex(pair, "top_10_holder_rate");
    var top10Text :- lib.percent(top10, 2);
    var supply :- InfoIndex(pair, "total_supply");
    var burnRatio :- InfoIndex(pair, "burn_ratio");
    var burnStatus :- InfoIndex(pair, "burn_status");
    var creator :- Index(pair, "creator");
    var creatorRate :- InfoIndex(pair, "creator_balance_rate");
    var creatorRateText :- lib.percent(creatorRate, 4);
    var creatorStatus :- InfoIndex(pair, "creator_token_status");
    var honeypot :- InfoIndex(pair, "is_honeypot");
    var renounced :- InfoIndex(pair, "renounced");
    var renouncedMint :- InfoIndex(pair, "renounced_mint");
    var renouncedFreeze :- InfoIndex(pair, "renounced_freeze_account");
    var poolType :- Index(pair, "pool_type_str");
    var quoteSymbol :- Index(pair, "quote_symbol");
    var quoteReserve :- Index(pair, "quote_reserve");
    var initialLiquidity :- Index(pair, "initial_liquidity");
    var links :- InfoIndex(pair, "social_links");
    var linksText :- lib.socialLinks(links);
    var openedAt :- Index(pair, "open_timestamp");
    var launch :- lib.formatTime(openedAt);
    Ok("CA address: " + Show(address) + "\nToken: " + Show(name) + " (" + Show(symbol) + ")\nPrice: $"
       + Show(price) + "\nMarket Cap: $" + Show(marketCap) + "\nPrice Changes:\n1h: " + Show(change1h)
       + "%\n5m: " + Show(change5m) + "%\n1m: " + Show(change1m) + "%\nLiquidity: $" + Show(liquidity)
       + "\nVolume: $" + Show(volume) + "\nTrading Activity:\nTotal Swaps: " + Show(swaps) + "\nBuys: "
       + Show(buys) + "\nSells: " + Show(sells) + "\nHolders: " + Show(holders) + "\nTop 10 Holders: "
       + top10Text + "%\nToken Info:\nTotal Supply: " + Show(supply) + "\nBurn Ratio: " + Show(burnRatio)
       + "\nBurn Status: " + Show(burnStatus) + "\nCreator Info:\nCreator: " + Show(creator)
       + "\nCreator Balance: " + creatorRateText + "%\nCreator Status: " + Show(creatorStatus)
       + "\nSecurity:\nHoneypot: " + Show(honeypot) + "\nRenounced: " + Show(renounced)
       + "\nRenounced Mint: " + Show(renouncedMint) + "\nRenounced Freeze: " + Show(renouncedFreeze)
       + "\nPool Info:\n  Type: " + Show(poolType) + "\n  Quote Symbol: " + Show(quoteSymbol)
       + "\n  Quote Reserve: " + Show(quoteReserve) + "\n  Initial Liquidity: " + Show(initialLiquidity)
       + "\nSocial Links: " + linksText + "\nLaunch Time: " + launch + "\n---\n")
  }

  function PairTexts(lib: Lib): Json -> Result<string> {
    pair => PairText(lib, pair)
  }

  /** The launchpad `get-new-pairs` asks for: the handler does not pass
      one, so the service's default applies. */
  const DefaultLaunchpad: string := "pump"

  function NewPairsService(env: Env, a: NewPairsArgs): Outcome<seq<Json>> {
    Gmgn.NewPairs(env.backend, a.chain, a.period, a.limit, a.minMarketcap, a.minSwaps1h, a.minHolderCount,
                  a.filters, DefaultLaunchpad, a.orderby, a.direction)
  }

  const NewPairsHeader: string := "New Trading Pairs:\n\n"

  function NewPairsText(lib: Lib, pairs: seq<Json>): Result<string> {
    var texts :- MapAll(pairs, PairTexts(lib));
    Ok(NewPairsHeader + Join("\n", texts))
  }

  /** `get-new-pairs` */
  function NewPairsCall(env: Env, arguments: Json): (o: Outcome<string>)
    ensures o.result.Err? ==> Prefix(NewPairs) <= o.result.msg
    ensures |o.sent| <= 1
    ensures ValidationFailure(NewPairs, arguments).Some? ==>
              o == Outcome(Err(Prefix(NewPairs) + ValidationFailure(NewPairs, arguments).value), [])
  {
    var parsed := ParseNewPairs(arguments);
    assert ValidationFailure(NewPairs, arguments) == Failure(parsed);
    Handle(Prefix(NewPairs), parsed,
           (a: NewPairsArgs) => NewPairsService(env, a),
           (a: NewPairsArgs, pairs: seq<Json>) => NewPairsText(env.lib, pairs))
  }

  /** One candle block of the `get-token-kline` answer. */
  function KlineText(lib: Lib, kline: Json): Result<string> {
    var time :- Index(kline, "time");
    var millis :- PyInt(time);
    var when :- lib.formatMillis(millis);
    var open :- Index(kline, "open");
    var openText :- lib.fixed(open, 8);
    var high :- Index(kline, "high");
    var highText :- lib.fixed(high, 8);
    var low :- Index(kline, "low");
    var lowText :- lib.fixed(low, 8);
    var close :- Index(kline, "close");
    var closeText :- lib.fixed(close, 8);
    var volume :- Index(kline, "volume");
    var volumeText :- lib.fixed(volume, 2);
    Ok("Time: " + when + "\nOpen:   $" + openText + "\nHigh:   $" + highText + "\nLow:    $" + lowText
       + "\nClose:  $" + closeText + "\nVolume: " + volumeText + "\n---\n")
  }

  function KlineTexts(lib: Lib): Json -> Result<string> {
    kline => KlineText(lib, kline)
  }

  /** The window the kline request covers: the last thirty days. */
  const KlineWindow: int := 60 * 60 * 24 * 30

  function KlineHeader(resolution: string): string {
    "Kline Data (" + resolution + "):\n\n"
  }

  function KlineResponse(lib: Lib, resolution: string, klines: Json): Result<string> {
    var texts :- Iterate(klines, KlineTexts(lib), StrSubscriptError(JStr("")));
    Ok(KlineHeader(resolution) + Join("\n", texts))
  }

  /** `get-token-kline` */
  function TokenKlineCall(env: Env, arguments: Json): (o: Outcome<string>)
    ensures o.result.Err? ==> Prefix(TokenKline) <= o.result.msg
    ensures |o.sent| <= 1
    ensures ValidationFailure(TokenKline, arguments).Some? ==>
              o == Outcome(Err(Prefix(TokenKline) + ValidationFailure(TokenKline, arguments).value), [])
  {
    var parsed := ParseTokenKline(arguments);
    assert ValidationFailure(TokenKline, arguments) == Failure(parsed);
    Handle(Prefix(TokenKline), parsed,
           (a: TokenKlineArgs) =>
             Gmgn.TokenKline(env.backend, a.chain, a.tokenAddress, a.resolution, env.now - KlineWindow, env.now),
           (a: TokenKlineArgs, klines: Json) => KlineResponse(env.lib, a.resolution, klines))
  }

  /** One holding block of the `get-sol-wallet-holdings` answer. */
  function HoldingText(lib: Lib, holding: Json): Result<string> {
    var token :- Index(holding, "token");
    var name :- Index(token, "name");
    var symbol :- Index(token, "symbol");
    var balance :- Index(holding, "balance");
    var usd :- Index(holding, "usd_value");
    var price :- Index(holding, "price");
    var profit :- Index(holding, "total_profit");
    var last :- Index(holding, "last_active_timestamp");
    var lastText :- lib.formatTime(last);
    Ok("Token: " + Show(name) + " (" + Show(symbol) + ")\nBalance: " + Show(balance) + "\nUSD Value: $"
       + Show(usd) + "\nPrice: $" + Show(price) + "\nTotal Profit: $" + Show(profit) + "\nLast Active: "
       + lastText + "\n---\n")
  }

  function HoldingTexts(lib: Lib): Json -> Result<string> {
    holding => HoldingText(lib, holding)
  }

  const HoldingsHeader: string := "Wallet Holdings:\n\n"

  function HoldingsResponse(lib: Lib, holdings: Json): Result<string> {
    var texts :- Iterate(holdings, HoldingTexts(lib), StrSubscriptError(JStr("")));
    Ok(HoldingsHeader + Join("", texts))
  }

  /** The Gmgn holdings request for the validated arguments: one GET. */
  function WalletHoldingsService(env: Env, a: WalletHoldingsArgs): (o: Outcome<Json>)
    ensures |o.sent| == 1
  {
    Gmgn.WalletHoldings(env.backend, a.chain, a.address, a.limit, a.orderby, a.direction, a.showsmall,
                        a.sellout, a.hideAbnormal)
  }

  /** `get-sol-wallet-holdings` */
  function WalletHoldingsCall(env: Env, arguments: Json): (o: Outcome<string>)
    ensures o.result.Err? ==> Prefix(WalletHoldings) <= o.result.msg
    ensures |o.sent| <= 1
    ensures ValidationFailure(WalletHoldings, arguments).Some? ==>
              o == Outcome(Err(Prefix(WalletHoldings) + ValidationFailure(WalletHoldings, arguments).value), [])
  {
    var parsed := ParseWalletHoldings(arguments);
    assert ValidationFailure(WalletHoldings, arguments) == Failure(parsed);
    Handle(Prefix(WalletHoldings), parsed,
           (a: WalletHoldingsArgs) => WalletHoldingsService(env, a),
           (a: WalletHoldingsArgs, holdings: Json) => HoldingsResponse(env.lib, holdings))
  }

  /** `security_info.get(key)` */
  function Lookup(info: map<string, Json>, key: string): Json {
    if key in info then info[key] else JNull
  }

  /** The `get-sol-token-security` answer: the address is indexed, the
      other eight entries are read with `.get`. */
  function SecurityText(info: map<string, Json>): Result<string> {
    var address :- Index(JObj(info), "address");
    Ok("Token Security for " + Show(address) + ":\nShow Alert: " + Show(Lookup(info, "is_show_alert"))
       + "\nTop 10 Holder Rate: " + Show(Lookup(info, "top_10_holder_rate"))
       + "\nRenounced Mint: " + Show(Lookup(info, "renounced_mint"))
       + "\nRenounced Freeze Account: " + Show(Lookup(info, "renounced_freeze_account"))
       + "\nBurn Ratio: " + Show(Lookup(info, "burn_ratio"))
       + "\nBurn Status: " + Show(Lookup(info, "burn_status"))
       + "\nDev Token Burn Amount: " + Show(Lookup(info, "dev_token_burn_amount"))
       + "\nDev Token Burn Ratio: " + Show(Lookup(info, "dev_token_burn_ratio")) + "\n")
  }

  /** `get-sol-token-security` */
  function TokenSecurityCall(env: Env, arguments: Json): (o: Outcome<string>)
    ensures o.result.Err? ==> Prefix(TokenSecurity) <= o.result.msg
    ensures |o.sent| <= 1
    ensures ValidationFailure(TokenSecurity, arguments).Some? ==>
              o == Outcome(Err(Prefix(TokenSecurity) + ValidationFailure(TokenSecurity, arguments).value), [])
  {
    var parsed := ParseTokenSecurity(arguments);
    assert ValidationFailure(TokenSecurity, arguments) == Failure(parsed);
    Handle(Prefix(TokenSecurity), parsed,
           (a: TokenSecurityArgs) => Gmgn.TokenSecurity(env.backend, a.chain, a.tokenAddress),
           (a: TokenSecurityArgs, info: map<string, Json>) => SecurityText(info))
  }

  // ---------------------------------------------------------------------
  // The Solana handlers

  /** One transfer block of the `get-sol-transfers` answer. */
  function TransferText(lib: Lib, transfer: Json): Result<string> {
    var id :- Index(transfer, "transaction_id");
    var when :- Index(transfer, "datetime");
    var kind :- Index(transfer, "type");
    var from :- Index(transfer, "from");
    var to :- Index(transfer, "to");
    var token :- Index(transfer, "token");
    var amount :- Index(transfer, "amount");
    var decimals :- Index(transfer, "decimals");
    var amountText :- lib.tokenAmount(amount, decimals);
    var direction :- Index(transfer, "direction");
    Ok("Transaction: " + Show(id) + "\nTime: " + Show(when) + "\nType: " + Show(kind) + "\nFrom: " + Show(from)
       + "\nTo: " + Show(to) + "\nToken: " + Show(token) + "\nAmount: " + amountText + "\nDirection: "
       + Show(direction) + "\n---\n")
  }

  function TransferTexts(lib: Lib): Json -> Result<string> {
    transfer => TransferText(lib, transfer)
  }

  const TransfersHeader: string := "Solana Account Transfers:\n\n"

  function TransfersResponse(lib: Lib, transfers: seq<Json>): Result<string> {
    var texts :- MapAll(transfers, TransferTexts(lib));
    Ok(TransfersHeader + Join("\n", texts))
  }

  /** `get-sol-transfers` (not listed, but routed) */
  function SolTransfersCall(env: Env, arguments: Json): (o: Outcome<string>)
    ensures o.result.Err? ==> Prefix(SolTransfers) <= o.result.msg
    ensures |o.sent| <= 1
    ensures ValidationFailure(SolTransfers, arguments).Some? ==>
              o == Outcome(Err(Prefix(SolTransfers) + ValidationFailure(SolTransfers, arguments).value), [])
  {
    var parsed := ParseSolTransfers(arguments);
    assert ValidationFailure(SolTransfers, arguments) == Failure(parsed);
    Handle(Prefix(SolTransfers), parsed,
           (a: SolTransfersArgs) =>
             Solscan.AccountTransfers(env.backend, a.address, a.page, a.pageSize, a.sortBy, a.sortOrder),
           (a: SolTransfersArgs, transfers: seq<Json>) => TransfersResponse(env.lib, transfers))
  }

  const SolbeachAccountUrl: string := "https://public-api.solanabeach.io/v1/account/"

  /** The Solana Beach client's `get_address_balance`: one GET for the
      account; a falsy reply gives balance 0, otherwise the client's
      reading of the reply. Its answer is always a non-empty dict. */
  function SolbeachBalance(env: Env, address: string): Outcome<string> {
    Exchange(env.backend, HttpGet(SolbeachAccountUrl + address, map[]),
             (data: Json) => if !Truthy(data) then Ok("0") else env.lib.solbeachBalance(data))
  }

  /** `get-sol-balance` (not listed, but routed) */
  function SolBalanceCall(env: Env, arguments: Json): (o: Outcome<string>)
    ensures o.result.Err? ==> Prefix(SolBalance) <= o.result.msg
    ensures |o.sent| <= 1
    ensures ValidationFailure(SolBalance, arguments).Some? ==>
              o == Outcome(Err(Prefix(SolBalance) + ValidationFailure(SolBalance, arguments).value), [])
  {
    var parsed := ParseSolAddress(SolbeachAccountInput, arguments);
    assert ValidationFailure(SolBalance, arguments) == Failure(parsed);
    Handle(Prefix(SolBalance), parsed,
           (a: AddressArgs) => SolbeachBalance(env, a.address),
           (a: AddressArgs, balance: string) => Ok(BalanceText(a.address, balance)))
  }

  function NoAccountText(address: string): string {
    "No account info found for " + address
  }

  /** `get-sol-balance-explorer` */
  function SolBalanceExplorerCall(env: Env, arguments: Json): (o: Outcome<string>)
    ensures o.result.Err? ==> Prefix(SolBalanceExplorer) <= o.result.msg
    ensures |o.sent| <= 1
    ensures ValidationFailure(SolBalanceExplorer, arguments).Some? ==>
              o == Outcome(Err(Prefix(SolBalanceExplorer) + ValidationFailure(SolBalanceExplorer, arguments).value), [])
  {
    var parsed := ParseSolAddress(SolanaExplorerAccountInput, arguments);
    assert ValidationFailure(SolBalanceExplorer, arguments) == Failure(parsed);
    Handle(Prefix(SolBalanceExplorer), parsed,
           (a: AddressArgs) => SolanaExplorer.AddressBalance(env.backend, env.lib, a.address, env.requestId),
           (a: AddressArgs, info: Option<SolanaExplorer.AccountBalance>) =>
             Ok(match info
                case Some(b) => BalanceText(b.address, b.balance)
                case None => NoAccountText(a.address)))
  }

  // ---------------------------------------------------------------------
  // The Ave.ai handler

  /** One pair block of the `get-hot-pairs` answer. */
  function HotPairText(pair: Json): Result<string> {
    var chain :- Index(pair, "chain");
    var address :- Index(pair, "address");
    var price :- InfoIndex(pair, "price");
    var marketCap :- InfoIndex(pair, "market_cap");
    var liquidity :- InfoIndex(pair, "liquidity");
    var volume :- InfoIndex(pair, "volume");
    var holders :- InfoIndex(pair, "holder_count");
    var swaps :- InfoIndex(pair, "swaps");
    var buys :- InfoIndex(pair, "buys");
    var sells :- InfoIndex(pair, "sells");
    var smart :- InfoIndex(pair, "smart_degen_count");
    var top10 :- InfoIndex(pair, "top_10_holder_rate");
    var creatorRate :- InfoIndex(pair, "creator_balance_rate");
    Ok("Chain: " + Show(chain) + "\nAddress: " + Show(address) + "\nPrice: $" + Show(price) + "\nMarket Cap: $"
       + Show(marketCap) + "\nLiquidity: $" + Show(liquidity) + "\nVolume: $" + Show(volume) + "\nHolders: "
       + Show(holders) + "\nTrading Activity:\n  Swaps: " + Show(swaps) + "\n  Buys: " + Show(buys)
       + "\n  Sells: " + Show(sells) + "\nSmart Money Activity:\n  Smart Money Count: " + Show(smart)
       + "\nTop 10 Holders: " + Show(top10) + "%\nCreator Balance: " + Show(creatorRate) + "%\n---\n")
  }

  function HotPairTexts(): Json -> Result<string> {
    pair => HotPairText(pair)
  }

  const HotPairsHeader: string := "\n\n"

  function HotPairsResponse(pairs: seq<Json>): Result<string> {
    var texts :- MapAll(pairs, HotPairTexts());
    Ok(HotPairsHeader + Join("", texts))
  }

  /** The Ave.ai treasure-list request for the validated arguments: one GET. */
  function TreasureListService(env: Env, a: TreasureListArgs): (o: Outcome<seq<Json>>)
    ensures |o.sent| == 1
  {
    Aveai.TreasureList(env.backend, env.lib, a.marketcapMin, a.tvlMin, a.smartMoneyBuyMin,
                       a.smartMoneySellMin, a.pageNo, a.pageSize, a.category)
  }

  /** `get-hot-pairs` and `get-pairs` */
  function TreasureListCall(env: Env, arguments: Json): (o: Outcome<string>)
    ensures o.result.Err? ==> Prefix(TreasureList) <= o.result.msg
    ensures |o.sent| <= 1
    ensures ValidationFailure(TreasureList, arguments).Some? ==>
              o == Outcome(Err(Prefix(TreasureList) + ValidationFailure(TreasureList, arguments).value), [])
  {
    var parsed := ParseTreasureList(arguments);
    assert ValidationFailure(TreasureList, arguments) == Failure(parsed);
    Handle(Prefix(TreasureList), parsed,
           (a: TreasureListArgs) => TreasureListService(env, a),
           (a: TreasureListArgs, pairs: seq<Json>) => HotPairsResponse(pairs))
  }

  // ---------------------------------------------------------------------
  // Properties of the catalogue and of routing

  /** The catalogue lists each name once. */
  lemma CatalogueNamesDistinct()
    ensures |Catalogue| == 13
    ensures forall i, k :: 0 <= i < k < |Catalogue| ==> Catalogue[i].name != Catalogue[k].name
  {
  }

  /** Every listed tool is routed. */
  lemma CatalogueRouted()
    ensures forall i :: 0 <= i < |Catalogue| ==> Route(Catalogue[i].name).Some?
  {
    forall i | 0 <= i < |Catalogue| ensures Route(Catalogue[i].name).Some? {
      if i < 7 {
        assert Catalogue[i].name in ["get-eth-balance", "get-transactions", "get-token-transfers",
                                     "get-contract-abi", "get-gas-prices", "get-ens-name", "get-new-pairs"];
      } else {
        assert Catalogue[i].name in ["get-token-kline", "get-hot-pairs", "get-pairs", "get-sol-balance-explorer",
                                     "get-sol-wallet-holdings", "get-sol-token-security"];
      }
    }
  }

  /** The position of a routed, listed name in the catalogue. */
  function ListedAt(name: string): nat {
    if name == "get-eth-balance" then 0 else if name == "get-transactions" then 1
    else if name == "get-token-transfers" then 2 else if name == "get-contract-abi" then 3
    else if name == "get-gas-prices" then 4 else if name == "get-ens-name" then 5
    else if name == "get-new-pairs" then 6 else if name == "get-token-kline" then 7
    else if name == "get-hot-pairs" then 8 else if name == "get-pairs" then 9
    else if name == "get-sol-balance-explorer" then 10 else if name == "get-sol-wallet-holdings" then 11
    else 12
  }

  /** A routed name other than the two unlisted tools is listed. */
  lemma RoutedListed(name: string)
    requires Route(name).Some? && name != "get-sol-transfers" && name != "get-sol-balance"
    ensures Listed(name)
  {
    assert ListedAt(name) < |Catalogue| && Catalogue[ListedAt(name)].name == name;
  }

  /** A name neither listed nor one of the two unlisted tools fails with
      the unknown-tool text and sends nothing. */
  lemma UnknownToolRejected(env: Env, name: string, arguments: Json)
    requires !Listed(name) && name != "get-sol-transfers" && name != "get-sol-balance"
    ensures CallTool(env, name, arguments) == Outcome(Err(UnknownTool + name), [])
  {
    if Route(name).Some? {
      RoutedListed(name);
    }
  }

  /** The two unlisted tools are still served. */
  lemma UnlistedButRouted()
    ensures !Listed("get-sol-transfers") && Route("get-sol-transfers") == Some(SolTransfers)
    ensures !Listed("get-sol-balance") && Route("get-sol-balance") == Some(SolBalance)
  {
    assert forall i :: 0 <= i < |Catalogue| ==> Catalogue[i].name != "get-sol-transfers";
    assert forall i :: 0 <= i < |Catalogue| ==> Catalogue[i].name != "get-sol-balance";
  }

  /** `get-pairs` is served by the treasure-list handler, exactly as
      `get-hot-pairs`. */
  lemma PairsServedAsHotPairs(env: Env, arguments: Json)
    ensures CallTool(env, "get-pairs", arguments) == CallTool(env, "get-hot-pairs", arguments)
  {
    RoutePairs();
  }

  lemma RoutePairs()
    ensures Route("get-pairs") == Some(TreasureList) && Route("get-hot-pairs") == Some(TreasureList)
  {
  }

  /** The catalogue advertises the new-pairs schema for `get-pairs`, while
      its handler validates against the treasure-list model (see
      `LimitOnlyNewPairs`). */
  lemma PairsSchemaMismatch()
    ensures Catalogue[9].name == "get-pairs" && Catalogue[9].schema == ModelSchema(GetNewPairsInput)
    ensures Catalogue[8].name == "get-hot-pairs" && Catalogue[8].schema == ModelSchema(GetTreasureListInput)
    ensures Route("get-pairs") == Route("get-hot-pairs")
  {
    RoutePairs();
  }

  /** A limit of 1000 is rejected by the new-pairs model that `get-pairs`
      advertises, and accepted by the treasure-list model it validates
      with, which does not declare `limit`. */
  lemma LimitOnlyNewPairs()
    ensures ParseNewPairs(JObj(map["limit" := JInt(1000)])).Err?
    ensures ParseTreasureList(JObj(map["limit" := JInt(1000)])).Ok?
  {
    var m: map<string, Json> := map["limit" := JInt(1000)];
    assert IntField(m, "limit", 10, Some(1), Some(100)).Invalid?;
    TreasureListIgnoresUndeclared(map[], "limit", JInt(1000));
    assert map[]["limit" := JInt(1000)] == m;
  }

  // ---------------------------------------------------------------------
  // Properties of the handlers



  /** `get-gas-prices` reads no arguments. */
  lemma GasIgnoresArguments(env: Env, a: Json, b: Json)
    ensures Dispatch(env, GasPrices, a) == Dispatch(env, GasPrices, b)
    ensures Dispatch(env, GasPrices, a).sent == Etherscan.GasOracle(env.backend, env.etherscanKey).sent
  {
  }

  /** `get-token-transfers` never reaches the service: valid arguments
      fail on the undeclared `limit`, invalid ones on validation, and
      nothing is sent either way. */
  lemma TokenTransfersNeverSent(arguments: Json)
    ensures TokenTransfersCall(arguments).sent == []
    ensures TokenTransfersCall(arguments).result.Err?
    ensures ParseEthAddress(TokenTransferInput, arguments).Ok? ==>
              TokenTransfersCall(arguments).result.msg
              == UnknownTool + NoAttributeText("TokenTransferInput", "limit")
  {
  }

  /** `get-ens-name` never names an address: a valid address the web3
      check accepts always gets the not-found text, without a request. */
  lemma EnsNeverNamed(env: Env, arguments: Json)
    ensures EnsNameCall(env, arguments).sent == []
    ensures EnsNameCall(env, arguments).result.Ok? <==>
              ParseEthAddress(ENSNameInput, arguments).Ok?
              && env.lib.isAddress(ParseEthAddress(ENSNameInput, arguments).value.address)
    ensures EnsNameCall(env, arguments).result.Ok? ==>
              EnsNameCall(env, arguments).result.value
              == "No ENS name found for " + ParseEthAddress(ENSNameInput, arguments).value.address
  {
    if ParseEthAddress(ENSNameInput, arguments).Ok? {
      Etherscan.EnsNameNeverResolves(env.lib, ParseEthAddress(ENSNameInput, arguments).value.address);
    }
  }

  /** The not-found text of `get-transactions` is never produced: the
      service never hands back an empty history, so an answer always lists
      transactions. */
  lemma TransactionsAlwaysListed(env: Env, arguments: Json)
    ensures TransactionsCall(env, arguments).result.Ok? ==>
              ParseTransactionHistory(arguments).Ok?
              && TransactionsHeader + ParseTransactionHistory(arguments).value.address + ":\n\n"
                 <= TransactionsCall(env, arguments).result.value
  {
    var parsed := ParseTransactionHistory(arguments);
    if parsed.Ok? {
      var a := parsed.value;
      Etherscan.TransactionHistoryNonEmpty(env.lib, env.backend, env.etherscanKey, a.address, a.startblock,
                                           a.endblock, a.page, a.offset, a.sort);
    }
  }

  /** A listing of blocks (a header and the blocks joined by a separator)
      holds every block, whole, at its offset. */
  lemma ListingHolds(text: string, header: string, sep: string, blocks: seq<string>, k: nat)
    requires text == header + Join(sep, blocks)
    requires k < |blocks|
    ensures var off := |header| + JoinOffset(sep, blocks, k);
            && off + |blocks[k]| <= |text|
            && text[off..off + |blocks[k]|] == blocks[k]
  {
    JoinContains(sep, blocks, k);
    var start := JoinOffset(sep, blocks, k);
    SliceAfterPrefix(header, Join(sep, blocks), start, start + |blocks[k]|);
  }

  /** The `get-transactions` answer shows every transaction the service
      returned, each as its block, in order. */
  lemma TransactionsShowEach(address: string, txs: seq<Etherscan.Transaction>, k: nat)
    requires k < |txs|
    ensures var text := TransactionsText(address, txs);
            var block := TxTexts(txs)[k];
            var off := |TransactionsHeader + address + ":\n\n"| + JoinOffset("\n", TxTexts(txs), k);
            && block == TxText(txs[k])
            && off + |block| <= |text|
            && text[off..off + |block|] == block
  {
    ListingHolds(TransactionsText(address, txs), TransactionsHeader + address + ":\n\n", "\n", TxTexts(txs), k);
  }

  /** The k-th block sits, whole, at its offset after the header. */
  predicate BlockAt(text: string, header: string, sep: string, blocks: seq<string>, k: nat) {
    k < |blocks|
    && var off := |header| + JoinOffset(sep, blocks, k);
       off + |blocks[k]| <= |text| && text[off..off + |blocks[k]|] == blocks[k]
  }

  /** A listing rendered record by record shows every record: when each
      record renders, the k-th block is the rendering of the k-th record
      and sits, whole, at its offset after the header. */
  lemma ListingShowsEach<T>(header: string, sep: string, xs: seq<T>, f: T -> Result<string>, text: string, k: nat)
    requires MapAll(xs, f).Ok?
    requires text == header + Join(sep, MapAll(xs, f).value)
    requires k < |xs|
    ensures var blocks := MapAll(xs, f).value;
            && |blocks| == |xs| && f(xs[k]) == Ok(blocks[k])
            && BlockAt(text, header, sep, blocks, k)
  {
    MapAllOk(xs, f);
    ListingHolds(text, header, sep, MapAll(xs, f).value, k);
  }

  /** The `get-new-pairs` answer renders exactly when every pair does, and
      then shows each pair's block, in order, after its header. */
  lemma NewPairsShowEach(lib: Lib, pairs: seq<Json>, k: nat)
    requires k < |pairs|
    ensures NewPairsText(lib, pairs).Ok? <==> forall i :: 0 <= i < |pairs| ==> PairText(lib, pairs[i]).Ok?
    ensures NewPairsText(lib, pairs).Ok? ==>
              var blocks := MapAll(pairs, PairTexts(lib)).value;
              var text := NewPairsText(lib, pairs).value;
              && |blocks| == |pairs| && PairText(lib, pairs[k]) == Ok(blocks[k])
              && BlockAt(text, NewPairsHeader, "\n", blocks, k)
  {
    MapAllOk(pairs, PairTexts(lib));
    if NewPairsText(lib, pairs).Ok? {
      ListingShowsEach(NewPairsHeader, "\n", pairs, PairTexts(lib), NewPairsText(lib, pairs).value, k);
    }
  }

  /** The `get-token-kline` answer over a candle list renders exactly when
      every candle does, and then shows each candle's block, in order,
      after the header naming the resolution. */
  lemma KlineShowsEach(lib: Lib, resolution: string, candles: seq<Json>, k: nat)
    requires k < |candles|
    ensures KlineResponse(lib, resolution, JList(candles)).Ok? <==>
            forall i :: 0 <= i < |candles| ==> KlineText(lib, candles[i]).Ok?
    ensures KlineResponse(lib, resolution, JList(candles)).Ok? ==>
              var blocks := MapAll(candles, KlineTexts(lib)).value;
              var text := KlineResponse(lib, resolution, JList(candles)).value;
              && |blocks| == |candles| && KlineText(lib, candles[k]) == Ok(blocks[k])
              && BlockAt(text, KlineHeader(resolution), "\n", blocks, k)
  {
    MapAllOk(candles, KlineTexts(lib));
    if KlineResponse(lib, resolution, JList(candles)).Ok? {
      ListingShowsEach(KlineHeader(resolution), "\n", candles, KlineTexts(lib),
                       KlineResponse(lib, resolution, JList(candles)).value, k);
    }
  }

  /** The `get-sol-wallet-holdings` answer over a holdings list renders
      exactly when every holding does, and then shows each holding's block,
      in order, with no separator. */
  lemma HoldingsShowEach(lib: Lib, holdings: seq<Json>, k: nat)
    requires k < |holdings|
    ensures HoldingsResponse(lib, JList(holdings)).Ok? <==>
            forall i :: 0 <= i < |holdings| ==> HoldingText(lib, holdings[i]).Ok?
    ensures HoldingsResponse(lib, JList(holdings)).Ok? ==>
              var blocks := MapAll(holdings, HoldingTexts(lib)).value;
              var text := HoldingsResponse(lib, JList(holdings)).value;
              && |blocks| == |holdings| && HoldingText(lib, holdings[k]) == Ok(blocks[k])
              && BlockAt(text, HoldingsHeader, "", blocks, k)
  {
    MapAllOk(holdings, HoldingTexts(lib));
    if HoldingsResponse(lib, JList(holdings)).Ok? {
      ListingShowsEach(HoldingsHeader, "", holdings, HoldingTexts(lib),
                       HoldingsResponse(lib, JList(holdings)).value, k);
    }
  }

  /** The `get-sol-transfers` answer renders exactly when every transfer
      does, and then shows each transfer's block, in order. */
  lemma TransfersShowEach(lib: Lib, transfers: seq<Json>, k: nat)
    requires k < |transfers|
    ensures TransfersResponse(lib, transfers).Ok? <==>
            forall i :: 0 <= i < |transfers| ==> TransferText(lib, transfers[i]).Ok?
    ensures TransfersResponse(lib, transfers).Ok? ==>
              var blocks := MapAll(transfers, TransferTexts(lib)).value;
              var text := TransfersResponse(lib, transfers).value;
              && |blocks| == |transfers| && TransferText(lib, transfers[k]) == Ok(blocks[k])
              && BlockAt(text, TransfersHeader, "\n", blocks, k)
  {
    MapAllOk(transfers, TransferTexts(lib));
    if TransfersResponse(lib, transfers).Ok? {
      ListingShowsEach(TransfersHeader, "\n", transfers, TransferTexts(lib),
                       TransfersResponse(lib, transfers).value, k);
    }
  }

  /** The `get-hot-pairs` answer renders exactly when every pair does, and
      then shows each pair's block, in order, with no separator. */
  lemma HotPairsShowEach(pairs: seq<Json>, k: nat)
    requires k < |pairs|
    ensures HotPairsResponse(pairs).Ok? <==> forall i :: 0 <= i < |pairs| ==> HotPairText(pairs[i]).Ok?
    ensures HotPairsResponse(pairs).Ok? ==>
              var blocks := MapAll(pairs, HotPairTexts()).value;
              var text := HotPairsResponse(pairs).value;
              && |blocks| == |pairs| && HotPairText(pairs[k]) == Ok(blocks[k])
              && BlockAt(text, HotPairsHeader, "", blocks, k)
  {
    MapAllOk(pairs, HotPairTexts());
    if HotPairsResponse(pairs).Ok? {
      ListingShowsEach(HotPairsHeader, "", pairs, HotPairTexts(), HotPairsResponse(pairs).value, k);
    }
  }

  /** `get-eth-balance` answers with the balance the service read for the
      address asked about, and fails exactly when the service does. */
  lemma EthBalanceAnswer(env: Env, arguments: Json)
    requires ParseEthAddress(CheckBalanceInput, arguments).Ok?
    ensures var address := ParseEthAddress(CheckBalanceInput, arguments).value.address;
            var service := Etherscan.AddressBalance(env.lib, env.backend, env.etherscanKey, address);
            var o := EthBalanceCall(env, arguments);
            && o.sent == service.sent
            && (o.result.Ok? <==> service.result.Ok?)
            && (service.result.Ok? ==> o.result == Ok(BalanceText(address, service.result.value.balanceInEth)))
  {
  }

  /** `get-contract-abi` answers with the address asked about and the
      re-encoded ABI the service decoded, and fails exactly when the
      service does. */
  lemma ContractAbiAnswer(env: Env, arguments: Json)
    requires ParseEthAddress(ContractInput, arguments).Ok?
    ensures var address := ParseEthAddress(ContractInput, arguments).value.address;
            var service := Etherscan.ContractAbi(env.lib, env.backend, env.etherscanKey, address);
            var o := ContractAbiCall(env, arguments);
            && o.sent == service.sent
            && (o.result.Ok? <==> service.result.Ok?)
            && (service.result.Ok? ==>
                  o.result == Ok("Contract ABI for " + address + ":\n\n" + env.lib.jsonDumps(service.result.value.abi)))
  {
  }

  /** `get-gas-prices` shows the three prices the oracle returned, and fails
      exactly when the oracle does. */
  lemma GasPricesAnswer(env: Env)
    ensures var service := Etherscan.GasOracle(env.backend, env.etherscanKey);
            var o := GasPricesCall(env);
            && o.sent == service.sent
            && (o.result.Ok? <==> service.result.Ok?)
            && (service.result.Ok? ==> o.result == Ok(GasText(service.result.value)))
  {
  }

  /** `get-sol-balance` never answers "No account info found": the Solana
      Beach client always returns an address and a balance; a falsy reply
      shows balance 0. One GET for the account is sent. */
  lemma SolBalanceAlwaysFound(env: Env, arguments: Json)
    requires ParseSolAddress(SolbeachAccountInput, arguments).Ok?
    ensures var address := ParseSolAddress(SolbeachAccountInput, arguments).value.address;
            var o := SolBalanceCall(env, arguments);
            var req := HttpGet(SolbeachAccountUrl + address, map[]);
            && o.sent == [req]
            && (o.result.Ok? ==> exists balance :: o.result.value == BalanceText(address, balance))
            && (env.backend(req).Ok? && !Truthy(env.backend(req).value) ==>
                  o.result == Ok(BalanceText(address, "0")))
  {
    var address := ParseSolAddress(SolbeachAccountInput, arguments).value.address;
    var fetched := SolbeachBalance(env, address);
    if fetched.result.Ok? {
      assert SolBalanceCall(env, arguments).result.value == BalanceText(address, fetched.result.value);
    }
  }

  /** `get-sol-balance-explorer` answers with the balance of the address
      asked for, or says no account was found exactly when the explorer's
      reply holds none. */
  lemma ExplorerBalanceOfAddress(env: Env, arguments: Json)
    requires ParseSolAddress(SolanaExplorerAccountInput, arguments).Ok?
    ensures var address := ParseSolAddress(SolanaExplorerAccountInput, arguments).value.address;
            var service := SolanaExplorer.AddressBalance(env.backend, env.lib, address, env.requestId);
            var o := SolBalanceExplorerCall(env, arguments);
            && o.sent == service.sent
            && (service.result == Ok(None) ==> o.result == Ok(NoAccountText(address)))
            && (service.result.Ok? && service.result.value.Some? ==>
                  o.result == Ok(BalanceText(address, service.result.value.value.balance)))
  {
    var address := ParseSolAddress(SolanaExplorerAccountInput, arguments).value.address;
    var service := SolanaExplorer.AddressBalance(env.backend, env.lib, address, env.requestId);
    var accounts := SolanaExplorer.MultipleAccounts(env.backend, [address], env.requestId);
    if service.result.Ok? && service.result.value.Some? {
      SolanaExplorer.BalanceFound(env.lib, address, accounts.result.value);
    }
  }

  /** `get-new-pairs` asks GMGN for the default launchpad "pump": the
      handler passes every validated argument but that one. */
  lemma NewPairsAsksPump(env: Env, arguments: Json)
    requires ParseNewPairs(arguments).Ok?
    ensures var o := NewPairsCall(env, arguments);
            && |o.sent| == 1 && o.sent[0].HttpGet?
            && o.sent[0].query["launchpad"] == JStr("pump")
            && o.sent[0].query["limit"] == JInt(ParseNewPairs(arguments).value.limit)
  {
  }

  /** `get-token-kline` asks for the thirty days up to the current time. */
  lemma KlineAsksLastThirtyDays(env: Env, arguments: Json)
    requires ParseTokenKline(arguments).Ok?
    ensures var o := TokenKlineCall(env, arguments);
            && |o.sent| == 1 && o.sent[0].HttpGet?
            && o.sent[0].query["from"] == JInt(env.now - 2592000)
            && o.sent[0].query["to"] == JInt(env.now)
  {
  }

  /** The token-security answer cannot fail once the service answers: the
      service's record always holds the address it indexes. */
  lemma SecurityAlwaysRenders(env: Env, arguments: Json)
    requires ParseTokenSecurity(arguments).Ok?
    ensures var a := ParseTokenSecurity(arguments).value;
            var service := Gmgn.TokenSecurity(env.backend, a.chain, a.tokenAddress);
            TokenSecurityCall(env, arguments).result.Ok? <==> service.result.Ok?
  {
    var a := ParseTokenSecurity(arguments).value;
    var service := Gmgn.TokenSecurity(env.backend, a.chain, a.tokenAddress);
    if service.result.Ok? {
      var fetched := Gmgn.Fetch(env.backend, Gmgn.SecurityPath(a.chain, a.tokenAddress), map[]);
      Gmgn.SecurityRecordIff(fetched.result.value);
      assert Gmgn.SecurityKeys[0] == "address";
      assert "address" in service.result.value;
    }
  }

  /** Every transfer the Solscan client formats can be rendered: the
      handler reads only entries the formatted record carries, so a
      transfer block fails only when the amount cannot be scaled. */
  lemma TransferRendersRecord(lib: Lib, transfer: Json)
    requires Solscan.TransferRecord(transfer).Ok?
    ensures var r := Solscan.TransferRecord(transfer).value;
            && r.JObj? && "amount" in r.fields && "decimals" in r.fields
            && (TransferText(lib, r).Ok? <==> lib.tokenAmount(r.fields["amount"], r.fields["decimals"]).Ok?)
  {
    Solscan.TransferRecordRenames(transfer);
    var r := Solscan.TransferRecord(transfer).value;
    RecordNames();
    assert "transaction_id" in r.fields && "datetime" in r.fields && "type" in r.fields;
    assert "from" in r.fields && "to" in r.fields && "token" in r.fields;
    assert "decimals" in r.fields && "amount" in r.fields && "direction" in r.fields;
  }

  lemma RecordNames()
    ensures var names := Names(Solscan.TransferFields);
            && "transaction_id" in names && "datetime" in names && "type" in names
            && "from" in names && "to" in names && "token" in names
            && "decimals" in names && "amount" in names && "direction" in names
  {
    var fields := Solscan.TransferFields;
    assert fields[1].name == "transaction_id" && fields[3].name == "datetime" && fields[4].name == "type";
    assert fields[5].name == "from" && fields[6].name == "to" && fields[7].name == "token";
    assert fields[8].name == "decimals" && fields[9].name == "amount" && fields[10].name == "direction";
  }

  /** The hot-pair block renders whenever the pair holds the entries it
      reads; it calls no conversion that could fail. */
  lemma HotPairTextOk(pair: map<string, Json>)
    requires "chain" in pair && "address" in pair && "base_token_info" in pair
    requires pair["base_token_info"].JObj?
    requires var info := pair["base_token_info"].fields;
             && "price" in info && "market_cap" in info && "liquidity" in info && "volume" in info
             && "holder_count" in info && "swaps" in info && "buys" in info && "sells" in info
             && "smart_degen_count" in info && "top_10_holder_rate" in info && "creator_balance_rate" in info
    ensures HotPairText(JObj(pair)).Ok?
  {
  }

  /** A pair built from the Ave.ai literals holds every entry the hot-pair
      block reads. */
  lemma HotPairRendersEntries(id: Json, address: Json, chain: Json, amm: Json, quoteReserve: Json,
                              initialLiquidity: Json, tvl: Json, quoteSymbol: Json,
                              symbol: Json, logo: Json, price: Json, holders: Json, marketCap: Json,
                              liquidity: Json, volume: Json, swaps: Json, buys: Json, sells: Json,
                              top10: Json, creatorRate: Json, smartDegens: Json)
    ensures var info := Aveai.InfoEntries(symbol, logo, price, holders, marketCap, liquidity, volume, swaps,
                                          buys, sells, top10, creatorRate, smartDegens);
            HotPairText(JObj(Aveai.PairEntries(id, address, chain, amm, quoteReserve, initialLiquidity, tvl,
                                               quoteSymbol, JObj(info)))).Ok?
  {
    HotPairTextOk(Aveai.PairEntries(id, address, chain, amm, quoteReserve, initialLiquidity, tvl, quoteSymbol,
                                    JObj(Aveai.InfoEntries(symbol, logo, price, holders, marketCap, liquidity,
                                                           volume, swaps, buys, sells, top10, creatorRate,
                                                           smartDegens))));
  }

  /** Every pair the Ave.ai client formats renders as a hot-pair block. */
  lemma HotPairRendersRecord(lib: Lib, pair: Json)
    requires Aveai.TreasureRecord(lib, pair).Ok?
    ensures HotPairText(Aveai.TreasureRecord(lib, pair).value).Ok?
  {
    Aveai.TreasureRecordParts(lib, pair);
    Aveai.TreasureTokenInfoParts(lib, pair);
    var m := pair.fields;
    HotPairRendersEntries(m["pair"], m["target_token"], m["chain"], m["amm"],
                          Aveai.FloatOf(lib, pair, "reserve1").value, Aveai.FloatOf(lib, pair, "init_tvl").value,
                          Aveai.FloatOf(lib, pair, "tvl").value, m["token1_symbol"],
                          m["token0_symbol"], m["token0_logo_url"],
                          Aveai.FloatOf(lib, pair, "current_price_usd").value, Aveai.IntOf(pair, "holders").value,
                          Aveai.FloatOf(lib, pair, "market_cap").value, Aveai.FloatOf(lib, pair, "tvl").value,
                          Aveai.FloatOf(lib, pair, "volume_u_24h").value, Aveai.IntOf(pair, "tx_24h_count").value,
                          Aveai.IntOf(pair, "buys_tx_24h_count").value,
                          Aveai.IntOf(pair, "sells_tx_24h_count").value,
                          Aveai.FloatOf(lib, pair, "holders_top10_ratio").value,
                          Aveai.FloatOf(lib, pair, "dev_balance_ratio_cur").value,
                          Aveai.IntOf(pair, "smart_money_buy_count_24h").value);
  }

  /** `get-hot-pairs` fails only when the Ave.ai client does: every pair it
      hands back renders. */
  lemma {:induction false} HotPairsRender(lib: Lib, listed: seq<Json>)
    requires MapAll(listed, Aveai.TreasureRecords(lib)).Ok?
    ensures HotPairsResponse(MapAll(listed, Aveai.TreasureRecords(lib)).value).Ok?
  {
    var records := MapAll(listed, Aveai.TreasureRecords(lib)).value;
    MapAllOk(listed, Aveai.TreasureRecords(lib));
    forall i | 0 <= i < |records| ensures HotPairTexts()(records[i]).Ok? {
      HotPairRendersRecord(lib, listed[i]);
    }
    MapAllOk(records, HotPairTexts());
  }
}
