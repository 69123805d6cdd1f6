/** The tool input models of the server (pydantic models): each declared
    field with its type, default and constraints, and the validation that
    `Model(**arguments)` performs. Extra arguments are ignored; every field
    is checked and all failures are reported together. */
module Inputs {
  import opened Json

  // ---------------------------------------------------------------------
  // The Ethereum address pattern `^0x[a-fA-F0-9]{40}$`.

  predicate IsHexDigit(c: char) {
    '0' <= c <= '9' || 'a' <= c <= 'f' || 'A' <= c <= 'F'
  }

  /** `0x` followed by exactly 40 hexadecimal digits of either case. */
  predicate IsEthAddress(s: string) {
    |s| == 42 && s[0] == '0' && s[1] == 'x' && forall i :: 2 <= i < 42 ==> IsHexDigit(s[i])
  }

  const AddressRegexText: string := "^0x[a-fA-F0-9]{40}$"

  /** A regular expression built from literal characters and character
      classes, each repeated a fixed number of times and anchored at both
      ends, which is all the address pattern uses. */
  datatype Atom = Char(c: char) | Class(ranges: seq<(char, char)>)
  datatype Piece = Repeat(atom: Atom, count: nat)

  predicate AtomMatches(a: Atom, c: char) {
    match a
    case Char(d) => c == d
    case Class(rs) => exists k :: 0 <= k < |rs| && rs[k].0 <= c <= rs[k].1
  }

  /** Whether the whole of `s` matches the anchored pattern. */
  predicate Matches(pattern: seq<Piece>, s: string)
    decreases |s|, |pattern|
  {
    if pattern == [] then s == []
    else if pattern[0].count == 0 then Matches(pattern[1..], s)
    else
      s != [] && AtomMatches(pattern[0].atom, s[0])
      && Matches([Repeat(pattern[0].atom, pattern[0].count - 1)] + pattern[1..], s[1..])
  }

  /** `^0x[a-fA-F0-9]{40}$` as pieces. */
  const AddressPattern: seq<Piece> :=
    [Repeat(Char('0'), 1), Repeat(Char('x'), 1),
     Repeat(Class([('a', 'f'), ('A', 'F'), ('0', '9')]), 40)]

  lemma HexClassIsHexDigit(c: char)
    ensures AtomMatches(Class([('a', 'f'), ('A', 'F'), ('0', '9')]), c) <==> IsHexDigit(c)
  {
    var rs := [('a', 'f'), ('A', 'F'), ('0', '9')];
    if IsHexDigit(c) {
      if 'a' <= c <= 'f' { assert rs[0].0 <= c <= rs[0].1; }
      else if 'A' <= c <= 'F' { assert rs[1].0 <= c <= rs[1].1; }
      else { assert rs[2].0 <= c <= rs[2].1; }
    }
  }

  /** `[a-fA-F0-9]{n}$` matches exactly the strings of n hexadecimal digits. */
  lemma {:induction false} HexRunMatches(n: nat, s: string)
    ensures Matches([Repeat(Class([('a', 'f'), ('A', 'F'), ('0', '9')]), n)], s) <==>
            |s| == n && forall i :: 0 <= i < |s| ==> IsHexDigit(s[i])
    decreases n
  {
    var hex := Class([('a', 'f'), ('A', 'F'), ('0', '9')]);
    var p := [Repeat(hex, n)];
    if n == 0 {
      assert p[1..] == [];
    } else {
      assert [Repeat(hex, n - 1)] + p[1..] == [Repeat(hex, n - 1)];
      if s != [] {
        HexRunMatches(n - 1, s[1..]);
        HexClassIsHexDigit(s[0]);
        if |s| == n && (forall i :: 0 <= i < |s[1..]| ==> IsHexDigit(s[1..][i])) && IsHexDigit(s[0]) {
          forall i | 0 <= i < |s| ensures IsHexDigit(s[i]) {
            if i > 0 { assert s[i] == s[1..][i - 1]; }
          }
        }
      }
    }
  }

  /** The pattern the input models declare accepts exactly the strings
      `IsEthAddress` describes: 42 characters, `0x`, then 40 hex digits. */
  lemma AddressPatternAgrees(s: string)
    ensures Matches(AddressPattern, s) <==> IsEthAddress(s)
  {
    var hex := Class([('a', 'f'), ('A', 'F'), ('0', '9')]);
    var rest := [Repeat(hex, 40)];
    assert AddressPattern[1..] == [Repeat(Char('x'), 1)] + rest;
    assert [Repeat(Char('0'), 0)] + AddressPattern[1..] == [Repeat(Char('0'), 0), Repeat(Char('x'), 1)] + rest;
    assert ([Repeat(Char('0'), 0), Repeat(Char('x'), 1)] + rest)[1..] == [Repeat(Char('x'), 1)] + rest;
    assert ([Repeat(Char('x'), 1)] + rest)[1..] == rest;
    assert [Repeat(Char('x'), 0)] + rest == [Repeat(Char('x'), 0), Repeat(hex, 40)];
    assert [Repeat(Char('x'), 0), Repeat(hex, 40)][1..] == rest;
    if |s| >= 2 {
      HexRunMatches(40, s[2..]);
      assert s[1..][1..] == s[2..];
      assert s[1..][0] == s[1];
      var zero := [Repeat(Char('0'), 0)] + AddressPattern[1..];
      var x1 := [Repeat(Char('x'), 1)] + rest;
      var x0 := [Repeat(Char('x'), 0)] + rest;
      assert Matches(AddressPattern, s) == (s[0] == '0' && Matches(zero, s[1..]));
      assert Matches(zero, s[1..]) == Matches(x1, s[1..]);
      assert Matches(x1, s[1..]) == (s[1] == 'x' && Matches(x0, s[2..]));
      assert Matches(x0, s[2..]) == Matches(rest, s[2..]);
      if |s| == 42 {
        assert (forall i :: 0 <= i < 40 ==> IsHexDigit(s[2..][i])) <==>
               (forall i :: 2 <= i < 42 ==> IsHexDigit(s[i])) by {
          forall i | 2 <= i < 42 ensures s[i] == s[2..][i - 2] { }
        }
      }
    } else if |s| == 1 {
      assert s[1..] == [];
      assert !Matches([Repeat(Char('x'), 1)] + rest, []);
      assert !Matches([Repeat(Char('0'), 0)] + AddressPattern[1..], []);
    }
  }

  // ---------------------------------------------------------------------
  // Field validation.

  /** The input models the server declares. */
  datatype InputModel =
    | CheckBalanceInput
    | TransactionHistoryInput
    | TokenTransferInput
    | ContractInput
    | ENSNameInput
    | SolbeachAccountInput
    | SolanaExplorerAccountInput
    | GetWalletHoldingsInput
    | GetNewPairsInput
    | GetTokenKlineInput
    | GetSOLTransfersInput
    | GetSOLTokenSecurityInput
    | GetTreasureListInput

  function ModelName(m: InputModel): string {
    match m
    case CheckBalanceInput => "CheckBalanceInput"
    case TransactionHistoryInput => "TransactionHistoryInput"
    case TokenTransferInput => "TokenTransferInput"
    case ContractInput => "ContractInput"
    case ENSNameInput => "ENSNameInput"
    case SolbeachAccountInput => "SolbeachAccountInput"
    case SolanaExplorerAccountInput => "SolanaExplorerAccountInput"
    case GetWalletHoldingsInput => "GetWalletHoldingsInput"
    case GetNewPairsInput => "GetNewPairsInput"
    case GetTokenKlineInput => "GetTokenKlineInput"
    case GetSOLTransfersInput => "GetSOLTransfersInput"
    case GetSOLTokenSecurityInput => "GetSOLTokenSecurityInput"
    case GetTreasureListInput => "GetTreasureListInput"
  }

  /** One validation failure: the field (or list element) and the reason. */
  datatype FieldError = FieldError(loc: string, msg: string)

  /** A field's validated value, or its failures (at least one). */
  datatype Checked<+T> = Valid(v: T) | Invalid(first: FieldError, more: seq<FieldError>)

  function Errors<T>(c: Checked<T>): seq<FieldError> {
    match c
    case Valid(_) => []
    case Invalid(e, es) => [e] + es
  }

  const FieldRequired: string := "Field required"
  const NotAString: string := "Input should be a valid string"
  const NotAnInteger: string := "Input should be a valid integer"
  const NotABoolean: string := "Input should be a valid boolean"
  const NotAList: string := "Input should be a valid list"

  function TooSmall(bound: int): string {
    "Input should be greater than or equal to " + IntToDecimal(bound)
  }

  function TooLarge(bound: int): string {
    "Input should be less than or equal to " + IntToDecimal(bound)
  }

  function PatternMismatch(): string {
    "String should match pattern '" + AddressRegexText + "'"
  }

  /** `str(ValidationError)`: the count and model name, then each failing
      location with its reason. */
  function ValidationText(model: InputModel, errs: seq<FieldError>): string {
    IntToDecimal(|errs|) + " validation error" + (if |errs| == 1 then "" else "s")
    + " for " + ModelName(model) + ErrorLines(errs)
  }

  function ErrorLines(errs: seq<FieldError>): string {
    if errs == [] then "" else "\n" + errs[0].loc + "\n  " + errs[0].msg + ErrorLines(errs[1..])
  }

  /** `Model(**arguments)` needs a mapping. */
  function Mapping(model: InputModel, args: Json): Result<map<string, Json>> {
    match args
    case JObj(m) => Ok(m)
    case _ => Err(ModelName(model) + "() argument after ** must be a mapping, not " + TypeName(args))
  }

  /** `name: str = Field(default)`, or a required `str` when `default` is None. */
  function StrField(args: map<string, Json>, name: string, default: Option<string>): Checked<string> {
    if name !in args then
      (if default.Some? then Valid(default.value) else Invalid(FieldError(name, FieldRequired), []))
    else match args[name]
      case JStr(s) => Valid(s)
      case _ => Invalid(FieldError(name, NotAString), [])
  }

  /** `name: Optional[str] = Field(default)`: None is accepted as it is. */
  function OptStrField(args: map<string, Json>, name: string, default: string): Checked<Option<string>> {
    if name !in args then Valid(Some(default))
    else match args[name]
      case JNull => Valid(None)
      case JStr(s) => Valid(Some(s))
      case _ => Invalid(FieldError(name, NotAString), [])
  }

  /** A required `str` field constrained by the Ethereum address pattern. */
  function AddressField(args: map<string, Json>, name: string): Checked<string> {
    if name !in args then Invalid(FieldError(name, FieldRequired), [])
    else match args[name]
      case JStr(s) => if IsEthAddress(s) then Valid(s) else Invalid(FieldError(name, PatternMismatch()), [])
      case _ => Invalid(FieldError(name, NotAString), [])
  }

  function CheckBounds(name: string, n: int, ge: Option<int>, le: Option<int>): Checked<int> {
    if ge.Some? && n < ge.value then Invalid(FieldError(name, TooSmall(ge.value)), [])
    else if le.Some? && n > le.value then Invalid(FieldError(name, TooLarge(le.value)), [])
    else Valid(n)
  }

  /** `name: int = Field(default, ge=.., le=..)`; the default is not checked. */
  function IntField(args: map<string, Json>, name: string, default: int, ge: Option<int>, le: Option<int>): Checked<int> {
    if name !in args then Valid(default)
    else match args[name]
      case JInt(n) => CheckBounds(name, n, ge, le)
      case _ => Invalid(FieldError(name, NotAnInteger), [])
  }

  /** `name: Optional[int] = Field(default, ge=.., le=..)`: None passes unchecked. */
  function OptIntField(args: map<string, Json>, name: string, default: int, ge: Option<int>, le: Option<int>): Checked<Option<int>> {
    if name !in args then Valid(Some(default))
    else match args[name]
      case JNull => Valid(None)
      case JInt(n) => (match CheckBounds(name, n, ge, le) case Valid(k) => Valid(Some(k)) case Invalid(e, es) => Invalid(e, es))
      case _ => Invalid(FieldError(name, NotAnInteger), [])
  }

  function BoolField(args: map<string, Json>, name: string, default: bool): Checked<bool> {
    if name !in args then Valid(default)
    else match args[name]
      case JBool(b) => Valid(b)
      case _ => Invalid(FieldError(name, NotABoolean), [])
  }

  // ---------------------------------------------------------------------
  // What each kind of field accepts, and the value it then takes, stated
  // on the arguments alone.

  predicate Within(n: int, ge: Option<int>, le: Option<int>) {
    (ge.Some? ==> ge.value <= n) && (le.Some? ==> n <= le.value)
  }

  /** An `int` field accepts no argument, or an integer within its bounds. */
  predicate IntAccepted(m: map<string, Json>, name: string, ge: Option<int>, le: Option<int>) {
    name in m ==> m[name].JInt? && Within(m[name].i, ge, le)
  }

  /** An `Optional[int]` field accepts None as well. */
  predicate OptIntAccepted(m: map<string, Json>, name: string, ge: Option<int>, le: Option<int>) {
    name in m ==> m[name] == JNull || (m[name].JInt? && Within(m[name].i, ge, le))
  }

  /** A `str` field accepts a string, and no argument unless it is required. */
  predicate StrAccepted(m: map<string, Json>, name: string, required: bool) {
    if name in m then m[name].JStr? else !required
  }

  predicate OptStrAccepted(m: map<string, Json>, name: string) {
    name in m ==> m[name] == JNull || m[name].JStr?
  }

  predicate BoolAccepted(m: map<string, Json>, name: string) {
    name in m ==> m[name].JBool?
  }

  predicate StrListAccepted(m: map<string, Json>, name: string) {
    name in m ==> m[name].JList? && forall i :: 0 <= i < |m[name].items| ==> m[name].items[i].JStr?
  }

  /** The argument given for a field, or the field's default. */
  function IntGiven(m: map<string, Json>, name: string, default: int): int {
    if name in m && m[name].JInt? then m[name].i else default
  }

  function OptIntGiven(m: map<string, Json>, name: string, default: int): Option<int> {
    if name !in m then Some(default) else if m[name].JInt? then Some(m[name].i) else None
  }

  function StrGiven(m: map<string, Json>, name: string, default: string): string {
    if name in m && m[name].JStr? then m[name].s else default
  }

  function OptStrGiven(m: map<string, Json>, name: string, default: string): Option<string> {
    if name !in m then Some(default) else if m[name].JStr? then Some(m[name].s) else None
  }

  function BoolGiven(m: map<string, Json>, name: string, default: bool): bool {
    if name in m && m[name].JBool? then m[name].b else default
  }

  /** The failures of the elements of a `List[str]`, located as `name.i`. */
  function ElementErrors(name: string, xs: seq<Json>, from: nat): seq<FieldError>
    decreases |xs|
  {
    if xs == [] then []
    else (if xs[0].JStr? then [] else [FieldError(name + "." + IntToDecimal(from), NotAString)])
         + ElementErrors(name, xs[1..], from + 1)
  }

  function StrListField(args: map<string, Json>, name: string, default: seq<string>): Checked<seq<string>> {
    if name !in args then Valid(default)
    else match args[name]
      case JList(xs) =>
        var errs := ElementErrors(name, xs, 0);
        if errs != [] then Invalid(errs[0], errs[1..])
        else Valid(seq(|xs|, i requires 0 <= i < |xs| => if xs[i].JStr? then xs[i].s else ""))
      case _ => Invalid(FieldError(name, NotAList), [])
  }

  /** No element error means every element is a string. */
  lemma {:induction false} NoElementErrors(name: string, xs: seq<Json>, from: nat)
    ensures ElementErrors(name, xs, from) == [] <==> forall i :: 0 <= i < |xs| ==> xs[i].JStr?
    decreases |xs|
  {
    if xs != [] {
      NoElementErrors(name, xs[1..], from + 1);
      assert forall i :: 0 < i < |xs| ==> xs[i] == xs[1..][i - 1];
    }
  }

  // ---------------------------------------------------------------------
  // The models.

  /** CheckBalanceInput, TokenTransferInput, ContractInput, ENSNameInput
      (address pattern enforced) and the two Solana account models (any string). */
  datatype AddressArgs = AddressArgs(address: string)

  function ParseEthAddress(model: InputModel, args: Json): Result<AddressArgs> {
    var m :- Mapping(model, args);
    var a := AddressField(m, "address");
    if a.Invalid? then Err(ValidationText(model, Errors(a))) else Ok(AddressArgs(a.v))
  }

  function ParseSolAddress(model: InputModel, args: Json): Result<AddressArgs> {
    var m :- Mapping(model, args);
    var a := StrField(m, "address", None);
    if a.Invalid? then Err(ValidationText(model, Errors(a))) else Ok(AddressArgs(a.v))
  }

  /** The address models accept exactly an `address` argument that is `0x`
      followed by 40 hex digits, and keep it unchanged. */
  lemma EthAddressAccepted(model: InputModel, args: Json)
    ensures ParseEthAddress(model, args).Ok? <==>
            args.JObj? && "address" in args.fields && args.fields["address"].JStr?
            && IsEthAddress(args.fields["address"].s)
    ensures ParseEthAddress(model, args).Ok? ==>
            ParseEthAddress(model, args).value.address == args.fields["address"].s
  {
  }

  /** The Solana account models accept any string `address`, unchanged. */
  lemma SolAddressAccepted(model: InputModel, args: Json)
    ensures ParseSolAddress(model, args).Ok? <==>
            args.JObj? && "address" in args.fields && args.fields["address"].JStr?
    ensures ParseSolAddress(model, args).Ok? ==>
            ParseSolAddress(model, args).value.address == args.fields["address"].s
  {
  }

  datatype TransactionHistoryArgs = TransactionHistoryArgs(
    address: string, startblock: Option<int>, endblock: Option<int>,
    page: Option<int>, offset: Option<int>, sort: Option<string>)

  function ParseTransactionHistory(args: Json): Result<TransactionHistoryArgs> {
    var m :- Mapping(TransactionHistoryInput, args);
    var address := AddressField(m, "address");
    var startblock := OptIntField(m, "startblock", 0, None, None);
    var endblock := OptIntField(m, "endblock", 99999999, None, None);
    var page := OptIntField(m, "page", 1, Some(1), None);
    var offset := OptIntField(m, "offset", 10, Some(1), Some(100));
    var sort := OptStrField(m, "sort", "desc");
    var errs := Errors(address) + Errors(startblock) + Errors(endblock) + Errors(page)
                + Errors(offset) + Errors(sort);
    if errs != [] then Err(ValidationText(TransactionHistoryInput, errs))
    else Ok(TransactionHistoryArgs(address.v, startblock.v, endblock.v, page.v, offset.v, sort.v))
  }

  /** Transaction-history arguments are accepted exactly when the address
      matches the pattern, page (>= 1) and offset (1..100) are None or
      integers in range, the block numbers None or integers, and sort None
      or a string; each value is then the argument given, or 0, 99999999,
      1, 10 and "desc" when absent. */
  lemma TransactionHistoryBounds(args: Json)
    ensures ParseTransactionHistory(args).Ok? <==>
            args.JObj? && "address" in args.fields && args.fields["address"].JStr?
            && IsEthAddress(args.fields["address"].s)
            && OptIntAccepted(args.fields, "startblock", None, None)
            && OptIntAccepted(args.fields, "endblock", None, None)
            && OptIntAccepted(args.fields, "page", Some(1), None)
            && OptIntAccepted(args.fields, "offset", Some(1), Some(100))
            && OptStrAccepted(args.fields, "sort")
    ensures ParseTransactionHistory(args).Ok? ==>
            var m := args.fields;
            ParseTransactionHistory(args).value
            == TransactionHistoryArgs(m["address"].s, OptIntGiven(m, "startblock", 0),
                                      OptIntGiven(m, "endblock", 99999999), OptIntGiven(m, "page", 1),
                                      OptIntGiven(m, "offset", 10), OptStrGiven(m, "sort", "desc"))
  {
  }

  /** A numeric page below 1 or offset outside 1..100 is rejected. */
  lemma TransactionHistoryRejects(args: Json, n: int)
    requires args.JObj?
    requires ("page" in args.fields && args.fields["page"] == JInt(n) && n < 1)
             || ("offset" in args.fields && args.fields["offset"] == JInt(n) && (n < 1 || n > 100))
    ensures ParseTransactionHistory(args).Err?
  {
  }

  datatype WalletHoldingsArgs = WalletHoldingsArgs(
    chain: string, address: string, limit: int, orderby: string, direction: string,
    showsmall: bool, sellout: bool, hideAbnormal: bool)

  function ParseWalletHoldings(args: Json): Result<WalletHoldingsArgs> {
    var m :- Mapping(GetWalletHoldingsInput, args);
    var chain := StrField(m, "chain", Some("sol"));
    var address := StrField(m, "address", None);
    var limit := IntField(m, "limit", 10, Some(1), Some(100));
    var orderby := StrField(m, "orderby", Some("last_active_timestamp"));
    var direction := StrField(m, "direction", Some("desc"));
    var showsmall := BoolField(m, "showsmall", false);
    var sellout := BoolField(m, "sellout", false);
    var hideAbnormal := BoolField(m, "hide_abnormal", true);
    var errs := Errors(chain) + Errors(address) + Errors(limit) + Errors(orderby)
                + Errors(direction) + Errors(showsmall) + Errors(sellout) + Errors(hideAbnormal);
    if errs != [] then Err(ValidationText(GetWalletHoldingsInput, errs))
    else Ok(WalletHoldingsArgs(chain.v, address.v, limit.v, orderby.v, direction.v,
                               showsmall.v, sellout.v, hideAbnormal.v))
  }

  /** Wallet holdings are accepted exactly when a string address is given,
      limit is absent or an integer in 1..100, and the other fields have
      their types; each value is then the argument given, or its default
      ("sol", 10, "last_active_timestamp", "desc", false, false, true). */
  lemma WalletHoldingsBounds(args: Json)
    ensures ParseWalletHoldings(args).Ok? <==>
            args.JObj? && StrAccepted(args.fields, "address", true)
            && IntAccepted(args.fields, "limit", Some(1), Some(100))
            && StrAccepted(args.fields, "chain", false) && StrAccepted(args.fields, "orderby", false)
            && StrAccepted(args.fields, "direction", false)
            && BoolAccepted(args.fields, "showsmall") && BoolAccepted(args.fields, "sellout")
            && BoolAccepted(args.fields, "hide_abnormal")
    ensures ParseWalletHoldings(args).Ok? ==>
            var m := args.fields;
            ParseWalletHoldings(args).value
            == WalletHoldingsArgs(StrGiven(m, "chain", "sol"), m["address"].s, IntGiven(m, "limit", 10),
                                  StrGiven(m, "orderby", "last_active_timestamp"),
                                  StrGiven(m, "direction", "desc"), BoolGiven(m, "showsmall", false),
                                  BoolGiven(m, "sellout", false), BoolGiven(m, "hide_abnormal", true))
  {
  }

  const DefaultFilters: seq<string> :=
    ["not_honeypot", "pump", "renounced", "frozen", "burn", "distribed"]

  datatype NewPairsArgs = NewPairsArgs(
    chain: string, period: string, limit: int, minMarketcap: int, minSwaps1h: int,
    minHolderCount: int, filters: seq<string>, orderby: string, direction: string)

  function ParseNewPairs(args: Json): Result<NewPairsArgs> {
    var m :- Mapping(GetNewPairsInput, args);
    var chain := StrField(m, "chain", Some("sol"));
    var period := StrField(m, "period", Some("1h"));
    var limit := IntField(m, "limit", 10, Some(1), Some(100));
    var minMarketcap := IntField(m, "min_marketcap", 50000, None, None);
    var minSwaps := IntField(m, "min_swaps1h", 200, None, None);
    var minHolders := IntField(m, "min_holder_count", 100, None, None);
    var filters := StrListField(m, "filters", DefaultFilters);
    var orderby := StrField(m, "orderby", Some("holder_count"));
    var direction := StrField(m, "direction", Some("asc"));
    var errs := Errors(chain) + Errors(period) + Errors(limit) + Errors(minMarketcap)
                + Errors(minSwaps) + Errors(minHolders) + Errors(filters) + Errors(orderby)
                + Errors(direction);
    if errs != [] then Err(ValidationText(GetNewPairsInput, errs))
    else Ok(NewPairsArgs(chain.v, period.v, limit.v, minMarketcap.v, minSwaps.v, minHolders.v,
                         filters.v, orderby.v, direction.v))
  }

  /** New pairs are accepted exactly when limit is absent or an integer in
      1..100, filters absent or a list of strings only, and the other
      fields have their types; each value is then the argument given (the
      filters element by element), or its default. */
  lemma NewPairsBounds(args: Json)
    ensures ParseNewPairs(args).Ok? <==>
            args.JObj? && IntAccepted(args.fields, "limit", Some(1), Some(100))
            && StrListAccepted(args.fields, "filters")
            && StrAccepted(args.fields, "chain", false) && StrAccepted(args.fields, "period", false)
            && IntAccepted(args.fields, "min_marketcap", None, None)
            && IntAccepted(args.fields, "min_swaps1h", None, None)
            && IntAccepted(args.fields, "min_holder_count", None, None)
            && StrAccepted(args.fields, "orderby", false) && StrAccepted(args.fields, "direction", false)
    ensures ParseNewPairs(args).Ok? ==>
            var m := args.fields;
            var v := ParseNewPairs(args).value;
            && v.chain == StrGiven(m, "chain", "sol") && v.period == StrGiven(m, "period", "1h")
            && v.limit == IntGiven(m, "limit", 10) && v.minMarketcap == IntGiven(m, "min_marketcap", 50000)
            && v.minSwaps1h == IntGiven(m, "min_swaps1h", 200)
            && v.minHolderCount == IntGiven(m, "min_holder_count", 100)
            && v.orderby == StrGiven(m, "orderby", "holder_count") && v.direction == StrGiven(m, "direction", "asc")
            && ("filters" !in m ==> v.filters == DefaultFilters)
            && ("filters" in m ==> |v.filters| == |m["filters"].items|
                                   && forall i :: 0 <= i < |v.filters| ==> m["filters"].items[i] == JStr(v.filters[i]))
  {
    if args.JObj? && "filters" in args.fields && args.fields["filters"].JList? {
      NoElementErrors("filters", args.fields["filters"].items, 0);
    }
  }

  datatype TokenKlineArgs = TokenKlineArgs(chain: string, tokenAddress: string, resolution: string)

  function ParseTokenKline(args: Json): Result<TokenKlineArgs> {
    var m :- Mapping(GetTokenKlineInput, args);
    var chain := StrField(m, "chain", Some("sol"));
    var token := StrField(m, "token_address", None);
    var resolution := StrField(m, "resolution", Some("1w"));
    var errs := Errors(chain) + Errors(token) + Errors(resolution);
    if errs != [] then Err(ValidationText(GetTokenKlineInput, errs))
    else Ok(TokenKlineArgs(chain.v, token.v, resolution.v))
  }

  /** Kline arguments: a string token address is required; chain and
      resolution, when given, must be strings and otherwise are "sol" and
      "1w". */
  lemma TokenKlineDefaults(args: Json)
    ensures ParseTokenKline(args).Ok? <==>
            args.JObj? && "token_address" in args.fields && args.fields["token_address"].JStr?
            && ("chain" in args.fields ==> args.fields["chain"].JStr?)
            && ("resolution" in args.fields ==> args.fields["resolution"].JStr?)
    ensures ParseTokenKline(args).Ok? ==>
            var v := ParseTokenKline(args).value;
            && v.tokenAddress == args.fields["token_address"].s
            && v.chain == (if "chain" in args.fields then args.fields["chain"].s else "sol")
            && v.resolution == (if "resolution" in args.fields then args.fields["resolution"].s else "1w")
  {
  }

  datatype SolTransfersArgs = SolTransfersArgs(
    address: string, page: int, pageSize: int, sortBy: string, sortOrder: string)

  function ParseSolTransfers(args: Json): Result<SolTransfersArgs> {
    var m :- Mapping(GetSOLTransfersInput, args);
    var address := StrField(m, "address", None);
    var page := IntField(m, "page", 1, Some(1), None);
    var pageSize := IntField(m, "page_size", 10, Some(1), Some(50));
    var sortBy := StrField(m, "sort_by", Some("block_time"));
    var sortOrder := StrField(m, "sort_order", Some("desc"));
    var errs := Errors(address) + Errors(page) + Errors(pageSize) + Errors(sortBy) + Errors(sortOrder);
    if errs != [] then Err(ValidationText(GetSOLTransfersInput, errs))
    else Ok(SolTransfersArgs(address.v, page.v, pageSize.v, sortBy.v, sortOrder.v))
  }

  /** SOL transfers are accepted exactly when a string address is given,
      page is absent or an integer >= 1, page_size absent or an integer in
      1..50, and the sort fields absent or strings; each value is then the
      argument given, or 1, 10, "block_time" and "desc". */
  lemma SolTransfersBounds(args: Json)
    ensures ParseSolTransfers(args).Ok? <==>
            args.JObj? && StrAccepted(args.fields, "address", true)
            && IntAccepted(args.fields, "page", Some(1), None)
            && IntAccepted(args.fields, "page_size", Some(1), Some(50))
            && StrAccepted(args.fields, "sort_by", false) && StrAccepted(args.fields, "sort_order", false)
    ensures ParseSolTransfers(args).Ok? ==>
            var m := args.fields;
            ParseSolTransfers(args).value
            == SolTransfersArgs(m["address"].s, IntGiven(m, "page", 1), IntGiven(m, "page_size", 10),
                                StrGiven(m, "sort_by", "block_time"), StrGiven(m, "sort_order", "desc"))
  {
  }

  datatype TokenSecurityArgs = TokenSecurityArgs(chain: string, tokenAddress: string)

  function ParseTokenSecurity(args: Json): Result<TokenSecurityArgs> {
    var m :- Mapping(GetSOLTokenSecurityInput, args);
    var chain := StrField(m, "chain", Some("sol"));
    var token := StrField(m, "token_address", None);
    var errs := Errors(chain) + Errors(token);
    if errs != [] then Err(ValidationText(GetSOLTokenSecurityInput, errs))
    else Ok(TokenSecurityArgs(chain.v, token.v))
  }

  /** Token-security arguments: a string token address is required; the
      chain, when given, must be a string and otherwise is "sol". */
  lemma TokenSecurityDefaults(args: Json)
    ensures ParseTokenSecurity(args).Ok? <==>
            args.JObj? && "token_address" in args.fields && args.fields["token_address"].JStr?
            && ("chain" in args.fields ==> args.fields["chain"].JStr?)
    ensures ParseTokenSecurity(args).Ok? ==>
            var v := ParseTokenSecurity(args).value;
            && v.tokenAddress == args.fields["token_address"].s
            && v.chain == (if "chain" in args.fields then args.fields["chain"].s else "sol")
  {
  }

  datatype TreasureListArgs = TreasureListArgs(
    marketcapMin: int, tvlMin: int, smartMoneyBuyMin: int, smartMoneySellMin: int,
    pageNo: int, pageSize: int, category: string)

  function ParseTreasureList(args: Json): Result<TreasureListArgs> {
    var m :- Mapping(GetTreasureListInput, args);
    var marketcap := IntField(m, "marketcap_min", 100000, None, None);
    var tvl := IntField(m, "tvl_min", 100000, None, None);
    var buy := IntField(m, "smart_money_buy_count_24h_min", 0, None, None);
    var sell := IntField(m, "smart_money_sell_count_24h_min", 0, None, None);
    var pageNo := IntField(m, "page_no", 1, Some(1), None);
    var pageSize := IntField(m, "page_size", 50, Some(1), Some(100));
    var category := StrField(m, "category", Some("hot"));
    var errs := Errors(marketcap) + Errors(tvl) + Errors(buy) + Errors(sell) + Errors(pageNo)
                + Errors(pageSize) + Errors(category);
    if errs != [] then Err(ValidationText(GetTreasureListInput, errs))
    else Ok(TreasureListArgs(marketcap.v, tvl.v, buy.v, sell.v, pageNo.v, pageSize.v, category.v))
  }

  /** Treasure-list arguments are accepted exactly when page_no is absent or
      an integer >= 1, page_size absent or an integer in 1..100, the
      minimums absent or integers and category absent or a string; each
      value is then the argument given, or 100000, 100000, 0, 0, 1, 50 and
      "hot". */
  lemma TreasureListBounds(args: Json)
    ensures ParseTreasureList(args).Ok? <==>
            args.JObj? && IntAccepted(args.fields, "page_no", Some(1), None)
            && IntAccepted(args.fields, "page_size", Some(1), Some(100))
            && IntAccepted(args.fields, "marketcap_min", None, None)
            && IntAccepted(args.fields, "tvl_min", None, None)
            && IntAccepted(args.fields, "smart_money_buy_count_24h_min", None, None)
            && IntAccepted(args.fields, "smart_money_sell_count_24h_min", None, None)
            && StrAccepted(args.fields, "category", false)
    ensures ParseTreasureList(args).Ok? ==>
            var m := args.fields;
            ParseTreasureList(args).value
            == TreasureListArgs(IntGiven(m, "marketcap_min", 100000), IntGiven(m, "tvl_min", 100000),
                                IntGiven(m, "smart_money_buy_count_24h_min", 0),
                                IntGiven(m, "smart_money_sell_count_24h_min", 0),
                                IntGiven(m, "page_no", 1), IntGiven(m, "page_size", 50),
                                StrGiven(m, "category", "hot"))
  {
  }

  /** Validation looks only at the declared fields: an argument the model
      does not declare changes nothing. */
  lemma TreasureListIgnoresUndeclared(args: map<string, Json>, key: string, x: Json)
    requires key !in {"marketcap_min", "tvl_min", "smart_money_buy_count_24h_min",
                      "smart_money_sell_count_24h_min", "page_no", "page_size", "category"}
    ensures ParseTreasureList(JObj(args[key := x])) == ParseTreasureList(JObj(args))
  {
    var m := args[key := x];
    assert IntField(m, "marketcap_min", 100000, None, None) == IntField(args, "marketcap_min", 100000, None, None);
    assert IntField(m, "tvl_min", 100000, None, None) == IntField(args, "tvl_min", 100000, None, None);
    assert IntField(m, "smart_money_buy_count_24h_min", 0, None, None)
        == IntField(args, "smart_money_buy_count_24h_min", 0, None, None);
    assert IntField(m, "smart_money_sell_count_24h_min", 0, None, None)
        == IntField(args, "smart_money_sell_count_24h_min", 0, None, None);
    assert IntField(m, "page_no", 1, Some(1), None) == IntField(args, "page_no", 1, Some(1), None);
    assert IntField(m, "page_size", 50, Some(1), Some(100)) == IntField(args, "page_size", 50, Some(1), Some(100));
    assert StrField(m, "category", Some("hot")) == StrField(args, "category", Some("hot"));
  }
}
