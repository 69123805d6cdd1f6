/** What the services send to the outside world, and the library behaviour
    the model keeps abstract. An HTTP exchange is an oracle: the model says
    exactly which request goes out and what is done with the reply, but not
    what the reply is. */
module Backend {
  import opened Json

  /** An outgoing HTTP request: a GET with its query parameters, or a POST
      with its JSON body. */
  datatype Request =
    | HttpGet(url: string, query: map<string, Json>)
    | HttpPost(url: string, body: Json)

  /** The remote side: the decoded JSON body of the reply to a request, or
      the text of the exception the HTTP client or JSON decoder raises
      (connection errors, `raise_for_status`, a body that is not JSON). */
  type Transport = Request -> Result<Json>

  /** A result together with the requests that were sent to obtain it, in
      order. `sent == []` means no backend call was made. */
  datatype Outcome<+T> = Outcome(result: Result<T>, sent: seq<Request>)

  /** Sends one request and hands the reply to `accept`. */
  function Exchange<T>(backend: Transport, req: Request, accept: Json -> Result<T>): (o: Outcome<T>)
    ensures o.sent == [req]
    ensures backend(req).Err? ==> o.result == Err(backend(req).msg)
  {
    Outcome(match backend(req) case Ok(reply) => accept(reply) case Err(e) => Err(e), [req])
  }

  /** Continues with the reply a previous exchange produced. */
  function Then<T, U>(o: Outcome<T>, f: T -> Result<U>): (r: Outcome<U>)
    ensures r.sent == o.sent
    ensures o.result.Err? ==> r.result == Err(o.result.msg)
    ensures o.result.Ok? ==> r.result == f(o.result.value)
  {
    Outcome(match o.result case Ok(v) => f(v) case Err(e) => Err(e), o.sent)
  }

  /** `except Exception as error: raise Exception(f"{prefix}{str(error)}")`
      around everything an operation does. */
  function WithPrefix<T>(prefix: string, o: Outcome<T>): (r: Outcome<T>)
    ensures r.sent == o.sent
    ensures o.result.Ok? <==> r.result.Ok?
    ensures o.result.Ok? ==> r.result == o.result
    ensures o.result.Err? ==> r.result.msg == prefix + o.result.msg
  {
    Outcome(Prefixed(prefix, o.result), o.sent)
  }

  /** Library calls whose behaviour the model leaves abstract: address
      checksums, unit conversion, JSON text, clocks and floating point. */
  datatype Lib = Lib(
    /** `web3.Web3().is_address(s)` */
    isAddress: string -> bool,
    /** `str(web3.from_wei(n, 'ether'))` */
    fromWei: int -> Result<string>,
    /** `json.loads(x)` */
    jsonLoads: Json -> Result<Json>,
    /** `json.dumps(x, indent=2)` */
    jsonDumps: Json -> string,
    /** `datetime.fromtimestamp(x).strftime('%Y-%m-%d %H:%M:%S')` */
    formatTime: Json -> Result<string>,
    /** the same, for a timestamp `n` in milliseconds (`n / 1000` seconds) */
    formatMillis: int -> Result<string>,
    /** `f"{float(x):.{d}f}"` */
    fixed: (Json, nat) -> Result<string>,
    /** `f"{float(x) * 100:.{d}f}"` */
    percent: (Json, nat) -> Result<string>,
    /** `', '.join(f'{k}: {v}' for k, v in x.items() if v)` */
    socialLinks: Json -> Result<string>,
    /** `str(amount / (10 ** decimals))` */
    tokenAmount: (Json, Json) -> Result<string>,
    /** `float(x)`: the float itself is left abstract, as a JSON value */
    toFloat: Json -> Result<Json>,
    /** `str(float(x) / 1000000000)` */
    lamportsToSol: Json -> Result<string>,
    /** the balance text the Solana Beach client derives from a truthy
        reply: `str(float(data["balance"]) / 100000000)` after its other reads */
    solbeachBalance: Json -> Result<string>
  )
}
