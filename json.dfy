/** JSON-like values as the services receive them from `response.json()`, and
    the handful of Python operations the services and the server apply to
    them: truth value, `d[k]`, `d.get(k, default)`, `int(x)`, `str(x)`.
    A raised exception is modelled as `Err` carrying the text `str(e)` gives. */
module Json {

  datatype Option<+T> = None | Some(value: T)

  /** The outcome of a Python expression: its value, or the exception it
      raises, reduced to the text `str(e)` yields. */
  datatype Result<+T> = Ok(value: T) | Err(msg: string) {
    predicate IsFailure() { Err? }

    function PropagateFailure<U>(): Result<U>
      requires Err?
    {
      Err(msg)
    }

    function Extract(): T
      requires Ok?
    {
      value
    }
  }

  /** `raise Exception(f"{prefix}{str(error)}")` around a computation. */
  function Prefixed<T>(prefix: string, r: Result<T>): Result<T> {
    match r
    case Ok(v) => Ok(v)
    case Err(e) => Err(prefix + e)
  }

  datatype Json =
    | JNull
    | JBool(b: bool)
    | JInt(i: int)
    | JStr(s: string)
    | JList(items: seq<Json>)
    | JObj(fields: map<string, Json>)

  /** Python's truth value: None, False, 0, "", [] and {} are false. */
  predicate Truthy(j: Json) {
    match j
    case JNull => false
    case JBool(b) => b
    case JInt(i) => i != 0
    case JStr(s) => s != ""
    case JList(xs) => xs != []
    case JObj(m) => m != map[]
  }

  /** The name `type(x).__name__` gives. */
  function TypeName(j: Json): string {
    match j
    case JNull => "NoneType"
    case JBool(_) => "bool"
    case JInt(_) => "int"
    case JStr(_) => "str"
    case JList(_) => "list"
    case JObj(_) => "dict"
  }

  /** `str(KeyError(key))` */
  function KeyErrorText(key: string): string {
    "'" + key + "'"
  }

  /** `str(e)` of the AttributeError raised by `x.attr` on an object without it. */
  function NoAttributeText(typeName: string, attr: string): string {
    "'" + typeName + "' object has no attribute '" + attr + "'"
  }

  /** The TypeError `x[key]` raises for a string key on something that is not a dict. */
  function StrSubscriptError(j: Json): string {
    match j
    case JList(_) => "list indices must be integers or slices, not str"
    case JStr(_) => "string indices must be integers, not 'str'"
    case _ => "'" + TypeName(j) + "' object is not subscriptable"
  }

  /** `x[key]` for a string key. */
  function Index(j: Json, key: string): Result<Json> {
    match j
    case JObj(m) => if key in m then Ok(m[key]) else Err(KeyErrorText(key))
    case _ => Err(StrSubscriptError(j))
  }

  /** `x.get(key, default)`; only a dict has `get`. */
  function Get(j: Json, key: string, default: Json): Result<Json> {
    match j
    case JObj(m) => Ok(if key in m then m[key] else default)
    case _ => Err(NoAttributeText(TypeName(j), "get"))
  }

  /** `x[0]`, as the Solana explorer client applies it to `result.value`. */
  function IndexZero(j: Json): Result<Json> {
    match j
    case JList(xs) => if xs != [] then Ok(xs[0]) else Err("list index out of range")
    case JStr(s) => if s != "" then Ok(JStr([s[0]])) else Err("string index out of range")
    case JObj(m) => Err("0")
    case _ => Err("'" + TypeName(j) + "' object is not subscriptable")
  }

  /** `len(x)` succeeds on strings, lists and dicts only. */
  function Len(j: Json): Result<nat> {
    match j
    case JStr(s) => Ok(|s|)
    case JList(xs) => Ok(|xs|)
    case JObj(m) => Ok(|m|)
    case _ => Err("object of type '" + TypeName(j) + "' has no len()")
  }

  // ---------------------------------------------------------------------
  // Decimal text of integers: `str(n)` and `int(s)`.

  predicate IsDigit(c: char) {
    '0' <= c <= '9'
  }

  function DigitChar(d: nat): char
    requires d < 10
  {
    "0123456789"[d]
  }

  /** `str(n)` for a non-negative `n`. */
  function NatToDecimal(n: nat): string
    decreases n
  {
    if n < 10 then [DigitChar(n)] else NatToDecimal(n / 10) + [DigitChar(n % 10)]
  }

  /** `str(n)` for any integer. */
  function IntToDecimal(n: int): string {
    if n < 0 then "-" + NatToDecimal(-n) else NatToDecimal(n)
  }

  predicate AllDigits(s: string) {
    forall i :: 0 <= i < |s| ==> IsDigit(s[i])
  }

  /** The value of a string of decimal digits, most significant first. */
  function DigitsValue(s: string): nat
    requires AllDigits(s)
    decreases |s|
  {
    if s == [] then 0
    else DigitsValue(s[..|s| - 1]) * 10 + (s[|s| - 1] as int - '0' as int)
  }

  function InvalidIntText(s: string): string {
    "invalid literal for int() with base 10: '" + s + "'"
  }

  /** `int(s)` for a string: an optional sign followed by at least one digit. */
  function ParseInt(s: string): Result<int> {
    if s != [] && (s[0] == '-' || s[0] == '+') then
      var digits := s[1..];
      if digits != [] && AllDigits(digits) then
        Ok(if s[0] == '-' then -(DigitsValue(digits) as int) else DigitsValue(digits))
      else Err(InvalidIntText(s))
    else if s != [] && AllDigits(s) then Ok(DigitsValue(s))
    else Err(InvalidIntText(s))
  }

  /** `int(x)` for a JSON value. */
  function PyInt(j: Json): Result<int> {
    match j
    case JInt(i) => Ok(i)
    case JBool(b) => Ok(if b then 1 else 0)
    case JStr(s) => ParseInt(s)
    case _ =>
      Err("int() argument must be a string, a bytes-like object or a real number, not '"
          + TypeName(j) + "'")
  }

  lemma {:induction false} NatToDecimalDigits(n: nat)
    ensures NatToDecimal(n) != []
    ensures AllDigits(NatToDecimal(n))
    ensures DigitsValue(NatToDecimal(n)) == n
    decreases n
  {
    var s := NatToDecimal(n);
    if n < 10 {
      assert s == [DigitChar(n)];
      assert s[..0] == [];
    } else {
      var front := NatToDecimal(n / 10);
      NatToDecimalDigits(n / 10);
      assert s == front + [DigitChar(n % 10)];
      assert s[..|s| - 1] == front;
      assert DigitsValue(s) == DigitsValue(front) * 10 + (DigitChar(n % 10) as int - '0' as int);
    }
  }

  /** An unsigned run of digits reads as its value. */
  lemma ParseIntOfDigits(d: string)
    requires d != [] && AllDigits(d)
    ensures ParseInt(d) == Ok(DigitsValue(d))
  {
    assert IsDigit(d[0]);
  }

  /** A minus sign before a run of digits negates its value. */
  lemma ParseIntOfNegated(d: string)
    requires d != [] && AllDigits(d)
    ensures ParseInt("-" + d) == Ok(-(DigitsValue(d) as int))
  {
    var s := "-" + d;
    assert s[0] == '-' && s[1..] == d;
  }

  /** `int(str(n)) == n`: the decimal text the services send for a number
      reads back as that number. */
  lemma ParseIntOfDecimal(n: int)
    ensures ParseInt(IntToDecimal(n)) == Ok(n)
  {
    if n < 0 {
      var d := NatToDecimal(-n);
      NatToDecimalDigits(-n);
      ParseIntOfNegated(d);
      assert IntToDecimal(n) == "-" + d;
    } else {
      var d := NatToDecimal(n);
      NatToDecimalDigits(n);
      ParseIntOfDigits(d);
      assert IntToDecimal(n) == d;
    }
  }

  // ---------------------------------------------------------------------
  // `str(x)` and `repr(x)`, as f-strings and `str(e)` render JSON values.

  /** `str(x)`: strings as they are, None/True/False by name, integers in
      decimal, lists in Python's bracket form. A dict cannot be rendered in
      Python's insertion order from a map; it is shown as `{...}`. */
  function Show(j: Json): string
    decreases j, 1
  {
    match j
    case JStr(s) => s
    case JList(xs) => "[" + ShowItems(xs) + "]"
    case _ => Repr(j)
  }

  function Repr(j: Json): string
    decreases j, 0
  {
    match j
    case JNull => "None"
    case JBool(b) => if b then "True" else "False"
    case JInt(i) => IntToDecimal(i)
    case JStr(s) => "'" + s + "'"
    case JList(xs) => "[" + ShowItems(xs) + "]"
    case JObj(_) => "{...}"
  }

  function ShowItems(xs: seq<Json>): string
    decreases xs
  {
    if xs == [] then ""
    else if |xs| == 1 then Repr(xs[0])
    else Repr(xs[0]) + ", " + ShowItems(xs[1..])
  }

  /** `sep.join(xs)` */
  function Join(sep: string, xs: seq<string>): string {
    if xs == [] then ""
    else if |xs| == 1 then xs[0]
    else xs[0] + sep + Join(sep, xs[1..])
  }

  /** The offset at which the `k`-th element starts in `Join(sep, xs)`. */
  function JoinOffset(sep: string, xs: seq<string>, k: nat): nat
    requires k <= |xs|
  {
    if k == 0 then 0 else JoinOffset(sep, xs, k - 1) + |xs[k - 1]| + |sep|
  }

  /** A slice of `b` sits `|a|` further on in `a + b`. */
  lemma SliceAfterPrefix(a: string, b: string, i: nat, j: nat)
    requires i <= j <= |b|
    ensures (a + b)[|a| + i..|a| + j] == b[i..j]
  {
  }

  /** Every joined element appears, whole and in order, in the joined text. */
  lemma {:induction false} JoinContains(sep: string, xs: seq<string>, k: nat)
    requires k < |xs|
    ensures JoinOffset(sep, xs, k) + |xs[k]| <= |Join(sep, xs)|
    ensures Join(sep, xs)[JoinOffset(sep, xs, k)..JoinOffset(sep, xs, k) + |xs[k]|] == xs[k]
    decreases |xs|
  {
    var j := Join(sep, xs);
    if |xs| == 1 {
    } else if k == 0 {
      assert j == xs[0] + (sep + Join(sep, xs[1..]));
    } else {
      var tail := Join(sep, xs[1..]);
      JoinContains(sep, xs[1..], k - 1);
      JoinOffsetShift(sep, xs, k);
      var off := JoinOffset(sep, xs[1..], k - 1);
      assert j == (xs[0] + sep) + tail;
      assert j[|xs[0] + sep| + off..|xs[0] + sep| + off + |xs[k]|] == tail[off..off + |xs[k]|];
    }
  }

  lemma {:induction false} JoinOffsetShift(sep: string, xs: seq<string>, k: nat)
    requires 1 <= k <= |xs|
    ensures JoinOffset(sep, xs, k) == |xs[0]| + |sep| + JoinOffset(sep, xs[1..], k - 1)
    decreases k
  {
    if k > 1 {
      JoinOffsetShift(sep, xs, k - 1);
    }
  }

  /** A non-empty list of non-empty texts joins to a non-empty text that
      starts with the first one. */
  lemma {:induction false} JoinStartsWithFirst(sep: string, xs: seq<string>)
    requires xs != []
    ensures xs[0] <= Join(sep, xs)
  {
    JoinContains(sep, xs, 0);
  }
}
