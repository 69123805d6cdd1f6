/** Record projection as the services write it: a dict literal whose values
    are `src["k"]` (the key must be there), `src.get("k", default)` or a
    constant, evaluated left to right; and the `for x in xs: out.append(f(x))`
    loop that applies such a projection to every record of a reply. */
module Projection {
  import opened Json

  datatype Source =
    | Required(key: string)
    | Optional(key: string, default: Json)
    | Const(value: Json)

  /** One entry `name: <source>` of a dict literal. */
  datatype Field = Field(name: string, source: Source)

  /** The value one entry takes, or the exception evaluating it raises. */
  function Read(j: Json, src: Source): Result<Json> {
    match src
    case Required(k) => Index(j, k)
    case Optional(k, d) => Get(j, k, d)
    case Const(v) => Ok(v)
  }

  /** The dict literal `{f.name: <f.source> for f in fields}` over `j`: the
      first entry that fails decides the exception; a later entry with the
      same name overrides an earlier one. */
  function Project(j: Json, fields: seq<Field>): Result<map<string, Json>>
    decreases |fields|
  {
    if fields == [] then Ok(map[])
    else
      var v :- Read(j, fields[0].source);
      var rest :- Project(j, fields[1..]);
      Ok(map[fields[0].name := v] + rest)
  }

  function Names(fields: seq<Field>): set<string> {
    set i | 0 <= i < |fields| :: fields[i].name
  }

  /** A projection yields exactly the names of its entries as keys. */
  lemma {:induction false} ProjectKeys(j: Json, fields: seq<Field>)
    requires Project(j, fields).Ok?
    ensures Project(j, fields).value.Keys == Names(fields)
    decreases |fields|
  {
    if fields != [] {
      ProjectKeys(j, fields[1..]);
      var tail := fields[1..];
      assert Names(fields) == {fields[0].name} + Names(tail) by {
        forall n | n in Names(fields) ensures n in {fields[0].name} + Names(tail) {
          var i :| 0 <= i < |fields| && fields[i].name == n;
          if i > 0 { assert tail[i - 1].name == n; }
        }
        forall n | n in Names(tail) ensures n in Names(fields) {
          var i :| 0 <= i < |tail| && tail[i].name == n;
          assert fields[i + 1].name == n;
        }
      }
    }
  }

  /** A projection succeeds exactly when every one of its entries can be read. */
  lemma {:induction false} ProjectOkIff(j: Json, fields: seq<Field>)
    ensures Project(j, fields).Ok? <==>
            forall i :: 0 <= i < |fields| ==> Read(j, fields[i].source).Ok?
    decreases |fields|
  {
    if fields != [] {
      ProjectOkIff(j, fields[1..]);
      var tail := fields[1..];
      if Project(j, fields).Ok? {
        forall i | 0 <= i < |fields| ensures Read(j, fields[i].source).Ok? {
          if i > 0 { assert fields[i] == tail[i - 1]; }
        }
      }
      if forall i :: 0 <= i < |fields| ==> Read(j, fields[i].source).Ok? {
        forall i | 0 <= i < |tail| ensures Read(j, tail[i].source).Ok? {
          assert tail[i] == fields[i + 1];
        }
      }
    }
  }

  /** The keys a projection reads with `src["k"]`. */
  function RequiredKeys(fields: seq<Field>): set<string> {
    set i | 0 <= i < |fields| && fields[i].source.Required? :: fields[i].source.key
  }

  /** Over a dict, a projection succeeds exactly when every key it reads
      with `src["k"]` is present. */
  lemma ProjectOkOnDict(m: map<string, Json>, fields: seq<Field>)
    ensures Project(JObj(m), fields).Ok? <==> RequiredKeys(fields) <= m.Keys
  {
    ProjectOkIff(JObj(m), fields);
    if RequiredKeys(fields) <= m.Keys {
      forall i | 0 <= i < |fields| ensures Read(JObj(m), fields[i].source).Ok? {
        if fields[i].source.Required? {
          assert fields[i].source.key in RequiredKeys(fields);
        }
      }
    } else {
      var k :| k in RequiredKeys(fields) && k !in m.Keys;
      var i :| 0 <= i < |fields| && fields[i].source.Required? && fields[i].source.key == k;
      assert Read(JObj(m), fields[i].source).Err?;
    }
  }

  /** Over a dict, a failing projection raises the KeyError of the first
      required key that is missing. */
  lemma ProjectMissingKey(m: map<string, Json>, fields: seq<Field>)
    requires Project(JObj(m), fields).Err?
    ensures exists i :: 0 <= i < |fields| && fields[i].source.Required? && fields[i].source.key !in m
                        && Project(JObj(m), fields).msg == KeyErrorText(fields[i].source.key)
                        && forall k :: 0 <= k < i && fields[k].source.Required? ==> fields[k].source.key in m
  {
    ProjectFirstError(JObj(m), fields);
  }

  /** A dict literal written in two parts is evaluated part by part, the
      later part overriding names the earlier one shares. */
  lemma {:induction false} ProjectAppend(j: Json, a: seq<Field>, b: seq<Field>)
    ensures Project(j, a + b) ==
            match Project(j, a)
            case Err(e) => Err(e)
            case Ok(x) => (match Project(j, b) case Err(e) => Err(e) case Ok(y) => Ok(x + y))
    decreases |a|
  {
    if a == [] {
      assert a + b == b;
      if Project(j, b).Ok? {
        assert map[] + Project(j, b).value == Project(j, b).value;
      }
    } else {
      assert (a + b)[0] == a[0];
      assert (a + b)[1..] == a[1..] + b;
      ProjectAppend(j, a[1..], b);
      if Read(j, a[0].source).Ok? && Project(j, a[1..]).Ok? && Project(j, b).Ok? {
        var v := Read(j, a[0].source).value;
        assert map[a[0].name := v] + (Project(j, a[1..]).value + Project(j, b).value)
            == (map[a[0].name := v] + Project(j, a[1..]).value) + Project(j, b).value;
      }
    }
  }

  lemma RequiredKeysAppend(a: seq<Field>, b: seq<Field>)
    ensures RequiredKeys(a + b) == RequiredKeys(a) + RequiredKeys(b)
  {
    var ab := a + b;
    forall k | k in RequiredKeys(ab) ensures k in RequiredKeys(a) + RequiredKeys(b) {
      var i :| 0 <= i < |ab| && ab[i].source.Required? && ab[i].source.key == k;
      if i >= |a| { assert b[i - |a|] == ab[i]; }
    }
    forall k | k in RequiredKeys(b) ensures k in RequiredKeys(ab) {
      var i :| 0 <= i < |b| && b[i].source.Required? && b[i].source.key == k;
      assert ab[i + |a|] == b[i];
    }
    forall k | k in RequiredKeys(a) ensures k in RequiredKeys(ab) {
      var i :| 0 <= i < |a| && a[i].source.Required? && a[i].source.key == k;
      assert ab[i] == a[i];
    }
  }

  /** `{k: src.get(k) for k in keys}` written out entry by entry. */
  function Optionals(keys: seq<string>): seq<Field> {
    seq(|keys|, i requires 0 <= i < |keys| => Field(keys[i], Optional(keys[i], JNull)))
  }

  /** The dict such a table produces from the dict `m`. */
  function GetAll(m: map<string, Json>, keys: seq<string>): map<string, Json> {
    map k | k in keys :: if k in m then m[k] else JNull
  }

  /** A table of `.get` entries reads every key, None where `m` lacks it,
      and never fails on a dict. */
  lemma {:induction false} ProjectOptionals(m: map<string, Json>, keys: seq<string>)
    ensures Project(JObj(m), Optionals(keys)) == Ok(GetAll(m, keys))
    decreases |keys|
  {
    if keys != [] {
      assert Optionals(keys)[1..] == Optionals(keys[1..]);
      ProjectOptionals(m, keys[1..]);
      var v := if keys[0] in m then m[keys[0]] else JNull;
      assert map[keys[0] := v] + GetAll(m, keys[1..]) == GetAll(m, keys) by {
        forall k | k in keys ensures k == keys[0] || k in keys[1..] {
          var i :| 0 <= i < |keys| && keys[i] == k;
          if i > 0 { assert keys[1..][i - 1] == k; }
        }
      }
    }
  }

  /** Such a table reads no key with `src["k"]`. */
  lemma RequiredKeysOptionals(keys: seq<string>)
    ensures RequiredKeys(Optionals(keys)) == {}
  {
    assert forall i :: 0 <= i < |keys| ==> !Optionals(keys)[i].source.Required?;
  }

  /** An entry that no later entry overrides carries the value its source reads. */
  lemma {:induction false} ProjectAt(j: Json, fields: seq<Field>, i: nat)
    requires Project(j, fields).Ok?
    requires i < |fields|
    requires forall k :: i < k < |fields| ==> fields[k].name != fields[i].name
    ensures Read(j, fields[i].source).Ok?
    ensures fields[i].name in Project(j, fields).value
    ensures Project(j, fields).value[fields[i].name] == Read(j, fields[i].source).value
    decreases |fields|
  {
    var tail := fields[1..];
    if i == 0 {
      ProjectKeys(j, tail);
      assert fields[0].name !in Names(tail) by {
        forall k | 0 <= k < |tail| ensures tail[k].name != fields[0].name {
          assert tail[k] == fields[k + 1];
        }
      }
    } else {
      assert tail[i - 1] == fields[i];
      forall k | i - 1 < k < |tail| ensures tail[k].name != tail[i - 1].name {
        assert tail[k] == fields[k + 1];
      }
      ProjectAt(j, tail, i - 1);
    }
  }

  predicate DistinctNames(fields: seq<Field>) {
    forall i, k :: 0 <= i < k < |fields| ==> fields[i].name != fields[k].name
  }

  /** With no name repeated, every entry carries the value its source reads. */
  lemma ProjectAll(j: Json, fields: seq<Field>)
    requires Project(j, fields).Ok?
    requires DistinctNames(fields)
    ensures forall i :: 0 <= i < |fields| ==>
              fields[i].name in Project(j, fields).value
              && Read(j, fields[i].source).Ok?
              && Project(j, fields).value[fields[i].name] == Read(j, fields[i].source).value
  {
    forall i | 0 <= i < |fields|
      ensures fields[i].name in Project(j, fields).value
      ensures Read(j, fields[i].source).Ok?
      ensures Project(j, fields).value[fields[i].name] == Read(j, fields[i].source).value
    {
      ProjectAt(j, fields, i);
    }
  }

  /** A failed projection fails with the exception of its first unreadable entry. */
  lemma {:induction false} ProjectFirstError(j: Json, fields: seq<Field>)
    requires Project(j, fields).Err?
    ensures exists i :: 0 <= i < |fields| && Read(j, fields[i].source) == Err(Project(j, fields).msg)
                        && forall k :: 0 <= k < i ==> Read(j, fields[k].source).Ok?
    decreases |fields|
  {
    var e := Project(j, fields).msg;
    if Read(j, fields[0].source).Err? {
      assert Read(j, fields[0].source) == Err(e);
    } else {
      var tail := fields[1..];
      ProjectFirstError(j, tail);
      var i :| 0 <= i < |tail| && Read(j, tail[i].source) == Err(e)
               && forall k :: 0 <= k < i ==> Read(j, tail[k].source).Ok?;
      assert fields[i + 1] == tail[i];
      forall k | 0 <= k < i + 1 ensures Read(j, fields[k].source).Ok? {
        if k > 0 { assert fields[k] == tail[k - 1]; }
      }
    }
  }

  // ---------------------------------------------------------------------
  // Applying a per-record function to every element of a list.

  /** `[f(x) for x in xs]`, stopping at the first exception. */
  function MapAll<S, T>(xs: seq<S>, f: S -> Result<T>): Result<seq<T>>
    decreases |xs|
  {
    if xs == [] then Ok([])
    else
      var y :- f(xs[0]);
      var ys :- MapAll(xs[1..], f);
      Ok([y] + ys)
  }

  /** The output has one record per input record, in the same order, and each
      is what the per-record function makes of its input; it fails exactly
      when some record fails. */
  lemma {:induction false} MapAllOk<S, T>(xs: seq<S>, f: S -> Result<T>)
    ensures MapAll(xs, f).Ok? <==> forall i :: 0 <= i < |xs| ==> f(xs[i]).Ok?
    ensures MapAll(xs, f).Ok? ==>
              |MapAll(xs, f).value| == |xs| &&
              forall i :: 0 <= i < |xs| ==> f(xs[i]) == Ok(MapAll(xs, f).value[i])
    decreases |xs|
  {
    if xs != [] {
      var tail := xs[1..];
      MapAllOk(tail, f);
      forall i | 0 < i < |xs| ensures xs[i] == tail[i - 1] { }
    }
  }

  /** A failed run fails with the exception of its first failing record. */
  lemma {:induction false} MapAllFirstError<S, T>(xs: seq<S>, f: S -> Result<T>)
    requires MapAll(xs, f).Err?
    ensures exists i :: 0 <= i < |xs| && f(xs[i]) == Err(MapAll(xs, f).msg)
                        && forall k :: 0 <= k < i ==> f(xs[k]).Ok?
    decreases |xs|
  {
    var e := MapAll(xs, f).msg;
    if f(xs[0]).Ok? {
      var tail := xs[1..];
      MapAllFirstError(tail, f);
      var i :| 0 <= i < |tail| && f(tail[i]) == Err(e) && forall k :: 0 <= k < i ==> f(tail[k]).Ok?;
      assert xs[i + 1] == tail[i];
      forall k | 0 <= k < i + 1 ensures f(xs[k]).Ok? {
        if k > 0 { assert xs[k] == tail[k - 1]; }
      }
    }
  }

  /** One more iteration of the append loop. */
  lemma {:induction false} MapAllAppend<S, T>(xs: seq<S>, x: S, f: S -> Result<T>)
    ensures MapAll(xs + [x], f) ==
            match MapAll(xs, f)
            case Err(e) => Err(e)
            case Ok(ys) => (match f(x) case Err(e) => Err(e) case Ok(y) => Ok(ys + [y]))
    decreases |xs|
  {
    if xs == [] {
      assert xs + [x] == [x] && [x][1..] == [];
      if f(x).Ok? {
        var none: seq<T> := [];
        assert [f(x).value] + none == none + [f(x).value];
      }
    } else {
      assert (xs + [x])[0] == xs[0];
      assert (xs + [x])[1..] == xs[1..] + [x];
      MapAllAppend(xs[1..], x, f);
      if f(xs[0]).Ok? && MapAll(xs[1..], f).Ok? && f(x).Ok? {
        assert [f(xs[0]).value] + (MapAll(xs[1..], f).value + [f(x).value])
            == ([f(xs[0]).value] + MapAll(xs[1..], f).value) + [f(x).value];
      }
    }
  }

  /** An exception in a prefix ends the whole loop. */
  lemma {:induction false} MapAllPrefixError<S, T>(xs: seq<S>, n: nat, f: S -> Result<T>)
    requires n <= |xs|
    requires MapAll(xs[..n], f).Err?
    ensures MapAll(xs, f) == Err(MapAll(xs[..n], f).msg)
    decreases n
  {
    if f(xs[0]).Ok? {
      assert xs[..n][1..] == xs[1..][..n - 1];
      MapAllPrefixError(xs[1..], n - 1, f);
    }
  }

  /** The services' formatting loop, `for x in xs: out.append(f(x))`,
      where the first failing record ends the call with its error; proved
      to end as `MapAll` says. */
  method FormatEach<S, T>(xs: seq<S>, f: S -> Result<T>) returns (r: Result<seq<T>>)
    ensures r == MapAll(xs, f)
  {
    var formatted: seq<T> := [];
    var i := 0;
    while i < |xs|
      invariant 0 <= i <= |xs|
      invariant MapAll(xs[..i], f) == Ok(formatted)
    {
      var x := f(xs[i]);
      MapAllAppend(xs[..i], xs[i], f);
      assert xs[..i + 1] == xs[..i] + [xs[i]];
      if x.Err? {
        MapAllPrefixError(xs, i + 1, f);
        return Err(x.msg);
      }
      formatted := formatted + [x.value];
      i := i + 1;
    }
    assert xs[..|xs|] == xs;
    r := Ok(formatted);
  }

  // ---------------------------------------------------------------------
  // `for x in j` over whatever the reply holds.

  /** The one-character strings iterating a Python string yields. */
  function Chars(s: string): seq<Json> {
    seq(|s|, i requires 0 <= i < |s| => JStr([s[i]]))
  }

  /** The elements `for x in j` visits. A dict yields its keys, all of them
      strings, in an order the map does not record; the callers' record
      functions all fail on any string with one key-independent text
      `strErr`, so a non-empty dict ends the loop with that text whatever
      the order (see `DictIterationAnyOrder`). */
  function Elements(j: Json, strErr: string): Result<seq<Json>> {
    match j
    case JList(xs) => Ok(xs)
    case JStr(s) => Ok(Chars(s))
    case JObj(m) => if m == map[] then Ok([]) else Err(strErr)
    case _ => Err("'" + TypeName(j) + "' object is not iterable")
  }

  /** `[f(x) for x in j]` */
  function Iterate<T>(j: Json, f: Json -> Result<T>, strErr: string): Result<seq<T>> {
    var xs :- Elements(j, strErr);
    MapAll(xs, f)
  }

  /** Iterating the keys of a non-empty dict, in any order, with a record
      function that rejects every string alike ends exactly as `Elements`
      says. */
  lemma DictIterationAnyOrder<T>(keys: seq<string>, f: Json -> Result<T>, strErr: string)
    requires keys != []
    requires forall s :: f(JStr(s)) == Err(strErr)
    ensures MapAll(seq(|keys|, i requires 0 <= i < |keys| => JStr(keys[i])), f) == Err(strErr)
  {
    var xs := seq(|keys|, i requires 0 <= i < |keys| => JStr(keys[i]));
    assert f(xs[0]) == Err(strErr);
  }
}
