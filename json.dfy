/** The decoded JSON values the Gen-API client reads, and the few pieces of
    Python semantics it applies to them: truthiness, `dict.get` and the
    subscript operator `x[k]`. */
module Json {

  datatype Option<+T> = None | Some(value: T)

  datatype Result<+T, +E> = Ok(value: T) | Err(error: E)

  /** A value as Python's `json` decoder produces it. `Num` is an integral
      JSON number, `Frac` a number written with a fraction or an exponent. */
  datatype Json =
    | Null
    | Bool(b: bool)
    | Num(n: int)
    | Frac(r: real)
    | Str(s: string)
    | Arr(items: seq<Json>)
    | Obj(fields: map<string, Json>)

  /** Python truthiness (`bool(x)`) of a decoded value: exactly the seven
      empty or zero values are false. */
  predicate Truthy(x: Json)
    ensures Truthy(x) <==>
              x !in {Null, Bool(false), Num(0), Frac(0.0), Str(""), Arr([]), Obj(map[])}
  {
    match x
    case Null => false
    case Bool(b) => b
    case Num(n) => n != 0
    case Frac(r) => r != 0.0
    case Str(s) => s != ""
    case Arr(items) => items != []
    case Obj(fields) => fields != map[]
  }

  /** `d.get(key)` on a dict: an absent key gives Python `None`, which is the
      same value a JSON `null` decodes to. */
  function Get(d: Json, key: string): (r: Json)
    requires d.Obj?
    ensures key !in d.fields ==> r == Null
    ensures key in d.fields ==> r == d.fields[key]
    ensures r != Null ==> key in d.fields && d.fields[key] == r
  {
    GetOr(d, key, Null)
  }

  /** `d.get(key, default)` on a dict. */
  function GetOr(d: Json, key: string, default: Json): (r: Json)
    requires d.Obj?
    ensures key in d.fields ==> r == d.fields[key]
    ensures key !in d.fields ==> r == default
  {
    if key in d.fields then d.fields[key] else default
  }

  /** One subscript `x[k]` with a string key or a non-negative integer index. */
  datatype Segment = Key(name: string) | Index(i: nat)

  /** The three exceptions a subscript on decoded JSON can raise. */
  datatype SubscriptError = KeyError | IndexError | TypeError

  /** Python's `x[k]` on a decoded value. A dict decoded from JSON has only
      string keys, so an integer index on it is a missing key; indexing a
      string yields a one-character string; every other combination is a
      type error. */
  function Subscript(x: Json, k: Segment): (r: Result<Json, SubscriptError>)
    ensures r == Err(TypeError) <==> !(x.Obj? || (x.Arr? && k.Index?) || (x.Str? && k.Index?))
    ensures x.Obj? ==> (r.Ok? <==> k.Key? && k.name in x.fields)
    ensures x.Obj? && r.Ok? ==> r.value == x.fields[k.name]
    ensures x.Arr? && k.Index? ==> (r.Ok? <==> k.i < |x.items|)
    ensures x.Arr? && r.Ok? ==> r.value == x.items[k.i]
    ensures x.Str? && r.Ok? ==> r.value.Str? && |r.value.s| == 1
    ensures x.Obj? && !(k.Key? && k.name in x.fields) ==> r == Err(KeyError)
    ensures x.Arr? && k.Index? && k.i >= |x.items| ==> r == Err(IndexError)
    ensures x.Str? && k.Index? ==>
              r == if k.i < |x.s| then Ok(Str([x.s[k.i]])) else Err(IndexError)
  {
    match (x, k)
    case (Obj(fields), Key(name)) =>
      if name in fields then Ok(fields[name]) else Err(KeyError)
    case (Obj(_), Index(_)) => Err(KeyError)
    case (Arr(items), Index(i)) =>
      if i < |items| then Ok(items[i]) else Err(IndexError)
    case (Str(s), Index(i)) =>
      if i < |s| then Ok(Str([s[i]])) else Err(IndexError)
    case _ => Err(TypeError)
  }

  /** A chain of subscripts `x[k0][k1]...`, evaluated left to right; the
      first failing subscript raises and ends the chain. */
  function Lookup(x: Json, path: seq<Segment>): (r: Result<Json, SubscriptError>)
    ensures path == [] ==> r == Ok(x)
    ensures |path| == 1 ==> r == Subscript(x, path[0])
    ensures r.Ok? && path != [] ==> Subscript(x, path[0]).Ok?
    decreases |path|
  {
    if path == [] then Ok(x)
    else match Subscript(x, path[0])
      case Ok(y) => Lookup(y, path[1..])
      case Err(e) => Err(e)
  }

  /** Evaluating `x[p...][q...]` is evaluating `x[p...]` and then
      subscripting its value by `q...`; an exception in the first part ends
      the chain. */
  lemma {:induction false} LookupConcat(x: Json, p: seq<Segment>, q: seq<Segment>)
    ensures Lookup(x, p + q) ==
              match Lookup(x, p)
              case Ok(y) => Lookup(y, q)
              case Err(e) => Err(e)
    decreases |p|
  {
    if p == [] {
      assert p + q == q;
    } else {
      assert (p + q)[0] == p[0];
      assert (p + q)[1..] == p[1..] + q;
      match Subscript(x, p[0])
      case Ok(y) => LookupConcat(y, p[1..], q);
      case Err(_) =>
    }
  }
}
