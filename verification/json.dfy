/** The parsed JSON payload of a webhook request, and Python's subscript
    operator on it.  Text parsing is not modelled: the tree is an input. */
module JsonValue {
  import opened Results

  /** A parsed JSON document.  Object keys are strings, as `json.loads`
      produces them; numbers are restricted to integers. */
  datatype Json =
    | Null
    | Bool(b: bool)
    | Num(n: int)
    | Str(s: string)
    | Arr(items: seq<Json>)
    | Obj(fields: map<string, Json>)

  /** One subscript: `v['name']` or `v[i]` with a non-negative index. */
  datatype Key = Field(name: string) | Index(i: nat)

  type Path = seq<Key>

  /** How a Python subscript on a parsed JSON value raises. */
  datatype SubscriptError =
    | MissingKey        // KeyError: a dict without the key (JSON dicts have no integer keys)
    | OutOfRange        // IndexError: a list or str that is too short
    | NotSubscriptable  // TypeError: a scalar, or a list or str subscripted by a string

  /** `v[k]` with Python's semantics; indexing a str yields a one-character str. */
  function Get(v: Json, k: Key): (r: Result<Json, SubscriptError>)
    ensures r.Ok? <==>
      || (v.Obj? && k.Field? && k.name in v.fields)
      || (v.Arr? && k.Index? && k.i < |v.items|)
      || (v.Str? && k.Index? && k.i < |v.s|)
    ensures r == Err(NotSubscriptable) <==>
      !((v.Obj?) || (v.Arr? && k.Index?) || (v.Str? && k.Index?))
    ensures v.Obj? && k.Field? && k.name in v.fields ==> r == Ok(v.fields[k.name])
    ensures v.Obj? && !(k.Field? && k.name in v.fields) ==> r == Err(MissingKey)
    ensures v.Arr? && k.Index? ==> r == (if k.i < |v.items| then Ok(v.items[k.i]) else Err(OutOfRange))
    ensures v.Str? && k.Index? ==> r == (if k.i < |v.s| then Ok(Str([v.s[k.i]])) else Err(OutOfRange))
  {
    match (v, k)
    case (Obj(m), Field(name)) => if name in m then Ok(m[name]) else Err(MissingKey)
    case (Obj(_), Index(_)) => Err(MissingKey)
    case (Arr(xs), Index(i)) => if i < |xs| then Ok(xs[i]) else Err(OutOfRange)
    case (Str(s), Index(i)) => if i < |s| then Ok(Str([s[i]])) else Err(OutOfRange)
    case (_, _) => Err(NotSubscriptable)
  }

  /** `v[k0][k1]…`: the first subscript that raises ends the chain. */
  function GetPath(v: Json, p: Path): Result<Json, SubscriptError>
    decreases |p|
  {
    if p == [] then Ok(v)
    else
      var w :- Get(v, p[0]);
      GetPath(w, p[1..])
  }

  /** Reading along `p + q` is reading along `p`, then along `q` from there. */
  lemma {:induction false} GetPathAppend(v: Json, p: Path, q: Path)
    ensures GetPath(v, p + q) ==
      match GetPath(v, p)
      case Ok(w) => GetPath(w, q)
      case Err(e) => Err(e)
    decreases |p|
  {
    if p == [] {
      assert p + q == q;
    } else {
      assert (p + q)[0] == p[0];
      assert (p + q)[1..] == p[1..] + q;
      match Get(v, p[0])
      case Ok(w) => GetPathAppend(w, p[1..], q);
      case Err(_) =>
    }
  }

  /** The smallest document holding `leaf` at `p`: one-key objects, and
      lists padded with `null` up to the index. */
  function Nest(p: Path, leaf: Json): Json
    decreases |p|
  {
    if p == [] then leaf
    else
      match p[0]
      case Field(n) => Obj(map[n := Nest(p[1..], leaf)])
      case Index(i) => Arr(seq(i, _ => Null) + [Nest(p[1..], leaf)])
  }

  /** Round trip: reading a path back out of the document built for it. */
  lemma {:induction false} GetPathNest(p: Path, leaf: Json)
    ensures GetPath(Nest(p, leaf), p) == Ok(leaf)
    decreases |p|
  {
    if p != [] {
      var inner := Nest(p[1..], leaf);
      GetPathNest(p[1..], leaf);
      match p[0]
      case Field(n) =>
        assert Get(Nest(p, leaf), p[0]) == Ok(inner);
      case Index(i) =>
        assert Nest(p, leaf).items[i] == inner;
        assert Get(Nest(p, leaf), p[0]) == Ok(inner);
    }
  }
}
