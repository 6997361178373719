/**
  The decoding combinators the endpoints are written with (the jsonous library's
  `string`, `field`, `at` and `array`). A decoder is a total function from a parsed
  node to a Result; a record is decoded by chaining field decoders with `:-`, which
  is `succeed({}).assign(...)`: fields are decoded in order and the first failure
  is the result. The error wording is this model's own.
*/
module Decoders {
  import opened Wrappers
  import opened Tree

  type Decoder<T> = Node -> Result<T>

  function MissingField(name: string): string {
    "missing field '" + name + "'"
  }

  const NotString := "expected a string"
  const NotArray := "expected an array"
  const MissingIndex := "missing array index"

  /** The keys of a mapping node; other nodes have none. */
  function Keys(n: Node): set<string> {
    if n.Obj? then n.fields.Keys else {}
  }

  /** `_.string`: accepts exactly a text node. */
  function AsString(n: Node): (r: Result<string>)
    ensures r.Ok? <==> n.Str?
    ensures r.Ok? ==> n == Str(r.value)
  {
    match n
    case Str(s) => Ok(s)
    case _ => Err(NotString)
  }

  /** `_.field(name, d)`: fails when `name` is missing, otherwise runs `d` on the child. */
  function Field<T>(name: string, d: Decoder<T>, n: Node): (r: Result<T>)
    ensures name in Keys(n) ==> r == d(n.fields[name])
    ensures name !in Keys(n) ==> r == Err(MissingField(name))
  {
    if n.Obj? && name in n.fields then d(n.fields[name]) else Err(MissingField(name))
  }

  /** One step of a path: a key into a mapping or an index into an array. */
  datatype Segment = Key(name: string) | Index(i: nat)

  function Step(n: Node, s: Segment): Result<Node> {
    match s
    case Key(k) => if n.Obj? && k in n.fields then Ok(n.fields[k]) else Err(MissingField(k))
    case Index(i) => if n.Arr? && i < |n.items| then Ok(n.items[i]) else Err(MissingIndex)
  }

  /** Follows `path` from `n`, failing at the first segment that cannot be reached. */
  function Walk(path: seq<Segment>, n: Node): Result<Node>
    decreases |path|
  {
    if path == [] then Ok(n)
    else
      var child :- Step(n, path[0]);
      Walk(path[1..], child)
  }

  /** `_.at(path, d)`: walks the path, then runs `d` on the node reached. */
  function At<T>(path: seq<Segment>, d: Decoder<T>, n: Node): Result<T> {
    var target :- Walk(path, n);
    d(target)
  }

  /** Walking a concatenated path is walking the first part, then the second from where it ended. */
  lemma {:induction false} WalkAppend(p: seq<Segment>, q: seq<Segment>, n: Node)
    ensures Walk(p + q, n) == match Walk(p, n) case Ok(m) => Walk(q, m) case Err(e) => Err(e)
    decreases |p|
  {
    if p == [] {
      assert p + q == q;
    } else {
      assert (p + q)[0] == p[0];
      assert (p + q)[1..] == p[1..] + q;
      match Step(n, p[0])
      case Ok(child) => WalkAppend(p[1..], q, child);
      case Err(_) =>
    }
  }

  /** `at(p + q, d)` is `at(p, at(q, d))`, error messages included. */
  lemma AtAppend<T>(p: seq<Segment>, q: seq<Segment>, d: Decoder<T>, n: Node)
    ensures At(p + q, d, n) == At(p, m => At(q, d, m), n)
  {
    WalkAppend(p, q, n);
  }

  /** A path made of keys only. */
  function KeyPath(keys: seq<string>): (path: seq<Segment>)
    ensures |path| == |keys|
    ensures forall i | 0 <= i < |keys| :: path[i] == Key(keys[i])
  {
    if keys == [] then [] else [Key(keys[0])] + KeyPath(keys[1..])
  }

  /** Nested field access: `field(k0, field(k1, ... d))`. */
  function Fields<T>(keys: seq<string>, d: Decoder<T>, n: Node): Result<T>
    decreases |keys|
  {
    if keys == [] then d(n) else Field(keys[0], m => Fields(keys[1..], d, m), n)
  }

  /** A path of keys reads the same node as the corresponding nested field decoders. */
  lemma {:induction false} AtKeysAreNestedFields<T>(keys: seq<string>, d: Decoder<T>, n: Node)
    ensures At(KeyPath(keys), d, n) == Fields(keys, d, n)
    decreases |keys|
  {
    if keys != [] {
      var path := KeyPath(keys);
      assert path[1..] == KeyPath(keys[1..]);
      if keys[0] in Keys(n) {
        AtKeysAreNestedFields(keys[1..], d, n.fields[keys[0]]);
      }
    }
  }

  /**
    The elements of an array decoded in order: the result lists one value per
    element, and a failure is the error of the first element that fails.
  */
  function Elements<T>(d: Decoder<T>, items: seq<Node>): (r: Result<seq<T>>)
    ensures r.Ok? <==> forall i | 0 <= i < |items| :: d(items[i]).Ok?
    ensures r.Ok? ==> |r.value| == |items|
    ensures r.Ok? ==> forall i | 0 <= i < |items| :: d(items[i]) == Ok(r.value[i])
    ensures r.Err? ==> exists i | 0 <= i < |items| ::
      d(items[i]) == Err(r.msg) && forall j | 0 <= j < i :: d(items[j]).Ok?
    decreases |items|
  {
    if items == [] then Ok([])
    else
      var head :- d(items[0]);
      var tail :- Elements(d, items[1..]);
      Ok([head] + tail)
  }

  /** `_.array(d)`: the node must be an array; its elements are decoded in order. */
  function ArrayOf<T>(d: Decoder<T>, n: Node): (r: Result<seq<T>>)
    ensures !n.Arr? ==> r == Err(NotArray)
    ensures n.Arr? ==> r == Elements(d, n.items)
  {
    match n
    case Arr(items) => Elements(d, items)
    case _ => Err(NotArray)
  }
}
