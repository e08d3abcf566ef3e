/** The PHP values a CallReturn object stores and accepts: the payload and the
    key/value entries are dynamically typed, and the message and code arguments
    are either a single scalar or an array of them. */
module PhpValues {

  datatype Option<+T> = None | Some(value: T)

  /** A PHP value as far as this class cares: null, scalars, a list (numeric
      array) and an associative array with string keys. */
  datatype Value =
    | Null
    | Bool(b: bool)
    | Int(i: int)
    | Str(s: string)
    | List(elems: seq<Value>)
    | Dict(entries: map<string, Value>)

  /** A `string[]|string` or `int[]|int` argument: one element or an array. */
  datatype Items<T> = One(item: T) | Many(items: seq<T>)

  /** What `is_array($x) ? array_merge($list, $x) : $list[] = $x` appends. */
  function Elements<T>(a: Items<T>): (r: seq<T>)
    ensures a.One? ==> |r| == 1 && r[0] == a.item
    ensures a.Many? ==> r == a.items
  {
    match a
    case One(x) => [x]
    case Many(xs) => xs
  }

  /** PHP truthiness of an optional message argument (`if ($message)`):
      null, "", "0" and the empty array are false. */
  predicate MessageGiven(m: Option<Items<string>>)
  {
    match m
    case None => false
    case Some(One(s)) => s != "" && s != "0"
    case Some(Many(xs)) => xs != []
  }

  /** PHP truthiness of an optional code argument (`if ($codes)`):
      null, 0 and the empty array are false. */
  predicate CodesGiven(c: Option<Items<int>>)
  {
    match c
    case None => false
    case Some(One(n)) => n != 0
    case Some(Many(ns)) => ns != []
  }

  /** A list of strings as the PHP array the serialiser puts in its output. */
  function StringList(xs: seq<string>): (r: Value)
    ensures r.List? && |r.elems| == |xs|
    ensures forall i :: 0 <= i < |xs| ==> r.elems[i] == Str(xs[i])
  {
    List(seq(|xs|, i requires 0 <= i < |xs| => Str(xs[i])))
  }

  /** A list of integers as the PHP array the serialiser puts in its output. */
  function IntList(ns: seq<int>): (r: Value)
    ensures r.List? && |r.elems| == |ns|
    ensures forall i :: 0 <= i < |ns| ==> r.elems[i] == Int(ns[i])
  {
    List(seq(|ns|, i requires 0 <= i < |ns| => Int(ns[i])))
  }
}
