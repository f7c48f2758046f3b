/**
 * The parsed JSON tree that every other module reads (include/ast.h).
 *
 * An object is its ordered list of key/value pairs (keys may repeat), an
 * array its ordered list of elements. A number is kept as the text that
 * `printf("%g", ...)` gives for it: the floating-point formatting itself is
 * not part of this model, so the tree carries its result.
 */
module JsonTree {

  /** A JSON number, represented by its `%g` rendering. */
  datatype Number = Number(text: string)

  datatype Json =
    | Object(pairs: seq<Pair>)
    | Array(elements: seq<Json>)
    | String(str: string)
    | Num(num: Number)
    | Boolean(truth: bool)
    | Null

  /** One member of an object: the key and the value it leads to. */
  datatype Pair = Pair(key: string, value: Json)

  /** Objects and arrays become tables; everything else becomes a cell. */
  predicate IsContainer(j: Json) {
    j.Object? || j.Array?
  }

  /** The `%g` text of a number. */
  function FormatNumber(n: Number): string {
    n.text
  }

  /** The keys of an object's members, in order. */
  function Keys(ps: seq<Pair>): (ks: seq<string>)
    ensures |ks| == |ps|
    ensures forall i :: 0 <= i < |ps| ==> ks[i] == ps[i].key
  {
    seq(|ps|, i requires 0 <= i < |ps| => ps[i].key)
  }
}
