/**
 * The few PHP array built-ins the factory relies on, over ordered arrays with
 * string keys (`[class name => field name, ...]`) and over lists of strings.
 */
module PhpArrays {

  /** No key occurs twice: a PHP array maps each key to exactly one value. */
  predicate UniqueKeys<V>(a: seq<(string, V)>) {
    forall i, j :: 0 <= i < j < |a| ==> a[i].0 != a[j].0
  }

  /** An ordered PHP array with string keys, as its key/value pairs in insertion order. */
  type PhpArray<V> = a: seq<(string, V)> | UniqueKeys(a) witness []

  /** PHP's truthiness of a string: `null` (written ""), "" and "0" are false. */
  predicate Truthy(s: string) {
    s != "" && s != "0"
  }

  /** `array_keys($a)`: the keys, in the array's order. */
  function Keys<V>(a: seq<(string, V)>): (keys: seq<string>)
    ensures |keys| == |a|
    ensures forall i :: 0 <= i < |a| ==> keys[i] == a[i].0
  {
    if a == [] then [] else [a[0].0] + Keys(a[1..])
  }

  /** `$a[$k]` for a key that is present: a value stored under `k`. */
  function Get<V>(a: seq<(string, V)>, k: string): (v: V)
    requires k in Keys(a)
    ensures (k, v) in a
  {
    if a[0].0 == k then a[0].1 else Get(a[1..], k)
  }

  /** `in_array($needle, $haystack, true)`: strict membership in a list. */
  function InArray(needle: string, haystack: seq<string>): (found: bool)
    ensures found <==> needle in haystack
  {
    haystack != [] && (haystack[0] == needle || InArray(needle, haystack[1..]))
  }

  /** In an array with unique keys, `$a[$k]` is the one value stored under `k`. */
  lemma GetIsStoredValue<V>(a: PhpArray<V>, k: string, v: V)
    requires (k, v) in a
    ensures k in Keys(a) && Get(a, k) == v
  {
  }
}
