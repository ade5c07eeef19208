/** What several of the models share. */
module Common {

  datatype Option<+T> = None | Some(value: T)

  /** The first n elements, or all of them. */
  function Take<T>(s: seq<T>, n: nat): seq<T> { if |s| <= n then s else s[..n] }

  /** The order of strings by code point, as Python and Go have it. */
  predicate TextLe(a: string, b: string) {
    a == "" || (b != "" && (a[0] < b[0] || (a[0] == b[0] && TextLe(a[1..], b[1..]))))
  }

  lemma TextOrder(a: string, b: string, c: string)
    ensures TextLe(a, b) || TextLe(b, a)
    ensures TextLe(a, b) && TextLe(b, c) ==> TextLe(a, c)
    decreases |a| + |b| + |c|
  {
    if a != "" && b != "" {
      TextOrder(a[1..], b[1..], if c != "" then c[1..] else c);
    }
  }
}
