/** Failure-carrying wrappers and the Go map lookup every collector relies on. */
module Base {

  /** An optional value: Go's `(v, ok)` pairs and `err == nil` tests. */
  datatype Option<+T> = None | Some(value: T)

  /** A value or an error message, as Go's `(T, error)` returns. */
  datatype Result<+T> = Ok(value: T) | Err(msg: string)

  /** `m[k]` on a Go `map[string]string`: the zero value "" when the key is absent. */
  function Lookup(m: map<string, string>, k: string): (v: string)
    ensures k in m ==> v == m[k]
    ensures k !in m ==> v == ""
  {
    if k in m then m[k] else ""
  }

  /** Dropping the head of a concatenation whose left part is not empty. */
  lemma ConsTail<T>(a: seq<T>, b: seq<T>)
    requires |a| > 0
    ensures (a + b)[0] == a[0] && (a + b)[1..] == a[1..] + b
  {
  }

  lemma ConcatAssoc<T>(p: seq<T>, q: seq<T>, r: seq<T>)
    ensures p + (q + r) == (p + q) + r
  {
  }

  /** Dropping two singletons from the front. */
  lemma DropTwo<T>(x: T, y: T, s: seq<T>)
    ensures ([x] + ([y] + s))[2..] == s
  {
  }
}
