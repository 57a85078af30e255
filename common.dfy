/** Values and objects shared by every component of the model. */
module Common {

  datatype Option<+T> = None | Some(value: T)

  /** How an awaited call settled: the value its promise resolved to, or the
      exception it rejected with (its `name` and its `message`). */
  datatype CallOutcome<+T> = Returned(value: T) | Threw(name: string, message: string)

  /** JavaScript truthiness of a string that may be missing: `undefined`,
      `null` and `""` are falsy. */
  predicate Truthy(s: Option<string>) {
    s.Some? && s.value != ""
  }

  /** The JavaScript expression `s || fallback` for a string `s`. */
  function OrElse(s: string, fallback: string): string {
    if s != "" then s else fallback
  }

  /** `xs.map(f)`. */
  function MapSeq<T, U>(f: T -> U, xs: seq<T>): (r: seq<U>)
    ensures |r| == |xs|
    ensures forall i :: 0 <= i < |xs| ==> r[i] == f(xs[i])
  {
    seq(|xs|, i requires 0 <= i < |xs| => f(xs[i]))
  }

  /** The browser's `AbortController`: one object per request, which a
      component keeps in a ref and aborts when a newer request replaces it. */
  class AbortController {
    var aborted: bool

    constructor ()
      ensures !aborted
    {
      aborted := false;
    }

    method Abort()
      modifies this
      ensures aborted
    {
      aborted := true;
    }
  }
}
