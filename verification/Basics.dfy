/** Values shared by every part of the model. */
module Basics {

  datatype Option<+T> = None | Some(value: T)

  datatype Result<+T, +E> = Success(value: T) | Failure(error: E)

  /** What becomes of one call to the API server.  `Served` calls are processed and
      answered; `Refused` calls fail without effect; `Lost` calls are processed, but
      the caller is told that they failed. */
  datatype Outcome = Served | Refused | Lost

  /** The next entry of a script of outcomes; calls after its end are served. */
  function Head(script: seq<Outcome>): Outcome {
    if script == [] then Served else script[0]
  }

  function Tail(script: seq<Outcome>): seq<Outcome> {
    if script == [] then [] else script[1..]
  }

  /** The outcome of the call number `i` of a script. */
  function Nth(script: seq<Outcome>, i: nat): Outcome {
    if i < |script| then script[i] else Served
  }

  lemma NthOfTail(script: seq<Outcome>)
    ensures Head(script) == Nth(script, 0) && Head(Tail(script)) == Nth(script, 1)
    ensures Head(Tail(Tail(script))) == Nth(script, 2)
  {
  }

  /** The first `n` API calls of a script are served. */
  predicate ServedFor(script: seq<Outcome>, n: nat) {
    forall i :: 0 <= i < n && i < |script| ==> script[i].Served?
  }

  function Get<K, V>(m: map<K, V>, k: K): Option<V> {
    if k in m then Some(m[k]) else None
  }
}
