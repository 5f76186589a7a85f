/** static[T]: the Lazy[T] implementation that always returns a fixed value
    and never loads. */
module StaticCell {
  import opened LazyTypes

  datatype Static<T> = Static(value: T) {

    /** Value(ctxs...): the stored value with a nil error; contexts are ignored. */
    function Value(ctxs: seq<Context>): (r: Outcome<T>)
      ensures r.value == value && r.err == None
    {
      Outcome(value, None)
    }

    /** Clear(): a no-op. */
    function Clear(): (r: Static<T>)
      ensures r.value == value
    {
      this
    }
  }

  /** The result does not depend on the contexts passed. */
  lemma ValueIgnoresContexts<T>(s: Static<T>, ctxs: seq<Context>, ctxs': seq<Context>)
    ensures s.Value(ctxs) == s.Value(ctxs')
  {
  }

  /** Value after Clear equals Value before it. */
  lemma ClearIsNoOp<T>(s: Static<T>, ctxs: seq<Context>)
    ensures s.Clear() == s
    ensures s.Clear().Value(ctxs) == s.Value(ctxs)
  {
  }

  /** The replies of a sequence of Value calls, one per context list. */
  function Replies<T>(s: Static<T>, calls: seq<seq<Context>>): (r: seq<Outcome<T>>)
    ensures |r| == |calls|
  {
    if calls == [] then [] else [s.Value(calls[0])] + Replies(s, calls[1..])
  }

  /** Repeated Value calls all return the identical value with a nil error. */
  lemma {:induction false} RepeatedValuesIdentical<T>(s: Static<T>, calls: seq<seq<Context>>)
    ensures forall i :: 0 <= i < |Replies(s, calls)| ==> Replies(s, calls)[i] == Outcome(s.value, None)
    decreases |calls|
  {
    if calls != [] {
      RepeatedValuesIdentical(s, calls[1..]);
    }
  }
}
