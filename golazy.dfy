/** The public surface of the library: the Lazy[T] interface contract and the
    constructors WithLoader, WithLoaderTTL, Preloaded, PreloadedTTL and Static. */
module Golazy {
  import opened LazyTypes
  import W = WithLoaderCell
  import S = StaticCell

  /** WithLoader(loader, args...) = newWithLoader(loader, false, 0, args...). */
  method WithLoader<T(0), A>(args: seq<A>) returns (l: W.WithLoader<T, A>)
    ensures fresh(l)
    ensures W.Initial(l.Snapshot(), false, 0, args) && l.calls == []
  {
    l := new W.WithLoader(false, 0, args);
  }

  /** WithLoaderTTL(loader, ttl, args...) = newWithLoader(loader, true, ttl, args...). */
  method WithLoaderTTL<T(0), A>(ttl: Duration, args: seq<A>) returns (l: W.WithLoader<T, A>)
    ensures fresh(l)
    ensures W.Initial(l.Snapshot(), true, ttl, args) && l.calls == []
  {
    l := new W.WithLoader(true, ttl, args);
  }

  /** Preloaded(value, loader, args...) = newWithLoaderPreloaded(value, loader, false, 0, args...). */
  method Preloaded<T(0), A>(value: T, args: seq<A>, now: Time) returns (l: W.WithLoader<T, A>)
    ensures fresh(l)
    ensures l.Snapshot() == W.PreloadedState(value, args, false, 0, now) && l.calls == []
  {
    l := new W.WithLoader.Preloaded(value, false, 0, args, now);
  }

  /** PreloadedTTL(value, loader, ttl, args...) = newWithLoaderPreloaded(value, loader, true, ttl, args...). */
  method PreloadedTTL<T(0), A>(value: T, ttl: Duration, args: seq<A>, now: Time) returns (l: W.WithLoader<T, A>)
    ensures fresh(l)
    ensures l.Snapshot() == W.PreloadedState(value, args, true, ttl, now) && l.calls == []
  {
    l := new W.WithLoader.Preloaded(value, true, ttl, args, now);
  }

  /** Static(value): a static cell holding `value`. */
  function Static<T>(value: T): (s: S.Static<T>)
    ensures s.value == value
    ensures forall ctxs :: s.Value(ctxs) == Outcome(value, None)
  {
    S.Static(value)
  }

  // ---------------------------------------------------------------------
  // The Lazy[T] interface, over the closed set of its two implementations.
  // A loader cell object `l` stands for `Loading(l.Snapshot())`; CellValue and
  // CellClear prove that its methods agree with Value and Clear below.

  datatype Lazy<T, A> = Loading(state: W.State<T, A>) | Constant(cell: S.Static<T>)

  /** Value on either implementation: the new cell, the returned pair and the
      loader invocation made, if any. */
  function Value<T, A>(l: Lazy<T, A>, ctxs: seq<Context>, now: Time, loaderResult: Outcome<T>, loadedAt: Time)
    : (r: (Lazy<T, A>, Outcome<T>, Option<Invocation<A>>))
    // a constant cell returns its value with a nil error, unchanged and without loading
    ensures l.Constant? ==> r.0 == l && r.1 == Outcome(l.cell.value, None) && r.2 == None
    // a loader cell calls its loader exactly when unloaded or expired; otherwise it
    // returns its cached value with a nil error and does not change
    ensures l.Loading? ==> r.0.Loading? && r.1.value == r.0.state.value
    ensures l.Loading? ==> (r.2.Some? <==> W.ShouldLoad(l.state, now))
    ensures l.Loading? && r.2.None? ==> r.1 == Outcome(l.state.value, None) && r.0 == l
    ensures l.Loading? && r.2.Some? ==> r.1 == loaderResult && r.2.value.args == l.state.args
    // and it caches what it loads: loaded iff the error is nil, stamped loadedAt,
    // with its arguments and TTL configuration kept
    ensures l.Loading? ==> r.0.state.args == l.state.args && r.0.state.withTTL == l.state.withTTL && r.0.state.ttl == l.state.ttl
    ensures l.Loading? ==> (r.0.state.loaded <==> r.1.err == None)
    ensures l.Loading? && r.2.Some? ==> r.0.state.lastLoad == Some(loadedAt)
  {
    match l
    case Loading(s) =>
      var step := W.ValueStep(s, ctxs, now, loaderResult, loadedAt);
      (Loading(step.next), step.reply, step.call)
    case Constant(c) =>
      (l, c.Value(ctxs), None)
  }

  function Clear<T, A>(l: Lazy<T, A>): (r: Lazy<T, A>)
    ensures l.Constant? ==> r == l
    ensures l.Loading? ==> r.Loading? && !r.state.loaded && r.state.lastLoad == None
    ensures l.Loading? ==> r.state.value == l.state.value && r.state.args == l.state.args &&
                           r.state.withTTL == l.state.withTTL && r.state.ttl == l.state.ttl
  {
    match l
    case Loading(s) => Loading(W.Cleared(s))
    case Constant(c) => Constant(c.Clear())
  }

  /** Value uses only the first context, if any; the loader otherwise gets Background. */
  lemma ValueUsesFirstContextOnly<T, A>(l: Lazy<T, A>, ctxs: seq<Context>, now: Time, loaderResult: Outcome<T>, loadedAt: Time)
    ensures |ctxs| > 0 ==> Value(l, ctxs, now, loaderResult, loadedAt) == Value(l, ctxs[..1], now, loaderResult, loadedAt)
    ensures var r := Value(l, ctxs, now, loaderResult, loadedAt);
      r.2.Some? ==> r.2.value.ctx == (if |ctxs| > 0 then ctxs[0] else Background)
  {
  }

  /** After Clear, the next Value invokes the loader exactly once, with the
      fixed arguments, and returns its pair; the constant cell, which has no
      loader, keeps returning its value. Clear is idempotent on both. */
  lemma ClearThenValue<T, A>(l: Lazy<T, A>, ctxs: seq<Context>, now: Time, loaderResult: Outcome<T>, loadedAt: Time)
    ensures Clear(Clear(l)) == Clear(l)
    ensures var r := Value(Clear(l), ctxs, now, loaderResult, loadedAt);
      match l
      case Loading(s) => r.2 == Some(Invocation(W.ResolveContext(ctxs), s.args)) && r.1 == loaderResult
      case Constant(c) => r.2 == None && r.1 == Outcome(c.value, None)
  {
  }

  /** Value on a loader cell object is Value on the Lazy view of its fields. */
  method CellValue<T(0), A>(l: W.WithLoader<T, A>, ctxs: seq<Context>, now: Time, loaderResult: Outcome<T>, loadedAt: Time)
    returns (v: T, err: Option<Error>)
    modifies l
    ensures var r := Value(Loading(old(l.Snapshot())), ctxs, now, loaderResult, loadedAt);
      Loading(l.Snapshot()) == r.0 && Outcome(v, err) == r.1 && l.calls == old(l.calls) + W.CallLog(r.2)
  {
    v, err := l.Value(ctxs, now, loaderResult, loadedAt);
  }

  /** Clear on a loader cell object is Clear on the Lazy view of its fields. */
  method CellClear<T(0), A>(l: W.WithLoader<T, A>)
    modifies l
    ensures Loading(l.Snapshot()) == Clear(Loading(old(l.Snapshot()))) && l.calls == old(l.calls)
  {
    l.Clear();
  }

  // ---------------------------------------------------------------------
  // Client scenarios, stated against the constructors and the cell's methods

  /** A WithLoader cell calls its loader once and serves repeated Values from the cache. */
  method CachesValueScenario(now: Time) returns (v1: string, v2: string, v3: string, ghost count: nat)
    ensures v1 == v2 == v3 == "value" && count == 1
  {
    var l: W.WithLoader<string, int> := WithLoader([]);
    var loaderResult := Outcome("value", None);
    var e;
    v1, e := l.Value([], now, loaderResult, now);
    v2, e := l.Value([], now + 1, loaderResult, now + 1);
    v3, e := l.Value([], now + 2, loaderResult, now + 2);
    count := l.LoadCount();
  }

  /** After Clear the loader runs again: a counting loader yields 1 then 2. */
  method ClearsCacheScenario(now: Time) returns (v1: int, v2: int, ghost count: nat)
    ensures v1 == 1 && v2 == 2 && count == 2
  {
    var l: W.WithLoader<int, int> := WithLoader([]);
    var e;
    v1, e := l.Value([], now, Outcome(1, None), now);
    l.Clear();
    v2, e := l.Value([], now, Outcome(2, None), now);
    count := l.LoadCount();
  }

  /** As written, Preloaded("preloaded", loader) calls the loader on the first
      Value and returns "from-loader". */
  method PreloadedScenario(now: Time) returns (v: string, err: Option<Error>, ghost count: nat)
    ensures v == "from-loader" && err == None && count == 1
  {
    var l: W.WithLoader<string, int> := Preloaded("preloaded", [], now);
    v, err := l.Value([], now, Outcome("from-loader", None), now);
    count := l.LoadCount();
  }
}
