/** The loader cell withLoader[T]: a cached value, a loaded flag, an optional
    last-load instant, a TTL policy and the fixed loader arguments.

    The loader itself is user code. Each call of Value receives, as
    `loaderResult`, the pair the loader would return if this call invokes it,
    and the cell records every invocation (context and arguments) in a ghost
    log. The mutex is left out: each Value and Clear is one atomic step.

    Value reads the clock twice: `now` for the expiry test, before the loader
    runs, and `loadedAt` for the new timestamp, after the loader returns. */
module WithLoaderCell {
  import opened LazyTypes

  /** The fields of a withLoader cell, as a value. */
  datatype State<T, A> = State(
    value: T,
    args: seq<A>,
    loaded: bool,
    withTTL: bool,
    ttl: Duration,
    lastLoad: Option<Time>)

  /** The state right after newWithLoader: nothing loaded, no timestamp, the
      configuration as given. The stale `value` is not constrained. Such a
      cell loads on its first Value, whatever the clock says. */
  ghost predicate Initial<T, A>(s: State<T, A>, withTTL: bool, ttl: Duration, args: seq<A>)
    ensures Initial(s, withTTL, ttl, args) ==> forall now :: ShouldLoad(s, now)
  {
    !s.loaded && s.lastLoad == None && s.withTTL == withTTL && s.ttl == ttl && s.args == args
  }

  /** The state newWithLoaderPreloaded builds, as written: `value` and
      `lastLoad` are set, but `loaded` is never assigned and stays false. */
  function PreloadedState<T, A>(value: T, args: seq<A>, withTTL: bool, ttl: Duration, now: Time): (s: State<T, A>)
    ensures s.value == value && s.lastLoad == Some(now)
    ensures Initial(s.(lastLoad := None), withTTL, ttl, args)
  {
    State(value, args, false, withTTL, ttl, Some(now))
  }

  /** The state newWithLoaderPreloaded is documented to build: the preload
      value counts as loaded. */
  function PreloadedIntendedState<T, A>(value: T, args: seq<A>, withTTL: bool, ttl: Duration, now: Time): (s: State<T, A>)
    ensures s.value == value && s.lastLoad == Some(now) && s.loaded
    ensures s.withTTL == withTTL && s.ttl == ttl && s.args == args
  {
    State(value, args, true, withTTL, ttl, Some(now))
  }

  /** The context handed to the loader: the first one supplied, else Background. */
  function ResolveContext(ctxs: seq<Context>): (c: Context)
    ensures |ctxs| > 0 ==> c == ctxs[0]
    ensures |ctxs| == 0 ==> c == Background
  {
    if |ctxs| > 0 then ctxs[0] else Background
  }

  /** The TTL has expired: the strict comparison "time since last load > ttl".
      Expiry needs TTL and a timestamp, and then holds exactly at the instants
      strictly after lastLoad + ttl. */
  predicate NeedsRefresh<T, A>(s: State<T, A>, now: Time)
    ensures NeedsRefresh(s, now) ==> s.withTTL && s.lastLoad.Some?
    ensures s.withTTL && s.lastLoad.Some? ==> (NeedsRefresh(s, now) <==> now > s.lastLoad.value + s.ttl)
  {
    s.withTTL && s.lastLoad.Some? && now - s.lastLoad.value > s.ttl
  }

  /** Value calls the loader exactly when this holds: always on an unloaded
      cell, and on a loaded one only once its TTL has expired. */
  predicate ShouldLoad<T, A>(s: State<T, A>, now: Time)
    ensures !s.loaded ==> ShouldLoad(s, now)
    ensures s.loaded ==> (ShouldLoad(s, now) <==> NeedsRefresh(s, now))
    ensures s.loaded && !s.withTTL ==> !ShouldLoad(s, now)
  {
    !s.loaded || NeedsRefresh(s, now)
  }

  /** What one Value call does: the new state, the pair it returns, and the
      loader invocation it makes, if any. */
  datatype Step<T, A> = Step(next: State<T, A>, reply: Outcome<T>, call: Option<Invocation<A>>)

  function CallLog<A>(call: Option<Invocation<A>>): seq<Invocation<A>> {
    if call.Some? then [call.value] else []
  }

  /** One call of Value(ctxs...): `now` is the clock reading of the expiry
      test, `loaderResult` what the loader returns if it is called, and
      `loadedAt` the clock reading after it returns. */
  function ValueStep<T, A>(s: State<T, A>, ctxs: seq<Context>, now: Time, loaderResult: Outcome<T>, loadedAt: Time): (r: Step<T, A>)
    // the configuration never changes
    ensures r.next.args == s.args && r.next.withTTL == s.withTTL && r.next.ttl == s.ttl
    // the loader runs iff the cell is unloaded or expired, with the fixed arguments
    ensures r.call.Some? <==> ShouldLoad(s, now)
    ensures r.call.Some? ==> r.call.value.args == s.args
    // the returned value is the stored one, and the cell is loaded iff the returned error is nil
    ensures r.reply.value == r.next.value
    ensures r.next.loaded <==> r.reply.err == None
  {
    if ShouldLoad(s, now) then
      Step(s.(value := loaderResult.value, loaded := loaderResult.err == None, lastLoad := Some(loadedAt)),
           loaderResult,
           Some(Invocation(ResolveContext(ctxs), s.args)))
    else
      Step(s, Outcome(s.value, None), None)
  }

  /** Clear: unloaded, no timestamp; the stale value and the configuration stay. */
  function Cleared<T, A>(s: State<T, A>): (r: State<T, A>)
    ensures !r.loaded && r.lastLoad == None
    ensures r.value == s.value && r.args == s.args && r.withTTL == s.withTTL && r.ttl == s.ttl
  {
    s.(loaded := false, lastLoad := None)
  }

  // ---------------------------------------------------------------------
  // Properties of one step

  /** The refresh test is strict: expiry happens only once more than ttl has
      elapsed, never without TTL, and never without a timestamp. */
  lemma RefreshIsStrict<T, A>(s: State<T, A>, now: Time)
    ensures s.withTTL && s.lastLoad.Some? ==>
              !NeedsRefresh(s, s.lastLoad.value + s.ttl) && NeedsRefresh(s, s.lastLoad.value + s.ttl + 1)
    ensures !s.withTTL || s.lastLoad == None ==> !NeedsRefresh(s, now)
  {
  }

  /** Cache hit: a loaded, unexpired cell returns its value with a nil error,
      calls no loader and changes nothing. */
  lemma CacheHit<T, A>(s: State<T, A>, ctxs: seq<Context>, now: Time, loaderResult: Outcome<T>, loadedAt: Time)
    requires s.loaded && !NeedsRefresh(s, now)
    ensures ValueStep(s, ctxs, now, loaderResult, loadedAt) == Step(s, Outcome(s.value, None), None)
  {
  }

  /** Load path: the loader runs once with the resolved context and the fixed
      arguments; its value is stored even on failure, `loaded` records success,
      the timestamp is the instant the loader returned, in both cases, and the
      error is returned verbatim. */
  lemma LoadPath<T, A>(s: State<T, A>, ctxs: seq<Context>, now: Time, loaderResult: Outcome<T>, loadedAt: Time)
    requires ShouldLoad(s, now)
    ensures var r := ValueStep(s, ctxs, now, loaderResult, loadedAt);
      r.call == Some(Invocation(ResolveContext(ctxs), s.args)) &&
      r.reply == loaderResult &&
      r.next.value == loaderResult.value &&
      r.next.loaded == (loaderResult.err == None) &&
      r.next.lastLoad == Some(loadedAt)
  {
  }

  /** After a failed load the next Value calls the loader again, whatever the clock says. */
  lemma FailedLoadIsRetried<T, A>(s: State<T, A>, ctxs: seq<Context>, now: Time, loaderResult: Outcome<T>, loadedAt: Time,
                                  ctxs': seq<Context>, now': Time, loaderResult': Outcome<T>, loadedAt': Time)
    requires loaderResult.err.Some?
    requires ShouldLoad(s, now)
    ensures ValueStep(ValueStep(s, ctxs, now, loaderResult, loadedAt).next, ctxs', now', loaderResult', loadedAt').call.Some?
  {
  }

  /** After Clear the next Value calls the loader, whatever the state was. */
  lemma ClearThenValueLoads<T, A>(s: State<T, A>, ctxs: seq<Context>, now: Time, loaderResult: Outcome<T>, loadedAt: Time)
    ensures var r := ValueStep(Cleared(s), ctxs, now, loaderResult, loadedAt);
      r.call == Some(Invocation(ResolveContext(ctxs), s.args)) && r.reply == loaderResult
  {
  }

  /** Clear is idempotent. */
  lemma ClearIdempotent<T, A>(s: State<T, A>)
    ensures Cleared(Cleared(s)) == Cleared(s)
  {
  }

  /** The stale value an unloaded cell holds (after construction or Clear) is
      never observed: the step is the same whatever it is. */
  lemma StaleValueUnobservable<T, A>(s: State<T, A>, stale: T, ctxs: seq<Context>, now: Time, loaderResult: Outcome<T>, loadedAt: Time)
    requires !s.loaded
    ensures ValueStep(s.(value := stale), ctxs, now, loaderResult, loadedAt) == ValueStep(s, ctxs, now, loaderResult, loadedAt)
  {
  }

  /** The timestamp written by a failed load is never observed: while the cell
      is unloaded, the whole step does not depend on lastLoad, and Clear erases
      it, so no later call can see it either. */
  lemma TimestampIrrelevantWhenUnloaded<T, A>(s: State<T, A>, t: Option<Time>, ctxs: seq<Context>, now: Time,
                                              loaderResult: Outcome<T>, loadedAt: Time)
    requires !s.loaded
    ensures ValueStep(s.(lastLoad := t), ctxs, now, loaderResult, loadedAt) == ValueStep(s, ctxs, now, loaderResult, loadedAt)
    ensures Cleared(s.(lastLoad := t)) == Cleared(s)
  {
  }

  /** Only the first context matters; extra ones are ignored. */
  lemma ValueUsesFirstContextOnly<T, A>(s: State<T, A>, ctxs: seq<Context>, now: Time, loaderResult: Outcome<T>, loadedAt: Time)
    requires |ctxs| > 0
    ensures ValueStep(s, ctxs, now, loaderResult, loadedAt) == ValueStep(s, ctxs[..1], now, loaderResult, loadedAt)
  {
  }

  /** A preloaded cell, as written, calls the loader on its first Value and
      returns the loader's pair instead of the preload value. */
  lemma PreloadedFirstValueCallsLoader<T, A>(value: T, args: seq<A>, withTTL: bool, ttl: Duration, t: Time,
                                             ctxs: seq<Context>, now: Time, loaderResult: Outcome<T>, loadedAt: Time)
    ensures var r := ValueStep(PreloadedState(value, args, withTTL, ttl, t), ctxs, now, loaderResult, loadedAt);
      r.call == Some(Invocation(ResolveContext(ctxs), args)) && r.reply == loaderResult
  {
  }

  /** The documented behaviour, proved of the corrected construction: the
      first Value before expiry returns the preload value without a loader
      call; once expired, or after Clear, the loader runs. */
  lemma PreloadedIntendedFirstValueHits<T, A>(value: T, args: seq<A>, withTTL: bool, ttl: Duration, t: Time,
                                              ctxs: seq<Context>, now: Time, loaderResult: Outcome<T>, loadedAt: Time)
    ensures var s := PreloadedIntendedState(value, args, withTTL, ttl, t);
      var r := ValueStep(s, ctxs, now, loaderResult, loadedAt);
      (!withTTL || now - t <= ttl ==> r.call == None && r.reply == Outcome(value, None) && r.next == s) &&
      (withTTL && now - t > ttl ==> r.call == Some(Invocation(ResolveContext(ctxs), args)) && r.reply == loaderResult) &&
      ValueStep(Cleared(s), ctxs, now, loaderResult, loadedAt).call == Some(Invocation(ResolveContext(ctxs), args))
  {
  }

  // ---------------------------------------------------------------------
  // Sequences of calls

  /** A call on the cell: Value(ctxs...) with its two clock readings, or Clear(). */
  datatype Op<T> = Get(ctxs: seq<Context>, now: Time, loaderResult: Outcome<T>, loadedAt: Time) | Reset

  /** The result of a sequence of calls: the final state, the pairs the Value
      calls returned, and every loader invocation in order. */
  datatype Run<T, A> = Run(final: State<T, A>, replies: seq<Outcome<T>>, calls: seq<Invocation<A>>)

  function CountGets<T>(ops: seq<Op<T>>): nat {
    if ops == [] then 0 else (if ops[0].Get? then 1 else 0) + CountGets(ops[1..])
  }

  function RunOps<T, A>(s: State<T, A>, ops: seq<Op<T>>): (r: Run<T, A>)
    // one reply per Value call, at most one loader call per Value call
    ensures |r.replies| == CountGets(ops)
    ensures |r.calls| <= |r.replies|
    // the configuration is fixed, and every loader call gets the fixed arguments
    ensures r.final.args == s.args && r.final.withTTL == s.withTTL && r.final.ttl == s.ttl
    ensures forall i :: 0 <= i < |r.calls| ==> r.calls[i].args == s.args
    decreases |ops|
  {
    if ops == [] then Run(s, [], [])
    else match ops[0]
      case Reset => RunOps(Cleared(s), ops[1..])
      case Get(ctxs, now, loaderResult, loadedAt) =>
        var step := ValueStep(s, ctxs, now, loaderResult, loadedAt);
        var rest := RunOps(step.next, ops[1..]);
        Run(rest.final, [step.reply] + rest.replies, CallLog(step.call) + rest.calls)
  }

  /** Running two sequences of calls one after the other. */
  lemma {:induction false} RunAppend<T, A>(s: State<T, A>, a: seq<Op<T>>, b: seq<Op<T>>)
    ensures var ra := RunOps(s, a);
      var rb := RunOps(ra.final, b);
      RunOps(s, a + b) == Run(rb.final, ra.replies + rb.replies, ra.calls + rb.calls)
    decreases |a|
  {
    if a == [] {
      assert a + b == b;
    } else {
      assert (a + b)[0] == a[0];
      assert (a + b)[1..] == a[1..] + b;
      match a[0]
      case Reset =>
        RunAppend(Cleared(s), a[1..], b);
      case Get(ctxs, now, loaderResult, loadedAt) =>
        var step := ValueStep(s, ctxs, now, loaderResult, loadedAt);
        RunAppend(step.next, a[1..], b);
        var ra' := RunOps(step.next, a[1..]);
        var rb := RunOps(ra'.final, b);
        assert [step.reply] + ra'.replies + rb.replies == [step.reply] + (ra'.replies + rb.replies);
        assert CallLog(step.call) + ra'.calls + rb.calls == CallLog(step.call) + (ra'.calls + rb.calls);
    }
  }

  /** Every Value call made while a loaded cell has not expired is a hit: the
      loader never runs, the state is unchanged and every reply is the cached
      value with a nil error. */
  lemma {:induction false} HitsWhileFresh<T, A>(s: State<T, A>, ops: seq<Op<T>>)
    requires s.loaded
    requires forall i :: 0 <= i < |ops| ==> ops[i].Get? && !NeedsRefresh(s, ops[i].now)
    ensures RunOps(s, ops).final == s && RunOps(s, ops).calls == []
    ensures forall i :: 0 <= i < |RunOps(s, ops).replies| ==> RunOps(s, ops).replies[i] == Outcome(s.value, None)
    decreases |ops|
  {
    if ops != [] {
      assert ops[0].Get? && !NeedsRefresh(s, ops[0].now);
      HitsWhileFresh(s, ops[1..]);
    }
  }

  /** On an unloaded cell without TTL, a successful first Value calls the
      loader once, and every later Value returns the same pair without
      calling it again. */
  lemma SuccessReusedWithoutTTL<T, A>(s: State<T, A>, ctxs: seq<Context>, now: Time, v: T, loadedAt: Time, later: seq<Op<T>>)
    requires !s.loaded && !s.withTTL
    requires forall i :: 0 <= i < |later| ==> later[i].Get?
    ensures var r := RunOps(s, [Get(ctxs, now, Outcome(v, None), loadedAt)] + later);
      r.calls == [Invocation(ResolveContext(ctxs), s.args)] &&
      |r.replies| == 1 + |later| &&
      forall i :: 0 <= i < |r.replies| ==> r.replies[i] == Outcome(v, None)
  {
    var first := [Get(ctxs, now, Outcome(v, None), loadedAt)];
    var step := ValueStep(s, ctxs, now, Outcome(v, None), loadedAt);
    assert RunOps(s, first) == Run(step.next, [Outcome(v, None)], [Invocation(ResolveContext(ctxs), s.args)]);
    RunAppend(s, first, later);
    HitsWhileFresh(step.next, later);
    CountAllGets(later);
  }

  /** Without TTL, a loaded cell serves every Value from the cache until Clear;
      the Value after Clear calls the loader exactly once. */
  lemma ReusedUntilClear<T, A>(s: State<T, A>, gets: seq<Op<T>>, ctxs: seq<Context>, now: Time,
                               loaderResult: Outcome<T>, loadedAt: Time)
    requires s.loaded && !s.withTTL
    requires forall i :: 0 <= i < |gets| ==> gets[i].Get?
    ensures var r := RunOps(s, gets + [Reset, Get(ctxs, now, loaderResult, loadedAt)]);
      r.calls == [Invocation(ResolveContext(ctxs), s.args)] &&
      |r.replies| == |gets| + 1 &&
      (forall i :: 0 <= i < |gets| ==> r.replies[i] == Outcome(s.value, None)) &&
      r.replies[|gets|] == loaderResult
  {
    var tail: seq<Op<T>> := [Reset, Get(ctxs, now, loaderResult, loadedAt)];
    HitsWhileFresh(s, gets);
    RunAppend(s, gets, tail);
    CountAllGets(gets);
    var step := ValueStep(Cleared(s), ctxs, now, loaderResult, loadedAt);
    assert tail[1..] == [Get(ctxs, now, loaderResult, loadedAt)];
    assert tail[1..][1..] == [];
    assert RunOps(Cleared(s), tail[1..]) == Run(step.next, [loaderResult], [Invocation(ResolveContext(ctxs), s.args)]);
    assert RunOps(s, tail) == Run(step.next, [loaderResult], [Invocation(ResolveContext(ctxs), s.args)]);
  }

  lemma {:induction false} CountAllGets<T>(ops: seq<Op<T>>)
    requires forall i :: 0 <= i < |ops| ==> ops[i].Get?
    ensures CountGets(ops) == |ops|
    decreases |ops|
  {
    if ops != [] {
      assert ops[0].Get?;
      CountAllGets(ops[1..]);
    }
  }

  /** The TTL counts from the instant the loader returned. With a 100ms TTL and
      a loader that takes 30ms, a load started at 0 is stamped 30ms, so a
      Value at 120ms (90ms later) is still a cache hit. */
  lemma TTLCountsFromLoadEnd<T, A>(stale: T, args: seq<A>, v: T, w: T)
    ensures var ms := 1_000_000;
      var r := RunOps(State(stale, args, false, true, 100 * ms, None),
                      [Get([], 0, Outcome(v, None), 30 * ms), Get([], 120 * ms, Outcome(w, None), 120 * ms)]);
      |r.calls| == 1 && r.replies == [Outcome(v, None), Outcome(v, None)]
  {
    var ms := 1_000_000;
    var ops := [Get([], 0, Outcome(v, None), 30 * ms), Get([], 120 * ms, Outcome(w, None), 120 * ms)];
    var s1 := State(v, args, true, true, 100 * ms, Some(30 * ms));
    assert ops[1..] == [Get([], 120 * ms, Outcome(w, None), 120 * ms)];
    assert RunOps(s1, ops[1..]) == Run(s1, [Outcome(v, None)], []);
  }

  /** A 100ms-TTL cell whose loader always returns "value": two Values at once
      call the loader once, and a Value 150ms later calls it a second time. */
  lemma TTLExpiryScenario<A>(args: seq<A>, stale: string)
    ensures var ms := 1_000_000;
      var got := Outcome("value", None);
      var s0 := State(stale, args, false, true, 100 * ms, None);
      var first := [Get([], 0, got, 0), Get([], 0, got, 0)];
      var all := first + [Get([], 150 * ms, got, 150 * ms)];
      |RunOps(s0, first).calls| == 1 && |RunOps(s0, all).calls| == 2 &&
      RunOps(s0, all).replies == [got, got, got]
  {
    var ms := 1_000_000;
    var got := Outcome("value", None);
    var s0 := State(stale, args, false, true, 100 * ms, None);
    var first := [Get([], 0, got, 0), Get([], 0, got, 0)];
    var late := [Get([], 150 * ms, got, 150 * ms)];
    var s1 := State("value", args, true, true, 100 * ms, Some(0));
    var s2 := s1.(lastLoad := Some(150 * ms));
    assert first[1..] == [Get([], 0, got, 0)];
    assert RunOps(s1, first[1..]) == Run(s1, [got], []);
    assert RunOps(s0, first) == Run(s1, [got, got], [Invocation(Background, args)]);
    assert RunOps(s1, late) == Run(s2, [got], [Invocation(Background, args)]);
    RunAppend(s0, first, late);
  }

  /** A 100ms-TTL cell with a counting loader: the Value at 0 returns 1, and
      the Value 150ms later reloads and returns 2. */
  lemma TTLCounterScenario<A>(args: seq<A>, stale: int)
    ensures var ms := 1_000_000;
      var r := RunOps(State(stale, args, false, true, 100 * ms, None),
                      [Get([], 0, Outcome(1, None), 0), Get([], 150 * ms, Outcome(2, None), 150 * ms)]);
      |r.calls| == 2 && r.replies == [Outcome(1, None), Outcome(2, None)]
  {
    var ms := 1_000_000;
    var ops := [Get([], 0, Outcome(1, None), 0), Get([], 150 * ms, Outcome(2, None), 150 * ms)];
    var s1 := State(1, args, true, true, 100 * ms, Some(0));
    var s2 := s1.(value := 2, lastLoad := Some(150 * ms));
    assert ops[1..] == [Get([], 150 * ms, Outcome(2, None), 150 * ms)];
    assert RunOps(s1, ops[1..]) == Run(s2, [Outcome(2, None)], [Invocation(Background, args)]);
  }

  /** A loader failing with "loader error": Value on a new cell calls it once
      and returns that error verbatim. */
  lemma LoaderErrorScenario<T, A>(s: State<T, A>, zero: T, ctxs: seq<Context>, now: Time, loadedAt: Time)
    requires Initial(s, false, 0, s.args)
    ensures var failed := Outcome(zero, Some(Error("loader error")));
      var r := RunOps(s, [Get(ctxs, now, failed, loadedAt)]);
      r.replies == [failed] && r.replies[0].err == Some(Error("loader error")) && |r.calls| == 1
  {
  }

  // ---------------------------------------------------------------------
  // The cell itself

  class WithLoader<T(0), A> {
    var value: T
    const args: seq<A>
    var loaded: bool
    const withTTL: bool
    const ttl: Duration
    var lastLoad: Option<Time>
    /** Every loader invocation so far, in order. */
    ghost var calls: seq<Invocation<A>>

    ghost function Snapshot(): State<T, A>
      reads this
    {
      State(value, args, loaded, withTTL, ttl, lastLoad)
    }

    ghost function LoadCount(): nat
      reads this
    {
      |calls|
    }

    /** newWithLoader(loader, withTTL, ttl, args...). */
    constructor (withTTL: bool, ttl: Duration, args: seq<A>)
      ensures Initial(Snapshot(), withTTL, ttl, args)
      ensures calls == []
    {
      this.args := args;
      this.withTTL := withTTL;
      this.ttl := ttl;
      this.loaded := false;
      this.lastLoad := None;
      this.calls := [];
    }

    /** newWithLoaderPreloaded(value, loader, withTTL, ttl, args...) as
        written, with `now` the clock reading at construction. */
    constructor Preloaded(value: T, withTTL: bool, ttl: Duration, args: seq<A>, now: Time)
      ensures Snapshot() == PreloadedState(value, args, withTTL, ttl, now)
      ensures calls == []
    {
      this.value := value;
      this.args := args;
      this.withTTL := withTTL;
      this.ttl := ttl;
      this.loaded := false;
      this.lastLoad := Some(now);
      this.calls := [];
    }

    /** The preloading constructor as documented: the preload value is loaded. */
    constructor PreloadedIntended(value: T, withTTL: bool, ttl: Duration, args: seq<A>, now: Time)
      ensures Snapshot() == PreloadedIntendedState(value, args, withTTL, ttl, now)
      ensures calls == []
    {
      this.value := value;
      this.args := args;
      this.withTTL := withTTL;
      this.ttl := ttl;
      this.loaded := true;
      this.lastLoad := Some(now);
      this.calls := [];
    }

    /** Value(ctxs...): `now` is the clock reading of the expiry test,
        `loaderResult` what the loader returns if it is called, and
        `loadedAt` the clock reading after it returns. */
    method Value(ctxs: seq<Context>, now: Time, loaderResult: Outcome<T>, loadedAt: Time) returns (v: T, err: Option<Error>)
      modifies this
      ensures var step := ValueStep(old(Snapshot()), ctxs, now, loaderResult, loadedAt);
        Snapshot() == step.next && Outcome(v, err) == step.reply && calls == old(calls) + CallLog(step.call)
      ensures LoadCount() == old(LoadCount()) + (if old(ShouldLoad(Snapshot(), now)) then 1 else 0)
    {
      err := None;
      var needsRefresh := withTTL && lastLoad.Some? && now - lastLoad.value > ttl;
      if !loaded || needsRefresh {
        var ctx: Context;
        if |ctxs| > 0 {
          ctx := ctxs[0];
        } else {
          ctx := Background;
        }
        calls := calls + [Invocation(ctx, args)];
        value, err := loaderResult.value, loaderResult.err;
        loaded := err == None;
        lastLoad := Some(loadedAt);
      }
      v := value;
    }

    /** Clear(): the next Value calls the loader. */
    method Clear()
      modifies this
      ensures Snapshot() == Cleared(old(Snapshot()))
      ensures calls == old(calls)
    {
      loaded := false;
      lastLoad := None;
    }
  }
}
