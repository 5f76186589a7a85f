/** Values shared by both implementations of the Lazy[T] interface. */
module LazyTypes {

  datatype Option<+T> = None | Some(value: T)

  /** An instant read from the monotonic clock, in nanoseconds. */
  type Time = int

  /** A time.Duration: a signed count of nanoseconds. */
  type Duration = int

  /** A context.Context. The cell transports it to the loader and never looks
      inside, so a context is an opaque token; Background is the default one. */
  datatype Context = Background | Supplied(id: nat)

  /** A Go error value returned verbatim by a loader. */
  datatype Error = Error(message: string)

  /** The pair (T, error) that both a loader and Value return; err == None is a
      nil error. */
  datatype Outcome<T> = Outcome(value: T, err: Option<Error>)

  /** One loader invocation: the context and the argument list it was given. */
  datatype Invocation<A> = Invocation(ctx: Context, args: seq<A>)
}
