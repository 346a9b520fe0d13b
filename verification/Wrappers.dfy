/** Optional values, and the keys of a partial status frame. */
module Wrappers {
  datatype Option<T> = None | Some(value: T)

  /** A key that a frame may leave out, null or set. */
  datatype Clearable<T> = Omitted | Cleared | Set(value: T)

  function Keep<T>(old_: T, o: Option<T>): T { if o.Some? then o.value else old_ }

  function Reset<T>(old_: T, c: Clearable<T>, gone: T): T {
    match c case Omitted => old_ case Cleared => gone case Set(v) => v
  }

  /** What two frames say of one key, the second after the first. */
  function Later<T>(first: Option<T>, then_: Option<T>): Option<T> { if then_.Some? then then_ else first }

  function LaterC<T>(first: Clearable<T>, then_: Clearable<T>): Clearable<T> { if then_.Omitted? then first else then_ }
}
