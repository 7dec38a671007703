/** Shared result types: the values the game's code returns, and the panics it may raise. */
module Common {

  datatype Option<+T> = None | Some(value: T)

  datatype Result<+T, +E> = Ok(value: T) | Err(error: E)

  /** The reason for a panic (an `unwrap`, `expect` or `panic!` that fails). */
  datatype Fault =
    | NotBuilt                    // `sources` is still `None` when a link is resolved
    | UnknownSource(name: string) // a link names a source the built asset does not know
    | AtlasBuildFailed            // the atlas builder could not pack the images
    | MissingAsset                // a loaded handle has no asset in the store
    | MissingStep(name: string)   // a load step is marked done before it was added

  /** The end of a call that may panic: it either returns or aborts with a fault. */
  datatype Outcome = Done | Panicked(fault: Fault)
}
