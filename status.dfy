/** Optional values, the encoder's usage errors, and the outcome of a call. */
module Status {

  datatype Option<+T> = None | Some(value: T)

  /** Why a call on the encoder raised instead of returning normally. */
  datatype Error =
    | SessionClosed      // `assert not self._exited`
    | NotExited          // `assert self._exited` in `size` / `pack`
    | AlreadyConfigured  // `num` called a second time
    | NoChannels         // a per-channel setter before `num` (comparison with None)
    | OutOfRange         // channel index `>= count` (assert) or `< -count` (IndexError)
    | NoTimestep         // division by the unset timestep (None)
    | ZeroTimestep       // division by a zero timestep
    | UnknownCounter     // `record` given a name that is not a RecordBits member
    | WordOutOfRange     // `struct.pack` given a value that is not an unsigned 32-bit word

  datatype Result<+T> = Ok(value: T) | Err(error: Error)

  /** Whether a call returned normally or raised the given error. */
  datatype Outcome = Done | Failed(error: Error)
}
