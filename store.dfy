/**
 * The store's atomic read-modify-write primitive, reduced to what the server functions
 * rely on: a transaction's update function is handed the current value of
 * one record and either returns the value to commit or aborts.
 */
module Store {

  /** What an update function returns: a value to commit, or an abort with its reason. */
  datatype Tx<+T, +E> = Commit(next: T) | Abort(error: E)

  /**
   * The stored value after the transaction settles: the committed value, or
   * the current value untouched when the update function aborted.
   */
  function Resolve<T, E>(current: T, tx: Tx<T, E>): T
  {
    match tx
    case Commit(next) => next
    case Abort(_) => current
  }
}
