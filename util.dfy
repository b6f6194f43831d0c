/**
 * Shared value types of the app: Kotlin's nullable values become `Option`,
 * and the sealed class `Resource` used by repositories, use cases and view
 * models becomes a closed datatype with one constructor per variant.
 */
module Util {

  /** A Kotlin nullable value `T?`. */
  datatype Option<+T> = None | Some(value: T) {
    function GetOr(default: T): T {
      match this
      case Some(v) => v
      case None => default
    }
  }

  /** The outcome of a possibly long-running operation, as the UI observes it. */
  datatype Resource<+T> = Idle | Loading | Success(data: T) | Error(message: string)
}
