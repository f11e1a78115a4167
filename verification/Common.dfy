// Values shared by every module: an optional value, an outcome that may fail,
// and the key of a pull request.
module Common {

  datatype Option<+T> = None | Some(value: T)

  datatype Result<+T, +E> = Success(value: T) | Failure(error: E)

  /** `(repo, pr_number)`, the key of `pr_locks` and `failure_cooldowns`. */
  datatype PrKey = PrKey(repo: string, number: int)
}
