/** Vocabulary shared by every component of the watcher model. */
module Common {
  datatype Option<+T> = None | Some(value: T)

  /** Instants and durations, in nanoseconds. The source's zero DateTime is `None`. */
  type Time = int

  const HOUR: Time := 60 * 60 * 1_000_000_000

  /** Identifies one pull request on every path (`coalesce.Key` and `prKey` in the source). */
  datatype PRKey = PRKey(owner: string, repo: string, number: int)

  /** One publishable head: a pull request at one commit (`RetryGuardPR` in the source). */
  datatype HeadKey = HeadKey(pr: PRKey, sha: string)

  function Max(a: int, b: int): int {
    if a < b then b else a
  }
}
