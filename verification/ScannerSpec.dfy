/**
 The unreviewed-PR scan (pkg/unreviewed_scanner.go) as functions on its two maps. What GitHub, the trust
 check and the publisher answer about one pull request in one scan is an arbitrary oracle.
 */
module ScannerSpec {
  import opened Common
  import PollSpec
  import LedgerSpec

  type PullRequest = PollSpec.PullRequest

  /** The scan is enabled only with logins, and then with a positive threshold and no negative budget. */
  datatype Config = Config(enabled: bool, threshold: Time, retryMax: int, overrideLabel: string,
                           isReviewer: string -> bool)
  {
    predicate Valid() {
      enabled ==> threshold > 0 && retryMax >= 0
    }
  }

  /** One open pull request in one scan. The two flags are cancellations seen before its qualification and
      before its retry; a failed read is `None`. */
  datatype Sighting = Sighting(
    pr: PullRequest,
    filtered: bool,
    headSHA: Option<string>,
    trust: PollSpec.Trust,
    parked: bool,
    reviews: Option<seq<LedgerSpec.Review>>,
    publishOk: bool,
    cancelled: bool,
    retryCancelled: bool)

  /** The budget spent on one head. */
  datatype Retry = Retry(pr: PRKey, attempts: int, lastAttempt: Time)

  datatype State = State(retryState: map<HeadKey, Retry>, reviewedCache: map<PRKey, Time>)

  const IDLE := State(map[], map[])

  datatype Verdict = Counted(headSHA: string) | NotCounted | Failed

  datatype Candidate = Candidate(head: HeadKey, publishOk: bool, cancelled: bool)

  /** The checks that need no lookup. */
  predicate Waiting(cfg: Config, s: Sighting, now: Time) {
    s.filtered || (cfg.overrideLabel != "" && cfg.overrideLabel in s.pr.labels) || now - s.pr.updatedAt < cfg.threshold
  }

  predicate Confirms(cfg: Config, s: Sighting) {
    s.headSHA.Some? && s.reviews.Some? && LedgerSpec.HasVerdict(s.reviews.value, s.headSHA.value, cfg.isReviewer)
  }

  /** Everything behind the cache. */
  function Examine(cfg: Config, s: Sighting): Verdict {
    if s.headSHA.None? || s.trust.TrustError? then Failed
    else if !s.trust.Trusted? || s.headSHA.value == "" || s.parked then NotCounted
    else if s.reviews.None? then Failed
    else if Confirms(cfg, s) then NotCounted
    else Counted(s.headSHA.value)
  }

  /** The examination found a review, and did not stop before it. */
  predicate Caches(cfg: Config, s: Sighting) {
    Examine(cfg, s).NotCounted? && s.trust.Trusted? && s.headSHA.value != "" && !s.parked
  }

  function Qualify(cfg: Config, cache: map<PRKey, Time>, s: Sighting, now: Time): (map<PRKey, Time>, Verdict) {
    var key, at := s.pr.key, s.pr.updatedAt;
    if Waiting(cfg, s, now) then (cache, NotCounted)
    else if key in cache && cache[key] == at then (cache, NotCounted)
    else
      var dropped := cache - {key};
      (if Caches(cfg, s) then dropped[key := at] else dropped, Examine(cfg, s))
  }

  /** Qualifies the whole search result; `None` when the scan is aborted. */
  function QualifyAll(cfg: Config, cache: map<PRKey, Time>, sightings: seq<Sighting>, now: Time)
    : (map<PRKey, Time>, Option<seq<Candidate>>)
    decreases |sightings|
  {
    if sightings == [] then (cache, Some([]))
    else if sightings[0].cancelled then (cache, None)
    else
      var s := sightings[0];
      var (cache', verdict) := Qualify(cfg, cache, s, now);
      if verdict.Failed? then (cache', None)
      else
        var (cache'', rest) := QualifyAll(cfg, cache', sightings[1..], now);
        (cache'', if rest.None? then None else Some(CandidateOf(s, verdict) + rest.value))
  }

  function CandidateOf(s: Sighting, verdict: Verdict): seq<Candidate> {
    if verdict.Counted? then [Candidate(HeadKey(s.pr.key, verdict.headSHA), s.publishOk, s.retryCancelled)] else []
  }

  function Attempts(retries: map<HeadKey, Retry>, head: HeadKey): int {
    if head in retries then retries[head].attempts else 0
  }

  /** The budget allows another publish of this head. */
  predicate Due(cfg: Config, retries: map<HeadKey, Retry>, head: HeadKey, now: Time) {
    Attempts(retries, head) < cfg.retryMax
    && (Attempts(retries, head) > 0 ==> now - retries[head].lastAttempt >= cfg.threshold)
  }

  /** The retry pass: the map afterwards, and the heads published again. */
  function RetryAll(cfg: Config, retries: map<HeadKey, Retry>, cs: seq<Candidate>, now: Time)
    : (map<HeadKey, Retry>, seq<HeadKey>)
    decreases |cs|
  {
    if cs == [] || cs[0].cancelled then (retries, [])
    else
      var c := cs[0];
      if Due(cfg, retries, c.head, now) && c.publishOk
      then
        var (retries', published) :=
          RetryAll(cfg, retries[c.head := Retry(c.head.pr, Attempts(retries, c.head) + 1, now)], cs[1..], now);
        (retries', [c.head] + published)
      else RetryAll(cfg, retries, cs[1..], now)
  }

  predicate Exhausted(cfg: Config, retries: map<HeadKey, Retry>, head: HeadKey, now: Time) {
    cfg.retryMax == 0
    || (Attempts(retries, head) >= cfg.retryMax && head in retries && now - retries[head].lastAttempt >= cfg.threshold)
  }

  datatype Unreviewed = Unreviewed(pr: PRKey, exhausted: bool)

  function Gauge(cfg: Config, retries: map<HeadKey, Retry>, cs: seq<Candidate>, now: Time): seq<Unreviewed> {
    seq(|cs|, i requires 0 <= i < |cs| => Unreviewed(cs[i].head.pr, Exhausted(cfg, retries, cs[i].head, now)))
  }

  function Open(sightings: seq<Sighting>): set<PRKey> {
    set i | 0 <= i < |sightings| :: sightings[i].pr.key
  }

  function PruneState(s: State, open: set<PRKey>): State {
    State(map head | head in s.retryState && s.retryState[head].pr in open :: s.retryState[head],
          map key | key in s.reviewedCache && key in open :: s.reviewedCache[key])
  }

  /** One scan: skipped when another one runs or the search fails. */
  datatype ScanInput = ScanInput(running: bool, searchOk: bool, sightings: seq<Sighting>, now: Time)

  /** What a scan leaves: the state, the heads it published again, and the gauge if it set it. */
  datatype ScanResult = ScanResult(state: State, published: seq<HeadKey>, gauge: Option<seq<Unreviewed>>)

  function Scan(cfg: Config, s: State, input: ScanInput): ScanResult {
    if !cfg.enabled || input.running || !input.searchOk then ScanResult(s, [], None)
    else
      var (cache, candidates) := QualifyAll(cfg, s.reviewedCache, input.sightings, input.now);
      if candidates.None? then ScanResult(s.(reviewedCache := cache), [], None)
      else
        var (retries, published) := RetryAll(cfg, s.retryState, candidates.value, input.now);
        ScanResult(PruneState(State(retries, cache), Open(input.sightings)), published,
                   Some(Gauge(cfg, retries, candidates.value, input.now)))
  }
}
