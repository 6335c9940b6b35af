/**
 Which pull requests the unreviewed-PR scan publishes again, from what GitHub shows of them: exactly those that have
 waited a threshold, may be reviewed, and have no reviewer's verdict at their head, as far as the budget goes.
 */
module ScannerLaws {
  import opened Common
  import PollSpec
  import opened ScannerSpec
  import opened ScannerRuns

  /** The scan has no business with it: filtered, marked for an override, or touched less than a threshold ago. */
  predicate Waits(cfg: Config, s: Sighting, now: Time) {
    s.filtered || (cfg.overrideLabel != "" && cfg.overrideLabel in s.pr.labels) || s.pr.updatedAt + cfg.threshold > now
  }

  predicate MayBeReviewed(s: Sighting) {
    s.headSHA.Some? && s.headSHA.value != "" && s.trust == PollSpec.Trusted && !s.parked
  }

  predicate Reviewed(cfg: Config, s: Sighting) {
    s.headSHA.Some? && s.reviews.Some?
    && exists i :: 0 <= i < |s.reviews.value|
                   && s.reviews.value[i].commitID == s.headSHA.value && cfg.isReviewer(s.reviews.value[i].authorLogin)
  }

  /** The pull request waits for a review of head `h`. */
  predicate Owes(cfg: Config, s: Sighting, now: Time, h: HeadKey) {
    !Waits(cfg, s, now) && MayBeReviewed(s) && s.reviews.Some? && !Reviewed(cfg, s)
    && h == HeadKey(s.pr.key, s.headSHA.value)
  }

  /** Everything the scan has to know about it could be read. */
  predicate Readable(cfg: Config, s: Sighting, now: Time) {
    Waits(cfg, s, now)
    || (s.headSHA.Some? && s.trust != PollSpec.TrustError && (MayBeReviewed(s) ==> s.reviews.Some?))
  }

  lemma ExamineOwes(cfg: Config, s: Sighting, now: Time)
    ensures var verdict := if Waiting(cfg, s, now) then NotCounted else Examine(cfg, s);
            && (verdict.Failed? <==> !Readable(cfg, s, now))
            && (verdict.Counted? ==> s.headSHA == Some(verdict.headSHA))
            && (verdict.Counted? <==> s.headSHA.Some? && Owes(cfg, s, now, HeadKey(s.pr.key, s.headSHA.value)))
  {
  }

  /* ---------- nothing else is published ---------- */

  lemma {:induction false} CandidatesOwe(cfg: Config, cache: map<PRKey, Time>, sightings: seq<Sighting>, now: Time,
                                         n: nat)
    returns (i: nat)
    requires var cs := QualifyAll(cfg, cache, sightings, now).1; cs.Some? && n < |cs.value|
    ensures i < |sightings| && Owes(cfg, sightings[i], now, QualifyAll(cfg, cache, sightings, now).1.value[n].head)
    ensures QualifyAll(cfg, cache, sightings, now).1.value[n].publishOk == sightings[i].publishOk
    decreases |sightings|
  {
    var s, rest := sightings[0], sightings[1..];
    var (cache', verdict) := Qualify(cfg, cache, s, now);
    var mine := |CandidateOf(s, verdict)|;
    ExamineOwes(cfg, s, now);
    if n < mine {
      i := 0;
    } else {
      i := CandidatesOwe(cfg, cache', rest, now, n - mine);
      i := i + 1;
    }
  }

  /** A head that any scan publishes, from any state, is owed to a pull request of that very scan. */
  lemma PublishedIsOwed(cfg: Config, s: State, input: ScanInput, h: HeadKey) returns (i: nat)
    requires h in Scan(cfg, s, input).published
    ensures cfg.enabled && !input.running && input.searchOk
    ensures i < |input.sightings| && Owes(cfg, input.sightings[i], input.now, h) && input.sightings[i].publishOk
  {
    var cs := Candidates(cfg, s, input).value;
    RetriedIff(cfg, s.retryState, cs, input.now, h);
    var n :| ReachesRetry(cs, n) && cs[n].head == h && cs[n].publishOk;
    i := CandidatesOwe(cfg, s.reviewedCache, input.sightings, input.now, n);
  }

  lemma {:induction false} UnreadableAborts(cfg: Config, cache: map<PRKey, Time>, sightings: seq<Sighting>, now: Time,
                                            i: nat)
    requires i < |sightings|
    requires var s := sightings[i];
      s.cancelled || (!Readable(cfg, s, now) && !(s.pr.key in cache && cache[s.pr.key] == s.pr.updatedAt)
                      && forall j :: 0 <= j < i ==> sightings[j].pr.key != s.pr.key)
    ensures QualifyAll(cfg, cache, sightings, now).1.None?
    decreases |sightings|
  {
    var s := sightings[0];
    ExamineOwes(cfg, s, now);
    if i > 0 && !s.cancelled {
      var rest, cache' := sightings[1..], Qualify(cfg, cache, s, now).0;
      assert rest[i - 1] == sightings[i] && forall j :: 0 <= j < i - 1 ==> rest[j] == sightings[j + 1];
      UnreadableAborts(cfg, cache', rest, now, i - 1);
    }
  }

  /** A scan that is cancelled, or cannot read a pull request it has not cached, publishes nothing at all, spends no
      budget and leaves the gauge as it was. */
  lemma AbortedScanPublishesNothing(cfg: Config, s: State, input: ScanInput, i: nat)
    requires i < |input.sightings|
    requires var t := input.sightings[i];
      t.cancelled || (!Readable(cfg, t, input.now)
                      && !(t.pr.key in s.reviewedCache && s.reviewedCache[t.pr.key] == t.pr.updatedAt)
                      && forall j :: 0 <= j < i ==> input.sightings[j].pr.key != t.pr.key)
    ensures var r := Scan(cfg, s, input);
            r.published == [] && r.gauge.None? && r.state.retryState == s.retryState
  {
    UnreadableAborts(cfg, s.reviewedCache, input.sightings, input.now, i);
  }

  /* ---------- and all of that is ---------- */

  /** What the retry pass of an uncached scan is handed. */
  function Owed(cfg: Config, sightings: seq<Sighting>, now: Time): seq<Candidate> {
    if sightings == [] then []
    else
      var s := sightings[0];
      (if s.headSHA.Some? && Owes(cfg, s, now, HeadKey(s.pr.key, s.headSHA.value))
       then [Candidate(HeadKey(s.pr.key, s.headSHA.value), s.publishOk, s.retryCancelled)] else [])
      + Owed(cfg, sightings[1..], now)
  }

  predicate AllReadable(cfg: Config, sightings: seq<Sighting>, now: Time) {
    forall i :: 0 <= i < |sightings| ==> !sightings[i].cancelled && Readable(cfg, sightings[i], now)
  }

  lemma {:induction false} UncachedIsOwed(cfg: Config, sightings: seq<Sighting>, now: Time)
    requires AllReadable(cfg, sightings, now)
    ensures Uncached(cfg, sightings, now) == Some(Owed(cfg, sightings, now))
    decreases |sightings|
  {
    if sightings != [] {
      var s := sightings[0];
      ExamineOwes(cfg, s, now);
      assert forall i :: 0 <= i < |sightings[1..]| ==> sightings[1..][i] == sightings[i + 1];
      UncachedIsOwed(cfg, sightings[1..], now);
    }
  }

  /** The retry pass gets to this sighting, which can be sent: it was not cancelled before. */
  ghost predicate Sendable(cfg: Config, sightings: seq<Sighting>, now: Time, h: HeadKey, i: int) {
    0 <= i < |sightings| && Owes(cfg, sightings[i], now, h) && sightings[i].publishOk
    && forall j, g :: 0 <= j <= i && Owes(cfg, sightings[j], now, g) ==> !sightings[j].retryCancelled
  }

  predicate Retriable(cs: seq<Candidate>, h: HeadKey, n: int) {
    ReachesRetry(cs, n) && cs[n].head == h && cs[n].publishOk
  }

  ghost predicate SomeSendable(cfg: Config, sightings: seq<Sighting>, now: Time, h: HeadKey) {
    exists i :: Sendable(cfg, sightings, now, h, i)
  }

  ghost predicate SomeRetriable(cs: seq<Candidate>, h: HeadKey) {
    exists n :: Retriable(cs, h, n)
  }

  lemma RetriableLater(c: Candidate, cs: seq<Candidate>, h: HeadKey, n: int)
    requires n > 0
    ensures Retriable([c] + cs, h, n) <==> !c.cancelled && Retriable(cs, h, n - 1)
  {
    var all := [c] + cs;
    if n <= |cs| {
      assert all[n] == cs[n - 1] && all[0] == c;
      assert forall j :: 0 < j <= n ==> all[j] == cs[j - 1];
      assert forall j :: 0 <= j <= n - 1 ==> cs[j] == all[j + 1];
    }
  }

  lemma RetriableRest(c: Candidate, cs: seq<Candidate>, h: HeadKey)
    ensures SomeRetriable([c] + cs, h)
            <==> Retriable([c], h, 0) || (!c.cancelled && SomeRetriable(cs, h))
  {
    assert Retriable([c] + cs, h, 0) <==> Retriable([c], h, 0);
    if n :| Retriable([c] + cs, h, n) {
      if n > 0 {
        RetriableLater(c, cs, h, n);
      }
    }
    if n :| Retriable(cs, h, n) {
      RetriableLater(c, cs, h, n + 1);
    }
  }

  lemma SendableRest(cfg: Config, sightings: seq<Sighting>, now: Time, h: HeadKey)
    requires sightings != []
    ensures SomeSendable(cfg, sightings, now, h)
            <==> Sendable(cfg, sightings, now, h, 0)
                 || ((forall g :: Owes(cfg, sightings[0], now, g) ==> !sightings[0].retryCancelled)
                     && SomeSendable(cfg, sightings[1..], now, h))
  {
    var rest := sightings[1..];
    forall i | Sendable(cfg, sightings, now, h, i) && i > 0
      ensures Sendable(cfg, rest, now, h, i - 1)
    {
      assert forall j :: 0 <= j <= i - 1 ==> rest[j] == sightings[j + 1];
    }
    if forall g :: Owes(cfg, sightings[0], now, g) ==> !sightings[0].retryCancelled {
      forall i | Sendable(cfg, rest, now, h, i)
        ensures Sendable(cfg, sightings, now, h, i + 1)
      {
        assert forall j :: 1 <= j <= i + 1 ==> sightings[j] == rest[j - 1];
      }
    }
  }

  lemma {:induction false} OwedIsSendable(cfg: Config, sightings: seq<Sighting>, now: Time, h: HeadKey)
    ensures SomeRetriable(Owed(cfg, sightings, now), h)
            <==> SomeSendable(cfg, sightings, now, h)
  {
    if sightings != [] {
      var s, rest := sightings[0], Owed(cfg, sightings[1..], now);
      OwedIsSendable(cfg, sightings[1..], now, h);
      SendableRest(cfg, sightings, now, h);
      if s.headSHA.Some? && Owes(cfg, s, now, HeadKey(s.pr.key, s.headSHA.value)) {
        var c := Candidate(HeadKey(s.pr.key, s.headSHA.value), s.publishOk, s.retryCancelled);
        assert Owed(cfg, sightings, now) == [c] + rest;
        RetriableRest(c, rest, h);
        assert Sendable(cfg, sightings, now, h, 0) <==> Retriable([c], h, 0);
        assert (forall g :: Owes(cfg, s, now, g) ==> !s.retryCancelled) <==> !c.cancelled;
      } else {
        assert Owed(cfg, sightings, now) == rest;
        assert !Sendable(cfg, sightings, now, h, 0);
        assert forall g :: Owes(cfg, sightings[0], now, g) ==> !sightings[0].retryCancelled;
      }
    }
  }

  lemma RetriedIffRetriable(cfg: Config, retries: map<HeadKey, Retry>, cs: seq<Candidate>, now: Time, h: HeadKey)
    ensures h in RetryAll(cfg, retries, cs, now).1 <==> Due(cfg, retries, h, now) && SomeRetriable(cs, h)
  {
    RetriedIff(cfg, retries, cs, now, h);
    if n :| Retriable(cs, h, n) {
      assert ReachesRetry(cs, n) && cs[n].head == h && cs[n].publishOk;
    }
    if n :| ReachesRetry(cs, n) && cs[n].head == h && cs[n].publishOk {
      assert Retriable(cs, h, n);
    }
  }

  /** The budget, counted in publishes since the pull request was last missed. */
  predicate BudgetLeft(cfg: Config, times: seq<Time>, now: Time) {
    |times| < cfg.retryMax && (times != [] ==> times[|times| - 1] + cfg.threshold <= now)
  }

  /** After any run of scans, one that can read everything publishes a head exactly when it is owed to one of its pull
      requests that can be sent and the budget is not used up; cached reviews make no difference. */
  lemma PublishedIffOwed(cfg: Config, inputs: seq<ScanInput>, input: ScanInput, h: HeadKey)
    requires cfg.Valid() && cfg.enabled && Until(inputs, input.now) && !input.running && input.searchOk
    requires AllReadable(cfg, input.sightings, input.now) && Consistent(Seen(inputs) + input.sightings)
    ensures h in Scan(cfg, Run(cfg, inputs), input).published
            <==> BudgetLeft(cfg, Since(cfg, inputs, h), input.now)
                 && SomeSendable(cfg, input.sightings, input.now, h)
  {
    var s, cs := Run(cfg, inputs), Owed(cfg, input.sightings, input.now);
    UncachedIsOwed(cfg, input.sightings, input.now);
    CacheAgrees(cfg, inputs, input);
    RunKeepsBudget(cfg, inputs, h, input.now);
    RetriedIffRetriable(cfg, s.retryState, cs, input.now, h);
    OwedIsSendable(cfg, input.sightings, input.now, h);
    DueIffBudgetLeft(cfg, s.retryState, h, Since(cfg, inputs, h), input.now);
  }

  lemma DueIffBudgetLeft(cfg: Config, retries: map<HeadKey, Retry>, h: HeadKey, times: seq<Time>, now: Time)
    requires Budget(cfg, retries, h, times, now)
    ensures Due(cfg, retries, h, now) <==> BudgetLeft(cfg, times, now)
  {
  }

  /* ---------- the cache ---------- */

  /** Looking at a pull request caches it at its updated-at exactly when it was cached so already or is found reviewed,
      drops any older entry once it is looked up again, and leaves every other pull request alone. */
  lemma CachedIffReviewed(cfg: Config, cache: map<PRKey, Time>, s: Sighting, now: Time)
    ensures var cache', key := Qualify(cfg, cache, s, now).0, s.pr.key;
            var hit := key in cache && cache[key] == s.pr.updatedAt;
            && (key in cache' && cache'[key] == s.pr.updatedAt <==>
                  hit || (!Waits(cfg, s, now) && MayBeReviewed(s) && Reviewed(cfg, s)))
            && (key in cache' && cache'[key] != s.pr.updatedAt <==> key in cache && !hit && Waits(cfg, s, now))
            && cache' - {key} == cache - {key}
  {
  }

  /** A cached pull request is not looked up: the scan goes on as if nothing could be read of it. */
  lemma CachedIsNotLookedUp(cfg: Config, cache: map<PRKey, Time>, s: Sighting, now: Time, t: Sighting)
    requires s.pr.key in cache && cache[s.pr.key] == s.pr.updatedAt && t.pr == s.pr
    ensures Qualify(cfg, cache, s, now) == Qualify(cfg, cache, t, now) == (cache, NotCounted)
  {
  }
}
