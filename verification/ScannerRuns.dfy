/** Whole runs of the unreviewed-PR scan: the retry budget and the review cache. */
module ScannerRuns {
  import opened Common
  import opened ScannerSpec

  /** The state after a run of scans. */
  function Run(cfg: Config, inputs: seq<ScanInput>): State {
    if inputs == [] then IDLE
    else Scan(cfg, Run(cfg, inputs[..|inputs| - 1]), inputs[|inputs| - 1]).state
  }

  /** How often one scan published a head, as a list of its instant. */
  function TimesOf(published: seq<HeadKey>, now: Time, h: HeadKey): seq<Time> {
    if published == [] then []
    else (if published[0] == h then [now] else []) + TimesOf(published[1..], now, h)
  }

  /** When a run published a head, in order. */
  function Times(cfg: Config, inputs: seq<ScanInput>, h: HeadKey): seq<Time> {
    if inputs == [] then []
    else
      var n := |inputs| - 1;
      Times(cfg, inputs[..n], h)
      + TimesOf(Scan(cfg, Run(cfg, inputs[..n]), inputs[n]).published, inputs[n].now, h)
  }

  predicate InOrder(inputs: seq<ScanInput>) {
    forall i, j :: 0 <= i < j < |inputs| ==> inputs[i].now <= inputs[j].now
  }

  /** The scan ran to its end: it set the gauge and pruned its state. */
  predicate Complete(cfg: Config, s: State, input: ScanInput) {
    Scan(cfg, s, input).gauge.Some?
  }

  /** A complete scan that does not list the pull request, and so drops its entries. */
  predicate Misses(cfg: Config, s: State, input: ScanInput, pr: PRKey) {
    Complete(cfg, s, input) && pr !in Open(input.sightings)
  }

  /** When a run published a head since the last scan that missed its pull request. */
  function Since(cfg: Config, inputs: seq<ScanInput>, h: HeadKey): seq<Time> {
    if inputs == [] then []
    else
      var n := |inputs| - 1;
      var s := Run(cfg, inputs[..n]);
      if Misses(cfg, s, inputs[n], h.pr) then []
      else Since(cfg, inputs[..n], h) + TimesOf(Scan(cfg, s, inputs[n]).published, inputs[n].now, h)
  }

  /** How often a complete scan missed the pull request while the head had an entry. */
  function Losses(cfg: Config, inputs: seq<ScanInput>, h: HeadKey): nat {
    if inputs == [] then 0
    else
      var n := |inputs| - 1;
      Losses(cfg, inputs[..n], h)
      + if Misses(cfg, Run(cfg, inputs[..n]), inputs[n], h.pr) && Since(cfg, inputs[..n], h) != [] then 1 else 0
  }

  /** What a scan hands to the retry pass, unless it is aborted before. */
  function Candidates(cfg: Config, s: State, input: ScanInput): Option<seq<Candidate>> {
    QualifyAll(cfg, s.reviewedCache, input.sightings, input.now).1
  }

  /* ---------- the budget ---------- */

  predicate Spaced(times: seq<Time>, gap: Time) {
    forall i, j :: 0 <= i < j < |times| ==> times[j] - times[i] >= gap
  }

  /** The entry of a head is the number of its publishes and the last of their instants. */
  predicate Budget(cfg: Config, retries: map<HeadKey, Retry>, h: HeadKey, times: seq<Time>, now: Time) {
    && |times| <= cfg.retryMax && Spaced(times, cfg.threshold)
    && (h in retries <==> times != [])
    && (times != [] ==> retries[h] == Retry(h.pr, |times|, times[|times| - 1]) && times[|times| - 1] <= now)
  }

  lemma {:induction false} RetryKeepsBudget(cfg: Config, retries: map<HeadKey, Retry>, cs: seq<Candidate>, now: Time,
                                            h: HeadKey, times: seq<Time>)
    requires Budget(cfg, retries, h, times, now)
    ensures var (retries', published) := RetryAll(cfg, retries, cs, now);
            Budget(cfg, retries', h, times + TimesOf(published, now, h), now)
    decreases |cs|
  {
    if cs == [] || cs[0].cancelled {
      assert times + [] == times;
    } else if Due(cfg, retries, cs[0].head, now) && cs[0].publishOk {
      var head := cs[0].head;
      var spent := retries[head := Retry(head.pr, Attempts(retries, head) + 1, now)];
      var mine := if head == h then [now] else [];
      SpendKeepsBudget(cfg, retries, head, now, h, times);
      RetryKeepsBudget(cfg, spent, cs[1..], now, h, times + mine);
      OneMoreTime(times, RetryAll(cfg, spent, cs[1..], now).1, head, now, h);
    } else {
      RetryKeepsBudget(cfg, retries, cs[1..], now, h, times);
    }
  }

  lemma OneMoreTime(times: seq<Time>, rest: seq<HeadKey>, head: HeadKey, now: Time, h: HeadKey)
    ensures times + TimesOf([head] + rest, now, h) == times + (if head == h then [now] else []) + TimesOf(rest, now, h)
  {
    assert ([head] + rest)[1..] == rest;
  }

  lemma SpendKeepsBudget(cfg: Config, retries: map<HeadKey, Retry>, head: HeadKey, now: Time, h: HeadKey,
                         times: seq<Time>)
    requires Budget(cfg, retries, h, times, now) && Due(cfg, retries, head, now)
    ensures Budget(cfg, retries[head := Retry(head.pr, Attempts(retries, head) + 1, now)], h,
                   times + (if head == h then [now] else []), now)
  {
    if head == h {
      var more := times + [now];
      forall i, j | 0 <= i < j < |more|
        ensures more[j] - more[i] >= cfg.threshold
      {
        if j == |times| && i < j - 1 {
          assert times[j - 1] - times[i] >= cfg.threshold;
        }
      }
    } else {
      assert times + [] == times;
    }
  }

  lemma {:induction false} CandidatesAreOpen(cfg: Config, cache: map<PRKey, Time>, sightings: seq<Sighting>, now: Time,
                                             i: nat)
    requires var cs := QualifyAll(cfg, cache, sightings, now).1; cs.Some? && i < |cs.value|
    ensures QualifyAll(cfg, cache, sightings, now).1.value[i].head.pr in Open(sightings)
    decreases |sightings|
  {
    var s, rest := sightings[0], sightings[1..];
    var (cache', verdict) := Qualify(cfg, cache, s, now);
    var mine := |CandidateOf(s, verdict)|;
    assert sightings[0].pr.key in Open(sightings);
    if mine <= i {
      CandidatesAreOpen(cfg, cache', rest, now, i - mine);
      assert forall j :: 0 <= j < |rest| ==> rest[j] == sightings[j + 1];
    }
  }

  lemma {:induction false} PublishedAreCandidates(cfg: Config, retries: map<HeadKey, Retry>, cs: seq<Candidate>,
                                                  now: Time, h: HeadKey)
    requires forall i :: 0 <= i < |cs| ==> cs[i].head != h
    ensures var (retries', published) := RetryAll(cfg, retries, cs, now);
            TimesOf(published, now, h) == []
    decreases |cs|
  {
    if cs != [] && !cs[0].cancelled {
      var head := cs[0].head;
      var spent := retries[head := Retry(head.pr, Attempts(retries, head) + 1, now)];
      PublishedAreCandidates(cfg, spent, cs[1..], now, h);
      PublishedAreCandidates(cfg, retries, cs[1..], now, h);
      OneMoreTime([], RetryAll(cfg, spent, cs[1..], now).1, head, now, h);
    }
  }

  /** A scan that misses a pull request publishes none of its heads. */
  lemma MissingPublishesNothing(cfg: Config, s: State, input: ScanInput, h: HeadKey)
    requires Misses(cfg, s, input, h.pr)
    ensures TimesOf(Scan(cfg, s, input).published, input.now, h) == []
  {
    var cs := Candidates(cfg, s, input).value;
    forall i | 0 <= i < |cs|
      ensures cs[i].head != h
    {
      CandidatesAreOpen(cfg, s.reviewedCache, input.sightings, input.now, i);
    }
    PublishedAreCandidates(cfg, s.retryState, cs, input.now, h);
  }

  lemma PruneKeepsBudget(cfg: Config, s: State, h: HeadKey, times: seq<Time>, open: set<PRKey>, now: Time)
    requires cfg.Valid() && cfg.enabled && Budget(cfg, s.retryState, h, times, now)
    ensures Budget(cfg, PruneState(s, open).retryState, h, if h.pr in open then times else [], now)
  {
  }

  /** What a scan does to the retry entries, complete or not. */
  lemma ScanRetries(cfg: Config, s: State, input: ScanInput)
    ensures var r := Scan(cfg, s, input);
            if Complete(cfg, s, input)
            then Candidates(cfg, s, input).Some?
                 && var (retries, published) := RetryAll(cfg, s.retryState, Candidates(cfg, s, input).value, input.now);
                 var cache := QualifyAll(cfg, s.reviewedCache, input.sightings, input.now).0;
                 r.published == published && r.state == PruneState(State(retries, cache), Open(input.sightings))
            else r.published == [] && r.state.retryState == s.retryState
  {
  }

  lemma ScanKeepsBudget(cfg: Config, s: State, input: ScanInput, h: HeadKey, times: seq<Time>)
    requires cfg.enabled && Budget(cfg, s.retryState, h, times, input.now) && cfg.Valid()
    ensures var r := Scan(cfg, s, input);
            Budget(cfg, r.state.retryState, h,
                   if Misses(cfg, s, input, h.pr) then [] else times + TimesOf(r.published, input.now, h), input.now)
  {
    ScanRetries(cfg, s, input);
    if Complete(cfg, s, input) {
      var cs := Candidates(cfg, s, input).value;
      var (retries, published) := RetryAll(cfg, s.retryState, cs, input.now);
      var cache := QualifyAll(cfg, s.reviewedCache, input.sightings, input.now).0;
      RetryKeepsBudget(cfg, s.retryState, cs, input.now, h, times);
      PruneKeepsBudget(cfg, State(retries, cache), h, times + TimesOf(published, input.now, h), Open(input.sightings),
                       input.now);
    } else {
      assert times + TimesOf([], input.now, h) == times;
    }
  }

  /** A run of scans up to some instant. */
  predicate Until(inputs: seq<ScanInput>, now: Time) {
    InOrder(inputs) && forall i :: 0 <= i < |inputs| ==> inputs[i].now <= now
  }

  lemma UntilLast(inputs: seq<ScanInput>, now: Time)
    requires Until(inputs, now) && inputs != []
    ensures var n := |inputs| - 1; Until(inputs[..n], inputs[n].now) && inputs[n].now <= now
  {
  }

  /** What one scan adds to a run. */
  lemma LastScan(cfg: Config, inputs: seq<ScanInput>, h: HeadKey)
    requires inputs != []
    ensures var n := |inputs| - 1;
            var s := Run(cfg, inputs[..n]);
            var r, missed := Scan(cfg, s, inputs[n]), Misses(cfg, s, inputs[n], h.pr);
            && Run(cfg, inputs) == r.state
            && Times(cfg, inputs, h) == Times(cfg, inputs[..n], h) + TimesOf(r.published, inputs[n].now, h)
            && Since(cfg, inputs, h)
               == (if missed then [] else Since(cfg, inputs[..n], h) + TimesOf(r.published, inputs[n].now, h))
            && Losses(cfg, inputs, h)
               == Losses(cfg, inputs[..n], h) + (if missed && Since(cfg, inputs[..n], h) != [] then 1 else 0)
  {
  }

  lemma BudgetLater(cfg: Config, retries: map<HeadKey, Retry>, h: HeadKey, times: seq<Time>, now: Time, later: Time)
    requires Budget(cfg, retries, h, times, now) && now <= later
    ensures Budget(cfg, retries, h, times, later)
  {
  }

  /** In every run the entry of a head is exactly its publishes since the last scan that missed its pull request:
      at most `retryMax`, any two a threshold apart, whatever scans fail, overlap, are aborted or cancelled. */
  lemma {:induction false} RunKeepsBudget(cfg: Config, inputs: seq<ScanInput>, h: HeadKey, now: Time)
    requires cfg.Valid() && cfg.enabled && Until(inputs, now)
    ensures Budget(cfg, Run(cfg, inputs).retryState, h, Since(cfg, inputs, h), now)
  {
    if inputs != [] {
      var n := |inputs| - 1;
      var past, s := inputs[..n], Run(cfg, inputs[..n]);
      UntilLast(inputs, now);
      RunKeepsBudget(cfg, past, h, inputs[n].now);
      ScanKeepsBudget(cfg, s, inputs[n], h, Since(cfg, past, h));
      LastScan(cfg, inputs, h);
      BudgetLater(cfg, Run(cfg, inputs).retryState, h, Since(cfg, inputs, h), inputs[n].now, now);
    }
  }

  /** How publishes, those still counted, and losses relate. */
  predicate Split(retryMax: int, times: seq<Time>, since: seq<Time>, losses: nat) {
    && |since| <= |times| && (losses == 0 ==> times == since)
    && losses <= |times| - |since| <= retryMax * losses
  }

  lemma SplitMore(retryMax: int, times: seq<Time>, since: seq<Time>, losses: nat, more: seq<Time>)
    requires Split(retryMax, times, since, losses)
    ensures Split(retryMax, times + more, since + more, losses)
  {
  }

  lemma SplitLost(retryMax: int, times: seq<Time>, since: seq<Time>, losses: nat)
    requires Split(retryMax, times, since, losses) && |since| <= retryMax
    ensures Split(retryMax, times, [], losses + if since != [] then 1 else 0)
  {
    assert retryMax * (losses + 1) == retryMax * losses + retryMax;
  }

  lemma ScanSplits(cfg: Config, s: State, input: ScanInput, h: HeadKey, times: seq<Time>, since: seq<Time>, losses: nat)
    requires Split(cfg.retryMax, times, since, losses) && |since| <= cfg.retryMax
    ensures var more, missed := TimesOf(Scan(cfg, s, input).published, input.now, h), Misses(cfg, s, input, h.pr);
            Split(cfg.retryMax, times + more, if missed then [] else since + more,
                  losses + (if missed && since != [] then 1 else 0))
  {
    var more := TimesOf(Scan(cfg, s, input).published, input.now, h);
    if Misses(cfg, s, input, h.pr) {
      MissingPublishesNothing(cfg, s, input, h);
      assert times + more == times;
      SplitLost(cfg.retryMax, times, since, losses);
    } else {
      SplitMore(cfg.retryMax, times, since, losses, more);
    }
  }

  lemma {:induction false} LossesSplitTheTimes(cfg: Config, inputs: seq<ScanInput>, h: HeadKey, now: Time)
    requires cfg.Valid() && cfg.enabled && Until(inputs, now)
    ensures Split(cfg.retryMax, Times(cfg, inputs, h), Since(cfg, inputs, h), Losses(cfg, inputs, h))
  {
    if inputs != [] {
      var n := |inputs| - 1;
      var past := inputs[..n];
      UntilLast(inputs, now);
      LossesSplitTheTimes(cfg, past, h, inputs[n].now);
      RunKeepsBudget(cfg, past, h, inputs[n].now);
      ScanSplits(cfg, Run(cfg, past), inputs[n], h, Times(cfg, past, h), Since(cfg, past, h), Losses(cfg, past, h));
      LastScan(cfg, inputs, h);
    }
  }

  /** In every run a head is published at most `retryMax` times, and `retryMax` times more for each complete scan
      that missed its pull request while it had an entry. */
  lemma {:induction false} RetriesAreBounded(cfg: Config, inputs: seq<ScanInput>, h: HeadKey)
    requires cfg.Valid() && cfg.enabled && InOrder(inputs)
    ensures |Times(cfg, inputs, h)| <= cfg.retryMax * (1 + Losses(cfg, inputs, h))
    ensures |Since(cfg, inputs, h)| <= cfg.retryMax && Spaced(Since(cfg, inputs, h), cfg.threshold)
    ensures Losses(cfg, inputs, h) == 0 ==>
              |Times(cfg, inputs, h)| <= cfg.retryMax && Spaced(Times(cfg, inputs, h), cfg.threshold)
  {
    var now := if inputs == [] then 0 else inputs[|inputs| - 1].now;
    RunKeepsBudget(cfg, inputs, h, now);
    LossesSplitTheTimes(cfg, inputs, h, now);
    assert cfg.retryMax * (1 + Losses(cfg, inputs, h)) == cfg.retryMax + cfg.retryMax * Losses(cfg, inputs, h);
  }

  /** No complete scan after the first publish of the head misses its pull request. */
  predicate ListedSincePublished(cfg: Config, inputs: seq<ScanInput>, h: HeadKey) {
    inputs == []
    || (ListedSincePublished(cfg, inputs[..|inputs| - 1], h)
        && (Misses(cfg, Run(cfg, inputs[..|inputs| - 1]), inputs[|inputs| - 1], h.pr) ==>
              Times(cfg, inputs[..|inputs| - 1], h) == []))
  }

  lemma {:induction false} NoLossIffListed(cfg: Config, inputs: seq<ScanInput>, h: HeadKey, now: Time)
    requires cfg.Valid() && cfg.enabled && Until(inputs, now)
    ensures Losses(cfg, inputs, h) == 0 <==> ListedSincePublished(cfg, inputs, h)
  {
    if inputs != [] {
      var n := |inputs| - 1;
      UntilLast(inputs, now);
      NoLossIffListed(cfg, inputs[..n], h, inputs[n].now);
      LossesSplitTheTimes(cfg, inputs[..n], h, inputs[n].now);
      LastScan(cfg, inputs, h);
    }
  }

  /** The stored budget counts all publishes of a head exactly when no complete scan after the first of them
      missed its pull request. */
  lemma {:induction false} EntryCountsPublishesIff(cfg: Config, inputs: seq<ScanInput>, h: HeadKey)
    requires cfg.Valid() && cfg.enabled && InOrder(inputs)
    ensures Attempts(Run(cfg, inputs).retryState, h) == |Times(cfg, inputs, h)|
            <==> ListedSincePublished(cfg, inputs, h)
  {
    var now := if inputs == [] then 0 else inputs[|inputs| - 1].now;
    RunKeepsBudget(cfg, inputs, h, now);
    LossesSplitTheTimes(cfg, inputs, h, now);
    NoLossIffListed(cfg, inputs, h, now);
  }

  /** Up to here the retry pass was not cancelled. */
  predicate ReachesRetry(cs: seq<Candidate>, i: int) {
    0 <= i < |cs| && forall j :: 0 <= j <= i ==> !cs[j].cancelled
  }

  /** A retry pass publishes a head exactly when its budget is due and one of its candidates is reached and can
      be sent; and only the heads it publishes change their entry. */
  lemma {:induction false} RetriedIff(cfg: Config, retries: map<HeadKey, Retry>, cs: seq<Candidate>, now: Time,
                                      h: HeadKey)
    ensures var (retries', published) := RetryAll(cfg, retries, cs, now);
            && (h in published <==> Due(cfg, retries, h, now)
                                    && exists i :: ReachesRetry(cs, i) && cs[i].head == h && cs[i].publishOk)
            && (h !in published ==> (h in retries' <==> h in retries) && (h in retries ==> retries'[h] == retries[h]))
    decreases |cs|
  {
    if cs != [] && !cs[0].cancelled {
      var head, rest := cs[0].head, cs[1..];
      var spends := Due(cfg, retries, head, now) && cs[0].publishOk;
      var next := if spends then retries[head := Retry(head.pr, Attempts(retries, head) + 1, now)] else retries;
      RetriedIff(cfg, next, rest, now, h);
      forall i | ReachesRetry(rest, i)
        ensures ReachesRetry(cs, i + 1) && cs[i + 1] == rest[i]
      {
        assert forall j :: 1 <= j <= i + 1 ==> cs[j] == rest[j - 1];
      }
      forall i | ReachesRetry(cs, i) && i > 0
        ensures ReachesRetry(rest, i - 1) && cs[i] == rest[i - 1]
      {
      }
      if spends {
        assert ReachesRetry(cs, 0);
      }
    }
  }

  lemma OneMoreScan(cfg: Config, inputs: seq<ScanInput>, input: ScanInput, h: HeadKey)
    ensures var r := Scan(cfg, Run(cfg, inputs), input);
            && Run(cfg, inputs + [input]) == r.state
            && Times(cfg, inputs + [input], h) == Times(cfg, inputs, h) + TimesOf(r.published, input.now, h)
  {
    assert (inputs + [input])[..|inputs|] == inputs;
  }

  lemma ExhaustedIsSpent(cfg: Config, retries: map<HeadKey, Retry>, h: HeadKey, times: seq<Time>, now: Time)
    requires cfg.Valid() && cfg.enabled && Budget(cfg, retries, h, times, now)
    ensures Exhausted(cfg, retries, h, now) <==> Spent(cfg, times, now)
  {
  }

  /** The scan has given up on a head published at these times. */
  predicate Spent(cfg: Config, times: seq<Time>, now: Time) {
    cfg.retryMax == 0 || (|times| == cfg.retryMax && |times| > 0 && now - times[|times| - 1] >= cfg.threshold)
  }

  /** What a complete scan marks, given when each candidate was published before. */
  lemma ScanMarksSpent(cfg: Config, s: State, input: ScanInput, cs: seq<Candidate>, i: nat, times: seq<Time>)
    requires cfg.Valid() && Complete(cfg, s, input) && Candidates(cfg, s, input) == Some(cs) && i < |cs|
    requires Budget(cfg, s.retryState, cs[i].head, times, input.now)
    ensures var r := Scan(cfg, s, input);
            && |r.gauge.value| == |cs|
            && var all := times + TimesOf(r.published, input.now, cs[i].head);
               r.gauge.value[i] == Unreviewed(cs[i].head.pr, Spent(cfg, all, input.now))
  {
    var h := cs[i].head;
    var (retries, published) := RetryAll(cfg, s.retryState, cs, input.now);
    RetryKeepsBudget(cfg, s.retryState, cs, input.now, h, times);
    ExhaustedIsSpent(cfg, retries, h, times + TimesOf(published, input.now, h), input.now);
  }

  lemma OneMoreSince(cfg: Config, inputs: seq<ScanInput>, input: ScanInput, h: HeadKey)
    requires !Misses(cfg, Run(cfg, inputs), input, h.pr)
    ensures Since(cfg, inputs + [input], h)
         == Since(cfg, inputs, h) + TimesOf(Scan(cfg, Run(cfg, inputs), input).published, input.now, h)
  {
    assert (inputs + [input])[..|inputs|] == inputs;
  }

  /** A pull request on the gauge is marked exhausted exactly when retrying is disabled, or its head has been
      published `retryMax` times since it was last missed and the last of them is at least a threshold old. */
  lemma ExhaustedMeansGivenUp(cfg: Config, inputs: seq<ScanInput>, input: ScanInput, cs: seq<Candidate>, i: nat)
    requires cfg.Valid() && Until(inputs, input.now) && Complete(cfg, Run(cfg, inputs), input)
    requires Candidates(cfg, Run(cfg, inputs), input) == Some(cs) && i < |cs|
    ensures var gauge := Scan(cfg, Run(cfg, inputs), input).gauge.value;
            |gauge| == |cs|
            && gauge[i] == Unreviewed(cs[i].head.pr, Spent(cfg, Since(cfg, inputs + [input], cs[i].head), input.now))
  {
    var s, h := Run(cfg, inputs), cs[i].head;
    CandidatesAreOpen(cfg, s.reviewedCache, input.sightings, input.now, i);
    RunKeepsBudget(cfg, inputs, h, input.now);
    ScanMarksSpent(cfg, s, input, cs, i, Since(cfg, inputs, h));
    OneMoreSince(cfg, inputs, input, h);
  }

  /* ---------- what closing and reopening does ---------- */

  /** A sighting the scan counts and can publish. */
  predicate Publishable(cfg: Config, s: Sighting, now: Time) {
    !s.cancelled && !s.retryCancelled && !Waiting(cfg, s, now) && Examine(cfg, s).Counted? && s.publishOk
  }

  lemma FreshSightingIsPublished(cfg: Config, s: State, sighting: Sighting, now: Time)
    requires cfg.enabled && cfg.retryMax >= 1 && Publishable(cfg, sighting, now)
    requires sighting.pr.key !in s.reviewedCache
    requires HeadKey(sighting.pr.key, sighting.headSHA.value) !in s.retryState
    ensures var h := HeadKey(sighting.pr.key, sighting.headSHA.value);
            var r := Scan(cfg, s, ScanInput(false, true, [sighting], now));
            r.gauge.Some? && r.published == [h] && sighting.pr.key !in r.state.reviewedCache
  {
    var h := HeadKey(sighting.pr.key, sighting.headSHA.value);
    var c := Candidate(h, true, false);
    var dropped := s.reviewedCache - {sighting.pr.key};
    assert QualifyAll(cfg, s.reviewedCache, [sighting], now) == (dropped, Some([c] + []));
    assert [c] + [] == [c];
    var spent := s.retryState[h := Retry(h.pr, 1, now)];
    assert RetryAll(cfg, spent, [c][1..], now) == (spent, []);
    assert RetryAll(cfg, s.retryState, [c], now) == (spent, [h] + []);
    assert [h] + [] == [h];
  }

  /** The same pull request listed and missed, `n` times over. */
  function Reopenings(sighting: Sighting, now: Time, n: nat): seq<ScanInput> {
    if n == 0 then []
    else Reopenings(sighting, now, n - 1)
         + [ScanInput(false, true, [sighting], now)] + [ScanInput(false, true, [], now)]
  }

  /** One instant, `n` times. */
  function Instants(now: Time, n: nat): (times: seq<Time>)
    ensures |times| == n && forall i :: 0 <= i < n ==> times[i] == now
  {
    if n == 0 then [] else Instants(now, n - 1) + [now]
  }

  /** The bound is not one per process lifetime: a pull request that is reopened `n` times, each time missing
      from one complete scan, is published `n` times at one instant, whatever the budget and the threshold. */
  lemma {:induction false} ReopenedPullRequestStartsOver(cfg: Config, sighting: Sighting, now: Time, n: nat)
    requires cfg.Valid() && cfg.enabled && cfg.retryMax >= 1 && Publishable(cfg, sighting, now)
    ensures var inputs := Reopenings(sighting, now, n);
            && Run(cfg, inputs) == IDLE
            && Times(cfg, inputs, HeadKey(sighting.pr.key, sighting.headSHA.value)) == Instants(now, n)
  {
    if n > 0 {
      ReopenedPullRequestStartsOver(cfg, sighting, now, n - 1);
      SeenAndGone(cfg, Reopenings(sighting, now, n - 1), sighting, now);
    }
  }

  lemma SeenAndGone(cfg: Config, inputs: seq<ScanInput>, sighting: Sighting, now: Time)
    requires cfg.enabled && cfg.retryMax >= 1 && Publishable(cfg, sighting, now) && Run(cfg, inputs) == IDLE
    ensures var present, absent := ScanInput(false, true, [sighting], now), ScanInput(false, true, [], now);
            var h := HeadKey(sighting.pr.key, sighting.headSHA.value);
            && Run(cfg, inputs + [present] + [absent]) == IDLE
            && Times(cfg, inputs + [present] + [absent], h) == Times(cfg, inputs, h) + [now]
  {
    var present, absent := ScanInput(false, true, [sighting], now), ScanInput(false, true, [], now);
    var h := HeadKey(sighting.pr.key, sighting.headSHA.value);
    PresentIsPublished(cfg, inputs, sighting, now);
    AbsentStartsOver(cfg, Run(cfg, inputs + [present]), now);
    OneMoreScan(cfg, inputs + [present], absent, h);
  }

  lemma PresentIsPublished(cfg: Config, inputs: seq<ScanInput>, sighting: Sighting, now: Time)
    requires cfg.enabled && cfg.retryMax >= 1 && Publishable(cfg, sighting, now) && Run(cfg, inputs) == IDLE
    ensures var h := HeadKey(sighting.pr.key, sighting.headSHA.value);
            Times(cfg, inputs + [ScanInput(false, true, [sighting], now)], h) == Times(cfg, inputs, h) + [now]
  {
    var h := HeadKey(sighting.pr.key, sighting.headSHA.value);
    FreshSightingIsPublished(cfg, IDLE, sighting, now);
    OneMoreScan(cfg, inputs, ScanInput(false, true, [sighting], now), h);
    assert TimesOf([h], now, h) == [now] + TimesOf([], now, h);
  }

  lemma AbsentStartsOver(cfg: Config, s: State, now: Time)
    requires cfg.enabled
    ensures Scan(cfg, s, ScanInput(false, true, [], now)) == ScanResult(IDLE, [], Some([]))
  {
    assert PruneState(s, {}) == IDLE;
    assert Gauge(cfg, s.retryState, [], now) == [];
    assert Open([]) == {};
  }

  /* ---------- the cache ---------- */

  /** The candidates of a scan without the cache: every sighting is examined. */
  function Uncached(cfg: Config, sightings: seq<Sighting>, now: Time): Option<seq<Candidate>>
    decreases |sightings|
  {
    if sightings == [] then Some([])
    else if sightings[0].cancelled then None
    else
      var verdict := if Waiting(cfg, sightings[0], now) then NotCounted else Examine(cfg, sightings[0]);
      if verdict.Failed? then None
      else
        var rest := Uncached(cfg, sightings[1..], now);
        if rest.None? then None else Some(CandidateOf(sightings[0], verdict) + rest.value)
  }

  /** What GitHub shows of one pull request: an unchanged updated-at means an unchanged head, and reviews are
      only ever added. */
  predicate Follows(a: Sighting, b: Sighting) {
    a.pr.key == b.pr.key && a.pr.updatedAt == b.pr.updatedAt ==>
      && (a.headSHA.Some? && b.headSHA.Some? ==> a.headSHA == b.headSHA)
      && (a.reviews.Some? && b.reviews.Some? ==> forall r :: r in a.reviews.value ==> r in b.reviews.value)
  }

  predicate Consistent(seen: seq<Sighting>) {
    forall i, j :: 0 <= i < j < |seen| ==> Follows(seen[i], seen[j])
  }

  /** Every sighting of every search the run made. */
  function Seen(inputs: seq<ScanInput>): seq<Sighting> {
    if inputs == [] then []
    else
      var n := |inputs| - 1;
      Seen(inputs[..n]) + (if inputs[n].searchOk then inputs[n].sightings else [])
  }

  /** Every cache entry goes back to a sighting that found a review. */
  ghost predicate Grounded(cfg: Config, cache: map<PRKey, Time>, seen: seq<Sighting>) {
    forall key :: key in cache ==> Found(cfg, seen, key, cache[key])
  }

  ghost predicate Found(cfg: Config, seen: seq<Sighting>, key: PRKey, updatedAt: Time) {
    exists i :: 0 <= i < |seen| && seen[i].pr.key == key && seen[i].pr.updatedAt == updatedAt && Caches(cfg, seen[i])
  }

  lemma FoundStays(cfg: Config, seen: seq<Sighting>, more: seq<Sighting>, key: PRKey, updatedAt: Time)
    requires Found(cfg, seen, key, updatedAt)
    ensures Found(cfg, seen + more, key, updatedAt)
  {
    var i :| 0 <= i < |seen| && seen[i].pr.key == key && seen[i].pr.updatedAt == updatedAt && Caches(cfg, seen[i]);
    assert (seen + more)[i] == seen[i];
  }

  lemma GroundedStays(cfg: Config, cache: map<PRKey, Time>, seen: seq<Sighting>, more: seq<Sighting>)
    requires Grounded(cfg, cache, seen)
    ensures Grounded(cfg, cache, seen + more)
  {
    forall key | key in cache
      ensures Found(cfg, seen + more, key, cache[key])
    {
      FoundStays(cfg, seen, more, key, cache[key]);
    }
  }

  lemma QualifyGrounds(cfg: Config, cache: map<PRKey, Time>, seen: seq<Sighting>, s: Sighting, now: Time)
    requires Grounded(cfg, cache, seen)
    ensures Grounded(cfg, Qualify(cfg, cache, s, now).0, seen + [s])
  {
    GroundedStays(cfg, cache, seen, [s]);
    assert (seen + [s])[|seen|] == s;
    var cache' := Qualify(cfg, cache, s, now).0;
    forall key | key in cache'
      ensures Found(cfg, seen + [s], key, cache'[key])
    {
      if key in cache && cache'[key] == cache[key] {
        FoundStays(cfg, seen, [s], key, cache[key]);
      }
    }
  }

  /** A cache hit never hides a pull request the examination would count. */
  lemma HitIsNotCounted(cfg: Config, seen: seq<Sighting>, s: Sighting)
    requires Consistent(seen + [s]) && Found(cfg, seen, s.pr.key, s.pr.updatedAt)
    ensures !Examine(cfg, s).Counted?
  {
    var i :| 0 <= i < |seen| && seen[i].pr.key == s.pr.key && seen[i].pr.updatedAt == s.pr.updatedAt
             && Caches(cfg, seen[i]);
    var found := seen[i];
    assert Follows((seen + [s])[i], (seen + [s])[|seen|]);
    if s.headSHA.Some? && s.reviews.Some? {
      var j :| 0 <= j < |found.reviews.value| && found.reviews.value[j].commitID == found.headSHA.value
               && cfg.isReviewer(found.reviews.value[j].authorLogin);
      assert found.reviews.value[j] in s.reviews.value;
      assert Confirms(cfg, s);
    }
  }

  lemma {:induction false} ScanGrounds(cfg: Config, cache: map<PRKey, Time>, seen: seq<Sighting>,
                                       sightings: seq<Sighting>, now: Time)
    requires Grounded(cfg, cache, seen)
    ensures Grounded(cfg, QualifyAll(cfg, cache, sightings, now).0, seen + sightings)
    decreases |sightings|
  {
    GroundedStays(cfg, cache, seen, sightings);
    if sightings != [] && !sightings[0].cancelled {
      var s, rest := sightings[0], sightings[1..];
      assert seen + sightings == seen + [s] + rest;
      var cache' := Qualify(cfg, cache, s, now).0;
      QualifyGrounds(cfg, cache, seen, s, now);
      GroundedStays(cfg, cache', seen + [s], rest);
      ScanGrounds(cfg, cache', seen + [s], rest, now);
    }
  }

  lemma HitOrExamined(cfg: Config, cache: map<PRKey, Time>, seen: seq<Sighting>, s: Sighting, now: Time)
    requires Consistent(seen + [s]) && Grounded(cfg, cache, seen)
    ensures var verdict := if Waiting(cfg, s, now) then NotCounted else Examine(cfg, s);
            !verdict.Failed? ==> Qualify(cfg, cache, s, now).1 == verdict
  {
    if s.pr.key in cache && cache[s.pr.key] == s.pr.updatedAt {
      HitIsNotCounted(cfg, seen, s);
    }
  }

  lemma {:induction false} CacheAgreesInScan(cfg: Config, cache: map<PRKey, Time>, seen: seq<Sighting>,
                                             sightings: seq<Sighting>, now: Time)
    requires Consistent(seen + sightings) && Grounded(cfg, cache, seen)
    ensures var uncached := Uncached(cfg, sightings, now);
            uncached.Some? ==> QualifyAll(cfg, cache, sightings, now).1 == uncached
    decreases |sightings|
  {
    if Uncached(cfg, sightings, now).Some? && sightings != [] {
      var s, rest := sightings[0], sightings[1..];
      assert seen + sightings == seen + [s] + rest;
      assert forall i :: 0 <= i <= |seen| ==> (seen + [s])[i] == (seen + sightings)[i];
      HitOrExamined(cfg, cache, seen, s, now);
      QualifyGrounds(cfg, cache, seen, s, now);
      CacheAgreesInScan(cfg, Qualify(cfg, cache, s, now).0, seen + [s], rest, now);
    }
  }

  lemma {:induction false} RunsKeepCacheGrounded(cfg: Config, inputs: seq<ScanInput>)
    ensures Grounded(cfg, Run(cfg, inputs).reviewedCache, Seen(inputs))
  {
    if inputs != [] {
      var n := |inputs| - 1;
      var past, input, s := Seen(inputs[..n]), inputs[n], Run(cfg, inputs[..n]);
      var added := if input.searchOk then input.sightings else [];
      assert Seen(inputs) == past + added;
      assert forall i :: 0 <= i < |past| ==> past[i] == Seen(inputs)[i];
      RunsKeepCacheGrounded(cfg, inputs[..n]);
      GroundedStays(cfg, s.reviewedCache, past, added);
      if cfg.enabled && !input.running && input.searchOk {
        ScanGrounds(cfg, s.reviewedCache, past, input.sightings, input.now);
      }
    }
  }

  /** After any run of scans, failed and cancelled ones included, a scan finds the same candidates as it would
      without the cache whenever the latter can be completed. */
  lemma CacheAgrees(cfg: Config, inputs: seq<ScanInput>, input: ScanInput)
    requires Consistent(Seen(inputs) + input.sightings) && Uncached(cfg, input.sightings, input.now).Some?
    ensures Candidates(cfg, Run(cfg, inputs), input) == Uncached(cfg, input.sightings, input.now)
  {
    var seen := Seen(inputs);
    assert forall i :: 0 <= i < |seen| ==> seen[i] == (seen + input.sightings)[i];
    RunsKeepCacheGrounded(cfg, inputs);
    CacheAgreesInScan(cfg, Run(cfg, inputs).reviewedCache, seen, input.sightings, input.now);
  }
}
