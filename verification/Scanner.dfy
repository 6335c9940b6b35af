/** pkg/unreviewed_scanner.go in its own form: an object whose methods update the retry and review maps. */
module Scanning {
  import opened Common
  import LedgerSpec
  import Spec = ScannerSpec

  class UnreviewedScanner {
    const cfg: Spec.Config
    var running: bool
    var retryState: map<HeadKey, Spec.Retry>
    var reviewedCache: map<PRKey, Time>

    constructor (cfg: Spec.Config)
      ensures this.cfg == cfg && View() == Spec.IDLE && !running
    {
      this.cfg, running, retryState, reviewedCache := cfg, false, map[], map[];
    }

    function View(): Spec.State
      reads this
    {
      Spec.State(retryState, reviewedCache)
    }

    /** `cachedReviewed`: a moved updated-at drops the entry. */
    method CachedReviewed(pr: Spec.PullRequest) returns (cached: bool)
      modifies this`reviewedCache
      ensures cached == (pr.key in old(reviewedCache) && old(reviewedCache)[pr.key] == pr.updatedAt)
      ensures reviewedCache == if cached then old(reviewedCache) else old(reviewedCache) - {pr.key}
    {
      if pr.key !in reviewedCache {
        assert reviewedCache - {pr.key} == reviewedCache;
        return false;
      }
      if reviewedCache[pr.key] == pr.updatedAt {
        return true;
      }
      reviewedCache := reviewedCache - {pr.key};
      return false;
    }

    method Qualify(s: Spec.Sighting, now: Time) returns (verdict: Spec.Verdict)
      modifies this`reviewedCache
      ensures (reviewedCache, verdict) == Spec.Qualify(cfg, old(reviewedCache), s, now)
    {
      if s.filtered {
        return Spec.NotCounted;
      }
      if cfg.overrideLabel != "" && cfg.overrideLabel in s.pr.labels {
        return Spec.NotCounted;
      }
      if now - s.pr.updatedAt < cfg.threshold {
        return Spec.NotCounted;
      }
      var cached := CachedReviewed(s.pr);
      if cached {
        return Spec.NotCounted;
      }
      if s.headSHA.None? {
        return Spec.Failed;
      }
      if s.trust.TrustError? {
        return Spec.Failed;
      }
      if !s.trust.Trusted? {
        return Spec.NotCounted;
      }
      if s.headSHA.value == "" {
        return Spec.NotCounted;
      }
      if s.parked {
        return Spec.NotCounted;
      }
      if s.reviews.None? {
        return Spec.Failed;
      }
      var i := 0;
      while i < |s.reviews.value|
        invariant 0 <= i <= |s.reviews.value| && reviewedCache == old(reviewedCache) - {s.pr.key}
        invariant !LedgerSpec.HasVerdict(s.reviews.value[..i], s.headSHA.value, cfg.isReviewer)
      {
        var review := s.reviews.value[i];
        if review.commitID == s.headSHA.value && cfg.isReviewer(review.authorLogin) {
          reviewedCache := reviewedCache[s.pr.key := s.pr.updatedAt];
          return Spec.NotCounted;
        }
        i := i + 1;
      }
      assert s.reviews.value[..i] == s.reviews.value;
      return Spec.Counted(s.headSHA.value);
    }

    method Retry(candidates: seq<Spec.Candidate>, now: Time) returns (published: seq<HeadKey>)
      modifies this`retryState
      ensures (retryState, published) == Spec.RetryAll(cfg, old(retryState), candidates, now)
    {
      published := [];
      var i := 0;
      assert candidates[0..] == candidates;
      ghost var all := Spec.RetryAll(cfg, retryState, candidates, now).1;
      assert [] + all == all;
      while i < |candidates|
        invariant 0 <= i <= |candidates|
        invariant var (retries, rest) := Spec.RetryAll(cfg, retryState, candidates[i..], now);
                  (retries, published + rest) == Spec.RetryAll(cfg, old(retryState), candidates, now)
      {
        var c := candidates[i];
        if c.cancelled {
          assert published + [] == published;
          return;
        }
        assert candidates[i..][1..] == candidates[i + 1..];
        i := i + 1;
        var entry := if c.head in retryState then retryState[c.head] else Spec.Retry.Retry(c.head.pr, 0, 0);
        if entry.attempts >= cfg.retryMax {
          continue;
        }
        if entry.attempts > 0 && now - entry.lastAttempt < cfg.threshold {
          continue;
        }
        if !c.publishOk {
          continue;
        }
        ghost var rest := Spec.RetryAll(cfg, retryState[c.head := Spec.Retry.Retry(c.head.pr, entry.attempts + 1, now)],
                                        candidates[i..], now).1;
        assert published + ([c.head] + rest) == published + [c.head] + rest;
        retryState := retryState[c.head := Spec.Retry.Retry(c.head.pr, entry.attempts + 1, now)];
        published := published + [c.head];
      }
      assert published + [] == published;
    }

    method RetriesExhausted(head: HeadKey, now: Time) returns (exhausted: bool)
      ensures exhausted == Spec.Exhausted(cfg, retryState, head, now)
    {
      if cfg.retryMax == 0 {
        return true;
      }
      if head !in retryState {
        return false;
      }
      var entry := retryState[head];
      return entry.attempts >= cfg.retryMax && now - entry.lastAttempt >= cfg.threshold;
    }

    /** Drops the entries of pull requests that left the search result. */
    method PruneState(sightings: seq<Spec.Sighting>)
      modifies this`retryState, this`reviewedCache
      ensures View() == Spec.PruneState(old(View()), Spec.Open(sightings))
    {
      var open: set<PRKey> := {};
      for i := 0 to |sightings|
        invariant open == Spec.Open(sightings[..i]) && View() == old(View())
      {
        OpenOneMore(sightings, i);
        open := open + {sightings[i].pr.key};
      }
      assert sightings[..|sightings|] == sightings;
      PruneRetries(open);
      PruneCache(open);
    }

    method PruneRetries(open: set<PRKey>)
      modifies this`retryState
      ensures retryState == Spec.PruneState(old(View()), open).retryState
    {
      ghost var before := retryState;
      var heads := retryState.Keys;
      while heads != {}
        invariant heads <= before.Keys
        invariant forall head :: head in retryState <==> head in before && (head in heads || before[head].pr in open)
        invariant forall head :: head in retryState ==> retryState[head] == before[head]
        decreases |heads|
      {
        var head :| head in heads;
        if retryState[head].pr !in open {
          retryState := retryState - {head};
        }
        heads := heads - {head};
      }
    }

    method PruneCache(open: set<PRKey>)
      modifies this`reviewedCache
      ensures reviewedCache == Spec.PruneState(old(View()), open).reviewedCache
    {
      ghost var before := reviewedCache;
      var keys := reviewedCache.Keys;
      while keys != {}
        invariant keys <= before.Keys
        invariant forall key :: key in reviewedCache <==> key in before && (key in keys || key in open)
        invariant forall key :: key in reviewedCache ==> reviewedCache[key] == before[key]
        decreases |keys|
      {
        var key :| key in keys;
        if key !in open {
          reviewedCache := reviewedCache - {key};
        }
        keys := keys - {key};
      }
    }

    /** One scan; an overlapping one is skipped. */
    method Scan(searchOk: bool, sightings: seq<Spec.Sighting>, now: Time)
      returns (published: seq<HeadKey>, gauge: Option<seq<Spec.Unreviewed>>)
      modifies this
      ensures running == old(running)
      ensures Spec.ScanResult(View(), published, gauge)
           == Spec.Scan(cfg, old(View()), Spec.ScanInput(old(running), searchOk, sightings, now))
    {
      published, gauge := [], None;
      if !cfg.enabled || running {
        return;
      }
      if !searchOk {
        return;
      }
      running := true;
      var candidates := QualifyAll(sightings, now);
      if candidates.Some? {
        published := Retry(candidates.value, now);
        var unreviewed := [];
        ghost var retried := View();
        for i := 0 to |candidates.value|
          invariant View() == retried && running
          invariant unreviewed == Spec.Gauge(cfg, retryState, candidates.value, now)[..i]
        {
          var exhausted := RetriesExhausted(candidates.value[i].head, now);
          unreviewed := unreviewed + [Spec.Unreviewed.Unreviewed(candidates.value[i].head.pr, exhausted)];
        }
        assert unreviewed == Spec.Gauge(cfg, retryState, candidates.value, now);
        gauge := Some(unreviewed);
        PruneState(sightings);
      }
      running := false;
    }

    /** The qualification loop of `Scan`. */
    method QualifyAll(sightings: seq<Spec.Sighting>, now: Time) returns (candidates: Option<seq<Spec.Candidate>>)
      modifies this`reviewedCache
      ensures (reviewedCache, candidates) == Spec.QualifyAll(cfg, old(reviewedCache), sightings, now)
    {
      var found: seq<Spec.Candidate> := [];
      var i := 0;
      assert sightings[0..] == sightings;
      JoinedToNothing(Spec.QualifyAll(cfg, reviewedCache, sightings, now), []);
      while i < |sightings|
        invariant 0 <= i <= |sightings|
        invariant Joined(Spec.QualifyAll(cfg, reviewedCache, sightings[i..], now), found)
               == Spec.QualifyAll(cfg, old(reviewedCache), sightings, now)
      {
        if sightings[i].cancelled {
          return None;
        }
        ghost var before := reviewedCache;
        var verdict := Qualify(sightings[i], now);
        if verdict.Failed? {
          return None;
        }
        assert sightings[i..][1..] == sightings[i + 1..];
        JoinedTwice(Spec.QualifyAll(cfg, reviewedCache, sightings[i + 1..], now), found,
                    Spec.CandidateOf(sightings[i], verdict));
        found := found + Spec.CandidateOf(sightings[i], verdict);
        i := i + 1;
      }
      JoinedToNothing((reviewedCache, Some([])), found);
      return Some(found);
    }
  }

  lemma OpenOneMore(sightings: seq<Spec.Sighting>, i: nat)
    requires i < |sightings|
    ensures Spec.Open(sightings[..i + 1]) == Spec.Open(sightings[..i]) + {sightings[i].pr.key}
  {
    var more, fewer := sightings[..i + 1], sightings[..i];
    forall key | key in Spec.Open(fewer) + {sightings[i].pr.key}
      ensures key in Spec.Open(more)
    {
      var j :| 0 <= j <= i && sightings[j].pr.key == key;
      assert more[j].pr.key == key;
    }
    forall key | key in Spec.Open(more)
      ensures key in Spec.Open(fewer) + {sightings[i].pr.key}
    {
      var j :| 0 <= j <= i && more[j].pr.key == key;
      assert j < i ==> fewer[j].pr.key == key;
    }
  }

  /** The result of the rest of the loop with the candidates found before it. */
  function Joined(r: (map<PRKey, Time>, Option<seq<Spec.Candidate>>), found: seq<Spec.Candidate>)
    : (map<PRKey, Time>, Option<seq<Spec.Candidate>>)
  {
    (r.0, if r.1.None? then None else Some(found + r.1.value))
  }

  lemma JoinedToNothing(r: (map<PRKey, Time>, Option<seq<Spec.Candidate>>), found: seq<Spec.Candidate>)
    ensures Joined(r, []) == r
    ensures r.1 == Some([]) ==> Joined(r, found) == (r.0, Some(found))
  {
    if r.1.Some? {
      assert [] + r.1.value == r.1.value;
      assert found + [] == found;
    }
  }

  lemma JoinedTwice(r: (map<PRKey, Time>, Option<seq<Spec.Candidate>>), a: seq<Spec.Candidate>, b: seq<Spec.Candidate>)
    ensures Joined(Joined(r, b), a) == Joined(r, a + b)
  {
    if r.1.Some? {
      assert a + (b + r.1.value) == a + b + r.1.value;
    }
  }
}
