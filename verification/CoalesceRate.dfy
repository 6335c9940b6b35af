/**
 The plain rate bound, one record per hold window and one more per release: when it holds. The coalescer keeps it
 for every decision of its own that nobody overtakes, however late that is confirmed; so a run keeps it exactly
 when its other confirmations (overtaken, stray, bypassing) come a hold after the record before them.
 */
module CoalesceRate {
  import opened Common
  import opened CoalesceRuns
  import opened CoalesceTimers
  import opened CoalesceRelease

  /** The event confirms a decision about `k` that another record overtook, that a callback of an earlier entry
      took, or that never asked the coalescer. */
  predicate Irregular(k: PRKey, r: Run, ev: Event) {
    Publishes(k, r, ev) && !CauseOf(r.tickets[ev.ticket], r.log).Regular?
  }

  /** If the event confirms such a decision, nothing published for `k` still forbids a record. Nothing is asked of
      the others. */
  predicate Timely(hold: Time, k: PRKey, r: Run, ev: Event) {
    Irregular(k, r, ev) ==> Free(r.log, ev.now, hold)
  }

  ghost predicate IsTimelyRun(hold: Time, k: PRKey, r: Run, events: seq<Event>)
    requires IsRun(hold, k, r, events)
    decreases |events|
  {
    events == []
    || (Timely(hold, k, r, events[0]) && IsTimelyRun(hold, k, Step(hold, k, r, events[0]), events[1..]))
  }

  /** Every decision about `k` that is confirmed is the coalescer's own and was not overtaken. */
  ghost predicate IsUncontestedRun(hold: Time, k: PRKey, r: Run, events: seq<Event>)
    requires IsRun(hold, k, r, events)
    decreases |events|
  {
    events == []
    || (!Irregular(k, r, events[0]) && IsUncontestedRun(hold, k, Step(hold, k, r, events[0]), events[1..]))
  }

  ghost predicate NoneIsEarly(log: seq<Mark>, hold: Time) {
    forall i :: 0 <= i < |log| ==> !Early(log[..i], log[i], hold)
  }

  lemma OneMoreIsEarlyIff(log: seq<Mark>, m: Mark, hold: Time)
    ensures NoneIsEarly(log + [m], hold) <==> NoneIsEarly(log, hold) && !Early(log, m, hold)
  {
    var longer := log + [m];
    assert longer[..|log|] == log && longer[|log|] == m;
    assert forall i :: 0 <= i < |log| ==> longer[..i] == log[..i] && longer[i] == log[i];
  }

  /** The invariant keeps every regular record from being early, so one step is as good as its irregular record. */
  lemma StepIsTimelyIff(hold: Time, k: PRKey, r: Run, ev: Event)
    requires Inv(hold, k, r) && Enabled(hold, r, ev)
    ensures NoneIsEarly(Step(hold, k, r, ev).log, hold) <==> NoneIsEarly(r.log, hold) && Timely(hold, k, r, ev)
  {
    if Publishes(k, r, ev) {
      var t := r.tickets[ev.ticket];
      OneMoreIsEarlyIff(r.log, Record(ev.now, t.head, CauseOf(t, r.log)), hold);
    } else if ev.Withdrawn? {
      OneMoreIsEarlyIff(r.log, Released(ev.now), hold);
    }
  }

  lemma {:induction false} RunIsTimelyIff(hold: Time, k: PRKey, r: Run, events: seq<Event>)
    requires Inv(hold, k, r) && IsRun(hold, k, r, events)
    ensures NoneIsEarly(Play(hold, k, r, events).log, hold)
            <==> NoneIsEarly(r.log, hold) && IsTimelyRun(hold, k, r, events)
    decreases |events|
  {
    if events != [] {
      StepIsTimelyIff(hold, k, r, events[0]);
      StepKeepsInv(hold, k, r, events[0]);
      RunIsTimelyIff(hold, k, Step(hold, k, r, events[0]), events[1..]);
    }
  }

  lemma {:induction false} UncontestedIsTimely(hold: Time, k: PRKey, r: Run, events: seq<Event>)
    requires IsRun(hold, k, r, events) && IsUncontestedRun(hold, k, r, events)
    ensures IsTimelyRun(hold, k, r, events)
    decreases |events|
  {
    if events != [] {
      UncontestedIsTimely(hold, k, Step(hold, k, r, events[0]), events[1..]);
    }
  }

  function ReleasesIn(log: seq<Mark>, lo: Time, hi: Time): nat {
    if log == [] then 0
    else
      var m := log[|log| - 1];
      ReleasesIn(log[..|log| - 1], lo, hi) + if m.Released? && Within(m, lo, hi) then 1 else 0
  }

  lemma {:induction false} OnlyReleasesExcuse(log: seq<Mark>, hold: Time, lo: Time, hi: Time)
    requires NoneIsEarly(log, hold)
    ensures ExcusesIn(log, hold, lo, hi) == ReleasesIn(log, lo, hi)
  {
    if log != [] {
      var rest := log[..|log| - 1];
      assert forall i :: 0 <= i < |rest| ==> rest[..i] == log[..i] && rest[i] == log[i];
      OnlyReleasesExcuse(rest, hold, lo, hi);
    }
  }

  /** In every timely run and every window of length `span`, one pull request gets at most one record, one more
      per full hold window, and one more per release in the window. */
  lemma PlainRateBound(hold: Time, k: PRKey, clock: Time, events: seq<Event>, lo: Time, span: nat)
    requires hold > 0
    requires IsRun(hold, k, Start(clock), events) && IsTimelyRun(hold, k, Start(clock), events)
    ensures var log := Play(hold, k, Start(clock), events).log;
            RecordsIn(log, lo, lo + span) <= 1 + span / hold + ReleasesIn(log, lo, lo + span)
  {
    RunIsTimelyIff(hold, k, Start(clock), events);
    RateBound(hold, k, clock, events, lo, span);
    OnlyReleasesExcuse(Play(hold, k, Start(clock), events).log, hold, lo, lo + span);
  }

  /** The promise itself: a run in which every confirmed decision about the pull request is the coalescer's own and
      not overtaken keeps that bound, whatever else happens and however long the confirmations take. */
  lemma UncontestedRateBound(hold: Time, k: PRKey, clock: Time, events: seq<Event>, lo: Time, span: nat)
    requires hold > 0
    requires IsRun(hold, k, Start(clock), events) && IsUncontestedRun(hold, k, Start(clock), events)
    ensures var log := Play(hold, k, Start(clock), events).log;
            RecordsIn(log, lo, lo + span) <= 1 + span / hold + ReleasesIn(log, lo, lo + span)
  {
    UncontestedIsTimely(hold, k, Start(clock), events);
    PlainRateBound(hold, k, clock, events, lo, span);
  }

  /* ---------- the exact condition ---------- */

  ghost predicate NoReleases(log: seq<Mark>) {
    forall i :: 0 <= i < |log| ==> log[i].Record?
  }

  ghost predicate PlainlyBound(log: seq<Mark>, hold: Time)
    requires hold > 0
  {
    forall lo, hi :: lo <= hi ==> RecordsIn(log, lo, hi) <= 1 + (hi - lo) / hold
  }

  lemma {:induction false} RecordsInPrefix(log: seq<Mark>, n: nat, lo: Time, hi: Time)
    requires n <= |log|
    ensures RecordsIn(log[..n], lo, hi) <= RecordsIn(log, lo, hi)
  {
    if n < |log| {
      assert log[..|log| - 1][..n] == log[..n];
      RecordsInPrefix(log[..|log| - 1], n, lo, hi);
    } else {
      assert log[..n] == log;
    }
  }

  lemma TwoAtTheEnd(log: seq<Mark>, m: Mark, n: Mark, lo: Time, hi: Time)
    requires m.Record? && n.Record? && lo <= m.at <= hi && lo <= n.at <= hi
    ensures RecordsIn(log + [m] + [n], lo, hi) == RecordsIn(log, lo, hi) + 2
  {
    var longer := log + [m];
    assert (longer + [n])[..|longer|] == longer && longer[..|log|] == log;
  }

  lemma NoFullWindow(span: nat, hold: Time)
    requires span < hold
    ensures span / hold == 0
  {
  }

  /** An early record and the one before it are two in a window shorter than the hold. */
  lemma EarlyBreaksBound(log: seq<Mark>, hold: Time, i: nat)
    requires hold > 0 && i < |log| && Early(log[..i], log[i], hold) && NoReleases(log)
    requires i > 0 ==> log[i - 1].at <= log[i].at
    ensures !PlainlyBound(log, hold)
  {
    var lo, hi := log[i - 1].at, log[i].at;
    assert log[..i + 1] == log[..i - 1] + [log[i - 1]] + [log[i]];
    TwoAtTheEnd(log[..i - 1], log[i - 1], log[i], lo, hi);
    RecordsInPrefix(log, i + 1, lo, hi);
    NoFullWindow(hi - lo, hold);
  }

  lemma {:induction false} NoReleasesToCount(log: seq<Mark>, lo: Time, hi: Time)
    requires NoReleases(log)
    ensures ReleasesIn(log, lo, hi) == 0
  {
    if log != [] {
      NoReleasesToCount(log[..|log| - 1], lo, hi);
    }
  }

  /** A run in which nothing is released keeps one record per hold window, in every window, exactly when each of
      its overtaken, stray and bypassing confirmations comes a hold after the record before it. */
  lemma PlainBoundIffTimely(hold: Time, k: PRKey, clock: Time, events: seq<Event>)
    requires hold > 0 && IsRun(hold, k, Start(clock), events)
    requires NoReleases(Play(hold, k, Start(clock), events).log)
    ensures PlainlyBound(Play(hold, k, Start(clock), events).log, hold)
            <==> IsTimelyRun(hold, k, Start(clock), events)
  {
    var log := Play(hold, k, Start(clock), events).log;
    RunIsTimelyIff(hold, k, Start(clock), events);
    if IsTimelyRun(hold, k, Start(clock), events) {
      forall lo, hi | lo <= hi
        ensures RecordsIn(log, lo, hi) <= 1 + (hi - lo) / hold
      {
        PlainRateBound(hold, k, clock, events, lo, hi - lo);
        NoReleasesToCount(log, lo, hi);
      }
    } else {
      var i :| 0 <= i < |log| && Early(log[..i], log[i], hold);
      RunKeepsInv(hold, k, Start(clock), events);
      EarlyBreaksBound(log, hold, i);
    }
  }

  /** Every stretch of marks, from one to another, holds at most one record, one more per full hold window between
      its ends, and one more per release in it. */
  ghost predicate StretchesBound(log: seq<Mark>, hold: Time)
    requires hold > 0
  {
    forall i, j :: 0 <= i < j <= |log| ==> StretchBound(log[i..j], hold)
  }

  predicate StretchBound(stretch: seq<Mark>, hold: Time)
    requires hold > 0 && stretch != []
  {
    var releases := |stretch| - Records(stretch);
    Records(stretch) <= 1 + (stretch[|stretch| - 1].at - stretch[0].at) / hold + releases
  }

  lemma {:induction false} AllAreInWindow(log: seq<Mark>, lo: Time, hi: Time)
    requires forall i :: 0 <= i < |log| ==> Within(log[i], lo, hi)
    ensures RecordsIn(log, lo, hi) == Records(log) && ReleasesIn(log, lo, hi) == |log| - Records(log)
  {
    if log != [] {
      AllAreInWindow(log[..|log| - 1], lo, hi);
    }
  }

  lemma StretchHasNoEarly(log: seq<Mark>, hold: Time, i: nat, j: nat)
    requires i < j <= |log| && NoneIsEarly(log, hold)
    ensures NoneIsEarly(log[i..j], hold)
  {
    forall n | 0 <= n < j - i
      ensures !Early(log[i..j][..n], log[i..j][n], hold)
    {
      assert !Early(log[..i + n], log[i + n], hold);
      assert n > 0 ==> log[i..j][..n][n - 1] == log[..i + n][i + n - 1];
    }
  }

  lemma StretchIsBound(log: seq<Mark>, clock: Time, hold: Time)
    requires hold > 0 && log != [] && Ordered(log, clock) && NoneIsEarly(log, hold)
    ensures StretchBound(log, hold)
  {
    var lo, hi := log[0].at, log[|log| - 1].at;
    AllAreInWindow(log, lo, hi);
    OnlyReleasesExcuse(log, hold, lo, hi);
    SpacedRecordsAreBounded(log, clock, hold, lo, hi - lo);
  }

  /** An early record and the record before it are a stretch of two. */
  lemma EarlyBreaksStretch(log: seq<Mark>, hold: Time, i: nat)
    requires hold > 0 && i < |log| && Early(log[..i], log[i], hold)
    requires i > 0 ==> log[i - 1].at <= log[i].at
    ensures !StretchesBound(log, hold)
  {
    assert log[..i][i - 1] == log[i - 1];
    var pair := log[i - 1..i + 1];
    assert pair == [] + [log[i - 1]] + [log[i]];
    OneMark([], log[i - 1]);
    OneMark([] + [log[i - 1]], log[i]);
    NoFullWindow(log[i].at - log[i - 1].at, hold);
    assert !StretchBound(pair, hold);
  }

  lemma StretchesBoundIff(log: seq<Mark>, clock: Time, hold: Time)
    requires hold > 0 && Ordered(log, clock)
    ensures StretchesBound(log, hold) <==> NoneIsEarly(log, hold)
  {
    if NoneIsEarly(log, hold) {
      forall i, j | 0 <= i < j <= |log|
        ensures StretchBound(log[i..j], hold)
      {
        StretchHasNoEarly(log, hold, i, j);
        StretchIsBound(log[i..j], clock, hold);
      }
    } else {
      var i :| 0 <= i < |log| && Early(log[..i], log[i], hold);
      EarlyBreaksStretch(log, hold, i);
    }
  }

  /** With releases too: any run keeps the bound on every stretch of its history exactly when it is timely. */
  lemma StretchBoundIffTimely(hold: Time, k: PRKey, clock: Time, events: seq<Event>)
    requires hold > 0 && IsRun(hold, k, Start(clock), events)
    ensures StretchesBound(Play(hold, k, Start(clock), events).log, hold)
            <==> IsTimelyRun(hold, k, Start(clock), events)
  {
    RunIsTimelyIff(hold, k, Start(clock), events);
    RunKeepsInv(hold, k, Start(clock), events);
    StretchesBoundIff(Play(hold, k, Start(clock), events).log, Play(hold, k, Start(clock), events).clock, hold);
  }

  /* ---------- which confirmations are timely ---------- */

  /** No record of `k` is confirmed in the run. */
  ghost predicate NothingPublished(hold: Time, k: PRKey, r: Run, events: seq<Event>)
    requires IsRun(hold, k, r, events)
    decreases |events|
  {
    events == []
    || (!Publishes(k, r, events[0]) && NothingPublished(hold, k, Step(hold, k, r, events[0]), events[1..]))
  }

  lemma {:induction false} RunCountsRecords(hold: Time, k: PRKey, r: Run, events: seq<Event>)
    requires IsRun(hold, k, r, events)
    ensures Records(Play(hold, k, r, events).log) >= Records(r.log)
    ensures Records(Play(hold, k, r, events).log) == Records(r.log) <==> NothingPublished(hold, k, r, events)
    decreases |events|
  {
    if events != [] {
      StepCountsRecords(hold, k, r, events[0]);
      RunCountsRecords(hold, k, Step(hold, k, r, events[0]), events[1..]);
    }
  }

  /** Of a decision only its being open ever changes. */
  predicate SameDecision(r: Run, r': Run, n: nat) {
    n < |r.tickets| && n < |r'.tickets| && r'.tickets[n] == r.tickets[n].(open := r'.tickets[n].open)
  }

  lemma StepKeepsDecision(hold: Time, k: PRKey, r: Run, ev: Event, n: nat)
    requires Enabled(hold, r, ev) && n < |r.tickets|
    ensures SameDecision(r, Step(hold, k, r, ev), n)
  {
  }

  lemma {:induction false} RunKeepsDecision(hold: Time, k: PRKey, r: Run, events: seq<Event>, n: nat)
    requires IsRun(hold, k, r, events) && n < |r.tickets|
    ensures SameDecision(r, Play(hold, k, r, events), n)
    decreases |events|
  {
    if events != [] {
      StepKeepsDecision(hold, k, r, events[0], n);
      RunKeepsDecision(hold, k, Step(hold, k, r, events[0]), events[1..], n);
    }
  }

  /** However long it takes to confirm a decision of the coalescer, its record is regular exactly when no other
      record of the pull request was confirmed in between, and then nothing published forbids it. */
  lemma DecisionIsTimely(hold: Time, k: PRKey, r: Run, decision: Event, events: seq<Event>, sent: Time)
    requires Inv(hold, k, r) && Enabled(hold, r, decision) && Decides(hold, k, r, decision)
    requires var decided := Step(hold, k, r, decision);
             IsRun(hold, k, decided, events)
             && Enabled(hold, Play(hold, k, decided, events), Confirmed(|r.tickets|, sent))
    ensures var decided, confirmed := Step(hold, k, r, decision), Confirmed(|r.tickets|, sent);
            var last := Play(hold, k, decided, events);
            && Publishes(k, last, confirmed)
            && (CauseOf(last.tickets[|r.tickets|], last.log).Regular? <==> NothingPublished(hold, k, decided, events))
            && (NothingPublished(hold, k, decided, events) ==> Free(last.log, sent, hold))
  {
    var decided := Step(hold, k, r, decision);
    DecisionIsSending(hold, k, r, decision);
    StepKeepsInv(hold, k, r, decision);
    RunKeepsInv(hold, k, decided, events);
    RunCountsRecords(hold, k, decided, events);
    RunKeepsDecision(hold, k, decided, events, |r.tickets|);
  }
}
