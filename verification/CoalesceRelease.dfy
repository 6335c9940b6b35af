/**
 What a release is for. The webhook claims a head when its command is sent; the executor may decline that
 command and release the claim. Without the release every poll of the head answers Settled; with it none does.
 */
module CoalesceRelease {
  import opened Common
  import opened CoalesceSpec
  import opened CoalesceRuns

  predicate Pending(k: PRKey, r: Run) {
    k in r.s.entries && r.s.entries[k].pendingURL != ""
  }

  /** A record of `k` is confirmed. */
  predicate Publishes(k: PRKey, r: Run, ev: Event) {
    ev.Confirmed? && ev.ticket < |r.tickets| && r.tickets[ev.ticket].key == k
  }

  /** The head is claimed again. */
  predicate Reclaims(k: PRKey, h: string, r: Run, ev: Event) {
    Publishes(k, r, ev) && r.tickets[ev.ticket].head == h
  }

  /** A run in which nobody claims head `h` of `k`. */
  ghost predicate NeverClaims(hold: Time, k: PRKey, h: string, r: Run, events: seq<Event>)
    requires IsRun(hold, k, r, events)
    decreases |events|
  {
    events == []
    || (!Reclaims(k, h, r, events[0]) && NeverClaims(hold, k, h, Step(hold, k, r, events[0]), events[1..]))
  }

  /** The head is not the one held as published. */
  predicate Unclaimed(k: PRKey, h: string, r: Run) {
    Lookup(r.s.entries, k).lastHead != h
  }

  lemma StepKeepsUnclaimed(hold: Time, k: PRKey, h: string, r: Run, ev: Event)
    requires h != "" && Unclaimed(k, h, r) && Enabled(hold, r, ev) && !Reclaims(k, h, r, ev)
    ensures Unclaimed(k, h, Step(hold, k, r, ev))
  {
  }

  lemma StepCountsRecords(hold: Time, k: PRKey, r: Run, ev: Event)
    requires Enabled(hold, r, ev)
    ensures Records(Step(hold, k, r, ev).log) == Records(r.log) + if Publishes(k, r, ev) then 1 else 0
  {
    var log := Step(hold, k, r, ev).log;
    if Publishes(k, r, ev) {
      var t := r.tickets[ev.ticket];
      OneMark(r.log, Record(ev.now, t.head, CauseOf(t, r.log)));
    } else if ev.Withdrawn? {
      OneMark(r.log, Released(ev.now));
      assert log == r.log || log == r.log + [Released(ev.now)];
    } else {
      assert log == r.log;
    }
  }

  lemma OneMark(log: seq<Mark>, m: Mark)
    ensures Records(log + [m]) == Records(log) + if m.Record? then 1 else 0
  {
    assert (log + [m])[..|log|] == log;
  }

  /** Only a record of `k` ends the state in which nothing is published for it. */
  lemma StepKeepsUnpublished(hold: Time, k: PRKey, r: Run, ev: Event)
    requires Enabled(hold, r, ev) && !Publishes(k, r, ev) && Lookup(r.s.entries, k).lastEmitAt.None?
    ensures Lookup(Step(hold, k, r, ev).s.entries, k).lastEmitAt.None?
  {
  }

  lemma {:induction false} RunKeepsUnclaimed(hold: Time, k: PRKey, h: string, r: Run, events: seq<Event>)
    requires h != "" && Unclaimed(k, h, r) && IsRun(hold, k, r, events) && NeverClaims(hold, k, h, r, events)
    ensures var r' := Play(hold, k, r, events);
            && Unclaimed(k, h, r') && Records(r'.log) >= Records(r.log)
            && (Records(r'.log) == Records(r.log) && Lookup(r.s.entries, k).lastEmitAt.None? ==>
                  Lookup(r'.s.entries, k).lastEmitAt.None?)
    decreases |events|
  {
    if events != [] {
      StepKeepsUnclaimed(hold, k, h, r, events[0]);
      StepCountsRecords(hold, k, r, events[0]);
      if !Publishes(k, r, events[0]) && Lookup(r.s.entries, k).lastEmitAt.None? {
        StepKeepsUnpublished(hold, k, r, events[0]);
      }
      RunKeepsUnclaimed(hold, k, h, Step(hold, k, r, events[0]), events[1..]);
    }
  }

  /** After a release that withdraws a claim, and until the head is claimed again, whatever else happens, no poll
      of the head answers Settled. As long as nothing else was published for the pull request either, a poll is
      admitted exactly when no trailing dispatch is pending; afterwards it is not admitted within the hold. */
  lemma ReleasedHeadIsOwed(hold: Time, k: PRKey, h: string, r: Run, release: Event, events: seq<Event>,
                           pushAt: Option<Time>, now: Time)
    requires Inv(hold, k, r) && h != "" && release == Withdrawn(k, h, release.now) && Enabled(hold, r, release)
    requires Releases(r.s, k, h)
    requires var released := Step(hold, k, r, release);
             IsRun(hold, k, released, events) && NeverClaims(hold, k, h, released, events)
             && Play(hold, k, released, events).clock <= now
    ensures var last := Play(hold, k, Step(hold, k, r, release), events);
            var decision := Admit(last.s, hold, k, h, pushAt, now).1;
            && !decision.Settled?
            && (Records(last.log) == Records(r.log) ==> (decision.Emit? <==> !Pending(k, last)))
            && (Records(last.log) != Records(r.log) && decision.Emit? ==>
                  !Pending(k, last) && Free(last.log, now, hold))
  {
    var released := Step(hold, k, r, release);
    var last := Play(hold, k, released, events);
    OneMark(r.log, Released(release.now));
    StepKeepsInv(hold, k, r, release);
    RunKeepsInv(hold, k, released, events);
    RunKeepsUnclaimed(hold, k, h, released, events);
    PollOfUnclaimed(hold, k, h, last, pushAt, now);
  }

  lemma PollOfUnclaimed(hold: Time, k: PRKey, h: string, r: Run, pushAt: Option<Time>, now: Time)
    requires Inv(hold, k, r) && h != "" && Unclaimed(k, h, r) && r.clock <= now
    ensures var decision := Admit(r.s, hold, k, h, pushAt, now).1;
            && !decision.Settled?
            && (Lookup(r.s.entries, k).lastEmitAt.None? ==> (decision.Emit? <==> !Pending(k, r)))
            && (decision.Emit? ==> !Pending(k, r) && Free(r.log, now, hold))
  {
    var e, found := Lookup(r.s.entries, k), Open(r.s, hold, k, now).entries[k];
    assert found == e || (found == FRESH && e.pendingURL == "" && Elapsed(e.lastEmitAt, now, hold));
  }

  /** A release that names another head than the one held changes nothing at all. */
  lemma OtherReleaseIsIgnored(hold: Time, k: PRKey, r: Run, release: Event, events: seq<Event>)
    requires release.Withdrawn? && Enabled(hold, r, release) && !Releases(r.s, release.key, release.head)
    requires IsRun(hold, k, r.(clock := release.now), events)
    ensures IsRun(hold, k, r, [release] + events)
    ensures Play(hold, k, r, [release] + events) == Play(hold, k, r.(clock := release.now), events)
  {
    assert Step(hold, k, r, release) == r.(clock := release.now);
    PlayPrepend(hold, k, r, release, events);
  }

  /* ---------- without the release ---------- */

  /** Nothing undoes the claim of `h`: no other record of `k`, no release of it, and the entry is not pruned. */
  ghost predicate LeavesClaim(hold: Time, k: PRKey, h: string, r: Run, events: seq<Event>)
    requires IsRun(hold, k, r, events)
    decreases |events|
  {
    events == []
    || (!Publishes(k, r, events[0]) && !(events[0].Withdrawn? && events[0].key == k && events[0].head == h)
        && k in Kept(hold, r.s, events[0])
        && LeavesClaim(hold, k, h, Step(hold, k, r, events[0]), events[1..]))
  }

  predicate Claimed(k: PRKey, h: string, r: Run) {
    k in r.s.entries && r.s.entries[k].lastHead == h
  }

  lemma StepKeepsClaim(hold: Time, k: PRKey, h: string, r: Run, ev: Event)
    requires Claimed(k, h, r) && Enabled(hold, r, ev) && !Publishes(k, r, ev) && k in Kept(hold, r.s, ev)
    requires !(ev.Withdrawn? && ev.key == k && ev.head == h)
    ensures Claimed(k, h, Step(hold, k, r, ev))
  {
  }

  lemma {:induction false} RunKeepsClaim(hold: Time, k: PRKey, h: string, r: Run, events: seq<Event>)
    requires Claimed(k, h, r) && IsRun(hold, k, r, events) && LeavesClaim(hold, k, h, r, events)
    ensures Claimed(k, h, Play(hold, k, r, events))
    decreases |events|
  {
    if events != [] {
      StepKeepsClaim(hold, k, h, r, events[0]);
      RunKeepsClaim(hold, k, h, Step(hold, k, r, events[0]), events[1..]);
    }
  }

  /** Once the webhook has confirmed a head, and as long as nothing undoes that claim, every poll of the head
      answers Settled: a declined command that released nothing would strand it. */
  lemma ClaimedHeadIsSettled(hold: Time, k: PRKey, h: string, r: Run, sent: Event, events: seq<Event>,
                             pushAt: Option<Time>, now: Time)
    requires Enabled(hold, r, sent) && Reclaims(k, h, r, sent) && h != ""
    requires var claimed := Step(hold, k, r, sent);
             IsRun(hold, k, claimed, events) && LeavesClaim(hold, k, h, claimed, events)
             && k in Prune(Play(hold, k, claimed, events).s.entries, now, hold)
    ensures Admit(Play(hold, k, Step(hold, k, r, sent), events).s, hold, k, h, pushAt, now).1.Settled?
  {
    RunKeepsClaim(hold, k, h, Step(hold, k, r, sent), events);
  }
}
