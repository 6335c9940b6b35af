/**
 What the coalescer owes it lets through. A head that has no record, because its push was dropped, its send failed
 or its claim was released, is admitted when a poll finds it once the pull request has been quiet for a hold.
 */
module CoalesceProgress {
  import opened Common
  import opened CoalesceSpec
  import opened CoalesceRuns
  import opened CoalesceRelease

  /** The newest thing known of `k` is a record of head `h`. */
  predicate RecordedLast(log: seq<Mark>, h: string) {
    log != [] && log[|log| - 1].Record? && log[|log| - 1].head == h
  }

  /** A claimed head is the one recorded last. */
  predicate ClaimInv(k: PRKey, r: Run) {
    var h := Lookup(r.s.entries, k).lastHead;
    h != "" ==> RecordedLast(r.log, h)
  }

  lemma StepKeepsClaimInv(hold: Time, k: PRKey, r: Run, ev: Event)
    requires ClaimInv(k, r) && Enabled(hold, r, ev)
    ensures ClaimInv(k, Step(hold, k, r, ev))
  {
    if Publishes(k, r, ev) {
      assert Lookup(Step(hold, k, r, ev).s.entries, k).lastHead == r.tickets[ev.ticket].head;
    } else {
      StepClaimsNothing(hold, k, r, ev);
    }
  }

  /** What the event leaves claimed was claimed before, and no release was recorded. */
  predicate ClaimsNothing(k: PRKey, r: Run, r': Run) {
    var h := Lookup(r'.s.entries, k).lastHead;
    h == "" || (h == Lookup(r.s.entries, k).lastHead && r'.log == r.log)
  }

  lemma LookClaimsNothing(hold: Time, k: PRKey, r: Run, ev: Event)
    requires Enabled(hold, r, ev) && (ev.Pushed? || ev.Polled?)
    ensures ClaimsNothing(k, r, Step(hold, k, r, ev))
  {
  }

  /** Only a confirmation claims a head. */
  lemma StepClaimsNothing(hold: Time, k: PRKey, r: Run, ev: Event)
    requires Enabled(hold, r, ev) && !Publishes(k, r, ev)
    ensures ClaimsNothing(k, r, Step(hold, k, r, ev))
  {
    if ev.Pushed? || ev.Polled? {
      LookClaimsNothing(hold, k, r, ev);
    }
  }

  /** The event shows no push of `k` later than `at`. */
  predicate QuietEvent(k: PRKey, ev: Event, at: Time) {
    && (ev.Pushed? && ev.key == k ==> ev.now <= at)
    && (ev.Polled? && ev.key == k && ev.pushAt.Some? ==> ev.pushAt.value <= at)
  }

  predicate QuietSince(k: PRKey, events: seq<Event>, at: Time) {
    forall i :: 0 <= i < |events| ==> QuietEvent(k, events[i], at)
  }

  predicate SeenQuiet(k: PRKey, r: Run, at: Time) {
    var seen := Lookup(r.s.entries, k).lastPushAt;
    seen.Some? ==> seen.value <= at
  }

  lemma StepKeepsQuiet(hold: Time, k: PRKey, r: Run, ev: Event, at: Time)
    requires SeenQuiet(k, r, at) && Enabled(hold, r, ev) && QuietEvent(k, ev, at)
    ensures SeenQuiet(k, Step(hold, k, r, ev), at)
  {
  }

  lemma {:induction false} RunKeepsClaimInv(hold: Time, k: PRKey, r: Run, events: seq<Event>)
    requires ClaimInv(k, r) && IsRun(hold, k, r, events)
    ensures ClaimInv(k, Play(hold, k, r, events))
    decreases |events|
  {
    if events != [] {
      StepKeepsClaimInv(hold, k, r, events[0]);
      RunKeepsClaimInv(hold, k, Step(hold, k, r, events[0]), events[1..]);
    }
  }

  lemma {:induction false} RunKeepsQuiet(hold: Time, k: PRKey, r: Run, events: seq<Event>, at: Time)
    requires SeenQuiet(k, r, at) && IsRun(hold, k, r, events) && QuietSince(k, events, at)
    ensures SeenQuiet(k, Play(hold, k, r, events), at)
    decreases |events|
  {
    if events != [] {
      StepKeepsQuiet(hold, k, r, events[0], at);
      RunKeepsQuiet(hold, k, Step(hold, k, r, events[0]), events[1..], at);
    }
  }

  /** After any run, a poll of a head other than the one recorded last is never settled. It is admitted if nothing
      is pending, the last record is a hold old or was released, and no push seen since, by webhook, poll or this
      poll, is younger than the hold; and only if the first two are so. */
  lemma OwedHeadIsAdmitted(hold: Time, k: PRKey, h: string, clock: Time, events: seq<Event>, pushAt: Option<Time>,
                           now: Time)
    requires hold > 0 && h != "" && IsRun(hold, k, Start(clock), events)
    requires var last := Play(hold, k, Start(clock), events); last.clock <= now && !RecordedLast(last.log, h)
    ensures var last := Play(hold, k, Start(clock), events);
            var decision := Admit(last.s, hold, k, h, pushAt, now).1;
            && !decision.Settled?
            && (decision.Emit? ==> !Pending(k, last) && Free(last.log, now, hold))
            && var quiet := QuietSince(k, events, now - hold) && (pushAt.Some? ==> pushAt.value <= now - hold);
            (!Pending(k, last) && Free(last.log, now, hold) && quiet ==> decision.Emit?)
  {
    var start, last := Start(clock), Play(hold, k, Start(clock), events);
    RunKeepsInv(hold, k, start, events);
    RunKeepsClaimInv(hold, k, start, events);
    PollOfUnclaimed(hold, k, h, last, pushAt, now);
    if QuietSince(k, events, now - hold) && !Pending(k, last) && Free(last.log, now, hold)
       && (pushAt.Some? ==> pushAt.value <= now - hold) {
      RunKeepsQuiet(hold, k, start, events, now - hold);
      PollOfQuiet(hold, k, h, last, pushAt, now);
    }
  }

  lemma PollOfQuiet(hold: Time, k: PRKey, h: string, r: Run, pushAt: Option<Time>, now: Time)
    requires Inv(hold, k, r) && h != "" && Unclaimed(k, h, r) && r.clock <= now && SeenQuiet(k, r, now - hold)
    requires !Pending(k, r) && Free(r.log, now, hold) && (pushAt.Some? ==> pushAt.value <= now - hold)
    ensures Admit(r.s, hold, k, h, pushAt, now).1.Emit?
  {
    var e, found := Lookup(r.s.entries, k), Open(r.s, hold, k, now).entries[k];
    assert found == e || found == FRESH;
  }
}
