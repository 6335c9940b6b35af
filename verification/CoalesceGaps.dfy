/**
 Ways in which the promises of the coalescer fail, each with a concrete run that gets there. One is the time
 between a decision and its confirmation, while the entry looks idle: another decision can be taken then, and
 a push that is coalesced then is forgotten. The other is a callback that outlives its entry.
 */
module CoalesceGaps {
  import opened Common
  import opened CoalesceSpec
  import opened CoalesceRuns
  import opened CoalesceTimers
  import Burst = CoalesceBurst

  /* ---------- between a decision and its confirmation ---------- */

  /** What a poll of an entry with nothing pending asks: the head is new, and nothing was published for the pull
      request or both the newest push seen and the last record are a hold old. */
  predicate Admissible(e: EntryState, head: string, pushAt: Option<Time>, now: Time, hold: Time) {
    var seen := if pushAt.Some? then Later(e.lastPushAt, pushAt.value) else e.lastPushAt;
    head != "" && head != e.lastHead
    && (e.lastEmitAt.None? || (Elapsed(seen, now, hold) && Elapsed(e.lastEmitAt, now, hold)))
  }

  /** A poll while any decision is being sent is admitted exactly when its head is admissible to the entry, or to a
      new entry if pruned: that a record is on its way does not hold it back, not even of the same head. */
  lemma PollWhileSendingIsAdmittedIff(hold: Time, k: PRKey, r: Run, n: nat, poll: Event)
    requires Sending(k, r, n) && poll.Polled? && poll.key == k && Enabled(hold, r, poll)
    ensures var e := Lookup(Prune(r.s.entries, poll.now, hold), k);
            Step(hold, k, r, poll).tickets
            == if Admissible(e, poll.head, poll.pushAt, poll.now, hold)
               then Decided(r, k, poll.head, Regular, None) else r.tickets
  {
    var found := Open(r.s, hold, k, poll.now);
    assert found.entries[k].pendingURL == "";
    assert Step(hold, k, r, poll).s == AdmitFound(found, hold, k, poll.head, poll.pushAt, poll.now).0;
  }

  /** A push then leads exactly when its head is new and nothing is published for the entry or push and record are
      a hold old; any other new head is coalesced. */
  lemma PushWhileSendingIff(hold: Time, k: PRKey, r: Run, n: nat, push: Event)
    requires Sending(k, r, n) && push.Pushed? && push.key == k && Enabled(hold, r, push)
    ensures var e, r' := Lookup(Prune(r.s.entries, push.now, hold), k), Step(hold, k, r, push);
            var isNew := push.head == "" || push.head != e.lastHead;
            var leads := e.lastEmitAt.None? || (Elapsed(e.lastPushAt, push.now, hold)
                                                && Elapsed(e.lastEmitAt, push.now, hold));
            && k in r'.s.entries && r'.log == r.log && r'.clock == push.now
            && r'.tickets == (if isNew && leads then Decided(r, k, push.head, Regular, None) else r.tickets)
            && (r'.s.entries[k].pendingURL != "" <==> isNew && !leads)
            && (isNew && !leads ==> r'.s.entries[k].pendingHead == push.head)
  {
    var found := Open(r.s, hold, k, push.now);
    assert found.entries[k].pendingURL == "";
  }

  /** A second decision can be confirmed too, and its record follows the first as closely as one likes. */
  lemma BothAreRecorded(hold: Time, k: PRKey, r: Run, n: nat, again: Event, first: Time, second: Time)
    requires Sending(k, r, n) && Enabled(hold, r, again) && again.now <= first <= second
    requires PushLeads(hold, k, r, again) || PollIsAdmitted(hold, k, r, again)
    ensures var mid, m := Step(hold, k, r, again), |r.tickets|;
            && Enabled(hold, mid, Confirmed(n, first))
            && Enabled(hold, Step(hold, k, mid, Confirmed(n, first)), Confirmed(m, second))
            && Step(hold, k, Step(hold, k, mid, Confirmed(n, first)), Confirmed(m, second)).log
               == r.log + [Record(first, r.tickets[n].head, Regular)] + [Record(second, again.head, Overtaken)]
  {
    DecisionIsSending(hold, k, r, again);
    TwoConfirmations(hold, k, Step(hold, k, r, again), n, |r.tickets|, first, second);
  }

  /** Of two open decisions taken since the last record, the one confirmed second is overtaken. */
  lemma TwoConfirmations(hold: Time, k: PRKey, r: Run, n: nat, m: nat, first: Time, second: Time)
    requires n < m < |r.tickets| && r.clock <= first <= second
    requires var t, u := r.tickets[n], r.tickets[m];
             t.key == u.key == k && t.open && u.open && t.cause.Regular? && u.cause.Regular?
             && t.seen == u.seen == Records(r.log)
    ensures var mid := Step(hold, k, r, Confirmed(n, first));
            && Enabled(hold, r, Confirmed(n, first)) && Enabled(hold, mid, Confirmed(m, second))
            && Step(hold, k, mid, Confirmed(m, second)).log
               == r.log + [Record(first, r.tickets[n].head, Regular)]
                  + [Record(second, r.tickets[m].head, Overtaken)]
  {
    OneRecordMore(r.log, Record(first, r.tickets[n].head, Regular));
  }

  /** No trailing dispatch is pending, so no callback can publish. */
  predicate Idle(k: PRKey, r: Run) {
    k in r.s.entries && r.s.entries[k].pendingURL == "" && r.s.entries[k].timer == None
  }

  /** A push that is coalesced while a decision is being sent is forgotten when that decision is confirmed: only
      the head decided on is recorded, and nothing is left pending. A failed trailing dispatch keeps it. */
  lemma PushWhileSendingIsDropped(hold: Time, k: PRKey, r: Run, n: nat, push: Event, sent: Time)
    requires Sending(k, r, n) && push.Pushed? && push.key == k && Enabled(hold, r, push) && push.now <= sent
    requires Step(hold, k, r, push).s.entries[k].pendingURL != ""
    ensures var pushed := Step(hold, k, r, push);
            && Enabled(hold, pushed, Confirmed(n, sent))
            && var confirmed := Step(hold, k, pushed, Confirmed(n, sent));
            && Idle(k, confirmed) && confirmed.log == r.log + [Record(sent, r.tickets[n].head, Regular)]
    ensures r.tickets[n].flight.Some? ==>
      var pushed := Step(hold, k, r, push);
      && Enabled(hold, pushed, DispatchFailed(n, sent))
      && Step(hold, k, pushed, DispatchFailed(n, sent)).s.entries[k].pendingHead == push.head
  {
    PushWhileSendingIff(hold, k, r, n, push);
  }

  /* ---------- concrete runs ---------- */

  const HOLD: Time := 10
  const PR := PRKey("owner", "repo", 0)

  lemma {:induction false} PlayConcat(hold: Time, k: PRKey, r: Run, a: seq<Event>, b: seq<Event>)
    requires IsRun(hold, k, r, a) && IsRun(hold, k, Play(hold, k, r, a), b)
    ensures IsRun(hold, k, r, a + b)
    ensures Play(hold, k, r, a + b) == Play(hold, k, Play(hold, k, r, a), b)
    decreases |a|
  {
    if a == [] {
      assert a + b == b;
    } else {
      assert a + b == [a[0]] + (a[1..] + b) && a == [a[0]] + a[1..];
      PlayConcat(hold, k, Step(hold, k, r, a[0]), a[1..], b);
      PlayPrepend(hold, k, r, a[0], a[1..]);
      PlayPrepend(hold, k, r, a[0], a[1..] + b);
    }
  }

  lemma PlayOne(hold: Time, k: PRKey, r: Run, events: seq<Event>, ev: Event)
    requires IsRun(hold, k, r, events) && Enabled(hold, Play(hold, k, r, events), ev)
    ensures IsRun(hold, k, r, events + [ev])
    ensures Play(hold, k, r, events + [ev]) == Step(hold, k, Play(hold, k, r, events), ev)
  {
    var mid := Play(hold, k, r, events);
    assert [ev][1..] == [] && IsRun(hold, k, Step(hold, k, mid, ev), []);
    assert IsRun(hold, k, mid, [ev]) && Play(hold, k, mid, [ev]) == Step(hold, k, mid, ev);
    PlayConcat(hold, k, r, events, [ev]);
  }

  /** The states of the concrete runs, one event apart. */
  const LED := Run(State(map[PR := EntryState(None, "", Some(0), "", "", 1, None)], []), 0,
                   [Ticket(PR, "a", 0, Regular, None, true)], [], 0, false)
  const SENT := Run(State(map[PR := EntryState(Some(0), "a", Some(0), "", "", 2, None)], []), 0,
                    [Ticket(PR, "a", 0, Regular, None, false)], [Record(0, "a", Regular)], 0, false)
  const HELD := Run(State(map[PR := EntryState(Some(0), "a", Some(1), "b", "url", 3, Some(0))],
                          [Timer(PR, "url", 3, 1, false, false)]), 1,
                    [Ticket(PR, "a", 0, Regular, None, false)], [Record(0, "a", Regular)], 0, false)
  const TAKEN := Run(State(map[PR := EntryState(Some(0), "a", Some(1), "", "", 3, None)],
                           [Timer(PR, "url", 3, 1, false, true)]), 11,
                     [Ticket(PR, "a", 0, Regular, None, false), Ticket(PR, "b", 1, Regular, Some("url"), true)],
                     [Record(0, "a", Regular)], 0, false)
  const OVERDUE := Run(State(map[PR := EntryState(Some(0), "a", Some(11), "", "", 4, None)],
                             [Timer(PR, "url", 3, 1, true, false)]), 11,
                       [Ticket(PR, "a", 0, Regular, None, false), Ticket(PR, "c", 1, Regular, None, true)],
                       [Record(0, "a", Regular)], 0, false)
  const LED_AGAIN := Run(State(map[PR := EntryState(Some(0), "a", Some(11), "", "", 4, None)],
                               [Timer(PR, "url", 3, 1, false, true)]), 11,
                         TAKEN.tickets + [Ticket(PR, "c", 1, Regular, None, true)], TAKEN.log, 0, false)
  const HELD_AGAIN := Run(State(map[PR := EntryState(Some(0), "a", Some(12), "d", "url", 5, Some(1))],
                                [Timer(PR, "url", 3, 1, false, true), Timer(PR, "url", 5, 12, false, false)]), 12,
                          LED_AGAIN.tickets, TAKEN.log, 0, false)

  const LED_TWICE := Run(State(map[PR := EntryState(None, "", Some(0), "", "", 2, None)], []), 0,
                         [Ticket(PR, "a", 0, Regular, None, true), Ticket(PR, "b", 0, Regular, None, true)],
                         [], 0, false)
  const LED_LATER := Run(State(map[PR := EntryState(Some(0), "a", Some(20), "", "", 3, None)], []), 20,
                         [Ticket(PR, "a", 0, Regular, None, false), Ticket(PR, "b", 1, Regular, None, true)],
                         [Record(0, "a", Regular)], 0, false)
  const HELD_LATER := Run(State(map[PR := EntryState(Some(0), "a", Some(21), "c", "url", 4, Some(0))],
                                [Timer(PR, "url", 4, 21, false, false)]), 21,
                          LED_LATER.tickets, LED_LATER.log, 0, false)

  lemma FirstLeads()
    ensures Enabled(HOLD, Start(0), Pushed(PR, "a", "url", 0))
    ensures Step(HOLD, PR, Start(0), Pushed(PR, "a", "url", 0)) == LED
  {
  }

  lemma FirstIsSent()
    ensures Enabled(HOLD, LED, Confirmed(0, 0)) && Step(HOLD, PR, LED, Confirmed(0, 0)) == SENT
  {
  }

  lemma OneRecord()
    ensures Records([Record(0, "a", Regular)]) == 1
  {
    OneRecordMore([], Record(0, "a", Regular));
    assert [] + [Record(0, "a", Regular)] == [Record(0, "a", Regular)];
  }

  lemma SecondIsHeld()
    ensures Enabled(HOLD, SENT, Pushed(PR, "b", "url", 1)) && Step(HOLD, PR, SENT, Pushed(PR, "b", "url", 1)) == HELD
  {
  }

  lemma TrailingIsTaken()
    ensures Enabled(HOLD, HELD, Fired(0, 11)) && Step(HOLD, PR, HELD, Fired(0, 11)) == TAKEN
  {
    OneRecord();
  }

  lemma ThirdIsOverdue()
    ensures Enabled(HOLD, HELD, Pushed(PR, "c", "url", 11))
    ensures Step(HOLD, PR, HELD, Pushed(PR, "c", "url", 11)) == OVERDUE
  {
    OneRecord();
  }

  lemma ThirdLeads()
    ensures Enabled(HOLD, TAKEN, Pushed(PR, "c", "url", 11))
    ensures Step(HOLD, PR, TAKEN, Pushed(PR, "c", "url", 11)) == LED_AGAIN
  {
    OneRecord();
  }

  lemma FourthIsHeld()
    ensures Enabled(HOLD, LED_AGAIN, Pushed(PR, "d", "url", 12))
    ensures Step(HOLD, PR, LED_AGAIN, Pushed(PR, "d", "url", 12)) == HELD_AGAIN
  {
  }

  /** A leading record at 0 and a coalesced push at 1: callback 0 is armed with generation 3. */
  lemma Prelude() returns (events: seq<Event>)
    ensures IsRun(HOLD, PR, Start(0), events) && Play(HOLD, PR, Start(0), events) == HELD
  {
    var r;
    FirstLeads();
    FirstIsSent();
    SecondIsHeld();
    events, r := More([], Start(0), Pushed(PR, "a", "url", 0));
    events, r := More(events, r, Confirmed(0, 0));
    events, r := More(events, r, Pushed(PR, "b", "url", 1));
  }

  lemma More(events: seq<Event>, r: Run, ev: Event) returns (longer: seq<Event>, next: Run)
    requires IsRun(HOLD, PR, Start(0), events) && r == Play(HOLD, PR, Start(0), events) && Enabled(HOLD, r, ev)
    ensures longer == events + [ev] && IsRun(HOLD, PR, Start(0), longer)
    ensures next == Play(HOLD, PR, Start(0), longer) == Step(HOLD, PR, r, ev)
  {
    PlayOne(HOLD, PR, Start(0), events, ev);
    longer, next := events + [ev], Step(HOLD, PR, r, ev);
  }

  /** Callback 0 takes its dispatch at 11. */
  lemma InFlight() returns (events: seq<Event>)
    ensures IsRun(HOLD, PR, Start(0), events) && Play(HOLD, PR, Start(0), events) == TAKEN
  {
    var r;
    events := Prelude();
    TrailingIsTaken();
    events, r := More(events, HELD, Fired(0, 11));
  }

  lemma BurstPrepend(b: Burst.Burst, r: Run, ev: Event, b': Burst.Burst, r': Run, events: seq<Event>)
    requires Burst.BurstEvent(HOLD, PR, b, r, ev) && b' == Burst.Follow(PR, b, r, ev) && r' == Step(HOLD, PR, r, ev)
    requires Burst.IsBurst(HOLD, PR, b', r', events) && IsRun(HOLD, PR, r', events)
    ensures Burst.IsBurst(HOLD, PR, b, r, [ev] + events) && IsRun(HOLD, PR, r, [ev] + events)
    ensures Burst.FollowAll(HOLD, PR, b, r, [ev] + events) == Burst.FollowAll(HOLD, PR, b', r', events)
  {
    assert ([ev] + events)[1..] == events;
  }

  const OPENING := Burst.Opening("a", 0)
  const LEADING := Burst.Leading("a", 0)
  const TRAILING := Burst.Trailing("a", 0, 1, "b")
  const FLYING := Burst.Flying("a", 0, 1, "b", 1)
  const DONE := Burst.Done("a", 0, 1, "b", 12)

  lemma OpeningToLeading()
    ensures Burst.BurstEvent(HOLD, PR, OPENING, LED, Confirmed(0, 0))
    ensures Burst.Follow(PR, OPENING, LED, Confirmed(0, 0)) == LEADING
  {
  }

  lemma LeadingToTrailing()
    ensures Burst.BurstEvent(HOLD, PR, LEADING, SENT, Pushed(PR, "b", "url", 1))
    ensures Burst.Follow(PR, LEADING, SENT, Pushed(PR, "b", "url", 1)) == TRAILING
  {
  }

  lemma TrailingToFlying()
    ensures Burst.BurstEvent(HOLD, PR, TRAILING, HELD, Fired(0, 11))
    ensures Burst.Follow(PR, TRAILING, HELD, Fired(0, 11)) == FLYING
  {
  }

  lemma FlyingToDone()
    ensures Burst.BurstEvent(HOLD, PR, FLYING, TAKEN, Confirmed(1, 12))
    ensures Burst.Follow(PR, FLYING, TAKEN, Confirmed(1, 12)) == DONE
  {
  }

  lemma TrailingCanBeRecorded() returns (events: seq<Event>)
    ensures Burst.IsBurst(HOLD, PR, TRAILING, HELD, events) && IsRun(HOLD, PR, HELD, events)
    ensures Burst.FollowAll(HOLD, PR, TRAILING, HELD, events) == DONE
  {
    FlyingToDone();
    BurstPrepend(FLYING, TAKEN, Confirmed(1, 12), DONE, Step(HOLD, PR, TAKEN, Confirmed(1, 12)), []);
    TrailingIsTaken();
    TrailingToFlying();
    BurstPrepend(TRAILING, HELD, Fired(0, 11), FLYING, TAKEN, [Confirmed(1, 12)] + []);
    events := [Fired(0, 11)] + ([Confirmed(1, 12)] + []);
  }

  /** The bound of `CoalesceBurst` is reached: this burst makes both records. */
  lemma BurstCanMakeTwoRecords() returns (events: seq<Event>)
    ensures Burst.IsBurst(HOLD, PR, OPENING, LED, events) && IsRun(HOLD, PR, LED, events)
    ensures Burst.Made(Burst.FollowAll(HOLD, PR, OPENING, LED, events))
         == [Record(0, "a", Regular), Record(12, "b", Regular)]
  {
    events := TrailingCanBeRecorded();
    SecondIsHeld();
    LeadingToTrailing();
    BurstPrepend(LEADING, SENT, Pushed(PR, "b", "url", 1), TRAILING, HELD, events);
    events := [Pushed(PR, "b", "url", 1)] + events;
    FirstIsSent();
    OpeningToLeading();
    BurstPrepend(OPENING, LED, Confirmed(0, 0), LEADING, SENT, events);
    events := [Confirmed(0, 0)] + events;
  }

  lemma TrailingHeadIsAdmitted()
    ensures Sending(PR, TAKEN, 1) && Enabled(HOLD, TAKEN, Polled(PR, "b", None, 11))
    ensures PollIsAdmitted(HOLD, PR, TAKEN, Polled(PR, "b", None, 11))
  {
    OneRecord();
  }

  /** A poll between the two sections of `fire` publishes the trailing head a second time, at the same instant. */
  lemma PollDuringDispatchOvertakes() returns (events: seq<Event>)
    ensures IsRun(HOLD, PR, Start(0), events)
    ensures Play(HOLD, PR, Start(0), events).log ==
      [Record(0, "a", Regular), Record(11, "b", Regular), Record(11, "b", Overtaken)]
  {
    var r;
    TrailingHeadIsAdmitted();
    BothAreRecorded(HOLD, PR, TAKEN, 1, Polled(PR, "b", None, 11), 11, 11);
    events := InFlight();
    events, r := More(events, TAKEN, Polled(PR, "b", None, 11));
    events, r := More(events, r, Confirmed(1, 11));
    events, r := More(events, r, Confirmed(2, 11));
  }

  lemma DroppedBySuccess()
    ensures Enabled(HOLD, HELD_AGAIN, Confirmed(1, 12))
    ensures var r := Step(HOLD, PR, HELD_AGAIN, Confirmed(1, 12));
            Idle(PR, r) && r.log == [Record(0, "a", Regular), Record(12, "b", Regular)]
  {
    OneRecord();
  }

  /** Two pushes while the dispatch of "b" is in flight: the first leads, the second is coalesced, and then
      dropped when the dispatch succeeds. The last pushed head "d" has no record and nothing pending. */
  lemma LastPushCanBeLost() returns (events: seq<Event>)
    ensures IsRun(HOLD, PR, Start(0), events)
    ensures events != [] && Pushed(PR, "d", "url", 12) in events
    ensures Idle(PR, Play(HOLD, PR, Start(0), events))
    ensures Play(HOLD, PR, Start(0), events).log == [Record(0, "a", Regular), Record(12, "b", Regular)]
  {
    var r;
    ThirdLeads();
    FourthIsHeld();
    DroppedBySuccess();
    events := InFlight();
    events, r := More(events, TAKEN, Pushed(PR, "c", "url", 11));
    events, r := More(events, r, Pushed(PR, "d", "url", 12));
    events, r := More(events, r, Confirmed(1, 12));
  }

  lemma NextLeadsToo()
    ensures Enabled(HOLD, LED, Pushed(PR, "b", "url", 0)) && PushLeads(HOLD, PR, LED, Pushed(PR, "b", "url", 0))
    ensures Step(HOLD, PR, LED, Pushed(PR, "b", "url", 0)) == LED_TWICE
  {
  }

  /** The second push of a pull request arrives while the first is being sent: both lead, and both are published
      at the same instant. */
  lemma LeadingPushesCanDouble() returns (events: seq<Event>)
    ensures IsRun(HOLD, PR, Start(0), events)
    ensures Play(HOLD, PR, Start(0), events).log == [Record(0, "a", Regular), Record(0, "b", Overtaken)]
  {
    var r;
    FirstLeads();
    NextLeadsToo();
    BothAreRecorded(HOLD, PR, LED, 0, Pushed(PR, "b", "url", 0), 0, 0);
    events, r := More([], Start(0), Pushed(PR, "a", "url", 0));
    events, r := More(events, r, Pushed(PR, "b", "url", 0));
    events, r := More(events, r, Confirmed(0, 0));
    events, r := More(events, r, Confirmed(1, 0));
  }

  lemma LaterLeads()
    ensures Enabled(HOLD, SENT, Pushed(PR, "b", "url", 20))
    ensures Step(HOLD, PR, SENT, Pushed(PR, "b", "url", 20)) == LED_LATER
  {
    OneRecord();
  }

  lemma LastIsHeld()
    ensures Enabled(HOLD, LED_LATER, Pushed(PR, "c", "url", 21))
    ensures Step(HOLD, PR, LED_LATER, Pushed(PR, "c", "url", 21)) == HELD_LATER
  {
  }

  lemma LastIsDropped()
    ensures Enabled(HOLD, HELD_LATER, Confirmed(1, 22))
    ensures var r := Step(HOLD, PR, HELD_LATER, Confirmed(1, 22));
            Idle(PR, r) && r.log == [Record(0, "a", Regular), Record(22, "b", Regular)]
  {
    OneRecord();
  }

  /** A push while a leading head is being sent is coalesced, and dropped when that send succeeds: no dispatch is
      involved, and the last pushed head "c" has no record and nothing pending. */
  lemma PushAfterLeadCanBeLost() returns (events: seq<Event>)
    ensures IsRun(HOLD, PR, Start(0), events)
    ensures events != [] && Pushed(PR, "c", "url", 21) in events
    ensures Idle(PR, Play(HOLD, PR, Start(0), events))
    ensures Play(HOLD, PR, Start(0), events).log == [Record(0, "a", Regular), Record(22, "b", Regular)]
  {
    var r;
    FirstLeads();
    FirstIsSent();
    LaterLeads();
    LastIsHeld();
    LastIsDropped();
    events, r := More([], Start(0), Pushed(PR, "a", "url", 0));
    events, r := More(events, r, Confirmed(0, 0));
    events, r := More(events, r, Pushed(PR, "b", "url", 20));
    events, r := More(events, r, Pushed(PR, "c", "url", 21));
    events, r := More(events, r, Confirmed(1, 22));
  }

  function Filler(i: nat): PRKey {
    PRKey("filler", "repo", i)
  }

  /** The entry of the pull request and `n` fresh ones. */
  ghost predicate Filled(entries: map<PRKey, EntryState>, n: nat, e: EntryState) {
    && |entries| == n + 1 && PR in entries && entries[PR] == e
    && (forall i: nat :: Filler(i) in entries <==> i < n)
    && (forall k :: k in entries && k != PR ==> entries[k] == FRESH)
  }

  lemma FillOne(r: Run, e: EntryState, i: nat)
    requires i < MAX_ENTRIES && Filled(r.s.entries, i, e) && r.clock <= 21
    ensures Enabled(HOLD, r, Polled(Filler(i), "", None, 21))
    ensures var r' := Step(HOLD, PR, r, Polled(Filler(i), "", None, 21));
            r' == r.(s := r.s.(entries := r'.s.entries), clock := 21) && Filled(r'.s.entries, i + 1, e)
  {
    assert Step(HOLD, PR, r, Polled(Filler(i), "", None, 21)).s.entries == r.s.entries[Filler(i) := FRESH];
  }

  /** Polls of other pull requests fill the state map without pruning until it holds one entry too many. */
  lemma {:induction false} Fill(r: Run, e: EntryState, i: nat, n: nat) returns (events: seq<Event>)
    requires i <= n <= MAX_ENTRIES && Filled(r.s.entries, i, e) && r.clock <= 21
    ensures IsRun(HOLD, PR, r, events)
    ensures var last := Play(HOLD, PR, r, events);
      last == r.(s := r.s.(entries := last.s.entries), clock := last.clock) && last.clock <= 21
      && Filled(last.s.entries, n, e)
    decreases n - i
  {
    events := [];
    if i < n {
      var ev := Polled(Filler(i), "", None, 21);
      FillOne(r, e, i);
      events := Fill(Step(HOLD, PR, r, ev), e, i + 1, n);
      PlayPrepend(HOLD, PR, r, ev, events);
      events := [ev] + events;
    }
  }

  /** After the superseding record 4096 other pull requests are polled. */
  lemma Crowded() returns (events: seq<Event>, r: Run, e: EntryState)
    ensures IsRun(HOLD, PR, Start(0), events) && r == Play(HOLD, PR, Start(0), events) && r.clock <= 21
    ensures r.log == [Record(0, "a", Regular), Record(11, "c", Regular)] && Records(r.log) == 2
    ensures |r.tickets| == 2 && r.birth == 0 && e.pendingURL == "" && e.lastEmitAt == Some(11)
    ensures Filled(r.s.entries, MAX_ENTRIES, e) && r.s.timers == [Timer(PR, "url", 3, 1, true, false)]
  {
    events, r, e := Superseded();
    var polls := Fill(r, e, 0, MAX_ENTRIES);
    PlayConcat(HOLD, PR, Start(0), events, polls);
    events, r := events + polls, Play(HOLD, PR, r, polls);
  }

  /** Then the next push prunes them all and is published. */
  lemma StartedOver() returns (events: seq<Event>, r: Run)
    ensures IsRun(HOLD, PR, Start(0), events) && r == Play(HOLD, PR, Start(0), events) && Reborn(r)
    ensures r.log == [Record(0, "a", Regular), Record(11, "c", Regular), Record(21, "d", Regular)]
  {
    var start, e;
    events, start, e := Crowded();
    events, r := Renewed(events, start, e);
    RenewedIsSent(r, start);
    events, r := More(events, r, Confirmed(2, 21));
  }

  /** Callback 0 loses the race with its Stop and stays unrun while its entry is pruned. The next entry
      counts generations from the start again, so callback 0 matches it and publishes one tick after a
      record, nine before the hold window is over. */
  lemma LeftoverCallbackIsStray() returns (events: seq<Event>)
    ensures IsRun(HOLD, PR, Start(0), events)
    ensures Play(HOLD, PR, Start(0), events).log ==
      [Record(0, "a", Regular), Record(11, "c", Regular), Record(21, "d", Regular), Record(22, "e", Stray)]
  {
    var r;
    events, r := StartedOver();
    events, r := StrayDispatch(events, r);
  }

  /** The next push comes a hold later: it leads again, stops callback 0 without effect, and is published. */
  lemma Superseded() returns (events: seq<Event>, r: Run, e: EntryState)
    ensures IsRun(HOLD, PR, Start(0), events) && r == Play(HOLD, PR, Start(0), events)
    ensures r.log == [Record(0, "a", Regular), Record(11, "c", Regular)] && Records(r.log) == 2
    ensures |r.tickets| == 2 && r.birth == 0 && r.clock == 11
    ensures Filled(r.s.entries, 0, e) && r.s.timers == [Timer(PR, "url", 3, 1, true, false)]
    ensures e.pendingURL == "" && e.lastEmitAt == Some(11)
  {
    events := Prelude();
    ThirdIsOverdue();
    events, r := More(events, HELD, Pushed(PR, "c", "url", 11));
    e := ThirdIsSent();
    events, r := More(events, OVERDUE, Confirmed(1, 11));
  }

  lemma ThirdIsSent() returns (e: EntryState)
    ensures Enabled(HOLD, OVERDUE, Confirmed(1, 11))
    ensures var r := Step(HOLD, PR, OVERDUE, Confirmed(1, 11));
            && r.log == [Record(0, "a", Regular), Record(11, "c", Regular)] && Records(r.log) == 2
            && |r.tickets| == 2 && r.birth == 0 && r.clock == 11
            && r.s == State(map[PR := e], [Timer(PR, "url", 3, 1, true, false)])
    ensures e.pendingURL == "" && e.lastEmitAt == Some(11)
  {
    OneRecord();
    OneRecordMore(OVERDUE.log, Record(11, "c", Regular));
    e := Step(HOLD, PR, OVERDUE, Confirmed(1, 11)).s.entries[PR];
  }

  lemma OneRecordMore(log: seq<Mark>, m: Mark)
    requires m.Record?
    ensures Records(log + [m]) == Records(log) + 1
  {
    assert (log + [m])[..|log|] == log;
  }

  lemma AllPrunable(entries: map<PRKey, EntryState>, e: EntryState)
    requires Filled(entries, MAX_ENTRIES, e) && e.pendingURL == "" && e.lastEmitAt == Some(11)
    ensures Prune(entries, 21, HOLD) == map[]
  {
  }

  /** A push of an unknown pull request leads. */
  lemma UnknownLeads(timers: seq<Timer>)
    ensures PushFound(State(map[PR := FRESH], timers), HOLD, PR, "d", "url", 21)
         == (State(map[PR := EntryState(None, "", Some(21), "", "", 1, None)], timers), true)
  {
    var found := State(map[PR := FRESH], timers);
    var seen := Observe(found, PR, 21);
    var e := EntryState(None, "", Some(21), "", "", 0, None);
    assert seen.entries[PR] == e;
    var cleared := ClearPending(seen, PR, e);
    assert cleared.entries == map[PR := EntryState(None, "", Some(21), "", "", 1, None)];
    assert cleared.timers == timers;
  }

  /** At 21 every entry is past its hold, so the push prunes them all and starts a new entry. */
  lemma FourthPrunesAll(start: Run)
    requires Prune(start.s.entries, 21, HOLD) == map[] && |start.s.timers| == 1 && start.clock <= 21
    ensures Enabled(HOLD, start, Pushed(PR, "d", "url", 21))
    ensures Step(HOLD, PR, start, Pushed(PR, "d", "url", 21))
         == Run(State(map[PR := EntryState(None, "", Some(21), "", "", 1, None)], start.s.timers), 21,
                start.tickets + [Ticket(PR, "d", Records(start.log), Regular, None, true)],
                start.log, 1, start.closed)
  {
    UnknownLeads(start.s.timers);
    var timers := start.s.timers;
    assert Open(start.s, HOLD, PR, 21) == State(map[PR := FRESH], timers);
    assert Push(start.s, HOLD, PR, "d", "url", 21)
        == (State(map[PR := EntryState(None, "", Some(21), "", "", 1, None)], timers), true);
    assert PR !in Kept(HOLD, start.s, Pushed(PR, "d", "url", 21));
  }

  lemma Renewed(before: seq<Event>, start: Run, e: EntryState) returns (events: seq<Event>, r: Run)
    requires IsRun(HOLD, PR, Start(0), before) && start == Play(HOLD, PR, Start(0), before) && start.clock <= 21
    requires Filled(start.s.entries, MAX_ENTRIES, e) && start.s.timers == [Timer(PR, "url", 3, 1, true, false)]
    requires e.pendingURL == "" && e.lastEmitAt == Some(11) && start.birth == 0
    ensures IsRun(HOLD, PR, Start(0), events) && r == Play(HOLD, PR, Start(0), events)
    ensures r == Run(State(map[PR := EntryState(None, "", Some(21), "", "", 1, None)], start.s.timers), 21,
                     start.tickets + [Ticket(PR, "d", Records(start.log), Regular, None, true)],
                     start.log, 1, start.closed)
  {
    AllPrunable(start.s.entries, e);
    FourthPrunesAll(start);
    events, r := More(before, start, Pushed(PR, "d", "url", 21));
  }

  lemma RenewedIsSent(r: Run, start: Run)
    requires r == Run(State(map[PR := EntryState(None, "", Some(21), "", "", 1, None)], start.s.timers), 21,
                      start.tickets + [Ticket(PR, "d", Records(start.log), Regular, None, true)],
                     start.log, 1, start.closed)
    requires start.s.timers == [Timer(PR, "url", 3, 1, true, false)] && |start.tickets| == 2 && Records(start.log) == 2
    ensures Enabled(HOLD, r, Confirmed(2, 21)) && Reborn(Step(HOLD, PR, r, Confirmed(2, 21)))
    ensures Step(HOLD, PR, r, Confirmed(2, 21)).log == start.log + [Record(21, "d", Regular)]
  {
    OneRecordMore(start.log, Record(21, "d", Regular));
  }

  /** The new entry of the pull request has generation 2 and an unrun callback of the old one. */
  predicate Reborn(r: Run) {
    && r.clock == 21 && r.birth == 1 && r.s.timers == [Timer(PR, "url", 3, 1, true, false)] && |r.tickets| == 3
    && r.s.entries == map[PR := EntryState(Some(21), "d", Some(21), "", "", 2, None)]
  }

  /** The next push is coalesced with generation 3, the one the old callback carries. */
  predicate Matched(r: Run) {
    && r.clock == 22 && r.birth == 1 && |r.s.timers| == 2 && r.s.timers[0] == Timer(PR, "url", 3, 1, true, false)
    && |r.tickets| == 3
    && r.s.entries == map[PR := EntryState(Some(21), "d", Some(22), "e", "url", 3, Some(1))]
  }

  lemma FifthIsHeld(r: Run)
    requires Reborn(r)
    ensures Enabled(HOLD, r, Pushed(PR, "e", "url", 22))
    ensures Matched(Step(HOLD, PR, r, Pushed(PR, "e", "url", 22)))
    ensures Step(HOLD, PR, r, Pushed(PR, "e", "url", 22)).log == r.log
  {
  }

  lemma OldCallbackTakes(r: Run)
    requires Matched(r)
    ensures Enabled(HOLD, r, Fired(0, 22))
    ensures var r' := Step(HOLD, PR, r, Fired(0, 22));
            && r'.tickets == r.tickets + [Ticket(PR, "e", Records(r.log), Stray, Some("url"), true)]
            && r'.log == r.log && r'.clock == 22
  {
  }

  lemma StrayDispatch(before: seq<Event>, start: Run) returns (events: seq<Event>, r: Run)
    requires IsRun(HOLD, PR, Start(0), before) && start == Play(HOLD, PR, Start(0), before) && Reborn(start)
    ensures IsRun(HOLD, PR, Start(0), events) && r == Play(HOLD, PR, Start(0), events)
    ensures r.log == start.log + [Record(22, "e", Stray)]
  {
    FifthIsHeld(start);
    events, r := More(before, start, Pushed(PR, "e", "url", 22));
    OldCallbackTakes(r);
    events, r := More(events, r, Fired(0, 22));
    events, r := More(events, r, Confirmed(3, 22));
  }
}
