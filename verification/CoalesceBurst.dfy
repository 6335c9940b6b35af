/**
 The promise of pkg/coalesce/coalesce.go: a burst of pushes to one pull request makes at most two records,
 the leading head and one trailing record that carries the last pushed head.

 Between a decision and its confirmation, while the leading record or the trailing dispatch is being sent,
 other pull requests go on, callbacks and polls of this one included, as long as the entry is kept and no
 further decision about it is taken and no push of it is coalesced. `CoalesceGaps` says what those would do.
 At any other time of the burst everything is free: pushes, redeliveries, polls, superseded callbacks, failed
 dispatches, shutdown, and any activity on other pull requests. Decisions of earlier days that were never
 confirmed may be open. Releases and actions that bypass the coalescer for this pull request are no part of it.
 */
module CoalesceBurst {
  import opened Common
  import opened CoalesceSpec
  import opened CoalesceRuns
  import opened CoalesceTimers

  /** Opening: the first head is decided on and being sent. Leading: its record was made. Trailing: later
      pushes wait for quiet. Flying: the trailing dispatch is being sent. Done: its record was made. */
  datatype Burst =
    | Opening(firstHead: string, ticket: nat)
    | Leading(firstHead: string, lead: Time)
    | Trailing(firstHead: string, lead: Time, lastPush: Time, lastHead: string)
    | Flying(firstHead: string, lead: Time, lastPush: Time, lastHead: string, ticket: nat)
    | Done(firstHead: string, lead: Time, lastPush: Time, lastHead: string, at: Time)

  /** The records of the burst so far. */
  function Made(b: Burst): seq<Mark> {
    match b
    case Opening(_, _) => []
    case Done(first, lead, _, last, at) => [Record(lead, first, Regular), Record(at, last, Regular)]
    case _ => [Record(b.lead, b.firstHead, Regular)]
  }

  /** A decision about `k` is confirmed, or its dispatch fails. */
  predicate Outcome(k: PRKey, r: Run, ev: Event) {
    (ev.Confirmed? || ev.DispatchFailed?) && ev.ticket < |r.tickets| && r.tickets[ev.ticket].key == k
  }

  predicate InTheAir(b: Burst) {
    b.Opening? || b.Flying?
  }

  function Follow(k: PRKey, b: Burst, r: Run, ev: Event): (b': Burst)
    ensures b'.firstHead == b.firstHead
  {
    match b
    case Opening(first, i) => if Outcome(k, r, ev) then Leading(first, ev.now) else b
    case Leading(first, lead) => if Moves(k, r, ev) then Trailing(first, lead, ev.now, ev.head) else b
    case Trailing(first, lead, push, last) =>
      if Moves(k, r, ev) then Trailing(first, lead, ev.now, ev.head)
      else if Takes(k, r, ev) then Flying(first, lead, push, last, |r.tickets|)
      else b
    case Flying(first, lead, push, last, i) =>
      if !Outcome(k, r, ev) then b
      else if ev.Confirmed? then Done(first, lead, push, last, ev.now) else Trailing(first, lead, push, last)
    case Done(_, _, _, _, _) => b
  }

  /** What a burst is: after the leading record pushes less than `hold` after it or after each other, until the
      trailing record; then any pushes at all until `hold` after that. */
  ghost predicate BurstEvent(hold: Time, k: PRKey, b: Burst, r: Run, ev: Event) {
    && Enabled(hold, r, ev)
    && !((ev.Opened? || ev.Withdrawn?) && ev.key == k)
    && (Outcome(k, r, ev) ==> InTheAir(b) && ev.ticket == b.ticket)
    && match b
       case Leading(_, lead) => ev.now < lead + hold
       case Trailing(_, lead, push, _) => Moves(k, r, ev) ==> ev.now < lead + hold || ev.now < push + hold
       case Done(_, _, _, _, at) => ev.now < at + hold
       case _ => k in Kept(hold, r.s, ev) && !Moves(k, r, ev) && !PollIsAdmitted(hold, k, r, ev)
  }

  /** `base` is the history before the burst. */
  ghost predicate BurstInv(hold: Time, k: PRKey, b: Burst, r: Run, base: seq<Mark>) {
    && hold > 0 && GenerationInv(k, r) && k in r.s.entries && r.log == base + Made(b)
    && EntryOfBurst(hold, k, b, r, r.s.entries[k])
  }

  ghost predicate EntryOfBurst(hold: Time, k: PRKey, b: Burst, r: Run, e: EntryState) {
    match b
    case Opening(first, i) => Sending(k, r, i) && r.tickets[i].head == first && r.tickets[i].flight.None?
    case Leading(_, lead) => e.pendingURL == "" && e.lastEmitAt == Some(lead)
    case Trailing(_, lead, push, last) =>
      e.pendingURL != "" && e.pendingHead == last && e.lastEmitAt == Some(lead) && NoLater(Some(push), e.lastPushAt)
      && ArmedSince(k, r, push)
    case Flying(_, lead, push, last, i) =>
      e.lastEmitAt == Some(lead) && NoLater(Some(push), e.lastPushAt)
      && Sending(k, r, i) && r.tickets[i].head == last && push + hold <= r.clock
    case Done(_, _, push, _, at) => e.lastEmitAt == Some(at) && push + hold <= at <= r.clock && ArmedSince(k, r, at)
  }

  ghost predicate ArmedSince(k: PRKey, r: Run, at: Time) {
    forall i: nat :: Armed(k, r, i) ==> at <= r.s.timers[i].armedAt
  }

  predicate NoLater(a: Option<Time>, b: Option<Time>) {
    a.Some? ==> b.Some? && a.value <= b.value
  }

  lemma BurstIsQuiet(hold: Time, k: PRKey, b: Burst, r: Run, base: seq<Mark>, ev: Event)
    requires BurstInv(hold, k, b, r, base) && BurstEvent(hold, k, b, r, ev)
    ensures k in Kept(hold, r.s, ev)
    ensures GenerationInv(k, Step(hold, k, r, ev))
  {
    StepKeepsGenerations(hold, k, r, ev);
  }

  /* ---------- bystanders ---------- */

  /** Nothing the burst looks at changed, but that a later push may have been seen: same entry, same history,
      same decisions, no new callback for `k`. */
  ghost predicate Undisturbed(k: PRKey, r: Run, r': Run) {
    && k in r.s.entries && k in r'.s.entries
    && r'.s.entries[k] == r.s.entries[k].(timer := r'.s.entries[k].timer, lastPushAt := r'.s.entries[k].lastPushAt)
    && NoLater(r.s.entries[k].lastPushAt, r'.s.entries[k].lastPushAt)
    && r'.log == r.log && r.clock <= r'.clock
    && (forall i: nat :: Armed(k, r', i) ==> Armed(k, r, i) && r'.s.timers[i].armedAt == r.s.timers[i].armedAt)
    && (forall i: nat :: i < |r.tickets| && r.tickets[i].key == k ==>
          i < |r'.tickets| && r'.tickets[i] == r.tickets[i])
  }

  lemma UndisturbedBurst(hold: Time, k: PRKey, b: Burst, r: Run, base: seq<Mark>, r': Run)
    requires BurstInv(hold, k, b, r, base) && GenerationInv(k, r') && Undisturbed(k, r, r')
    ensures BurstInv(hold, k, b, r', base)
  {
  }

  lemma UndisturbedTwice(k: PRKey, r: Run, mid: Run, r': Run)
    requires Undisturbed(k, r, mid) && Undisturbed(k, mid, r')
    ensures Undisturbed(k, r, r')
  {
  }

  lemma LookedElsewhere(hold: Time, k: PRKey, r: Run, key: PRKey, now: Time)
    requires k in r.s.entries && k in Prune(r.s.entries, now, hold) && r.clock <= now
    ensures Undisturbed(k, r, Looked(hold, k, r, key, now)) && key in Looked(hold, k, r, key, now).s.entries
  {
    var r' := Looked(hold, k, r, key, now);
    assert r'.s.entries[k] == r.s.entries[k] && r'.s.timers == r.s.timers && r'.birth == r.birth;
    assert forall i: nat :: Armed(k, r', i) <==> Armed(k, r, i);
  }

  lemma FoundElsewhere(hold: Time, k: PRKey, r: Run, key: PRKey, head: string, url: string, r': Run)
    requires k in r.s.entries && key in r.s.entries && key != k
    requires var (s, lead) := PushFound(r.s, hold, key, head, url, r.clock);
      r' == r.(s := s, tickets := if lead then Decided(r, key, head, Regular, None) else r.tickets)
    ensures Undisturbed(k, r, r')
  {
    assert r'.s.entries[k] == r.s.entries[k];
    assert forall i: nat :: Waiting(k, r', i) ==> Waiting(k, r, i) && r'.s.timers[i].armedAt == r.s.timers[i].armedAt
                                                  && r'.s.timers[i].generation == r.s.timers[i].generation;
  }

  /** Pushes of other pull requests, and repeated deliveries of the published head. */
  lemma PushElsewhere(hold: Time, k: PRKey, r: Run, ev: Event)
    requires k in r.s.entries && Enabled(hold, r, ev) && k in Kept(hold, r.s, ev) && ev.Pushed? && !Moves(k, r, ev)
    ensures Undisturbed(k, r, Step(hold, k, r, ev))
  {
    var found := Looked(hold, k, r, ev.key, ev.now);
    LookedElsewhere(hold, k, r, ev.key, ev.now);
    if ev.key == k {
      assert Step(hold, k, r, ev) == found;
    } else {
      FoundElsewhere(hold, k, found, ev.key, ev.head, ev.url, Step(hold, k, r, ev));
      UndisturbedTwice(k, r, found, Step(hold, k, r, ev));
    }
  }

  lemma SeenElsewhere(k: PRKey, r: Run, key: PRKey, pushAt: Option<Time>, r': Run)
    requires k in r.s.entries && key in r.s.entries
    requires r'.s == (if pushAt.Some? then Observe(r.s, key, pushAt.value) else r.s)
    requires r'.log == r.log && r'.clock == r.clock && r'.birth == r.birth
    requires r'.tickets == r.tickets || exists t: Ticket :: t.key != k && r'.tickets == r.tickets + [t]
    ensures Undisturbed(k, r, r')
  {
    assert r'.s.timers == r.s.timers;
    assert forall i: nat :: Armed(k, r', i) <==> Armed(k, r, i);
  }

  /** Polls of other pull requests, and polls of this one that are not admitted. */
  lemma PollElsewhere(hold: Time, k: PRKey, r: Run, ev: Event)
    requires k in r.s.entries && Enabled(hold, r, ev) && k in Kept(hold, r.s, ev)
    requires ev.Polled? && !PollIsAdmitted(hold, k, r, ev)
    ensures Undisturbed(k, r, Step(hold, k, r, ev))
  {
    var found, r' := Looked(hold, k, r, ev.key, ev.now), Step(hold, k, r, ev);
    LookedElsewhere(hold, k, r, ev.key, ev.now);
    if r'.tickets != r.tickets {
      assert r'.tickets == Decided(r, ev.key, ev.head, Regular, None) && ev.key != k;
    }
    SeenElsewhere(k, found, ev.key, ev.pushAt, r');
    UndisturbedTwice(k, r, found, r');
  }

  lemma RecordElsewhere(hold: Time, k: PRKey, r: Run, ev: Event)
    requires k in r.s.entries && Enabled(hold, r, ev) && ev.Confirmed? && r.tickets[ev.ticket].key != k
    ensures Undisturbed(k, r, Step(hold, k, r, ev))
  {
    var r' := Step(hold, k, r, ev);
    assert forall i: nat :: Armed(k, r', i) ==> Armed(k, r, i) && r'.s.timers[i].armedAt == r.s.timers[i].armedAt;
  }

  lemma RearmElsewhere(hold: Time, k: PRKey, r: Run, ev: Event)
    requires k in r.s.entries && Enabled(hold, r, ev) && ev.DispatchFailed? && r.tickets[ev.ticket].key != k
    ensures Undisturbed(k, r, Step(hold, k, r, ev))
  {
    var r' := Step(hold, k, r, ev);
    assert r'.s.entries[k] == r.s.entries[k];
    assert forall i: nat :: Armed(k, r', i) ==> Armed(k, r, i) && r'.s.timers[i].armedAt == r.s.timers[i].armedAt;
  }

  lemma CancelledElsewhere(hold: Time, k: PRKey, r: Run, ev: Event)
    requires k in r.s.entries && Enabled(hold, r, ev) && ev.Cancelled?
    ensures Undisturbed(k, r, Step(hold, k, r, ev))
  {
    var r' := Step(hold, k, r, ev);
    assert forall i: nat :: Armed(k, r', i) ==> Armed(k, r, i) && r'.s.timers[i].armedAt == r.s.timers[i].armedAt;
  }

  lemma ClosedElsewhere(hold: Time, k: PRKey, r: Run, ev: Event)
    requires k in r.s.entries && Enabled(hold, r, ev) && ev.Closed?
    ensures Undisturbed(k, r, Step(hold, k, r, ev))
  {
    var r' := Step(hold, k, r, ev);
    assert r'.s.entries[k] == r.s.entries[k].(timer := None);
    assert forall i: nat :: Armed(k, r', i) <==> Armed(k, r, i);
  }

  lemma ClaimElsewhere(hold: Time, k: PRKey, r: Run, ev: Event)
    requires k in r.s.entries && Enabled(hold, r, ev) && (ev.Opened? || ev.Withdrawn?) && ev.key != k
    ensures Undisturbed(k, r, Step(hold, k, r, ev))
  {
    var r' := Step(hold, k, r, ev);
    assert r'.s.entries[k] == r.s.entries[k] && r'.s.timers == r.s.timers && r'.birth == r.birth;
    assert forall i: nat :: Armed(k, r', i) <==> Armed(k, r, i);
  }

  lemma SupersededCallback(hold: Time, k: PRKey, r: Run, ev: Event)
    requires GenerationInv(k, r) && k in r.s.entries && Enabled(hold, r, ev) && ev.Fired? && !Takes(k, r, ev)
    ensures Undisturbed(k, r, Step(hold, k, r, ev))
  {
    if r.s.timers[ev.timer].key == k {
      OnlyTheOwnerDispatches(hold, k, r, ev);
    }
  }

  /** During a burst no poll of the pull request is admitted. */
  lemma NoPollIsAdmitted(hold: Time, k: PRKey, b: Burst, r: Run, base: seq<Mark>, ev: Event)
    requires BurstInv(hold, k, b, r, base) && BurstEvent(hold, k, b, r, ev)
    ensures !PollIsAdmitted(hold, k, r, ev)
  {
    BurstIsQuiet(hold, k, b, r, base, ev);
  }

  /** Events of other pull requests, polls, repeated deliveries, shutdown, and callbacks that do not own the
      pending dispatch. */
  lemma Bystander(hold: Time, k: PRKey, b: Burst, r: Run, base: seq<Mark>, ev: Event)
    requires BurstInv(hold, k, b, r, base) && BurstEvent(hold, k, b, r, ev)
    requires !Outcome(k, r, ev) && !Moves(k, r, ev) && !Takes(k, r, ev)
    ensures BurstInv(hold, k, b, Step(hold, k, r, ev), base)
  {
    BurstIsQuiet(hold, k, b, r, base, ev);
    NoPollIsAdmitted(hold, k, b, r, base, ev);
    match ev {
      case Pushed(_, _, _, _) => PushElsewhere(hold, k, r, ev);
      case Polled(_, _, _, _) => PollElsewhere(hold, k, r, ev);
      case Confirmed(_, _) => RecordElsewhere(hold, k, r, ev);
      case DispatchFailed(_, _) => RearmElsewhere(hold, k, r, ev);
      case Fired(_, _) => SupersededCallback(hold, k, r, ev);
      case Cancelled(_, _) => CancelledElsewhere(hold, k, r, ev);
      case Closed(_) => ClosedElsewhere(hold, k, r, ev);
      case Opened(_, _, _) => ClaimElsewhere(hold, k, r, ev);
      case Withdrawn(_, _, _) => ClaimElsewhere(hold, k, r, ev);
    }
    UndisturbedBurst(hold, k, b, r, base, Step(hold, k, r, ev));
  }

  /* ---------- the steps of the burst ---------- */

  /** A push that does not lead becomes the pending dispatch; only its own callback can take it. */
  lemma CoalescedPush(hold: Time, k: PRKey, r: Run, ev: Event)
    requires GenerationInv(k, r) && k in r.s.entries && Enabled(hold, r, ev) && k in Kept(hold, r.s, ev)
    requires Moves(k, r, ev) && !CoalesceSpec.Leading(r.s.entries[k], ev.now, hold)
    ensures var r' := Step(hold, k, r, ev);
            && k in r'.s.entries
            && var e, e' := r.s.entries[k], r'.s.entries[k];
            && e'.pendingURL != "" && e'.pendingHead == ev.head && e'.lastEmitAt == e.lastEmitAt
            && NoLater(Some(ev.now), e'.lastPushAt)
            && r'.log == r.log && r'.clock == ev.now && ArmedSince(k, r', ev.now)
  {
    assert Open(r.s, hold, k, ev.now).entries[k] == r.s.entries[k];
    var r' := Step(hold, k, r, ev);
    assert forall i: nat :: Armed(k, r', i) ==> i == |r.s.timers|;
  }

  lemma PushIsCoalesced(hold: Time, k: PRKey, b: Burst, r: Run, base: seq<Mark>, ev: Event)
    requires BurstInv(hold, k, b, r, base) && BurstEvent(hold, k, b, r, ev) && Moves(k, r, ev)
    ensures BurstInv(hold, k, Follow(k, b, r, ev), Step(hold, k, r, ev), base)
  {
    BurstIsQuiet(hold, k, b, r, base, ev);
    CoalescedPush(hold, k, r, ev);
  }

  lemma LeadingIsRecorded(hold: Time, k: PRKey, b: Burst, r: Run, base: seq<Mark>, ev: Event)
    requires BurstInv(hold, k, b, r, base) && BurstEvent(hold, k, b, r, ev)
    requires b.Opening? && Outcome(k, r, ev)
    ensures BurstInv(hold, k, Follow(k, b, r, ev), Step(hold, k, r, ev), base)
  {
    BurstIsQuiet(hold, k, b, r, base, ev);
  }

  lemma TrailingIsRecorded(hold: Time, k: PRKey, b: Burst, r: Run, base: seq<Mark>, ev: Event)
    requires BurstInv(hold, k, b, r, base) && BurstEvent(hold, k, b, r, ev)
    requires b.Flying? && Outcome(k, r, ev) && ev.Confirmed?
    ensures BurstInv(hold, k, Follow(k, b, r, ev), Step(hold, k, r, ev), base)
  {
    BurstIsQuiet(hold, k, b, r, base, ev);
    var r' := Step(hold, k, r, ev);
    assert forall i: nat :: !Armed(k, r', i);
  }

  lemma TrailingIsRearmed(hold: Time, k: PRKey, b: Burst, r: Run, base: seq<Mark>, ev: Event)
    requires BurstInv(hold, k, b, r, base) && BurstEvent(hold, k, b, r, ev)
    requires b.Flying? && Outcome(k, r, ev) && ev.DispatchFailed?
    ensures BurstInv(hold, k, Follow(k, b, r, ev), Step(hold, k, r, ev), base)
  {
    BurstIsQuiet(hold, k, b, r, base, ev);
  }

  lemma OwnerRuns(hold: Time, k: PRKey, b: Burst, r: Run, base: seq<Mark>, ev: Event)
    requires BurstInv(hold, k, b, r, base) && BurstEvent(hold, k, b, r, ev)
    requires Takes(k, r, ev)
    ensures BurstInv(hold, k, Follow(k, b, r, ev), Step(hold, k, r, ev), base)
  {
    BurstIsQuiet(hold, k, b, r, base, ev);
    OnlyTheOwnerDispatches(hold, k, r, ev);
  }

  lemma StepKeepsBurst(hold: Time, k: PRKey, b: Burst, r: Run, base: seq<Mark>, ev: Event)
    requires BurstInv(hold, k, b, r, base) && BurstEvent(hold, k, b, r, ev)
    ensures BurstInv(hold, k, Follow(k, b, r, ev), Step(hold, k, r, ev), base)
  {
    if Outcome(k, r, ev) {
      if b.Opening? {
        LeadingIsRecorded(hold, k, b, r, base, ev);
      } else if ev.Confirmed? {
        TrailingIsRecorded(hold, k, b, r, base, ev);
      } else {
        TrailingIsRearmed(hold, k, b, r, base, ev);
      }
    } else if Moves(k, r, ev) {
      PushIsCoalesced(hold, k, b, r, base, ev);
    } else if Takes(k, r, ev) {
      OwnerRuns(hold, k, b, r, base, ev);
    } else {
      Bystander(hold, k, b, r, base, ev);
    }
  }

  ghost predicate IsBurst(hold: Time, k: PRKey, b: Burst, r: Run, events: seq<Event>)
    decreases |events|
  {
    events == [] || (BurstEvent(hold, k, b, r, events[0])
                     && IsBurst(hold, k, Follow(k, b, r, events[0]), Step(hold, k, r, events[0]), events[1..]))
  }

  /** Where the burst stands after `events`. */
  function FollowAll(hold: Time, k: PRKey, b: Burst, r: Run, events: seq<Event>): (b': Burst)
    requires IsRun(hold, k, r, events)
    ensures b'.firstHead == b.firstHead
    decreases |events|
  {
    if events == [] then b
    else FollowAll(hold, k, Follow(k, b, r, events[0]), Step(hold, k, r, events[0]), events[1..])
  }

  lemma {:induction false} BurstKeepsInv(hold: Time, k: PRKey, b: Burst, r: Run, base: seq<Mark>, events: seq<Event>)
    requires BurstInv(hold, k, b, r, base) && IsBurst(hold, k, b, r, events)
    ensures IsRun(hold, k, r, events)
    ensures BurstInv(hold, k, FollowAll(hold, k, b, r, events), Play(hold, k, r, events), base)
    decreases |events|
  {
    if events != [] {
      StepKeepsBurst(hold, k, b, r, base, events[0]);
      BurstKeepsInv(hold, k, Follow(k, b, r, events[0]), Step(hold, k, r, events[0]), base, events[1..]);
    }
  }

  /** A push that leads and a poll that is admitted each open a burst. */
  lemma {:induction false} DecisionOpensBurst(hold: Time, k: PRKey, r: Run, first: Event)
    requires hold > 0 && GenerationInv(k, r) && Enabled(hold, r, first) && Quiet(hold, k, r, first)
    requires PushLeads(hold, k, r, first) || PollIsAdmitted(hold, k, r, first)
    ensures BurstInv(hold, k, Opening(first.head, |r.tickets|), Step(hold, k, r, first), r.log)
  {
    StepKeepsGenerations(hold, k, r, first);
    DecisionIsSending(hold, k, r, first);
    assert r.log + [] == r.log;
  }

  /** However long the burst, it adds at most two records: the leading head, and one carrying the head of
      the last push before it, made no earlier than `hold` after that push. */
  lemma BurstMakesAtMostTwoRecords(hold: Time, k: PRKey, r: Run, first: Event, events: seq<Event>)
    requires hold > 0 && GenerationInv(k, r) && Enabled(hold, r, first) && Quiet(hold, k, r, first)
    requires PushLeads(hold, k, r, first) || PollIsAdmitted(hold, k, r, first)
    requires IsBurst(hold, k, Opening(first.head, |r.tickets|), Step(hold, k, r, first), events)
    ensures IsRun(hold, k, r, [first] + events) && IsRun(hold, k, Step(hold, k, r, first), events)
    ensures var last := FollowAll(hold, k, Opening(first.head, |r.tickets|), Step(hold, k, r, first), events);
      && Play(hold, k, r, [first] + events).log == r.log + Made(last) && |Made(last)| <= 2
      && last.firstHead == first.head && (last.Done? ==> last.lastPush + hold <= last.at)
  {
    DecisionOpensBurst(hold, k, r, first);
    BurstKeepsInv(hold, k, Opening(first.head, |r.tickets|), Step(hold, k, r, first), r.log, events);
    PlayPrepend(hold, k, r, first, events);
  }
}
