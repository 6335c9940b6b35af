/**
 The coalescer as seen from one pull request: everything it answers follows from what was published last, the
 newest push seen and the dispatch that is pending. The shared map, its pruning, the generations, the handles and
 the callbacks that lost a race with their Stop amount to no more than that.
 */
module CoalesceMemory {
  import opened Common
  import opened CoalesceSpec
  import opened CoalesceRuns
  import opened CoalesceTimers

  datatype Publish = Publish(at: Time, head: string)

  /** The head the trailing dispatch would publish, and the callback that would run it. */
  datatype Dispatch = Dispatch(head: string, callback: nat)

  datatype Memory = Memory(known: bool, last: Option<Publish>, newest: Option<Time>, pending: Option<Dispatch>)

  const NOTHING := Memory(false, None, None, None)

  /** A repeated delivery of the head published last. */
  predicate Repeats(m: Memory, head: string) {
    head != "" && m.last.Some? && m.last.value.head == head
  }

  /** Nothing was published, or the last record and the newest push are both a hold old. */
  predicate Rested(m: Memory, now: Time, hold: Time) {
    m.last.Some? ==> m.last.value.at + hold <= now && (m.newest.Some? ==> m.newest.value + hold <= now)
  }

  function Seen(m: Memory, pushAt: Option<Time>): Memory {
    if pushAt.Some? && (m.newest.Some? ==> m.newest.value < pushAt.value) then m.(newest := pushAt) else m
  }

  /** A push or a poll finds the pull request: if more than 4096 are known, one with nothing pending and nothing
      published in the last hold has been forgotten. */
  function Found(m: Memory, others: nat, now: Time, hold: Time): Memory {
    if others > 4096 && m.pending.None? && (m.last.Some? ==> m.last.value.at + hold <= now) then NOTHING else m
  }

  function AfterPush(m: Memory, head: string, now: Time, hold: Time, callback: nat): Memory {
    if Repeats(m, head) then m
    else Seen(m, Some(now)).(pending := if Rested(m, now, hold) then None else Some(Dispatch(head, callback)))
  }

  /** What an event leaves of it. Of the other pull requests only their number counts. */
  function After(hold: Time, k: PRKey, m: Memory, r: Run, ev: Event): Memory {
    match ev
    case Pushed(key, head, _, now) =>
      var found := Found(m, |r.s.entries|, now, hold);
      if key == k then AfterPush(found, head, now, hold, |r.s.timers|).(known := true) else found
    case Polled(key, _, pushAt, now) =>
      var found := Found(m, |r.s.entries|, now, hold);
      if key == k then Seen(found, pushAt).(known := true) else found
    case Confirmed(i, now) =>
      if i < |r.tickets| && r.tickets[i].key == k
      then Memory(true, Some(Publish(now, r.tickets[i].head)), m.newest, None) else m
    case DispatchFailed(i, _) =>
      if i < |r.tickets| && r.tickets[i].key == k && m.known && m.pending.None?
      then m.(pending := Some(Dispatch(r.tickets[i].head, |r.s.timers|))) else m
    case Withdrawn(key, head, _) =>
      if key == k && m.last.Some? && m.last.value.head == head then m.(last := None) else m
    case Fired(i, _) => if m.pending.Some? && m.pending.value.callback == i then m.(pending := None) else m
    case _ => m
  }

  function Remember(hold: Time, k: PRKey, m: Memory, r: Run, events: seq<Event>): Memory
    requires IsRun(hold, k, r, events)
    decreases |events|
  {
    if events == [] then m
    else Remember(hold, k, After(hold, k, m, r, events[0]), Step(hold, k, r, events[0]), events[1..])
  }

  /* ---------- the entry holds no more than the memory ---------- */

  predicate SameEntry(m: Memory, e: EntryState) {
    && e.lastEmitAt == (if m.last.Some? then Some(m.last.value.at) else None)
    && e.lastHead == (if m.last.Some? then m.last.value.head else "")
    && e.lastPushAt == m.newest
    && (m.pending.Some? <==> e.pendingURL != "") && (m.pending.Some? ==> e.pendingHead == m.pending.value.head)
  }

  /** The pending dispatch is run by the one callback that carries the current generation; that callback is the one
      the entry holds, or it was stopped. */
  ghost predicate SameCallback(k: PRKey, m: Memory, r: Run, e: EntryState) {
    && (forall i: nat :: Armed(k, r, i) ==> m.pending.Some? && m.pending.value.callback == i)
    && (m.pending.Some? ==>
          var i := m.pending.value.callback;
          && r.birth <= i < |r.s.timers| && r.s.timers[i].key == k && r.s.timers[i].generation == e.generation
          && (e.timer == Some(i) || (e.timer == None && r.s.timers[i].stopped)))
    && (m.pending.None? ==> e.timer == None)
  }

  /** Callback `i` of `k` may still run, and nothing was done to prevent it. */
  predicate Live(k: PRKey, r: Run, i: nat) {
    i < |r.s.timers| && r.s.timers[i].key == k && !r.s.timers[i].stopped && !r.s.timers[i].ran
  }

  /** The only such callback is the one the entry holds. */
  ghost predicate OnlyHandleLives(k: PRKey, r: Run) {
    forall i: nat :: Live(k, r, i) ==> k in r.s.entries && r.s.entries[k].timer == Some(i)
  }

  ghost predicate Agrees(k: PRKey, m: Memory, r: Run) {
    && (m.known <==> k in r.s.entries) && OnlyHandleLives(k, r)
    && if k in r.s.entries then SameEntry(m, r.s.entries[k]) && SameCallback(k, m, r, r.s.entries[k])
       else m == NOTHING
  }

  /** The event leaves the entry of `k` and who may take its dispatch alone. */
  ghost predicate Untouched(k: PRKey, r: Run, r': Run) {
    && (k in r'.s.entries <==> k in r.s.entries) && r'.birth == r.birth && |r.s.timers| <= |r'.s.timers|
    && (k in r.s.entries ==> r'.s.entries[k] == r.s.entries[k])
    && (forall i: nat :: Armed(k, r', i) ==> Armed(k, r, i))
    && (forall i: nat :: Live(k, r', i) ==> Live(k, r, i))
    && (forall i: nat :: i < |r.s.timers| ==>
          r'.s.timers[i].key == r.s.timers[i].key && r'.s.timers[i].generation == r.s.timers[i].generation
          && (r.s.timers[i].stopped ==> r'.s.timers[i].stopped))
  }

  lemma UntouchedAgrees(k: PRKey, m: Memory, r: Run, r': Run)
    requires Agrees(k, m, r) && Untouched(k, r, r')
    ensures Agrees(k, m, r')
  {
  }

  lemma LookAgrees(hold: Time, k: PRKey, m: Memory, r: Run, key: PRKey, now: Time)
    requires Agrees(k, m, r) && GenerationInv(k, r)
    requires k in r.s.entries && k !in Prune(r.s.entries, now, hold) ==>
      forall i :: 0 <= i < |r.s.timers| && r.s.timers[i].key == k ==> r.s.timers[i].ran
    ensures var found, r' := Found(m, |r.s.entries|, now, hold), Looked(hold, k, r, key, now);
            Agrees(k, if key == k then found.(known := true) else found, r')
            && key in r'.s.entries
  {
    var r' := Looked(hold, k, r, key, now);
    assert forall i: nat :: Armed(k, r', i) ==> Armed(k, r, i);
  }

  lemma PushAgrees(hold: Time, k: PRKey, m: Memory, r: Run, ev: Event)
    requires Agrees(k, m, r) && GenerationInv(k, r) && Enabled(hold, r, ev) && Quiet(hold, k, r, ev) && ev.Pushed?
    ensures Agrees(k, After(hold, k, m, r, ev), Step(hold, k, r, ev))
  {
    var found, r' := Looked(hold, k, r, ev.key, ev.now), Step(hold, k, r, ev);
    LookAgrees(hold, k, m, r, ev.key, ev.now);
    LookedKeeps(hold, k, r, ev.key, ev.now, found);
    var m0 := Found(m, |r.s.entries|, ev.now, hold);
    if ev.key == k {
      OwnPushAgrees(hold, k, m0.(known := true), found, ev, r');
    } else {
      OtherPushIsElsewhere(hold, k, found, ev, r');
      UntouchedAgrees(k, m0, found, r');
    }
  }

  /** Arming a dispatch for `k`, as a coalesced push and a failed dispatch do. */
  lemma ScheduleAgrees(k: PRKey, m: Memory, r: Run, e: EntryState, head: string, url: string, now: Time, r': Run)
    requires Agrees(k, m, r) && GenerationInv(k, r) && k in r.s.entries && url != "" && r'.birth == r.birth
    requires e == r.s.entries[k].(lastPushAt := e.lastPushAt) && r'.s == Schedule(r.s, k, e, head, url, now)
    ensures Agrees(k, m.(newest := e.lastPushAt, pending := Some(Dispatch(head, |r.s.timers|))), r')
  {
    assert forall i: nat :: Armed(k, r', i) ==> i == |r.s.timers|;
    assert forall i: nat :: Live(k, r', i) ==> i == |r.s.timers| || (Live(k, r, i) && e.timer != Some(i));
  }

  /** Dropping it, as a leading push and a confirmation do. */
  lemma ClearAgrees(k: PRKey, m: Memory, r: Run, m': Memory, e: EntryState, r': Run)
    requires Agrees(k, m, r) && GenerationInv(k, r) && m'.known && m'.pending.None?
    requires r'.birth == if k in r.s.entries then r.birth else |r.s.timers|
    requires e.timer == Lookup(r.s.entries, k).timer && e.generation == Lookup(r.s.entries, k).generation
    requires e.lastEmitAt == (if m'.last.Some? then Some(m'.last.value.at) else None)
             && e.lastHead == (if m'.last.Some? then m'.last.value.head else "") && e.lastPushAt == m'.newest
    requires r'.s == ClearPending(r.s, k, e)
    ensures Agrees(k, m', r')
  {
    assert forall i: nat :: !Armed(k, r', i);
    assert forall i: nat :: Live(k, r', i) ==> Live(k, r, i) && e.timer != Some(i);
  }

  lemma OwnPushAgrees(hold: Time, k: PRKey, m: Memory, r: Run, ev: Event, r': Run)
    requires Agrees(k, m, r) && GenerationInv(k, r) && k in r.s.entries && ev.Pushed? && ev.key == k
    requires ev.now == r.clock && ev.url != ""
    requires var (s, lead) := PushFound(r.s, hold, k, ev.head, ev.url, ev.now);
      r' == r.(s := s, tickets := if lead then Decided(r, k, ev.head, Regular, None) else r.tickets)
    ensures Agrees(k, AfterPush(m, ev.head, ev.now, hold, |r.s.timers|), r')
  {
    var e := r.s.entries[k];
    var observed := e.(lastPushAt := Later(e.lastPushAt, ev.now));
    assert Leading(e, ev.now, hold) <==> Rested(m, ev.now, hold);
    if Repeats(m, ev.head) {
      assert r' == r;
    } else if Rested(m, ev.now, hold) {
      assert r'.s == ClearPending(r.s, k, observed);
      ClearAgrees(k, m, r, AfterPush(m, ev.head, ev.now, hold, |r.s.timers|), observed, r');
    } else {
      assert r'.s == Schedule(r.s, k, observed, ev.head, ev.url, ev.now);
      ScheduleAgrees(k, m, r, observed, ev.head, ev.url, ev.now, r');
    }
  }

  lemma OtherPushIsElsewhere(hold: Time, k: PRKey, r: Run, ev: Event, r': Run)
    requires GenerationInv(k, r) && ev.Pushed? && ev.key != k && ev.key in r.s.entries
    requires var (s, lead) := PushFound(r.s, hold, ev.key, ev.head, ev.url, ev.now);
      r'.s == s && r'.birth == r.birth
    ensures Untouched(k, r, r')
  {
    OtherPushKeeps(hold, k, r.s, ev);
    assert forall i: nat :: Armed(k, r', i) ==> Armed(k, r, i);
  }

  /** A push of another pull request changes no field of `k`'s entry or callbacks, and arms none of its own for it. */
  lemma OtherPushKeeps(hold: Time, k: PRKey, s: State, ev: Event)
    requires ev.Pushed? && ev.key != k && ev.key in s.entries
    requires forall j :: j in s.entries && s.entries[j].timer.Some? ==>
               s.entries[j].timer.value < |s.timers| && s.timers[s.entries[j].timer.value].key == j
    ensures var s' := PushFound(s, hold, ev.key, ev.head, ev.url, ev.now).0;
            && (k in s'.entries <==> k in s.entries) && (k in s.entries ==> s'.entries[k] == s.entries[k])
            && |s.timers| <= |s'.timers|
            && (forall i: nat :: i < |s.timers| && s.timers[i].key == k ==> s'.timers[i] == s.timers[i])
            && (forall i: nat :: i < |s.timers| ==>
                  s'.timers[i].key == s.timers[i].key && s'.timers[i].generation == s.timers[i].generation
                  && (s.timers[i].stopped ==> s'.timers[i].stopped))
            && (forall i: nat :: |s.timers| <= i < |s'.timers| ==> s'.timers[i].key != k)
  {
  }

  lemma ObserveAgrees(k: PRKey, m: Memory, r: Run, key: PRKey, pushAt: Option<Time>, r': Run)
    requires Agrees(k, m, r) && key in r.s.entries && r'.birth == r.birth
    requires r'.s == if pushAt.Some? then Observe(r.s, key, pushAt.value) else r.s
    ensures Agrees(k, if key == k then Seen(m, pushAt) else m, r')
  {
    assert forall i: nat :: Live(k, r', i) <==> Live(k, r, i);
    assert forall i: nat :: Armed(k, r', i) ==> Armed(k, r, i);
  }

  lemma PollAgrees(hold: Time, k: PRKey, m: Memory, r: Run, ev: Event)
    requires Agrees(k, m, r) && GenerationInv(k, r) && Enabled(hold, r, ev) && Quiet(hold, k, r, ev) && ev.Polled?
    ensures Agrees(k, After(hold, k, m, r, ev), Step(hold, k, r, ev))
  {
    var found := Found(m, |r.s.entries|, ev.now, hold);
    LookAgrees(hold, k, m, r, ev.key, ev.now);
    ObserveAgrees(k, if ev.key == k then found.(known := true) else found, Looked(hold, k, r, ev.key, ev.now), ev.key,
                  ev.pushAt, Step(hold, k, r, ev));
  }

  lemma ConfirmedAgrees(hold: Time, k: PRKey, m: Memory, r: Run, ev: Event)
    requires Agrees(k, m, r) && GenerationInv(k, r) && Enabled(hold, r, ev) && ev.Confirmed?
    ensures Agrees(k, After(hold, k, m, r, ev), Step(hold, k, r, ev))
  {
    var t, r' := r.tickets[ev.ticket], Step(hold, k, r, ev);
    if t.key == k {
      ClearAgrees(k, m, r, After(hold, k, m, r, ev),
                  Lookup(r.s.entries, k).(lastEmitAt := Some(ev.now), lastHead := t.head), r');
    } else {
      assert forall i: nat :: Armed(k, r', i) ==> Armed(k, r, i);
      UntouchedAgrees(k, m, r, r');
    }
  }

  lemma FailedAgrees(hold: Time, k: PRKey, m: Memory, r: Run, ev: Event)
    requires Agrees(k, m, r) && GenerationInv(k, r) && Enabled(hold, r, ev) && ev.DispatchFailed?
    ensures Agrees(k, After(hold, k, m, r, ev), Step(hold, k, r, ev))
  {
    var t, r' := r.tickets[ev.ticket], Step(hold, k, r, ev);
    if t.key == k && k in r.s.entries && r.s.entries[k].pendingURL == "" {
      ScheduleAgrees(k, m, r, r.s.entries[k], t.head, t.flight.value, ev.now, r');
    } else {
      assert forall i: nat :: Armed(k, r', i) ==> Armed(k, r, i);
      UntouchedAgrees(k, m, r, r');
    }
  }

  lemma FiredAgrees(hold: Time, k: PRKey, m: Memory, r: Run, ev: Event)
    requires Agrees(k, m, r) && GenerationInv(k, r) && Enabled(hold, r, ev) && ev.Fired?
    ensures Agrees(k, After(hold, k, m, r, ev), Step(hold, k, r, ev))
    ensures Takes(k, r, ev) <==> m.pending.Some? && m.pending.value.callback == ev.timer
  {
    var r' := Step(hold, k, r, ev);
    assert forall i: nat :: Armed(k, r', i) ==> Armed(k, r, i) && i != ev.timer;
    assert forall i: nat :: Live(k, r', i) ==> Live(k, r, i) && i != ev.timer;
    if r.s.timers[ev.timer].key == k {
      OnlyTheOwnerDispatches(hold, k, r, ev);
    }
    if !Takes(k, r, ev) {
      UntouchedAgrees(k, m, r, r');
    }
  }

  lemma WithdrawnAgrees(hold: Time, k: PRKey, m: Memory, r: Run, ev: Event)
    requires Agrees(k, m, r) && GenerationInv(k, r) && Enabled(hold, r, ev) && ev.Withdrawn?
    ensures Agrees(k, After(hold, k, m, r, ev), Step(hold, k, r, ev))
  {
    var r' := Step(hold, k, r, ev);
    assert forall i: nat :: Armed(k, r', i) ==> Armed(k, r, i);
  }

  lemma ClosedAgrees(hold: Time, k: PRKey, m: Memory, r: Run, ev: Event)
    requires Agrees(k, m, r) && GenerationInv(k, r) && Enabled(hold, r, ev) && ev.Closed?
    ensures Agrees(k, m, Step(hold, k, r, ev))
    ensures forall i: nat :: !Live(k, Step(hold, k, r, ev), i)
  {
    var r' := Step(hold, k, r, ev);
    ClosedArms(hold, k, r, ev);
    forall i: nat | Live(k, r', i)
      ensures false
    {
      assert Live(k, r, i);
      HandleIsStopped(hold, k, r, ev, i);
    }
    if k in r.s.entries && m.pending.Some? {
      HandleIsStopped(hold, k, r, ev, m.pending.value.callback);
    }
  }

  lemma HandleIsStopped(hold: Time, k: PRKey, r: Run, ev: Event, i: nat)
    requires Enabled(hold, r, ev) && ev.Closed? && k in r.s.entries && i < |r.s.timers|
    requires r.s.entries[k].timer == Some(i) || r.s.timers[i].stopped
    ensures Step(hold, k, r, ev).s.timers[i].stopped
  {
    if r.s.entries[k].timer == Some(i) {
      assert Some(i) in (set j | j in r.s.entries :: r.s.entries[j].timer);
    }
  }

  lemma CancelledAgrees(hold: Time, k: PRKey, m: Memory, r: Run, ev: Event)
    requires Agrees(k, m, r) && GenerationInv(k, r) && Enabled(hold, r, ev) && ev.Cancelled?
    ensures Agrees(k, m, Step(hold, k, r, ev))
  {
    var r' := Step(hold, k, r, ev);
    assert forall i: nat :: Armed(k, r', i) ==> Armed(k, r, i);
    UntouchedAgrees(k, m, r, r');
  }

  lemma StepAgrees(hold: Time, k: PRKey, m: Memory, r: Run, ev: Event)
    requires Agrees(k, m, r) && GenerationInv(k, r) && Enabled(hold, r, ev) && Quiet(hold, k, r, ev)
    ensures Agrees(k, After(hold, k, m, r, ev), Step(hold, k, r, ev))
  {
    match ev
    case Pushed(_, _, _, _) => PushAgrees(hold, k, m, r, ev);
    case Polled(_, _, _, _) => PollAgrees(hold, k, m, r, ev);
    case Confirmed(_, _) => ConfirmedAgrees(hold, k, m, r, ev);
    case DispatchFailed(_, _) => FailedAgrees(hold, k, m, r, ev);
    case Fired(_, _) => FiredAgrees(hold, k, m, r, ev);
    case Withdrawn(_, _, _) => WithdrawnAgrees(hold, k, m, r, ev);
    case Closed(_) => ClosedAgrees(hold, k, m, r, ev);
    case Cancelled(_, _) => CancelledAgrees(hold, k, m, r, ev);
    case Opened(_, _, _) =>
      assert forall i: nat :: Armed(k, Step(hold, k, r, ev), i) ==> Armed(k, r, i);
      UntouchedAgrees(k, m, r, Step(hold, k, r, ev));
  }

  lemma {:induction false} RunIsRemembered(hold: Time, k: PRKey, m: Memory, r: Run, events: seq<Event>)
    requires IsQuietRun(hold, k, r, events) && GenerationInv(k, r) && Agrees(k, m, r)
    ensures IsRun(hold, k, r, events) && GenerationInv(k, Play(hold, k, r, events))
    ensures Agrees(k, Remember(hold, k, m, r, events), Play(hold, k, r, events))
    decreases |events|
  {
    if events != [] {
      StepKeepsGenerations(hold, k, r, events[0]);
      StepAgrees(hold, k, m, r, events[0]);
      RunIsRemembered(hold, k, After(hold, k, m, r, events[0]), Step(hold, k, r, events[0]), events[1..]);
    }
  }

  /* ---------- the answers ---------- */

  /** After any quiet run, every answer about the pull request follows from what its pushes, polls and records left:
      - a push leads exactly when it repeats nothing and the pull request is rested;
      - a poll is settled exactly when it repeats the published head, and admitted exactly when its head is new,
        nothing is pending, and the pull request is rested, the poll's own push time included;
      - a callback publishes exactly when it was armed by the last push or failure that left a dispatch pending,
        and then that head. */
  lemma AnswersFollowHistory(hold: Time, k: PRKey, clock: Time, events: seq<Event>, ev: Event)
    requires IsQuietRun(hold, k, Start(clock), events) && IsRun(hold, k, Start(clock), events)
    requires var r := Play(hold, k, Start(clock), events); Enabled(hold, r, ev) && Quiet(hold, k, r, ev)
    ensures var r := Play(hold, k, Start(clock), events);
            var m := Remember(hold, k, NOTHING, Start(clock), events);
            var found := Found(m, |r.s.entries|, ev.now, hold);
            && (ev.Pushed? && ev.key == k ==>
                  (PushLeads(hold, k, r, ev) <==> !Repeats(found, ev.head) && Rested(found, ev.now, hold)))
            && (ev.Polled? && ev.key == k ==>
                  var decision := Admit(r.s, hold, k, ev.head, ev.pushAt, ev.now).1;
                  && (decision.Settled? <==> Repeats(found, ev.head))
                  && (decision.Emit? <==> ev.head != "" && !Repeats(found, ev.head) && found.pending.None?
                                          && Rested(Seen(found, ev.pushAt), ev.now, hold)))
            && (ev.Fired? ==>
                  (Takes(k, r, ev) <==> m.pending.Some? && m.pending.value.callback == ev.timer)
                  && (Takes(k, r, ev) ==>
                        var tickets := Step(hold, k, r, ev).tickets;
                        |tickets| == |r.tickets| + 1 && tickets[|r.tickets|].head == m.pending.value.head))
  {
    var r, m := Play(hold, k, Start(clock), events), Remember(hold, k, NOTHING, Start(clock), events);
    RunIsRemembered(hold, k, NOTHING, Start(clock), events);
    if ev.Pushed? && ev.key == k {
      PushAnswer(hold, k, m, r, ev);
    } else if ev.Polled? && ev.key == k {
      PollAnswer(hold, k, m, r, ev);
    } else if ev.Fired? {
      FiredAnswer(hold, k, m, r, ev);
    }
  }

  lemma PushAnswer(hold: Time, k: PRKey, m: Memory, r: Run, ev: Event)
    requires Agrees(k, m, r) && GenerationInv(k, r) && Enabled(hold, r, ev) && Quiet(hold, k, r, ev)
    requires ev.Pushed? && ev.key == k
    ensures var found := Found(m, |r.s.entries|, ev.now, hold);
            PushLeads(hold, k, r, ev) <==> !Repeats(found, ev.head) && Rested(found, ev.now, hold)
  {
    LookAgrees(hold, k, m, r, k, ev.now);
  }

  lemma PollAnswer(hold: Time, k: PRKey, m: Memory, r: Run, ev: Event)
    requires Agrees(k, m, r) && GenerationInv(k, r) && Enabled(hold, r, ev) && Quiet(hold, k, r, ev)
    requires ev.Polled? && ev.key == k
    ensures var found := Found(m, |r.s.entries|, ev.now, hold);
            var decision := Admit(r.s, hold, k, ev.head, ev.pushAt, ev.now).1;
            && (decision.Settled? <==> Repeats(found, ev.head))
            && (decision.Emit? <==> ev.head != "" && !Repeats(found, ev.head) && found.pending.None?
                                    && Rested(Seen(found, ev.pushAt), ev.now, hold))
  {
    LookAgrees(hold, k, m, r, k, ev.now);
  }

  lemma FiredAnswer(hold: Time, k: PRKey, m: Memory, r: Run, ev: Event)
    requires Agrees(k, m, r) && GenerationInv(k, r) && Enabled(hold, r, ev) && ev.Fired?
    ensures Takes(k, r, ev) <==> m.pending.Some? && m.pending.value.callback == ev.timer
    ensures Takes(k, r, ev) ==>
              var tickets := Step(hold, k, r, ev).tickets;
              |tickets| == |r.tickets| + 1 && tickets[|r.tickets|].head == m.pending.value.head
  {
    FiredAgrees(hold, k, m, r, ev);
    if Takes(k, r, ev) {
      OnlyTheOwnerDispatches(hold, k, r, ev);
    }
  }

  /** A repeated delivery of the published head is a look and nothing else, whoever watches; and unless the map is
      over its bound, every later run is what it would have been without it. */
  lemma RepeatedDeliveryIsIgnored(hold: Time, k: PRKey, r: Run, push: Event, events: seq<Event>)
    requires push.Pushed? && Enabled(hold, r, push) && push.head != "" && push.key in r.s.entries
    requires r.s.entries[push.key].lastHead == push.head && push.key in Prune(r.s.entries, push.now, hold)
    ensures Step(hold, k, r, push) == Looked(hold, k, r, push.key, push.now)
    ensures |r.s.entries| <= 4096 && IsRun(hold, k, r.(clock := push.now), events) ==>
              IsRun(hold, k, r, [push] + events)
              && Play(hold, k, r, [push] + events) == Play(hold, k, r.(clock := push.now), events)
  {
    if |r.s.entries| <= 4096 && IsRun(hold, k, r.(clock := push.now), events) {
      assert r.s.entries[push.key := r.s.entries[push.key]] == r.s.entries;
      assert Step(hold, k, r, push) == r.(clock := push.now);
      PlayPrepend(hold, k, r, push, events);
    }
  }

  /** At any time the one callback that may still run unprevented is the one the entry holds; after shutdown there is
      none, whatever happened before. */
  lemma ShutdownStopsEverything(hold: Time, k: PRKey, clock: Time, events: seq<Event>, close: Event)
    requires IsQuietRun(hold, k, Start(clock), events) && IsRun(hold, k, Start(clock), events)
    requires close.Closed? && Enabled(hold, Play(hold, k, Start(clock), events), close)
    ensures OnlyHandleLives(k, Play(hold, k, Start(clock), events))
    ensures forall i: nat :: !Live(k, Step(hold, k, Play(hold, k, Start(clock), events), close), i)
  {
    var r := Play(hold, k, Start(clock), events);
    var m := Remember(hold, k, NOTHING, Start(clock), events);
    RunIsRemembered(hold, k, NOTHING, Start(clock), events);
    ClosedAgrees(hold, k, m, r, close);
  }
}
