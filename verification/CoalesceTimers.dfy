/**
 Timer generations over whole runs, with `fire` split into its sections and callbacks that may run after
 they were stopped: who may take the pending dispatch, and when a callback of an earlier entry can.
 */
module CoalesceTimers {
  import opened Common
  import opened CoalesceSpec
  import opened CoalesceRuns

  /** A callback of the present entry of `k` that has not run and carries the current generation. */
  predicate Armed(k: PRKey, r: Run, i: nat) {
    Waiting(k, r, i) && Current(r.s, k, r.s.timers[i].generation)
  }

  ghost predicate WiredTickets(r: Run) {
    forall i :: 0 <= i < |r.tickets| && r.tickets[i].flight.Some? ==> r.tickets[i].flight.value != ""
  }

  /** Urls are real, and an entry's timer handle names one of its own callbacks. */
  ghost predicate Wired(r: Run) {
    && (forall i :: 0 <= i < |r.s.timers| ==> r.s.timers[i].url != "")
    && WiredTickets(r)
    && (forall j :: j in r.s.entries && r.s.entries[j].timer.Some? ==>
          r.s.entries[j].timer.value < |r.s.timers| && r.s.timers[r.s.entries[j].timer.value].key == j)
  }

  /** At most one callback can take the pending dispatch, and only when a dispatch is pending; until shutdown
      there is one whenever a dispatch is pending, the entry holds its handle and nobody stopped it. */
  ghost predicate OneOwner(k: PRKey, r: Run) {
    && (forall i: nat, j: nat :: Armed(k, r, i) && Armed(k, r, j) ==> i == j)
    && ((exists i: nat :: Armed(k, r, i)) ==> k in r.s.entries && r.s.entries[k].pendingURL != "")
    && (!r.closed && k in r.s.entries && r.s.entries[k].pendingURL != "" ==> exists i: nat :: Armed(k, r, i))
    && (!r.closed ==> forall i: nat :: Armed(k, r, i) ==> r.s.entries[k].timer == Some(i) && !r.s.timers[i].stopped)
  }

  ghost predicate GenerationsBound(k: PRKey, r: Run) {
    && r.birth <= |r.s.timers|
    && (k in r.s.entries ==> forall i: nat :: Waiting(k, r, i) ==>
          r.s.timers[i].generation <= r.s.entries[k].generation)
  }

  /** Every callback of `k` still to run belongs to its present entry. */
  ghost predicate NoLeftovers(k: PRKey, r: Run) {
    forall i: nat :: i < |r.s.timers| && r.s.timers[i].key == k && !r.s.timers[i].ran ==>
      k in r.s.entries && r.birth <= i
  }

  ghost predicate GenerationInv(k: PRKey, r: Run) {
    Wired(r) && GenerationsBound(k, r) && NoLeftovers(k, r) && OneOwner(k, r)
  }

  /** The event does not prune the entry of `k` while one of its callbacks, though stopped, may still run. */
  ghost predicate Quiet(hold: Time, k: PRKey, r: Run, ev: Event) {
    k in r.s.entries && k !in Kept(hold, r.s, ev) ==>
      forall i :: 0 <= i < |r.s.timers| && r.s.timers[i].key == k ==> r.s.timers[i].ran
  }

  ghost predicate IsQuietRun(hold: Time, k: PRKey, r: Run, events: seq<Event>)
    decreases |events|
  {
    events == [] || (Enabled(hold, r, events[0]) && Quiet(hold, k, r, events[0])
                     && IsQuietRun(hold, k, Step(hold, k, r, events[0]), events[1..]))
  }

  /** The invariant only looks at the state, the birth mark, the shutdown flag and the tickets' urls. */
  lemma CopyKeeps(k: PRKey, r: Run, r': Run)
    requires GenerationInv(k, r) && r'.s == r.s && r'.birth == r.birth && r'.closed == r.closed && WiredTickets(r')
    ensures GenerationInv(k, r')
  {
    assert forall i: nat :: Armed(k, r', i) <==> Armed(k, r, i);
  }

  /** Dropping the pending dispatch of `key`, as a leading push and `MarkEmitted` do. */
  lemma ClearKeeps(k: PRKey, r: Run, key: PRKey, e: EntryState, r': Run)
    requires GenerationInv(k, r) && WiredTickets(r') && r'.closed == r.closed
    requires e.timer == Lookup(r.s.entries, key).timer && e.generation == Lookup(r.s.entries, key).generation
    requires r'.s == ClearPending(r.s, key, e)
    requires r'.birth == if key == k && k !in r.s.entries then |r.s.timers| else r.birth
    ensures GenerationInv(k, r')
  {
    if key == k {
      ClearOwnKeeps(k, r, e, r');
    } else {
      assert forall i: nat :: Armed(k, r', i) <==> Armed(k, r, i);
    }
  }

  lemma ClearOwnKeeps(k: PRKey, r: Run, e: EntryState, r': Run)
    requires GenerationInv(k, r) && WiredTickets(r') && r'.closed == r.closed
    requires e.timer == Lookup(r.s.entries, k).timer && e.generation == Lookup(r.s.entries, k).generation
    requires r'.s == ClearPending(r.s, k, e)
    requires r'.birth == if k !in r.s.entries then |r.s.timers| else r.birth
    ensures GenerationInv(k, r')
  {
    assert forall i: nat :: !Armed(k, r', i);
  }

  /** Arming a dispatch for `key`, as a coalesced push and a failed dispatch do. */
  lemma ScheduleKeeps(k: PRKey, r: Run, key: PRKey, e: EntryState, head: string, url: string, now: Time, r': Run)
    requires GenerationInv(k, r) && WiredTickets(r') && r'.closed == r.closed && r'.birth == r.birth
    requires key in r.s.entries && url != ""
    requires e.timer == r.s.entries[key].timer && e.generation == r.s.entries[key].generation
    requires r'.s == Schedule(r.s, key, e, head, url, now)
    ensures GenerationInv(k, r')
  {
    if key == k {
      assert Armed(k, r', |r.s.timers|);
      assert forall i: nat :: Armed(k, r', i) ==> i == |r.s.timers|;
    } else {
      assert forall i: nat :: Armed(k, r', i) <==> Armed(k, r, i);
    }
  }

  lemma LookedKeeps(hold: Time, k: PRKey, r: Run, key: PRKey, now: Time, r': Run)
    requires GenerationInv(k, r) && r' == Looked(hold, k, r, key, now)
    requires k in r.s.entries && k !in Prune(r.s.entries, now, hold) ==>
      forall i :: 0 <= i < |r.s.timers| && r.s.timers[i].key == k ==> r.s.timers[i].ran
    ensures GenerationInv(k, r')
  {
    assert forall i: nat :: Armed(k, r', i) <==> Armed(k, r, i);
  }

  /** Advancing the newest push seen leaves timers and pending dispatches alone. */
  lemma ObserveKeeps(k: PRKey, r: Run, key: PRKey, at: Time, r': Run)
    requires GenerationInv(k, r) && key in r.s.entries && WiredTickets(r')
    requires r'.s == Observe(r.s, key, at) && r'.birth == r.birth && r'.closed == r.closed
    ensures GenerationInv(k, r')
  {
    assert forall i: nat :: Armed(k, r', i) <==> Armed(k, r, i);
  }

  lemma PushedKeeps(hold: Time, k: PRKey, r: Run, ev: Event)
    requires GenerationInv(k, r) && Enabled(hold, r, ev) && Quiet(hold, k, r, ev) && ev.Pushed?
    ensures GenerationInv(k, Step(hold, k, r, ev))
  {
    var found, r' := Looked(hold, k, r, ev.key, ev.now), Step(hold, k, r, ev);
    LookedKeeps(hold, k, r, ev.key, ev.now, found);
    var e := found.s.entries[ev.key];
    if ev.head == "" || ev.head != e.lastHead {
      var seen := found.(s := Observe(found.s, ev.key, ev.now));
      ObserveKeeps(k, found, ev.key, ev.now, seen);
      if Leading(e, ev.now, hold) {
        ClearKeeps(k, seen, ev.key, seen.s.entries[ev.key], r');
      } else {
        ScheduleKeeps(k, seen, ev.key, seen.s.entries[ev.key], ev.head, ev.url, ev.now, r');
      }
    } else {
      CopyKeeps(k, found, r');
    }
  }

  lemma PolledKeeps(hold: Time, k: PRKey, r: Run, ev: Event)
    requires GenerationInv(k, r) && Enabled(hold, r, ev) && Quiet(hold, k, r, ev) && ev.Polled?
    ensures GenerationInv(k, Step(hold, k, r, ev))
  {
    var found, r' := Looked(hold, k, r, ev.key, ev.now), Step(hold, k, r, ev);
    LookedKeeps(hold, k, r, ev.key, ev.now, found);
    if ev.pushAt.Some? {
      ObserveKeeps(k, found, ev.key, ev.pushAt.value, r');
    } else {
      CopyKeeps(k, found, r');
    }
  }

  lemma ConfirmedKeeps(hold: Time, k: PRKey, r: Run, ev: Event)
    requires GenerationInv(k, r) && Enabled(hold, r, ev) && ev.Confirmed?
    ensures GenerationInv(k, Step(hold, k, r, ev))
  {
    var t := r.tickets[ev.ticket];
    ClearKeeps(k, r, t.key, Lookup(r.s.entries, t.key).(lastEmitAt := Some(ev.now), lastHead := t.head),
               Step(hold, k, r, ev));
  }

  lemma DispatchFailedKeeps(hold: Time, k: PRKey, r: Run, ev: Event)
    requires GenerationInv(k, r) && Enabled(hold, r, ev) && ev.DispatchFailed?
    ensures GenerationInv(k, Step(hold, k, r, ev))
  {
    var t, r' := r.tickets[ev.ticket], Step(hold, k, r, ev);
    if t.key in r.s.entries && r.s.entries[t.key].pendingURL == "" {
      ScheduleKeeps(k, r, t.key, r.s.entries[t.key], t.head, t.flight.value, ev.now, r');
    } else {
      assert forall i: nat :: Armed(k, r', i) <==> Armed(k, r, i);
    }
  }

  /** A callback of another pull request, or one that is superseded, leaves the owner of `k` alone. */
  lemma SupersededKeeps(hold: Time, k: PRKey, r: Run, ev: Event)
    requires GenerationInv(k, r) && Enabled(hold, r, ev) && ev.Fired? && !Armed(k, r, ev.timer)
    ensures GenerationInv(k, Step(hold, k, r, ev))
  {
    var r' := Step(hold, k, r, ev);
    assert k in r.s.entries ==> r'.s.entries[k] == r.s.entries[k];
    assert forall i: nat :: Armed(k, r', i) <==> Armed(k, r, i);
  }

  lemma OwnerKeeps(hold: Time, k: PRKey, r: Run, ev: Event)
    requires GenerationInv(k, r) && Enabled(hold, r, ev) && ev.Fired? && Armed(k, r, ev.timer)
    ensures GenerationInv(k, Step(hold, k, r, ev))
  {
    var r', fired := Step(hold, k, r, ev), ev.timer;
    assert forall i: nat :: Armed(k, r', i) ==> Armed(k, r, i) && i != fired;
  }

  lemma FiredKeeps(hold: Time, k: PRKey, r: Run, ev: Event)
    requires GenerationInv(k, r) && Enabled(hold, r, ev) && ev.Fired?
    ensures GenerationInv(k, Step(hold, k, r, ev))
  {
    if Armed(k, r, ev.timer) {
      OwnerKeeps(hold, k, r, ev);
    } else {
      SupersededKeeps(hold, k, r, ev);
    }
  }

  lemma CancelledKeeps(hold: Time, k: PRKey, r: Run, ev: Event)
    requires GenerationInv(k, r) && Enabled(hold, r, ev) && ev.Cancelled?
    ensures GenerationInv(k, Step(hold, k, r, ev))
  {
    var r', cancelled := Step(hold, k, r, ev), ev.timer;
    assert forall i: nat :: Armed(k, r', i) <==> Armed(k, r, i) && i != cancelled;
  }

  lemma WithdrawnKeeps(hold: Time, k: PRKey, r: Run, ev: Event)
    requires GenerationInv(k, r) && Enabled(hold, r, ev) && ev.Withdrawn?
    ensures GenerationInv(k, Step(hold, k, r, ev))
  {
    var r' := Step(hold, k, r, ev);
    assert forall i: nat :: Armed(k, r', i) <==> Armed(k, r, i);
  }

  lemma ClosedKeeps(hold: Time, k: PRKey, r: Run, ev: Event)
    requires GenerationInv(k, r) && Enabled(hold, r, ev) && ev.Closed?
    ensures GenerationInv(k, Step(hold, k, r, ev))
  {
    ClosedArms(hold, k, r, ev);
  }

  /** Shutdown drops the handles and leaves who could take the pending dispatch. */
  lemma ClosedArms(hold: Time, k: PRKey, r: Run, ev: Event)
    requires Enabled(hold, r, ev) && ev.Closed?
    ensures var r' := Step(hold, k, r, ev);
            && r'.closed && r'.birth == r.birth && r'.tickets == r.tickets && |r'.s.timers| == |r.s.timers|
            && r'.s.entries.Keys == r.s.entries.Keys
            && (forall j :: j in r.s.entries ==> r'.s.entries[j] == r.s.entries[j].(timer := None))
            && (forall i: nat :: i < |r.s.timers| ==>
                  r'.s.timers[i] == r.s.timers[i].(stopped := r'.s.timers[i].stopped))
            && (forall i: nat :: Armed(k, r', i) <==> Armed(k, r, i))
  {
  }

  lemma TimersSurvive(hold: Time, k: PRKey, r: Run, ev: Event, i: nat)
    requires Enabled(hold, r, ev) && (ev.Pushed? || ev.Polled?) && i < |r.s.timers|
    ensures var timers := Step(hold, k, r, ev).s.timers;
            i < |timers| && timers[i].key == r.s.timers[i].key && timers[i].ran == r.s.timers[i].ran
  {
  }

  /** Pruning the entry of `k` under a callback that may still run leaves that callback behind. */
  lemma UnquietLeavesACallback(hold: Time, k: PRKey, r: Run, ev: Event)
    requires GenerationInv(k, r) && Enabled(hold, r, ev) && !Quiet(hold, k, r, ev)
    ensures !NoLeftovers(k, Step(hold, k, r, ev))
  {
    assert ev.Pushed? || ev.Polled?;
    var i: nat :| i < |r.s.timers| && r.s.timers[i].key == k && !r.s.timers[i].ran;
    TimersSurvive(hold, k, r, ev, i);
    assert k in Step(hold, k, r, ev).s.entries ==> Step(hold, k, r, ev).birth == |r.s.timers|;
  }

  /** A step keeps one owner per pending dispatch and no callback behind exactly when it is quiet. */
  lemma {:induction false} StepKeepsGenerationsIff(hold: Time, k: PRKey, r: Run, ev: Event)
    requires GenerationInv(k, r) && Enabled(hold, r, ev)
    ensures GenerationInv(k, Step(hold, k, r, ev)) <==> Quiet(hold, k, r, ev)
  {
    if Quiet(hold, k, r, ev) {
      StepKeepsGenerations(hold, k, r, ev);
    } else {
      UnquietLeavesACallback(hold, k, r, ev);
    }
  }

  lemma {:induction false} StepKeepsGenerations(hold: Time, k: PRKey, r: Run, ev: Event)
    requires GenerationInv(k, r) && Enabled(hold, r, ev) && Quiet(hold, k, r, ev)
    ensures GenerationInv(k, Step(hold, k, r, ev))
  {
    match ev
    case Pushed(_, _, _, _) => PushedKeeps(hold, k, r, ev);
    case Polled(_, _, _, _) => PolledKeeps(hold, k, r, ev);
    case Confirmed(_, _) => ConfirmedKeeps(hold, k, r, ev);
    case Fired(_, _) => FiredKeeps(hold, k, r, ev);
    case Cancelled(_, _) => CancelledKeeps(hold, k, r, ev);
    case DispatchFailed(_, _) => DispatchFailedKeeps(hold, k, r, ev);
    case Opened(_, _, _) => CopyKeeps(k, r, Step(hold, k, r, ev));
    case Withdrawn(_, _, _) => WithdrawnKeeps(hold, k, r, ev);
    case Closed(_) => ClosedKeeps(hold, k, r, ev);
  }

  /** No decision about `k`, confirmed or not, came from a callback of an earlier entry. */
  ghost predicate NoStrays(k: PRKey, r: Run) {
    && (forall i :: 0 <= i < |r.tickets| && r.tickets[i].key == k ==> !r.tickets[i].cause.Stray?)
    && (forall i :: 0 <= i < |r.log| && r.log[i].Record? ==> !r.log[i].cause.Stray?)
  }

  /** In every run that never prunes the entry of `k` under a callback still to run, a pending dispatch has
      exactly one owner and no record is stray. */
  lemma {:induction false} QuietRunsKeepOneOwner(hold: Time, k: PRKey, r: Run, events: seq<Event>)
    requires IsQuietRun(hold, k, r, events) && GenerationInv(k, r) && NoStrays(k, r)
    ensures IsRun(hold, k, r, events)
    ensures GenerationInv(k, Play(hold, k, r, events)) && NoStrays(k, Play(hold, k, r, events))
    decreases |events|
  {
    if events != [] {
      StepKeepsGenerations(hold, k, r, events[0]);
      QuietRunsKeepOneOwner(hold, k, Step(hold, k, r, events[0]), events[1..]);
    }
  }

  lemma OneOwnerAlways(hold: Time, k: PRKey, clock: Time, events: seq<Event>)
    requires IsQuietRun(hold, k, Start(clock), events)
    ensures IsRun(hold, k, Start(clock), events)
    ensures var r := Play(hold, k, Start(clock), events); OneOwner(k, r) && NoStrays(k, r)
  {
    QuietRunsKeepOneOwner(hold, k, Start(clock), events);
  }

  /** A callback of `k` dispatches exactly when a dispatch is pending and it is its owner; it publishes the
      pending head, and nothing is left for any other callback. Superseded callbacks change nothing. */
  lemma {:induction false} OnlyTheOwnerDispatches(hold: Time, k: PRKey, r: Run, ev: Event)
    requires GenerationInv(k, r) && Enabled(hold, r, ev) && ev.Fired? && r.s.timers[ev.timer].key == k
    ensures var r' := Step(hold, k, r, ev);
      if Armed(k, r, ev.timer)
      then && r.s.entries[k].pendingURL != ""
           && r'.tickets == Decided(r, k, r.s.entries[k].pendingHead, Regular, Some(r.s.timers[ev.timer].url))
           && r'.s.entries[k].pendingURL == "" && (forall i: nat :: !Armed(k, r', i))
      else r'.tickets == r.tickets && r'.s.entries == r.s.entries
  {
    FiredKeeps(hold, k, r, ev);
    var r', fired := Step(hold, k, r, ev), ev.timer;
    if Armed(k, r, fired) {
      assert forall i: nat :: Armed(k, r', i) ==> Armed(k, r, i) && i != fired;
    }
  }

  /* ---------- decisions ---------- */

  /** A push of `k` other than a repeated delivery of the head published last. */
  predicate Moves(k: PRKey, r: Run, ev: Event) {
    ev.Pushed? && ev.key == k && !(ev.head != "" && ev.head == Lookup(r.s.entries, k).lastHead)
  }

  predicate PushLeads(hold: Time, k: PRKey, r: Run, ev: Event) {
    ev.Pushed? && ev.key == k && Push(r.s, hold, k, ev.head, ev.url, ev.now).1
  }

  predicate PollIsAdmitted(hold: Time, k: PRKey, r: Run, ev: Event) {
    ev.Polled? && ev.key == k && Admit(r.s, hold, k, ev.head, ev.pushAt, ev.now).1.Emit?
  }

  predicate Takes(k: PRKey, r: Run, ev: Event) {
    ev.Fired? && ev.timer < |r.s.timers| && Armed(k, r, ev.timer)
  }

  /** The coalescer decides to publish a head of `k`. */
  predicate Decides(hold: Time, k: PRKey, r: Run, ev: Event) {
    PushLeads(hold, k, r, ev) || PollIsAdmitted(hold, k, r, ev) || Takes(k, r, ev)
  }

  /** Decision `n` about `k` is being sent: it is open, nothing was recorded since, and nothing is pending. */
  predicate Sending(k: PRKey, r: Run, n: nat) {
    && n < |r.tickets|
    && (var t := r.tickets[n]; t.open && t.key == k && t.cause.Regular? && t.seen == Records(r.log))
    && k in r.s.entries && r.s.entries[k].pendingURL == ""
  }

  /** Every decision leaves the entry as if nothing were going on. */
  lemma DecisionIsSending(hold: Time, k: PRKey, r: Run, ev: Event)
    requires Enabled(hold, r, ev) && Decides(hold, k, r, ev)
    ensures Sending(k, Step(hold, k, r, ev), |r.tickets|)
    ensures ev.Pushed? || ev.Polled? ==>
      Step(hold, k, r, ev).tickets == Decided(r, k, ev.head, Regular, None)
  {
  }
}
