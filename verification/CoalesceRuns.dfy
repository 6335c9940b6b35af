/**
 Whole runs of the coalescer, watched from one pull request `k`.

 A run interleaves the mutex sections of pkg/coalesce/coalesce.go in any order: webhook pushes, polls,
 confirmations (`MarkEmitted`), releases, timer callbacks in their two sections, and shutdown, for any
 number of pull requests. A decision to publish (`Push` true, `Admit` Emit, a callback that takes the
 pending dispatch) opens a ticket; confirming the ticket is what makes a record. Between the two,
 anything may happen. No callback runs before its hold or twice. One that was stopped may still run;
 that its Stop came in time, so that it never will, is an event of its own.
 */
module CoalesceRuns {
  import opened Common
  import opened CoalesceSpec

  datatype Event =
    | Pushed(key: PRKey, head: string, url: string, now: Time)
    | Opened(key: PRKey, head: string, now: Time)
    | Polled(key: PRKey, head: string, pushAt: Option<Time>, now: Time)
    | Confirmed(ticket: nat, now: Time)
    | Withdrawn(key: PRKey, head: string, now: Time)
    | Fired(timer: nat, now: Time)
    | Cancelled(timer: nat, now: Time)
    | DispatchFailed(ticket: nat, now: Time)
    | Closed(now: Time)

  /** Why a record may follow its predecessor early.
      - Overtaken: another record for the pull request was confirmed between decision and confirmation.
      - Stray: taken by a callback armed for an earlier, since pruned, entry of the same key.
      - Bypassed: a webhook action that never asks the coalescer (webhook_handler.go:295). */
  datatype Cause = Regular | Overtaken | Stray | Bypassed

  /** `seen` is how many records `k` had at the decision; `flight` is the url of a trailing dispatch. */
  datatype Ticket = Ticket(key: PRKey, head: string, seen: nat, cause: Cause, flight: Option<string>, open: bool)

  /** What the history of `k` remembers: confirmed records and releases that withdrew a claim. */
  datatype Mark = Record(at: Time, head: string, cause: Cause) | Released(at: Time)

  /** `birth` is the first timer that can belong to the present entry of `k`. */
  datatype Run = Run(s: State, clock: Time, tickets: seq<Ticket>, log: seq<Mark>, birth: nat, closed: bool)

  function Records(log: seq<Mark>): nat {
    if log == [] then 0 else Records(log[..|log| - 1]) + if log[|log| - 1].Record? then 1 else 0
  }

  function Start(clock: Time): Run {
    Run(EMPTY, clock, [], [], 0, false)
  }

  predicate OpenTicket(r: Run, i: nat) {
    i < |r.tickets| && r.tickets[i].open
  }

  /** What the environment may do next: the clock never goes back, the webhook only delivers pushes with
      a url (webhook_handler.go:163), a ticket is used once, a callback runs once and never early. */
  predicate Enabled(hold: Time, r: Run, ev: Event) {
    && ev.now >= r.clock
    && (ev.Pushed? ==> ev.url != "")
    && (ev.Confirmed? ==> OpenTicket(r, ev.ticket))
    && (ev.DispatchFailed? ==> OpenTicket(r, ev.ticket) && r.tickets[ev.ticket].flight.Some?)
    && (ev.Fired? ==> ev.timer < |r.s.timers| && !r.s.timers[ev.timer].ran
                      && ev.now >= r.s.timers[ev.timer].armedAt + hold)
    && (ev.Cancelled? ==> ev.timer < |r.s.timers| && r.s.timers[ev.timer].stopped && !r.s.timers[ev.timer].ran)
  }

  /** The entries that outlive the pruning an event does. */
  function Kept(hold: Time, s: State, ev: Event): map<PRKey, EntryState> {
    if ev.Pushed? || ev.Polled? then Prune(s.entries, ev.now, hold) else s.entries
  }

  function Advance(hold: Time, k: PRKey, r: Run, ev: Event, s: State, tickets: seq<Ticket>, log: seq<Mark>): Run {
    Run(s, ev.now, tickets, log,
        if k in s.entries && k !in Kept(hold, r.s, ev) then |r.s.timers| else r.birth,
        r.closed || ev.Closed?)
  }

  function CauseOf(t: Ticket, log: seq<Mark>): Cause {
    if t.cause.Regular? && t.seen != Records(log) then Overtaken else t.cause
  }

  function Decided(r: Run, key: PRKey, head: string, cause: Cause, flight: Option<string>): seq<Ticket> {
    r.tickets + [Ticket(key, head, Records(r.log), cause, flight, true)]
  }

  function Shut(r: Run, i: nat): seq<Ticket>
    requires i < |r.tickets|
  {
    r.tickets[i := r.tickets[i].(open := false)]
  }

  /** `s` with timer `i` spent: it has run, or its Stop came in time. */
  function Ran(s: State, i: nat): State
    requires i < |s.timers|
  {
    s.(timers := s.timers[i := s.timers[i].(ran := true)])
  }

  function Step(hold: Time, k: PRKey, r: Run, ev: Event): Run
    requires Enabled(hold, r, ev)
  {
    match ev
    case Pushed(key, head, url, now) =>
      var (s, lead) := Push(r.s, hold, key, head, url, now);
      Advance(hold, k, r, ev, s, if lead then Decided(r, key, head, Regular, None) else r.tickets, r.log)
    case Opened(key, head, now) =>
      Advance(hold, k, r, ev, r.s, Decided(r, key, head, Bypassed, None), r.log)
    case Polled(key, head, pushAt, now) =>
      var (s, decision) := Admit(r.s, hold, key, head, pushAt, now);
      Advance(hold, k, r, ev, s, if decision.Emit? then Decided(r, key, head, Regular, None) else r.tickets, r.log)
    case Confirmed(i, now) =>
      var t := r.tickets[i];
      Advance(hold, k, r, ev, MarkEmitted(r.s, t.key, t.head, now), Shut(r, i),
              if t.key == k then r.log + [Record(now, t.head, CauseOf(t, r.log))] else r.log)
    case Withdrawn(key, head, now) =>
      Advance(hold, k, r, ev, Release(r.s, key, head), r.tickets,
              if key == k && Releases(r.s, key, head) then r.log + [Released(now)] else r.log)
    case Fired(i, now) =>
      var t := r.s.timers[i];
      var (s, head) := FireTake(r.s, t.key, t.generation);
      Advance(hold, k, r, ev, Ran(s, i),
              if head.Some?
              then Decided(r, t.key, head.value, if i < r.birth then Stray else Regular, Some(t.url))
              else r.tickets,
              r.log)
    case Cancelled(i, now) =>
      Advance(hold, k, r, ev, Ran(r.s, i), r.tickets, r.log)
    case DispatchFailed(i, now) =>
      var t := r.tickets[i];
      Advance(hold, k, r, ev, FireRearm(r.s, t.key, t.head, t.flight.value, now), Shut(r, i), r.log)
    case Closed(now) =>
      Advance(hold, k, r, ev, Close(r.s), r.tickets, r.log)
  }

  /** The runs the environment can produce. */
  ghost predicate IsRun(hold: Time, k: PRKey, r: Run, events: seq<Event>)
    decreases |events|
  {
    events == [] || (Enabled(hold, r, events[0]) && IsRun(hold, k, Step(hold, k, r, events[0]), events[1..]))
  }

  function Play(hold: Time, k: PRKey, r: Run, events: seq<Event>): Run
    requires IsRun(hold, k, r, events)
    decreases |events|
  {
    if events == [] then r else Play(hold, k, Step(hold, k, r, events[0]), events[1..])
  }

  lemma PlayPrepend(hold: Time, k: PRKey, r: Run, ev: Event, events: seq<Event>)
    requires Enabled(hold, r, ev) && IsRun(hold, k, Step(hold, k, r, ev), events)
    ensures IsRun(hold, k, r, [ev] + events)
    ensures Play(hold, k, r, [ev] + events) == Play(hold, k, Step(hold, k, r, ev), events)
  {
    assert ([ev] + events)[1..] == events;
  }

  /* ---------- the invariant ---------- */

  /** Nothing published for `k` still forbids a record at `at`. */
  predicate Free(log: seq<Mark>, at: Time, hold: Time) {
    log == [] || log[|log| - 1].Released? || log[|log| - 1].at + hold <= at
  }

  ghost predicate Ordered(log: seq<Mark>, clock: Time) {
    && (forall i, j :: 0 <= i <= j < |log| ==> log[i].at <= log[j].at)
    && (log != [] ==> log[|log| - 1].at <= clock)
  }

  /** A regular record directly after another one is at least the hold window younger. */
  ghost predicate Spaced(log: seq<Mark>, hold: Time) {
    forall i :: 0 < i < |log| && log[i].Record? && log[i].cause.Regular? ==> Free(log[..i], log[i].at, hold)
  }

  ghost predicate EntryInv(hold: Time, k: PRKey, r: Run) {
    if k in r.s.entries && r.s.entries[k].lastEmitAt.Some?
    then r.log != [] && r.log[|r.log| - 1].Record? && r.log[|r.log| - 1].at == r.s.entries[k].lastEmitAt.value
    else Free(r.log, r.clock, hold)
  }

  /** An open decision nobody overtook may be confirmed at any later time. */
  ghost predicate TicketInv(hold: Time, k: PRKey, r: Run) {
    forall i :: 0 <= i < |r.tickets| ==>
      && r.tickets[i].seen <= Records(r.log)
      && (r.tickets[i].open && r.tickets[i].key == k && CauseOf(r.tickets[i], r.log).Regular? ==>
            Free(r.log, r.clock, hold))
  }

  /** Timer `i` was armed for the present entry of `k` and has not run. */
  predicate Waiting(k: PRKey, r: Run, i: nat) {
    r.birth <= i < |r.s.timers| && r.s.timers[i].key == k && !r.s.timers[i].ran
  }

  ghost predicate TimerInv(hold: Time, k: PRKey, r: Run) {
    k in r.s.entries ==> forall i: nat :: Waiting(k, r, i) ==>
      && r.s.timers[i].generation <= r.s.entries[k].generation
      && (r.s.timers[i].generation == r.s.entries[k].generation ==> Free(r.log, r.s.timers[i].armedAt + hold, hold))
  }

  ghost predicate Inv(hold: Time, k: PRKey, r: Run) {
    && hold > 0 && r.birth <= |r.s.timers|
    && Ordered(r.log, r.clock) && Spaced(r.log, hold)
    && EntryInv(hold, k, r) && TicketInv(hold, k, r) && TimerInv(hold, k, r)
  }

  lemma Appended(log: seq<Mark>, m: Mark, clock: Time, hold: Time)
    requires Ordered(log, clock) && Spaced(log, hold) && clock <= m.at
    requires m.Record? && m.cause.Regular? ==> Free(log, m.at, hold)
    ensures Ordered(log + [m], m.at) && Spaced(log + [m], hold)
    ensures Records(log + [m]) == Records(log) + if m.Record? then 1 else 0
  {
    var longer := log + [m];
    assert longer[..|log|] == log;
    assert forall i :: 0 < i < |log| ==> longer[..i] == log[..i];
  }

  /** `r` after the shared start of `Push` and `Admit`. */
  function Looked(hold: Time, k: PRKey, r: Run, key: PRKey, now: Time): Run {
    var s := Open(r.s, hold, key, now);
    r.(s := s, clock := now,
       birth := if k in s.entries && k !in Prune(r.s.entries, now, hold) then |r.s.timers| else r.birth)
  }

  lemma LookedKeepsInv(hold: Time, k: PRKey, r: Run, key: PRKey, now: Time)
    requires Inv(hold, k, r) && r.clock <= now
    ensures Inv(hold, k, Looked(hold, k, r, key, now))
  {
  }

  /** What `Push` does after the lookup, seen from `k`. */
  lemma FoundKeepsInv(hold: Time, k: PRKey, r: Run, key: PRKey, head: string, url: string, r': Run)
    requires Inv(hold, k, r) && key in r.s.entries
    requires var (s, lead) := PushFound(r.s, hold, key, head, url, r.clock);
      r' == r.(s := s, tickets := if lead then Decided(r, key, head, Regular, None) else r.tickets)
    ensures Inv(hold, k, r')
  {
    var e := r.s.entries[key];
    if head == "" || head != e.lastHead {
      if Leading(e, r.clock, hold) {
        LeadKeepsInv(hold, k, r, key, head, url, r');
      } else {
        HoldKeepsInv(hold, k, r, key, head, url, r');
      }
    }
  }

  lemma LeadKeepsInv(hold: Time, k: PRKey, r: Run, key: PRKey, head: string, url: string, r': Run)
    requires Inv(hold, k, r) && key in r.s.entries && Leading(r.s.entries[key], r.clock, hold)
    requires var seen := Observe(r.s, key, r.clock);
      r' == r.(s := ClearPending(seen, key, seen.entries[key]), tickets := Decided(r, key, head, Regular, None))
    ensures Inv(hold, k, r')
  {
  }

  lemma HoldKeepsInv(hold: Time, k: PRKey, r: Run, key: PRKey, head: string, url: string, r': Run)
    requires Inv(hold, k, r) && key in r.s.entries && !Leading(r.s.entries[key], r.clock, hold)
    requires var seen := Observe(r.s, key, r.clock);
      r' == r.(s := Schedule(seen, key, seen.entries[key], head, url, r.clock))
    ensures Inv(hold, k, r')
  {
  }

  lemma PushedKeepsInv(hold: Time, k: PRKey, r: Run, ev: Event)
    requires Inv(hold, k, r) && Enabled(hold, r, ev) && ev.Pushed?
    ensures Inv(hold, k, Step(hold, k, r, ev))
  {
    LookedKeepsInv(hold, k, r, ev.key, ev.now);
    FoundKeepsInv(hold, k, Looked(hold, k, r, ev.key, ev.now), ev.key, ev.head, ev.url, Step(hold, k, r, ev));
  }

  lemma OpenedKeepsInv(hold: Time, k: PRKey, r: Run, ev: Event)
    requires Inv(hold, k, r) && Enabled(hold, r, ev) && ev.Opened?
    ensures Inv(hold, k, Step(hold, k, r, ev))
  {
  }

  lemma PolledKeepsInv(hold: Time, k: PRKey, r: Run, ev: Event)
    requires Inv(hold, k, r) && Enabled(hold, r, ev) && ev.Polled?
    ensures Inv(hold, k, Step(hold, k, r, ev))
  {
  }

  lemma OwnRecordKeepsInv(hold: Time, k: PRKey, r: Run, ev: Event)
    requires Inv(hold, k, r) && Enabled(hold, r, ev) && ev.Confirmed? && r.tickets[ev.ticket].key == k
    ensures Inv(hold, k, Step(hold, k, r, ev))
  {
    var t := r.tickets[ev.ticket];
    Appended(r.log, Record(ev.now, t.head, CauseOf(t, r.log)), r.clock, hold);
  }

  lemma OtherRecordKeepsInv(hold: Time, k: PRKey, r: Run, ev: Event)
    requires Inv(hold, k, r) && Enabled(hold, r, ev) && ev.Confirmed? && r.tickets[ev.ticket].key != k
    ensures Inv(hold, k, Step(hold, k, r, ev))
  {
  }

  lemma OwnReleaseKeepsInv(hold: Time, k: PRKey, r: Run, ev: Event)
    requires Inv(hold, k, r) && Enabled(hold, r, ev) && ev.Withdrawn? && ev.key == k && Releases(r.s, k, ev.head)
    ensures Inv(hold, k, Step(hold, k, r, ev))
  {
    Appended(r.log, Released(ev.now), r.clock, hold);
  }

  lemma OtherReleaseKeepsInv(hold: Time, k: PRKey, r: Run, ev: Event)
    requires Inv(hold, k, r) && Enabled(hold, r, ev) && ev.Withdrawn?
    requires !(ev.key == k && Releases(r.s, k, ev.head))
    ensures Inv(hold, k, Step(hold, k, r, ev))
  {
    var r' := Step(hold, k, r, ev);
    assert r'.log == r.log && r'.tickets == r.tickets && r'.s.timers == r.s.timers && r'.birth == r.birth;
    assert k in r'.s.entries <==> k in r.s.entries;
    assert k in r.s.entries ==> r'.s.entries[k] == r.s.entries[k];
  }

  lemma FiredKeepsInv(hold: Time, k: PRKey, r: Run, ev: Event)
    requires Inv(hold, k, r) && Enabled(hold, r, ev) && ev.Fired?
    ensures Inv(hold, k, Step(hold, k, r, ev))
  {
  }

  lemma CancelledKeepsInv(hold: Time, k: PRKey, r: Run, ev: Event)
    requires Inv(hold, k, r) && Enabled(hold, r, ev) && ev.Cancelled?
    ensures Inv(hold, k, Step(hold, k, r, ev))
  {
  }

  lemma DispatchFailedKeepsInv(hold: Time, k: PRKey, r: Run, ev: Event)
    requires Inv(hold, k, r) && Enabled(hold, r, ev) && ev.DispatchFailed?
    ensures Inv(hold, k, Step(hold, k, r, ev))
  {
  }

  lemma ClosedKeepsInv(hold: Time, k: PRKey, r: Run, ev: Event)
    requires Inv(hold, k, r) && Enabled(hold, r, ev) && ev.Closed?
    ensures Inv(hold, k, Step(hold, k, r, ev))
  {
  }

  lemma StepKeepsInv(hold: Time, k: PRKey, r: Run, ev: Event)
    requires Inv(hold, k, r) && Enabled(hold, r, ev)
    ensures Inv(hold, k, Step(hold, k, r, ev))
  {
    match ev
    case Pushed(_, _, _, _) => PushedKeepsInv(hold, k, r, ev);
    case Opened(_, _, _) => OpenedKeepsInv(hold, k, r, ev);
    case Polled(_, _, _, _) => PolledKeepsInv(hold, k, r, ev);
    case Confirmed(i, _) =>
      if r.tickets[i].key == k { OwnRecordKeepsInv(hold, k, r, ev); } else { OtherRecordKeepsInv(hold, k, r, ev); }
    case Withdrawn(_, _, _) =>
      if ev.key == k && Releases(r.s, k, ev.head) {
        OwnReleaseKeepsInv(hold, k, r, ev);
      } else {
        OtherReleaseKeepsInv(hold, k, r, ev);
      }
    case Fired(_, _) => FiredKeepsInv(hold, k, r, ev);
    case Cancelled(_, _) => CancelledKeepsInv(hold, k, r, ev);
    case DispatchFailed(_, _) => DispatchFailedKeepsInv(hold, k, r, ev);
    case Closed(_) => ClosedKeepsInv(hold, k, r, ev);
  }

  lemma {:induction false} RunKeepsInv(hold: Time, k: PRKey, r: Run, events: seq<Event>)
    requires Inv(hold, k, r) && IsRun(hold, k, r, events)
    ensures Inv(hold, k, Play(hold, k, r, events))
    decreases |events|
  {
    if events != [] {
      StepKeepsInv(hold, k, r, events[0]);
      RunKeepsInv(hold, k, Step(hold, k, r, events[0]), events[1..]);
    }
  }

  /* ---------- the rate bound ---------- */

  predicate Within(m: Mark, lo: Time, hi: Time) {
    lo <= m.at <= hi
  }

  function RecordsIn(log: seq<Mark>, lo: Time, hi: Time): nat {
    if log == [] then 0
    else
      var m := log[|log| - 1];
      RecordsIn(log[..|log| - 1], lo, hi) + if m.Record? && Within(m, lo, hi) then 1 else 0
  }

  /** The record follows another one by less than the hold window, without a release in between. */
  predicate Early(log: seq<Mark>, m: Mark, hold: Time) {
    m.Record? && !Free(log, m.at, hold)
  }

  /** Releases that withdrew a claim, and early records. */
  function ExcusesIn(log: seq<Mark>, hold: Time, lo: Time, hi: Time): nat {
    if log == [] then 0
    else
      var rest, m := log[..|log| - 1], log[|log| - 1];
      ExcusesIn(rest, hold, lo, hi) + if (m.Released? || Early(rest, m, hold)) && Within(m, lo, hi) then 1 else 0
  }

  /** Counting from the window's start, every unexcused record after the first costs one hold window. */
  lemma {:induction false} SpacedRecordsAreFew(log: seq<Mark>, hold: Time, lo: Time, hi: Time)
    requires hold > 0 && lo <= hi
    requires forall i, j :: 0 <= i <= j < |log| ==> log[i].at <= log[j].at
    ensures log != [] && log[|log| - 1].at <= hi ==>
      (RecordsIn(log, lo, hi) - ExcusesIn(log, hold, lo, hi) - if log[|log| - 1].Record? then 1 else 0) * hold
        <= Max(0, log[|log| - 1].at - lo)
    ensures (RecordsIn(log, lo, hi) - ExcusesIn(log, hold, lo, hi) - 1) * hold <= hi - lo
  {
    if log != [] {
      var rest, m := log[..|log| - 1], log[|log| - 1];
      SpacedRecordsAreFew(rest, hold, lo, hi);
      var before := RecordsIn(rest, lo, hi) - ExcusesIn(rest, hold, lo, hi);
      if m.at < lo {
        NoneBefore(rest, hold, lo, hi);
      } else if m.at <= hi && rest != [] && rest[|rest| - 1].at < lo {
        NoneBefore(rest, hold, lo, hi);
      }
      assert (before - 1) * hold == before * hold - hold;
      assert (before + 1) * hold == before * hold + hold;
    }
  }

  lemma {:induction false} NoneBefore(log: seq<Mark>, hold: Time, lo: Time, hi: Time)
    requires forall i :: 0 <= i < |log| ==> log[i].at < lo
    ensures RecordsIn(log, lo, hi) == 0 && ExcusesIn(log, hold, lo, hi) == 0
  {
    if log != [] {
      NoneBefore(log[..|log| - 1], hold, lo, hi);
    }
  }

  lemma SmallerFactor(a: int, b: int, hold: int)
    requires hold > 0 && a * hold < b * hold
    ensures a < b
  {
  }

  lemma QuotientBound(a: int, hold: int, span: int)
    requires hold > 0 && a * hold <= span
    ensures a <= span / hold
  {
    assert (span / hold + 1) * hold == span / hold * hold + hold > span;
    SmallerFactor(a, span / hold + 1, hold);
  }

  lemma EarlyIsIrregular(log: seq<Mark>, hold: Time)
    requires Spaced(log, hold)
    ensures forall i :: 0 <= i < |log| && Early(log[..i], log[i], hold) ==> !log[i].cause.Regular?
  {
  }

  lemma SpacedRecordsAreBounded(log: seq<Mark>, clock: Time, hold: Time, lo: Time, span: nat)
    requires hold > 0 && Ordered(log, clock)
    ensures RecordsIn(log, lo, lo + span) <= 1 + span / hold + ExcusesIn(log, hold, lo, lo + span)
  {
    SpacedRecordsAreFew(log, hold, lo, lo + span);
    QuotientBound(RecordsIn(log, lo, lo + span) - ExcusesIn(log, hold, lo, lo + span) - 1, hold, span);
  }

  /** In every run and every window, the records of one pull request number at most one plus one per full hold
      window, plus the releases and the early records inside the window; and only an irregular record is ever
      early. Pruning never adds to that on its own. */
  lemma RateBound(hold: Time, k: PRKey, clock: Time, events: seq<Event>, lo: Time, span: nat)
    requires hold > 0 && IsRun(hold, k, Start(clock), events)
    ensures var log := Play(hold, k, Start(clock), events).log;
      && RecordsIn(log, lo, lo + span) <= 1 + span / hold + ExcusesIn(log, hold, lo, lo + span)
      && forall i :: 0 <= i < |log| && Early(log[..i], log[i], hold) ==> !log[i].cause.Regular?
  {
    RunKeepsInv(hold, k, Start(clock), events);
    var r := Play(hold, k, Start(clock), events);
    EarlyIsIrregular(r.log, hold);
    SpacedRecordsAreBounded(r.log, r.clock, hold, lo, span);
  }
}
