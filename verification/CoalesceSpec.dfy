/**
 The trailing coalescer as a state machine on values: one function per mutex section of
 pkg/coalesce/coalesce.go. `Coalescer.dfy` proves the imperative form against these functions;
 `CoalesceRuns.dfy` and `CoalesceBurst.dfy` prove what they mean over whole runs.
 */
module CoalesceSpec {
  import opened Common

  const MAX_ENTRIES: nat := 4096

  datatype Decision = Emit | Hold | Settled

  datatype EntryState = EntryState(
    lastEmitAt: Option<Time>,
    lastHead: string,
    lastPushAt: Option<Time>,
    pendingHead: string,
    pendingURL: string,
    generation: nat,
    timer: Option<nat>)

  const FRESH := EntryState(None, "", None, "", "", 0, None)

  /** One callback handed to the scheduler. Stopping it sets `stopped`, but a callback whose Stop
      lost the race may still run; `ran` is set once it has, or certainly never will. */
  datatype Timer = Timer(key: PRKey, url: string, generation: nat, armedAt: Time, stopped: bool, ran: bool)

  datatype State = State(entries: map<PRKey, EntryState>, timers: seq<Timer>)

  const EMPTY := State(map[], [])

  function Lookup(entries: map<PRKey, EntryState>, key: PRKey): EntryState {
    if key in entries then entries[key] else FRESH
  }

  /** `now.Sub(since) >= hold`, where a zero `since` is further away than any hold window. */
  predicate Elapsed(since: Option<Time>, now: Time, hold: Time) {
    since.None? || now - since.value >= hold
  }

  function Later(known: Option<Time>, at: Time): Option<Time> {
    if known.None? || at > known.value then Some(at) else known
  }

  predicate Prunable(e: EntryState, now: Time, hold: Time) {
    e.pendingURL == "" && Elapsed(e.lastEmitAt, now, hold)
  }

  function Prune(entries: map<PRKey, EntryState>, now: Time, hold: Time): map<PRKey, EntryState> {
    if |entries| <= MAX_ENTRIES then entries
    else map k | k in entries && !Prunable(entries[k], now, hold) :: entries[k]
  }

  function Stop(timers: seq<Timer>, handle: Option<nat>): (stopped: seq<Timer>)
    ensures |stopped| == |timers|
  {
    if handle.Some? && handle.value < |timers|
    then timers[handle.value := timers[handle.value].(stopped := true)]
    else timers
  }

  function ClearPending(s: State, key: PRKey, e: EntryState): State {
    State(s.entries[key := e.(pendingHead := "", pendingURL := "", generation := e.generation + 1, timer := None)],
          Stop(s.timers, e.timer))
  }

  function Schedule(s: State, key: PRKey, e: EntryState, head: string, url: string, now: Time): State {
    var generation := e.generation + 1;
    State(s.entries[key := e.(pendingHead := head, pendingURL := url, generation := generation,
                              timer := Some(|s.timers|))],
          Stop(s.timers, e.timer) + [Timer(key, url, generation, now, false, false)])
  }

  predicate Leading(e: EntryState, now: Time, hold: Time) {
    e.lastEmitAt.None? || (Elapsed(e.lastPushAt, now, hold) && Elapsed(e.lastEmitAt, now, hold))
  }

  /** The start of `Push` and `Admit`: prune, then look the entry up, creating it on first use. */
  function Open(s: State, hold: Time, key: PRKey, now: Time): State {
    var entries := Prune(s.entries, now, hold);
    s.(entries := entries[key := Lookup(entries, key)])
  }

  function Observe(s: State, key: PRKey, at: Time): State
    requires key in s.entries
  {
    s.(entries := s.entries[key := s.entries[key].(lastPushAt := Later(s.entries[key].lastPushAt, at))])
  }

  function Push(s: State, hold: Time, key: PRKey, head: string, url: string, now: Time): (State, bool) {
    PushFound(Open(s, hold, key, now), hold, key, head, url, now)
  }

  function PushFound(found: State, hold: Time, key: PRKey, head: string, url: string, now: Time): (State, bool)
    requires key in found.entries
  {
    var e := found.entries[key];
    if head != "" && head == e.lastHead then (found, false)
    else
      var seen := Observe(found, key, now);
      if Leading(e, now, hold) then (ClearPending(seen, key, seen.entries[key]), true)
      else (Schedule(seen, key, seen.entries[key], head, url, now), false)
  }

  function AdmitDecision(e: EntryState, head: string, now: Time, hold: Time): Decision {
    if head == "" then Hold
    else if head == e.lastHead then Settled
    else if e.pendingURL != "" then Hold
    else if e.lastEmitAt.None? then Emit
    else if e.lastPushAt.Some? && now - e.lastPushAt.value < hold then Hold
    else if now - e.lastEmitAt.value < hold then Hold
    else Emit
  }

  function Admit(s: State, hold: Time, key: PRKey, head: string, pushAt: Option<Time>, now: Time): (State, Decision) {
    AdmitFound(Open(s, hold, key, now), hold, key, head, pushAt, now)
  }

  function AdmitFound(found: State, hold: Time, key: PRKey, head: string, pushAt: Option<Time>, now: Time): (State,
                      Decision)
    requires key in found.entries
  {
    var seen := if pushAt.Some? then Observe(found, key, pushAt.value) else found;
    (seen, AdmitDecision(seen.entries[key], head, now, hold))
  }

  function MarkEmitted(s: State, key: PRKey, head: string, now: Time): State {
    ClearPending(s, key, Lookup(s.entries, key).(lastEmitAt := Some(now), lastHead := head))
  }

  predicate Releases(s: State, key: PRKey, head: string) {
    key in s.entries && s.entries[key].lastHead == head
  }

  function Release(s: State, key: PRKey, head: string): State {
    if Releases(s, key, head)
    then s.(entries := s.entries[key := s.entries[key].(lastEmitAt := None, lastHead := "")])
    else s
  }

  /** The callback is the one the entry is waiting for; any other was superseded. */
  predicate Current(s: State, key: PRKey, generation: nat) {
    key in s.entries && s.entries[key].generation == generation
  }

  /** First section of `fire`: take the pending dispatch, or nothing when superseded. */
  function FireTake(s: State, key: PRKey, generation: nat): (State, Option<string>) {
    if Current(s, key, generation) then
      var e := s.entries[key];
      (s.(entries := s.entries[key := e.(pendingHead := "", pendingURL := "", timer := None)]), Some(e.pendingHead))
    else (s, None)
  }

  /** The section `fire` runs after a failed dispatch. */
  function FireRearm(s: State, key: PRKey, head: string, url: string, now: Time): State {
    if key in s.entries && s.entries[key].pendingURL == ""
    then Schedule(s, key, s.entries[key], head, url, now)
    else s
  }

  function StopAll(timers: seq<Timer>, handles: set<Option<nat>>): (stopped: seq<Timer>)
    ensures |stopped| == |timers|
  {
    seq(|timers|, i requires 0 <= i < |timers| =>
      if Some(i) in handles then timers[i].(stopped := true) else timers[i])
  }

  /** `Close` stops every scheduled timer; pending heads and generations stay as they are. */
  function Close(s: State): State {
    State(map k | k in s.entries :: s.entries[k].(timer := None),
          StopAll(s.timers, set k | k in s.entries :: s.entries[k].timer))
  }
}
