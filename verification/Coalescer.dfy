/**
 pkg/coalesce/coalesce.go in its own form: a map of mutable per-PR entries and a scheduler of
 one-shot callbacks. Every method is one mutex section and is proved to be the step of the same
 name in `CoalesceSpec`.
 */
module Coalescing {
  import opened Common
  import Spec = CoalesceSpec

  /** The callbacks armed so far. The handle of a callback is its position. */
  class Scheduler {
    var timers: seq<Spec.Timer>

    constructor ()
      ensures timers == []
    {
      timers := [];
    }

    method AfterFunc(key: PRKey, url: string, generation: nat, now: Time) returns (handle: nat)
      modifies this
      ensures handle == |old(timers)|
      ensures timers == old(timers) + [Spec.Timer(key, url, generation, now, false, false)]
    {
      handle := |timers|;
      timers := timers + [Spec.Timer(key, url, generation, now, false, false)];
    }

    method Stop(handle: nat)
      modifies this
      ensures timers == Spec.Stop(old(timers), Some(handle))
    {
      if handle < |timers| {
        timers := timers[handle := timers[handle].(stopped := true)];
      }
    }
  }

  /** The per-PR coalescing state. `key` is the one key the entry is filed under. */
  class Entry {
    ghost const key: PRKey
    var lastEmitAt: Option<Time>
    var lastHead: string
    var lastPushAt: Option<Time>
    var pendingHead: string
    var pendingURL: string
    var generation: nat
    var timer: Option<nat>

    constructor (ghost key: PRKey)
      ensures View() == Spec.FRESH && this.key == key
    {
      this.key := key;
      lastEmitAt, lastHead, lastPushAt := None, "", None;
      pendingHead, pendingURL, generation, timer := "", "", 0, None;
    }

    function View(): Spec.EntryState
      reads this
    {
      Spec.EntryState(lastEmitAt, lastHead, lastPushAt, pendingHead, pendingURL, generation, timer)
    }
  }

  /** `state` is the value the object stands for; `Valid` ties it to the real fields. */
  class Coalescer {
    const hold: Time
    const scheduler: Scheduler
    var entries: map<PRKey, Entry>
    ghost var state: Spec.State
    ghost var repr: set<Entry>

    /** The fields stand for `state`, except possibly the entries of the keys in `busy`;
        no two pull requests share an entry. */
    ghost predicate Agrees(busy: set<PRKey>)
      reads this, repr, scheduler
    {
      && (forall k :: k in state.entries <==> k in entries)
      && state.timers == scheduler.timers
      && (forall k :: k in entries ==> entries[k] in repr && entries[k].key == k)
      && (forall k :: k in entries && k !in busy ==> entries[k].View() == state.entries[k])
    }

    ghost predicate Valid()
      reads this, repr, scheduler
    {
      Agrees({})
    }

    constructor (hold: Time, scheduler: Scheduler)
      requires scheduler.timers == []
      ensures Valid() && state == Spec.EMPTY
      ensures this.hold == hold && this.scheduler == scheduler
    {
      this.hold := hold;
      this.scheduler := scheduler;
      this.entries := map[];
      this.state := Spec.EMPTY;
      this.repr := {};
    }

    method Push(key: PRKey, headSHA: string, url: string, now: Time) returns (publish: bool)
      requires Valid()
      modifies this, scheduler, repr
      ensures Valid() && fresh(repr - old(repr))
      ensures (state, publish) == Spec.Push(old(state), hold, key, headSHA, url, now)
    {
      var e := Open(key, now);
      publish := PushFound(key, e, headSHA, url, now);
    }

    method PushFound(key: PRKey, e: Entry, headSHA: string, url: string, now: Time) returns (publish: bool)
      requires Valid() && key in entries && entries[key] == e
      modifies this`state, scheduler, e
      ensures Valid()
      ensures (state, publish) == Spec.PushFound(old(state), hold, key, headSHA, url, now)
    {
      if headSHA != "" && headSHA == e.lastHead {
        return false;
      }
      var leading := e.lastEmitAt.None?
        || (Spec.Elapsed(e.lastPushAt, now, hold) && Spec.Elapsed(e.lastEmitAt, now, hold));
      Observe(key, e, now);
      assert e.View() == state.entries[key];
      if leading {
        ClearPending(key, e);
        return true;
      }
      Schedule(key, e, headSHA, url, now);
      return false;
    }

    method Admit(key: PRKey, headSHA: string, pushAt: Option<Time>, now: Time) returns (decision: Spec.Decision)
      requires Valid()
      modifies this, repr
      ensures Valid() && fresh(repr - old(repr))
      ensures (state, decision) == Spec.Admit(old(state), hold, key, headSHA, pushAt, now)
    {
      var e := Open(key, now);
      decision := AdmitFound(key, e, headSHA, pushAt, now);
    }

    method AdmitFound(key: PRKey, e: Entry, headSHA: string, pushAt: Option<Time>, now: Time)
      returns (decision: Spec.Decision)
      requires Valid() && key in entries && entries[key] == e
      modifies this`state, e
      ensures Valid()
      ensures (state, decision) == Spec.AdmitFound(old(state), hold, key, headSHA, pushAt, now)
    {
      if pushAt.Some? {
        Observe(key, e, pushAt.value);
      }
      if headSHA == "" {
        return Spec.Hold;
      }
      if headSHA == e.lastHead {
        return Spec.Settled;
      }
      if e.pendingURL != "" {
        return Spec.Hold;
      }
      if e.lastEmitAt.None? {
        return Spec.Emit;
      }
      if e.lastPushAt.Some? && now - e.lastPushAt.value < hold {
        return Spec.Hold;
      }
      if now - e.lastEmitAt.value < hold {
        return Spec.Hold;
      }
      return Spec.Emit;
    }

    /** Only ever advances the newest push seen for the entry. */
    method Observe(key: PRKey, e: Entry, at: Time)
      requires Valid() && key in entries && entries[key] == e
      modifies this`state, e`lastPushAt
      ensures Valid()
      ensures state == Spec.Observe(old(state), key, at)
    {
      if e.lastPushAt.None? || at > e.lastPushAt.value {
        e.lastPushAt := Some(at);
      }
      state := state.(entries := state.entries[key := e.View()]);
    }

    method MarkEmitted(key: PRKey, headSHA: string, now: Time)
      requires Valid()
      modifies this, scheduler, repr
      ensures Valid() && fresh(repr - old(repr))
      ensures state == Spec.MarkEmitted(old(state), key, headSHA, now)
    {
      var e := EntryFor(key);
      Claim(key, e, headSHA, now);
      ClaimOfFound(old(state), key, headSHA, now);
    }

    method Claim(key: PRKey, e: Entry, headSHA: string, now: Time)
      requires Valid() && key in entries && entries[key] == e
      modifies this`state, scheduler, e
      ensures Valid()
      ensures state == Spec.MarkEmitted(old(state), key, headSHA, now)
    {
      e.lastEmitAt := Some(now);
      e.lastHead := headSHA;
      OthersUntouched(key);
      ClearPending(key, e);
    }

    method Release(key: PRKey, headSHA: string)
      requires Valid()
      modifies this`state, repr
      ensures Valid()
      ensures state == Spec.Release(old(state), key, headSHA)
    {
      if key !in entries || entries[key].lastHead != headSHA {
        return;
      }
      var e := entries[key];
      e.lastEmitAt := None;
      e.lastHead := "";
      state := Spec.Release(state, key, headSHA);
    }

    method Close()
      requires Valid()
      modifies this`state, scheduler, repr
      ensures Valid()
      ensures state == Spec.Close(old(state))
    {
      StopEach();
      assert Handles(state.entries, entries.Keys) == set k | k in state.entries :: state.entries[k].timer;
      state := Spec.Close(state);
    }

    method StopEach()
      requires Valid()
      modifies scheduler, repr`timer
      ensures forall k :: k in entries ==> entries[k].timer == None
      ensures scheduler.timers == Spec.StopAll(state.timers, Handles(state.entries, entries.Keys))
    {
      ghost var was := state;
      ghost var done: set<PRKey> := {};
      var todo := entries.Keys;
      while todo != {}
        invariant todo <= entries.Keys && done <= entries.Keys
        invariant forall k :: k in entries ==> (k in done <==> k !in todo)
        invariant forall k :: k in entries ==> entries[k].timer == if k in todo then was.entries[k].timer else None
        invariant scheduler.timers == Spec.StopAll(was.timers, Handles(was.entries, done))
      {
        var key :| key in todo;
        var e := entries[key];
        OneMoreHandle(was.entries, done, key);
        assert forall k :: k in entries && k != key ==> entries[k] != e;
        StopNext(e, was.timers, Handles(was.entries, done));
        todo, done := todo - {key}, done + {key};
      }
      assert done == entries.Keys;
    }

    method StopNext(e: Entry, ghost was: seq<Spec.Timer>, ghost stopped: set<Option<nat>>)
      requires scheduler.timers == Spec.StopAll(was, stopped)
      modifies scheduler, e`timer
      ensures e.timer == None
      ensures scheduler.timers == Spec.StopAll(was, stopped + {old(e.timer)})
    {
      StopTimer(e);
      StopsOneMore(was, stopped, old(e.timer));
    }

    /** First section of `fire`: what to dispatch, or nothing when a later push superseded the timer. */
    method FireTake(key: PRKey, generation: nat) returns (headSHA: Option<string>)
      requires Valid()
      modifies this`state, repr
      ensures Valid()
      ensures (state, headSHA) == Spec.FireTake(old(state), key, generation)
    {
      if key !in entries || entries[key].generation != generation {
        return None;
      }
      var e := entries[key];
      headSHA := Some(e.pendingHead);
      e.pendingURL := "";
      e.pendingHead := "";
      e.timer := None;
      state := Spec.FireTake(state, key, generation).0;
    }

    /** The section `fire` runs when the dispatch failed: re-arm unless a push did so meanwhile. */
    method FireRearm(key: PRKey, headSHA: string, url: string, now: Time)
      requires Valid()
      modifies this`state, scheduler, repr
      ensures Valid()
      ensures state == Spec.FireRearm(old(state), key, headSHA, url, now)
    {
      if key in entries && entries[key].pendingURL == "" {
        Schedule(key, entries[key], headSHA, url, now);
      }
    }

    method Schedule(key: PRKey, e: Entry, headSHA: string, url: string, now: Time)
      requires Agrees({key}) && key in entries && entries[key] == e
      modifies this`state, scheduler, e
      ensures Valid()
      ensures state == Spec.Schedule(old(state), key, old(e.View()), headSHA, url, now)
    {
      e.pendingHead := headSHA;
      e.pendingURL := url;
      StopTimer(e);
      e.generation := e.generation + 1;
      var handle := scheduler.AfterFunc(key, url, e.generation, now);
      e.timer := Some(handle);
      OthersUntouched(key);
      Settle(key, e);
    }

    method Open(key: PRKey, now: Time) returns (e: Entry)
      requires Valid()
      modifies this`entries, this`state, this`repr
      ensures Valid() && key in entries && entries[key] == e
      ensures fresh(repr - old(repr))
      ensures state == Spec.Open(old(state), hold, key, now)
    {
      Prune(now);
      e := EntryFor(key);
    }

    method Prune(now: Time)
      requires Valid()
      modifies this`entries, this`state
      ensures Valid()
      ensures state == old(state).(entries := Spec.Prune(old(state).entries, now, hold))
    {
      if |entries| <= Spec.MAX_ENTRIES {
        assert entries.Keys == state.entries.Keys && |entries.Keys| == |state.entries.Keys|;
        return;
      }
      ghost var before, was := entries, state.entries;
      var todo := entries.Keys;
      while todo != {}
        invariant todo <= entries.Keys && state == old(state)
        invariant forall k :: k in entries ==> k in before && entries[k] == before[k]
        invariant forall k :: k in before && k !in todo ==> (k in entries <==> !Spec.Prunable(was[k], now, hold))
      {
        var key :| key in todo;
        var e := entries[key];
        assert e.View() == was[key];
        if e.pendingURL == "" && Spec.Elapsed(e.lastEmitAt, now, hold) {
          entries := entries - {key};
        }
        todo := todo - {key};
      }
      assert before.Keys == was.Keys && |before.Keys| == |was.Keys|;
      state := state.(entries := Spec.Prune(was, now, hold));
    }

    method EntryFor(key: PRKey) returns (e: Entry)
      requires Valid()
      modifies this`entries, this`state, this`repr
      ensures Valid() && key in entries && entries[key] == e
      ensures fresh(repr - old(repr)) && (e in old(repr) || fresh(e))
      ensures state == old(state).(entries := old(state).entries[key := Spec.Lookup(old(state).entries, key)])
    {
      if key in entries {
        e := entries[key];
      } else {
        e := new Entry(key);
        entries := entries[key := e];
        repr := repr + {e};
      }
      state := state.(entries := state.entries[key := e.View()]);
    }

    method StopTimer(e: Entry)
      modifies scheduler, e`timer
      ensures e.timer == None && scheduler.timers == Spec.Stop(old(scheduler.timers), old(e.timer))
    {
      if e.timer.Some? {
        scheduler.Stop(e.timer.value);
        e.timer := None;
      }
    }

    method ClearPending(key: PRKey, e: Entry)
      requires Agrees({key}) && key in entries && entries[key] == e
      modifies this`state, scheduler, e
      ensures Valid()
      ensures state == Spec.ClearPending(old(state), key, old(e.View()))
    {
      StopTimer(e);
      e.pendingURL := "";
      e.pendingHead := "";
      e.generation := e.generation + 1;
      OthersUntouched(key);
      Settle(key, e);
    }

    /** Takes what one entry and the scheduler now stand for into the state. */
    ghost method Settle(key: PRKey, e: Entry)
      requires key in entries && entries[key] == e
      requires forall k :: k in state.entries <==> k in entries
      requires forall k :: k in entries ==> entries[k] in repr && entries[k].key == k
      requires forall k :: k in entries && k != key ==> entries[k].View() == state.entries[k]
      modifies this`state
      ensures Valid()
      ensures state == Spec.State(old(state).entries[key := e.View()], scheduler.timers)
    {
      state := Spec.State(state.entries[key := e.View()], scheduler.timers);
    }

    /** Writing to one entry leaves what every other entry stands for alone. */
    twostate lemma OthersUntouched(key: PRKey)
      requires old(Agrees({key})) && key in entries
      requires unchanged(this)
      requires forall e :: e in repr && e != entries[key] ==> unchanged(e)
      ensures forall k :: k in entries ==> entries[k] in repr && entries[k].key == k
      ensures forall k :: k in entries && k != key ==> entries[k].View() == state.entries[k]
    {
    }
  }

  /** Looking an entry up before claiming it changes nothing about the claim. */
  lemma ClaimOfFound(s: Spec.State, key: PRKey, headSHA: string, now: Time)
    ensures var found := s.(entries := s.entries[key := Spec.Lookup(s.entries, key)]);
            Spec.MarkEmitted(found, key, headSHA, now) == Spec.MarkEmitted(s, key, headSHA, now)
  {
  }

  /** The timers of some of the entries. */
  function Handles(entries: map<PRKey, Spec.EntryState>, keys: set<PRKey>): set<Option<nat>> {
    set k | k in keys && k in entries :: entries[k].timer
  }

  lemma OneMoreHandle(entries: map<PRKey, Spec.EntryState>, keys: set<PRKey>, key: PRKey)
    requires key in entries
    ensures Handles(entries, keys + {key}) == Handles(entries, keys) + {entries[key].timer}
  {
    forall t | t in Handles(entries, keys) + {entries[key].timer}
      ensures t in Handles(entries, keys + {key})
    {
      if t != entries[key].timer {
        var k :| k in keys && k in entries && entries[k].timer == t;
        assert k in keys + {key};
      }
    }
  }

  lemma StopsOneMore(timers: seq<Spec.Timer>, handles: set<Option<nat>>, handle: Option<nat>)
    ensures Spec.Stop(Spec.StopAll(timers, handles), handle) == Spec.StopAll(timers, handles + {handle})
  {
  }
}
