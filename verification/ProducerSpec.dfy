/**
 The three producers of commands for one head - the poll loop and the unreviewed scanner through their shared
 publisher (pkg/watcher.go), and the trigger executor (pkg/command/trigger_pr_review_executor.go) - as
 steps on the two ledgers they share. Checking and publishing is one step.
 */
module ProducerSpec {
  import opened Common
  import opened LedgerSpec
  import Coalesce = CoalesceSpec
  import PollSpec
  import TaskKeys

  type Trust = PollSpec.Trust

  /** A command of the trigger executor with the answers it meets; `found` is false when the command, its URL
      or the pull request cannot be read. */
  datatype Trigger = Trigger(
    found: bool, filtered: bool, trust: Trust, webhook: bool, force: bool, mechanicalAuthor: bool,
    reviews: Option<seq<Review>>, sendOk: bool)

  datatype Request =
    | Create(trust: Trust, sendOk: bool)
    | LabelOverride(trust: Trust, sendOk: bool)
    | MechanicalOverride(sendOk: bool)
    | Command(trigger: Trigger)
    | Elsewhere(coalescer: Coalesce.State)

  /** A request for one head at one instant. `Elsewhere` is any section of the coalescer that publishes nothing
      through the ledgers: pushes, polls, confirmations and callbacks, whose runs are those of `CoalesceRuns`. */
  datatype Step = Step(head: HeadKey, taskID: string, at: Time, request: Request)

  /** The key of the step's head in both ledgers. */
  function Key(s: Step): string {
    TaskKeys.HeadString(s.head)
  }

  /** What was published, when, and whether it was forced in spite of readable reviews without a verdict. */
  datatype Published =
    | ReviewAt(head: HeadKey, taskID: string, at: Time, unanswered: bool)
    | OverrideAt(head: HeadKey, taskID: string, at: Time)
  {
    /** Where the ledgers keep it. */
    function Key(): string {
      TaskKeys.HeadString(head)
    }
  }

  datatype World = World(overrides: Bucket, publishes: Bucket, coalescer: Coalesce.State, history: seq<Published>)

  const NEW_WORLD := World(map[], map[], Coalesce.EMPTY, [])

  function PublishReview(w: World, s: Step, unanswered: bool): World {
    w.(publishes := Recorded(w.publishes, Key(s), s.taskID, s.at),
       history := w.history + [ReviewAt(s.head, s.taskID, s.at, unanswered)])
  }

  function PublishOverride(w: World, s: Step): World {
    w.(overrides := Recorded(w.overrides, Key(s), s.taskID, s.at),
       history := w.history + [OverrideAt(s.head, s.taskID, s.at)])
  }

  /** A webhook command of a mechanical-override author is left to the poll loop. */
  predicate Deferred(t: Trigger) {
    t.webhook && !t.force && t.mechanicalAuthor
  }

  predicate Unanswered(t: Trigger, sha: string, isReviewer: string -> bool) {
    t.force && t.reviews.Some? && !HasVerdict(t.reviews.value, sha, isReviewer)
  }

  function RunTrigger(w: World, s: Step, t: Trigger, isReviewer: string -> bool): World {
    if !t.found || t.filtered || !t.trust.Trusted? then w
    else if Deferred(t) then w.(coalescer := Coalesce.Release(w.coalescer, s.head.pr, s.head.sha))
    else if Suppressed(w.overrides, Key(s), s.at) then w
    else if t.force && !Guard(w.publishes, Key(s), s.at, Lookup(t.reviews, s.head.sha, isReviewer)).Publishes() then w
    else if !t.sendOk then w
    else PublishReview(w, s, Unanswered(t, s.head.sha, isReviewer))
  }

  function Perform(w: World, s: Step, isReviewer: string -> bool): World {
    match s.request
    case Create(trust, sendOk) =>
      if Suppressed(w.overrides, Key(s), s.at) || trust.TrustError? || !sendOk then w else PublishReview(w, s, false)
    case LabelOverride(trust, sendOk) => if trust.Trusted? && sendOk then PublishOverride(w, s) else w
    case MechanicalOverride(sendOk) => if sendOk then PublishOverride(w, s) else w
    case Command(t) => RunTrigger(w, s, t, isReviewer)
    case Elsewhere(coalescer) => w.(coalescer := coalescer)
  }

  function Run(steps: seq<Step>, isReviewer: string -> bool): World {
    if steps == [] then NEW_WORLD
    else Perform(Run(steps[..|steps| - 1], isReviewer), steps[|steps| - 1], isReviewer)
  }

  /** The steps happen in the order of the clock. */
  predicate InOrder(steps: seq<Step>) {
    forall i, j :: 0 <= i < j < |steps| ==> steps[i].at <= steps[j].at
  }

  /* ---------- the ledgers mirror the history ---------- */

  function OverrideCalls(history: seq<Published>): seq<Call> {
    if history == [] then []
    else
      var n := |history| - 1;
      var past := OverrideCalls(history[..n]);
      if history[n].OverrideAt? then past + [Call(history[n].Key(), history[n].taskID, history[n].at)] else past
  }

  function ReviewCalls(history: seq<Published>): seq<Call> {
    if history == [] then []
    else
      var n := |history| - 1;
      var past := ReviewCalls(history[..n]);
      if history[n].ReviewAt? then past + [Call(history[n].Key(), history[n].taskID, history[n].at)] else past
  }

  predicate Dated(history: seq<Published>, now: Time) {
    (forall i, j :: 0 <= i < j < |history| ==> history[i].at <= history[j].at)
    && (forall i :: 0 <= i < |history| ==> history[i].at <= now)
  }

  predicate KeyOverridden(history: seq<Published>, key: string, since: Time) {
    exists i :: 0 <= i < |history| && history[i].OverrideAt? && history[i].Key() == key && since <= history[i].at
  }

  predicate KeyReviewed(history: seq<Published>, key: string, since: Time) {
    exists i :: 0 <= i < |history| && history[i].ReviewAt? && history[i].Key() == key && since <= history[i].at
  }

  lemma RecordedWithinMore(log: seq<Call>, c: Call, key: string, since: Time)
    ensures RecordedWithin(log + [c], key, since)
            <==> RecordedWithin(log, key, since) || (c.key == key && since <= c.at)
  {
    if RecordedWithin(log, key, since) {
      var i :| 0 <= i < |log| && log[i].key == key && since <= log[i].at;
      assert (log + [c])[i] == log[i];
    }
    assert (log + [c])[|log|] == c;
  }

  lemma KeySinceOneMore(history: seq<Published>, e: Published, key: string, since: Time)
    ensures KeyOverridden(history + [e], key, since)
            <==> KeyOverridden(history, key, since) || (e.OverrideAt? && e.Key() == key && since <= e.at)
    ensures KeyReviewed(history + [e], key, since)
            <==> KeyReviewed(history, key, since) || (e.ReviewAt? && e.Key() == key && since <= e.at)
  {
    assert (history + [e])[|history|] == e;
    assert forall i :: 0 <= i < |history| ==> (history + [e])[i] == history[i];
  }

  lemma CallsOfOneMore(history: seq<Published>, e: Published)
    ensures var call := Call(e.Key(), e.taskID, e.at);
            && OverrideCalls(history + [e]) == OverrideCalls(history) + (if e.OverrideAt? then [call] else [])
            && ReviewCalls(history + [e]) == ReviewCalls(history) + (if e.ReviewAt? then [call] else [])
  {
    assert (history + [e])[..|history|] == history;
  }

  lemma TimelyOneMore(log: seq<Call>, c: Call, before: Time)
    requires Timely(log, before) && before <= c.at
    ensures Timely(log, c.at) && Timely(log + [c], c.at)
  {
  }

  lemma TimelyLater(log: seq<Call>, before: Time, now: Time)
    requires Timely(log, before) && before <= now
    ensures Timely(log, now)
  {
  }

  lemma {:induction false} CallsAreTimely(history: seq<Published>, now: Time)
    requires Dated(history, now)
    ensures Timely(OverrideCalls(history), now) && Timely(ReviewCalls(history), now)
  {
    if history != [] {
      var before, e := history[..|history| - 1], history[|history| - 1];
      assert history == before + [e];
      CallsAreTimely(before, e.at);
      CallsOfOneMore(before, e);
      TimelyOneMore(OverrideCalls(before), Call(e.Key(), e.taskID, e.at), e.at);
      TimelyOneMore(ReviewCalls(before), Call(e.Key(), e.taskID, e.at), e.at);
      NoneMore(OverrideCalls(before));
      NoneMore(ReviewCalls(before));
      TimelyLater(OverrideCalls(history), e.at, now);
      TimelyLater(ReviewCalls(history), e.at, now);
    }
  }

  lemma NoneMore(log: seq<Call>)
    ensures log + [] == log
  {
  }

  lemma {:induction false} CallsMirror(history: seq<Published>, key: string, since: Time)
    ensures RecordedWithin(OverrideCalls(history), key, since) <==> KeyOverridden(history, key, since)
    ensures RecordedWithin(ReviewCalls(history), key, since) <==> KeyReviewed(history, key, since)
  {
    if history != [] {
      var before, e := history[..|history| - 1], history[|history| - 1];
      var call := Call(e.Key(), e.taskID, e.at);
      assert history == before + [e];
      CallsMirror(before, key, since);
      CallsOfOneMore(before, e);
      RecordedWithinMore(OverrideCalls(before), call, key, since);
      RecordedWithinMore(ReviewCalls(before), call, key, since);
      NoneMore(OverrideCalls(before));
      NoneMore(ReviewCalls(before));
      KeySinceOneMore(before, e, key, since);
    }
  }

  /** The ledgers are what recording the history leaves, pruning included. */
  predicate Mirrors(w: World, now: Time) {
    && Dated(w.history, now)
    && w.overrides == Ledger(map[], OverrideCalls(w.history))
    && w.publishes == Ledger(map[], ReviewCalls(w.history))
  }

  lemma LedgerOfOneMore(log: seq<Call>, c: Call)
    ensures Ledger(map[], log + [c]) == Recorded(Ledger(map[], log), c.key, c.taskID, c.at)
  {
    assert (log + [c])[..|log|] == log;
  }

  lemma DatedOneMore(history: seq<Published>, e: Published, before: Time)
    requires Dated(history, before) && before <= e.at
    ensures Dated(history + [e], e.at)
  {
  }

  lemma PublishReviewMirrors(w: World, s: Step, unanswered: bool, before: Time)
    requires Mirrors(w, before) && before <= s.at
    ensures Mirrors(PublishReview(w, s, unanswered), s.at)
  {
    var e := ReviewAt(s.head, s.taskID, s.at, unanswered);
    CallsOfOneMore(w.history, e);
    LedgerOfOneMore(ReviewCalls(w.history), Call(Key(s), s.taskID, s.at));
    DatedOneMore(w.history, e, before);
  }

  lemma PublishOverrideMirrors(w: World, s: Step, before: Time)
    requires Mirrors(w, before) && before <= s.at
    ensures Mirrors(PublishOverride(w, s), s.at)
  {
    var e := OverrideAt(s.head, s.taskID, s.at);
    CallsOfOneMore(w.history, e);
    LedgerOfOneMore(OverrideCalls(w.history), Call(Key(s), s.taskID, s.at));
    DatedOneMore(w.history, e, before);
  }

  lemma PerformMirrors(w: World, s: Step, isReviewer: string -> bool, before: Time)
    requires Mirrors(w, before) && before <= s.at
    ensures Mirrors(Perform(w, s, isReviewer), s.at)
  {
    PerformCases(w, s, isReviewer);
    var w' := Perform(w, s, isReviewer);
    if w' == PublishOverride(w, s) {
      PublishOverrideMirrors(w, s, before);
    } else if SameLedgers(w', w) {
      assert Mirrors(w', before);
    } else {
      PublishReviewMirrors(w, s, w' == PublishReview(w, s, true), before);
    }
  }

  /** A step publishes one override, one review, or nothing. */
  lemma PerformCases(w: World, s: Step, isReviewer: string -> bool)
    ensures var w' := Perform(w, s, isReviewer);
            w' == PublishOverride(w, s) || w' == PublishReview(w, s, false) || w' == PublishReview(w, s, true)
            || SameLedgers(w', w)
  {
  }

  /** Two worlds that differ in the coalescer at most. */
  predicate SameLedgers(v: World, w: World) {
    v == w.(coalescer := v.coalescer)
  }

  lemma {:induction false} RunMirrors(steps: seq<Step>, isReviewer: string -> bool, now: Time)
    requires InOrder(steps) && (forall i :: 0 <= i < |steps| ==> steps[i].at <= now)
    ensures Mirrors(Run(steps, isReviewer), now)
  {
    if steps != [] {
      var n := |steps| - 1;
      RunMirrors(steps[..n], isReviewer, steps[n].at);
      PerformMirrors(Run(steps[..n], isReviewer), steps[n], isReviewer, steps[n].at);
    }
  }

  /* ---------- when a step publishes ---------- */

  lemma LedgersAnswerForHistory(w: World, key: string, now: Time, l: Lookup)
    requires Mirrors(w, now)
    ensures Suppressed(w.overrides, key, now) <==> KeyOverridden(w.history, key, now - HOUR)
    ensures !Guard(w.publishes, key, now, l).Publishes()
            <==> KeyReviewed(w.history, key, now - HOUR) && l.reviews.Some?
                 && !HasVerdict(l.reviews.value, l.sha, l.isReviewer)
  {
    CallsAreTimely(w.history, now);
    CallsMirror(w.history, key, now - HOUR);
    SuppressedIffRecordedWithinTheHour(OverrideCalls(w.history), key, now);
    RefusedIffInFlight(ReviewCalls(w.history), key, now, l);
  }

  lemma LastStep(steps: seq<Step>, s: Step, isReviewer: string -> bool)
    requires InOrder(steps + [s])
    ensures Mirrors(Run(steps, isReviewer), s.at)
    ensures Run(steps + [s], isReviewer) == Perform(Run(steps, isReviewer), s, isReviewer)
  {
    assert (steps + [s])[..|steps|] == steps && (steps + [s])[|steps|] == s;
    assert forall i :: 0 <= i < |steps| ==> (steps + [s])[i] == steps[i];
    RunMirrors(steps, isReviewer, s.at);
  }

  /* ---------- by head ---------- */

  predicate OverriddenSince(history: seq<Published>, head: HeadKey, since: Time) {
    exists i :: 0 <= i < |history| && history[i].OverrideAt? && history[i].head == head && since <= history[i].at
  }

  predicate ReviewedSince(history: seq<Published>, head: HeadKey, since: Time) {
    exists i :: 0 <= i < |history| && history[i].ReviewAt? && history[i].head == head && since <= history[i].at
  }

  /** Heads as GitHub has them: no separator of the key in an owner, a repository or a commit. */
  predicate LegalHead(h: HeadKey) {
    TaskKeys.Legal(TaskKeys.Review(h))
  }

  predicate LegalSteps(steps: seq<Step>) {
    forall i :: 0 <= i < |steps| ==> LegalHead(steps[i].head)
  }

  predicate LegalHistory(history: seq<Published>) {
    forall i :: 0 <= i < |history| ==> LegalHead(history[i].head)
  }

  lemma {:induction false} RunsAreLegal(steps: seq<Step>, isReviewer: string -> bool)
    requires LegalSteps(steps)
    ensures LegalHistory(Run(steps, isReviewer).history)
  {
    if steps != [] {
      var n := |steps| - 1;
      RunsAreLegal(steps[..n], isReviewer);
      PerformCases(Run(steps[..n], isReviewer), steps[n], isReviewer);
    }
  }

  /** Two heads have two keys, so a ledger knows of a head what was published for it and nothing else. */
  lemma KeysTellHeadsApart(history: seq<Published>, head: HeadKey, since: Time)
    requires LegalHistory(history) && LegalHead(head)
    ensures KeyOverridden(history, TaskKeys.HeadString(head), since) <==> OverriddenSince(history, head, since)
    ensures KeyReviewed(history, TaskKeys.HeadString(head), since) <==> ReviewedSince(history, head, since)
  {
    forall i | 0 <= i < |history|
      ensures history[i].Key() == TaskKeys.HeadString(head) <==> history[i].head == head
    {
      TaskKeys.KeysAreDistinct(TaskKeys.Review(history[i].head), TaskKeys.Review(head));
    }
  }

  lemma HistoryAnswers(steps: seq<Step>, s: Step, isReviewer: string -> bool, l: Lookup)
    requires InOrder(steps + [s]) && LegalSteps(steps + [s])
    ensures var w, since := Run(steps, isReviewer), s.at - HOUR;
            && (Suppressed(w.overrides, Key(s), s.at) <==> OverriddenSince(w.history, s.head, since))
            && (!Guard(w.publishes, Key(s), s.at, l).Publishes()
                <==> ReviewedSince(w.history, s.head, since) && l.reviews.Some?
                     && !HasVerdict(l.reviews.value, l.sha, l.isReviewer))
    ensures Run(steps + [s], isReviewer) == Perform(Run(steps, isReviewer), s, isReviewer)
  {
    LastStep(steps, s, isReviewer);
    assert (steps + [s])[|steps|] == s;
    assert forall i :: 0 <= i < |steps| ==> (steps + [s])[i] == steps[i];
    RunsAreLegal(steps, isReviewer);
    LedgersAnswerForHistory(Run(steps, isReviewer), Key(s), s.at, l);
    KeysTellHeadsApart(Run(steps, isReviewer).history, s.head, s.at - HOUR);
  }

  /** After any run, a review the poll loop or the scanner asks for is published exactly when no override of that
      very head was published in the last hour and neither the trust check nor the send fails. */
  lemma {:induction false} CreatePublishesIff(steps: seq<Step>, s: Step, isReviewer: string -> bool)
    requires InOrder(steps + [s]) && LegalSteps(steps + [s]) && s.request.Create?
    ensures var w, w' := Run(steps, isReviewer), Run(steps + [s], isReviewer);
            if !OverriddenSince(w.history, s.head, s.at - HOUR) && !s.request.trust.TrustError? && s.request.sendOk
            then w'.history == w.history + [ReviewAt(s.head, s.taskID, s.at, false)]
            else w' == w
  {
    HistoryAnswers(steps, s, isReviewer, Lookup(None, "", isReviewer));
  }

  /** The executor gets as far as the ledgers: it can read the command, the author is listed and trusted, and it does
      not leave the head to the poll loop. */
  predicate Considered(t: Trigger) {
    t.found && !t.filtered && t.trust == PollSpec.Trusted && (t.webhook && t.mechanicalAuthor ==> t.force)
  }

  /** A forced command, with readable reviews and none by a reviewer at the head. */
  predicate AsksAgain(t: Trigger, sha: string, isReviewer: string -> bool) {
    t.force && t.reviews.Some?
    && forall i :: 0 <= i < |t.reviews.value| ==>
         !(t.reviews.value[i].commitID == sha && isReviewer(t.reviews.value[i].authorLogin))
  }

  /** After any run, any command publishes exactly when it is considered, it can be sent, no override of that very
      head was published in the last hour, and, if it asks again, no review either. */
  lemma {:induction false} CommandPublishesIff(steps: seq<Step>, s: Step, isReviewer: string -> bool)
    requires InOrder(steps + [s]) && LegalSteps(steps + [s]) && s.request.Command?
    ensures var w, w', t := Run(steps, isReviewer), Run(steps + [s], isReviewer), s.request.trigger;
            var since, again := s.at - HOUR, AsksAgain(t, s.head.sha, isReviewer);
            if Considered(t) && t.sendOk && !OverriddenSince(w.history, s.head, since)
               && !(again && ReviewedSince(w.history, s.head, since))
            then w'.history == w.history + [ReviewAt(s.head, s.taskID, s.at, again)]
            else SameLedgers(w', w) && (!(t.webhook && t.mechanicalAuthor && !t.force) ==> w' == w)
  {
    var t := s.request.trigger;
    HistoryAnswers(steps, s, isReviewer, Lookup(t.reviews, s.head.sha, isReviewer));
    assert Unanswered(t, s.head.sha, isReviewer) == AsksAgain(t, s.head.sha, isReviewer);
  }

  /** After any run, an override is published exactly when it can be sent and, if a label asks for it, its author is
      trusted. */
  lemma OverridePublishesIff(steps: seq<Step>, s: Step, isReviewer: string -> bool)
    requires InOrder(steps + [s]) && (s.request.LabelOverride? || s.request.MechanicalOverride?)
    ensures var w, w' := Run(steps, isReviewer), Run(steps + [s], isReviewer);
            if s.request.sendOk && (s.request.LabelOverride? ==> s.request.trust == PollSpec.Trusted)
            then w'.history == w.history + [OverrideAt(s.head, s.taskID, s.at)]
            else w' == w
  {
    LastStep(steps, s, isReviewer);
  }

  /* ---------- heads are independent ---------- */

  function StepsOf(steps: seq<Step>, h: HeadKey): seq<Step> {
    if steps == [] then []
    else StepsOf(steps[..|steps| - 1], h) + (if steps[|steps| - 1].head == h then [steps[|steps| - 1]] else [])
  }

  function HistoryOf(history: seq<Published>, h: HeadKey): seq<Published> {
    if history == [] then []
    else HistoryOf(history[..|history| - 1], h)
         + (if history[|history| - 1].head == h then [history[|history| - 1]] else [])
  }

  lemma {:induction false} StepsOfKeep(steps: seq<Step>, h: HeadKey)
    ensures forall s :: s in StepsOf(steps, h) ==> s in steps
    ensures InOrder(steps) ==> InOrder(StepsOf(steps, h))
    ensures LegalSteps(steps) ==> LegalSteps(StepsOf(steps, h))
  {
    if steps != [] {
      var before, s := steps[..|steps| - 1], steps[|steps| - 1];
      StepsOfKeep(before, h);
      assert InOrder(steps) ==> forall t :: t in StepsOf(before, h) ==> t.at <= s.at;
    }
  }

  lemma {:induction false} OwnHistoryAnswers(history: seq<Published>, h: HeadKey, since: Time)
    ensures OverriddenSince(HistoryOf(history, h), h, since) <==> OverriddenSince(history, h, since)
    ensures ReviewedSince(HistoryOf(history, h), h, since) <==> ReviewedSince(history, h, since)
  {
    if history != [] {
      var before, e := history[..|history| - 1], history[|history| - 1];
      OwnHistoryAnswers(before, h, since);
      assert history == before + [e];
      SinceOneMore(before, e, h, since);
      if e.head == h {
        SinceOneMore(HistoryOf(before, h), e, h, since);
      } else {
        assert HistoryOf(history, h) == HistoryOf(before, h);
      }
    }
  }

  lemma SinceOneMore(history: seq<Published>, e: Published, h: HeadKey, since: Time)
    ensures OverriddenSince(history + [e], h, since)
            <==> OverriddenSince(history, h, since) || (e.OverrideAt? && e.head == h && since <= e.at)
    ensures ReviewedSince(history + [e], h, since)
            <==> ReviewedSince(history, h, since) || (e.ReviewAt? && e.head == h && since <= e.at)
  {
    assert (history + [e])[|history|] == e;
    assert forall i :: 0 <= i < |history| ==> (history + [e])[i] == history[i];
  }

  /** What the ledgers may tell a step. */
  function Reviews(s: Step, isReviewer: string -> bool): Lookup {
    Lookup(if s.request.Command? then s.request.trigger.reviews else None, s.head.sha, isReviewer)
  }

  /** What a step publishes. */
  function Added(w: World, s: Step, isReviewer: string -> bool): (more: seq<Published>)
    ensures more == [] || (|more| == 1 && more[0].head == s.head)
    ensures Perform(w, s, isReviewer).history == w.history + more
  {
    PerformCases(w, s, isReviewer);
    assert w.history + [] == w.history;
    Perform(w, s, isReviewer).history[|w.history|..]
  }

  /** Two worlds that answer a step alike see it publish alike. */
  lemma SameAnswersSamePublish(v: World, w: World, s: Step, isReviewer: string -> bool)
    requires Suppressed(v.overrides, Key(s), s.at) <==> Suppressed(w.overrides, Key(s), s.at)
    requires var l := Reviews(s, isReviewer);
             Guard(v.publishes, Key(s), s.at, l).Publishes() <==> Guard(w.publishes, Key(s), s.at, l).Publishes()
    ensures Added(v, s, isReviewer) == Added(w, s, isReviewer)
  {
  }

  lemma HistoryOfMore(history: seq<Published>, more: seq<Published>, h: HeadKey)
    requires |more| <= 1
    ensures HistoryOf(history + more, h)
         == HistoryOf(history, h) + (if more != [] && more[0].head == h then more else [])
  {
    if more == [] {
      assert history + more == history;
    } else {
      assert (history + more)[..|history|] == history;
    }
  }

  /** What is published for a head is what its own steps alone would have published: no override, review or refusal
      of another head ever matters. */
  lemma {:induction false} HeadsAreIndependent(steps: seq<Step>, h: HeadKey, isReviewer: string -> bool)
    requires InOrder(steps) && LegalSteps(steps)
    ensures HistoryOf(Run(steps, isReviewer).history, h) == Run(StepsOf(steps, h), isReviewer).history
  {
    if steps != [] {
      var before, s := steps[..|steps| - 1], steps[|steps| - 1];
      assert steps == before + [s];
      HeadsAreIndependent(before, h, isReviewer);
      StepsOfKeep(before, h);
      StepsOfKeep(steps, h);
      var w, v := Run(before, isReviewer), Run(StepsOf(before, h), isReviewer);
      var l := Reviews(s, isReviewer);
      HistoryAnswers(before, s, isReviewer, l);
      if s.head == h {
        assert StepsOf(steps, h) == StepsOf(before, h) + [s];
        HistoryAnswers(StepsOf(before, h), s, isReviewer, l);
        OwnHistoryAnswers(w.history, h, s.at - HOUR);
        SameAnswersSamePublish(v, w, s, isReviewer);
        var more := Added(w, s, isReviewer);
        HistoryOfMore(w.history, more, h);
        assert more != [] || HistoryOf(w.history, h) + [] == HistoryOf(w.history, h);
      } else {
        var more := Added(w, s, isReviewer);
        HistoryOfMore(w.history, more, h);
        assert StepsOf(steps, h) == StepsOf(before, h);
        assert HistoryOf(w.history, h) + [] == HistoryOf(w.history, h);
      }
    }
  }

  /* ---------- whole runs ---------- */

  /** No review follows an override of the same head within the hour. */
  predicate OverridesExclude(history: seq<Published>) {
    forall i, j :: 0 <= i < j < |history| ==>
      history[i].OverrideAt? && history[j].ReviewAt? && history[i].head == history[j].head ==>
        history[j].at - history[i].at > HOUR
  }

  /** No forced review without a verdict follows another review of the same head within the hour. */
  predicate RetriesAreSpaced(history: seq<Published>) {
    forall i, j :: 0 <= i < j < |history| ==>
      history[i].ReviewAt? && history[j].ReviewAt? && history[j].unanswered && history[i].head == history[j].head ==>
        history[j].at - history[i].at > HOUR
  }

  lemma OverridesExcludeOneMore(history: seq<Published>, e: Published)
    requires OverridesExclude(history) && (e.ReviewAt? ==> !KeyOverridden(history, e.Key(), e.at - HOUR))
    ensures OverridesExclude(history + [e])
  {
  }

  lemma RetriesAreSpacedOneMore(history: seq<Published>, e: Published)
    requires RetriesAreSpaced(history)
    requires e.ReviewAt? && e.unanswered ==> !KeyReviewed(history, e.Key(), e.at - HOUR)
    ensures RetriesAreSpaced(history + [e])
  {
  }

  /** A step that publishes a review found no fresh override, and an unanswered one no fresh review. */
  lemma ReviewsRespectTheLedgers(w: World, s: Step, isReviewer: string -> bool)
    ensures var w' := Perform(w, s, isReviewer);
            |w'.history| == |w.history| + 1 && w'.history[|w.history|].ReviewAt? ==>
              && !Suppressed(w.overrides, Key(s), s.at)
              && (w'.history[|w.history|].unanswered ==>
                    && s.request.Command? && Unanswered(s.request.trigger, s.head.sha, isReviewer)
                    && var l := Lookup(s.request.trigger.reviews, s.head.sha, isReviewer);
                       Guard(w.publishes, Key(s), s.at, l).Publishes())
  {
  }

  lemma PerformKeepsPromises(w: World, s: Step, isReviewer: string -> bool)
    requires Mirrors(w, s.at) && OverridesExclude(w.history) && RetriesAreSpaced(w.history)
    ensures var w' := Perform(w, s, isReviewer); OverridesExclude(w'.history) && RetriesAreSpaced(w'.history)
  {
    var w', n := Perform(w, s, isReviewer), |w.history|;
    PerformCases(w, s, isReviewer);
    if |w'.history| == n + 1 {
      var e := w'.history[n];
      var reviews := if s.request.Command? then s.request.trigger.reviews else None;
      ReviewsRespectTheLedgers(w, s, isReviewer);
      LedgersAnswerForHistory(w, Key(s), s.at, Lookup(reviews, s.head.sha, isReviewer));
      OverridesExcludeOneMore(w.history, e);
      RetriesAreSpacedOneMore(w.history, e);
      assert w'.history == w.history + [e];
    }
  }

  /** In every run of the three producers no review is published for a head while an override of it is less
      than an hour old, and a forced review with readable reviews and no verdict waits an hour after every
      earlier review of the head, whoever published it. */
  lemma {:induction false} ProducersKeepApart(steps: seq<Step>, isReviewer: string -> bool)
    requires InOrder(steps)
    ensures var history := Run(steps, isReviewer).history; OverridesExclude(history) && RetriesAreSpaced(history)
  {
    if steps != [] {
      var n := |steps| - 1;
      ProducersKeepApart(steps[..n], isReviewer);
      RunMirrors(steps[..n], isReviewer, steps[n].at);
      PerformKeepsPromises(Run(steps[..n], isReviewer), steps[n], isReviewer);
    }
  }

  /** A deferred webhook command publishes nothing and gives its head back: the coalescer no longer settles it,
      and when the webhook held the claim the next poll is admitted exactly when no trailing dispatch is pending.
      `CoalesceRelease.ReleasedHeadIsOwed` follows this through whole runs of the coalescer. */
  lemma DeferralGivesTheHeadBack(w: World, s: Step, isReviewer: string -> bool, hold: Time, pushAt: Option<Time>,
                                 now: Time)
    requires s.request.Command? && Deferred(s.request.trigger) && s.head.sha != ""
    requires s.request.trigger.found && !s.request.trigger.filtered && s.request.trigger.trust.Trusted?
    ensures var w' := Perform(w, s, isReviewer);
            var k, e := s.head.pr, Coalesce.Lookup(w.coalescer.entries, s.head.pr);
            var decision := Coalesce.Admit(w'.coalescer, hold, k, s.head.sha, pushAt, now).1;
            && SameLedgers(w', w) && !decision.Settled?
            && (e.lastHead == s.head.sha ==> (decision.Emit? <==> e.pendingURL == ""))
            && (e.lastHead != s.head.sha ==> w' == w)
  {
    var k, w' := s.head.pr, Perform(w, s, isReviewer);
    var found := Coalesce.Open(w'.coalescer, hold, k, now).entries[k];
    assert found == Coalesce.Lookup(w'.coalescer.entries, k) || found == Coalesce.FRESH;
  }
}
