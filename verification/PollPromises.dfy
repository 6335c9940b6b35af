/**
 What the visits of `PollLaws` add up to over polls and runs: whatever has a task is handled, so the cursor reaches the
 newest pull request; and nothing is ever done without the answers that allow it.
 */
module PollPromises {
  import opened Common
  import opened PollSpec
  import opened PollOwner
  import opened PollArming
  import opened PollCursor
  import opened PollDeferrals
  import opened PollLaws

  /* ---------- handled ---------- */

  lemma AttemptsClaimNothing(cfg: Config, pr: PullRequest, d: Details, o: Oracle, h: HeadKey)
    ensures ClaimsIn(Attempted(cfg, pr, d, o), h) == []
  {
    forall e | e in Attempted(cfg, pr, d, o)
      ensures e.LabelAttempt? || e.CloseAttempt? || e.UpdateAttempt? || e.ArmAttempt?
    {
    }
    NoClaims(Attempted(cfg, pr, d, o), h);
  }

  lemma {:induction false} NoClaims(effects: seq<Effect>, h: HeadKey)
    requires forall e :: e in effects ==> !Claims(e, h)
    ensures ClaimsIn(effects, h) == []
  {
    if effects != [] {
      NoClaims(effects[..|effects| - 1], h);
    }
  }

  /** The visit leaves the head with a task: one it knew, or one it published. */
  predicate Speaks(cfg: Config, b: Batch, item: Item, h: HeadKey) {
    Known(b.headSHAs, h) || ClaimsIn(ProcessPR(cfg, b, item.pr, item.oracle).0.effects, h) != ClaimsIn(b.effects, h)
  }

  lemma ClaimsOfVisit(cfg: Config, b: Batch, pr: PullRequest, o: Oracle, h: HeadKey)
    requires Visits(b, pr, o) && h == Head(b, pr, o) && !Closes(pr, Shown(b, pr, o).value, o)
    ensures var tried, site := Tried(cfg, b, pr, Shown(b, pr, o).value, o), AtSite(cfg, pr, o);
            ClaimsIn(ProcessPR(cfg, b, pr, o).0.effects, h)
            == ClaimsIn(b.effects, h) + ClaimsIn(Claimed(cfg, tried, site, h, o), h)
  {
    var d := Shown(b, pr, o).value;
    var tried, site := Tried(cfg, b, pr, d, o), AtSite(cfg, pr, o);
    VisitIsStated(cfg, b, pr, o);
    ClaimsInConcat(b.effects, Attempted(cfg, pr, d, o), h);
    ClaimsInConcat(tried.effects, Claimed(cfg, tried, site, h, o), h);
    AttemptsClaimNothing(cfg, pr, d, o, h);
    assert ClaimsIn(b.effects, h) + [] == ClaimsIn(b.effects, h);
  }

  /** A visit of a head that had a task before or has one now counts as handled, at the updated-at of its own pull
      request, and does not hold the cursor back. */
  lemma TaskMeansHandled(cfg: Config, b: Batch, item: Item, h: HeadKey)
    requires Visits(b, item.pr, item.oracle) && h == Head(b, item.pr, item.oracle) && Speaks(cfg, b, item, h)
    ensures ProcessPR(cfg, b, item.pr, item.oracle).1 == Outcome(item.pr.updatedAt, true, false)
  {
    var pr, o := item.pr, item.oracle;
    var d := Shown(b, pr, o).value;
    OutcomeOfVisit(cfg, b, item);
    if !Closes(pr, d, o) {
      var tried, site := Tried(cfg, b, pr, d, o), AtSite(cfg, pr, o);
      ClaimsOfVisit(cfg, b, pr, o, h);
      assert ClaimsIn(b.effects, h) + [] == ClaimsIn(b.effects, h);
      TaskIsSettled(cfg, tried, site, h, o);
    }
  }

  lemma OutcomeOfVisit(cfg: Config, b: Batch, item: Item)
    requires Visits(b, item.pr, item.oracle)
    ensures var pr, o := item.pr, item.oracle;
            var d := Shown(b, pr, o).value;
            ProcessPR(cfg, b, pr, o).1
            == if Closes(pr, d, o) then Outcome(pr.updatedAt, true, false)
               else DecidedOutcome(cfg, Tried(cfg, b, pr, d, o), AtSite(cfg, pr, o), Head(b, pr, o), o)
  {
    VisitIsStated(cfg, b, item.pr, item.oracle);
  }

  lemma TaskIsSettled(cfg: Config, b: Batch, pr: PullRequest, h: HeadKey, o: Oracle)
    requires Known(b.headSHAs, h) || ClaimsIn(Claimed(cfg, b, pr, h, o), h) != []
    ensures DecidedOutcome(cfg, b, pr, h, o) == Outcome(pr.updatedAt, true, false)
  {
    if !Known(b.headSHAs, h) {
      SomethingIsSent(cfg, b, pr, h, o);
    }
  }

  lemma SomethingIsSent(cfg: Config, b: Batch, pr: PullRequest, h: HeadKey, o: Oracle)
    requires ClaimsIn(Claimed(cfg, b, pr, h, o), h) != []
    ensures SendsOverride(cfg, b, pr, h, o) || SendsApprove(cfg, b, pr, h, o) || SendsReview(cfg, b, pr, h, o)
  {
    if !SendsOverride(cfg, b, pr, h, o) && !SendsApprove(cfg, b, pr, h, o) && !SendsReview(cfg, b, pr, h, o) {
      forall e | e in Claimed(cfg, b, pr, h, o)
        ensures e.LabelAttempt? || e.ArmAttempt?
      {
      }
      NoClaims(Claimed(cfg, b, pr, h, o), h);
    }
  }

  /** The batch before visit `i` of the loop. */
  function BatchAt(cfg: Config, l: Loop, items: seq<Item>, i: nat): Batch
    requires i <= |items|
    decreases i
  {
    if i == 0 then l.batch else BatchAt(cfg, Visit(cfg, l, items[0]), items[1..], i - 1)
  }

  lemma {:induction false} OutcomeAt(cfg: Config, l: Loop, items: seq<Item>, i: nat)
    requires RunsToEnd(items) && i < |items|
    ensures Outcomes(cfg, l, items)[i] == ProcessPR(cfg, BatchAt(cfg, l, items, i), items[i].pr, items[i].oracle).1
    decreases i
  {
    OutcomesUnfold(cfg, l, items);
    if i > 0 {
      OutcomeAt(cfg, Visit(cfg, l, items[0]), items[1..], i - 1);
    }
  }

  lemma OutcomesUnfold(cfg: Config, l: Loop, items: seq<Item>)
    requires RunsToEnd(items) && items != []
    ensures RunsToEnd(items[1..])
    ensures Outcomes(cfg, l, items) == [ProcessPR(cfg, l.batch, items[0].pr, items[0].oracle).1]
                                       + Outcomes(cfg, Visit(cfg, l, items[0]), items[1..])
  {
  }

  /** Every visit of the loop ends with a task for its head. */
  predicate AllSpeak(cfg: Config, l: Loop, items: seq<Item>) {
    forall i :: 0 <= i < |items| ==>
      var b, item := BatchAt(cfg, l, items, i), items[i];
      Visits(b, item.pr, item.oracle) && Speaks(cfg, b, item, Head(b, item.pr, item.oracle))
  }

  /** A finished poll in which every pull request has a task, old or new, leaves the cursor at the newest of them. */
  lemma FinishedPollReachesTheNewest(cfg: Config, c: Cursor, items: seq<Item>)
    requires RunsToEnd(items) && AllSpeak(cfg, StartLoop(c), items)
    ensures var position := Position(cfg, c, items);
            && c.lastUpdatedAt <= position
            && (forall i :: 0 <= i < |items| ==> items[i].pr.updatedAt <= position)
            && (position == c.lastUpdatedAt || exists i :: 0 <= i < |items| && items[i].pr.updatedAt == position)
  {
    var l, position := StartLoop(c), Position(cfg, c, items);
    var outs := Outcomes(cfg, l, items);
    forall i | 0 <= i < |items|
      ensures outs[i] == Outcome(items[i].pr.updatedAt, true, false)
    {
      var b := BatchAt(cfg, l, items, i);
      OutcomeAt(cfg, l, items, i);
      TaskMeansHandled(cfg, b, items[i], Head(b, items[i].pr, items[i].oracle));
    }
    FinishedPollPosition(cfg, c, items);
    forall i | 0 <= i < |items|
      ensures items[i].pr.updatedAt <= position
    {
      assert Advances(items, outs, i, items[i].pr.updatedAt);
    }
  }

  /* ---------- allowed ---------- */

  /** The answers about this pull request allow the effect. */
  predicate Allows(cfg: Config, item: Item, e: Effect) {
    var pr, o := item.pr, item.oracle;
    var site := AtSite(cfg, pr, o);
    !o.filtered
    && match e
       case OverridePublished(h) =>
         h.pr == pr.key && Marked(cfg.overrideLabel, site) && o.overrideTrust == Trusted && o.overrideSendOk
       case MechanicalPublished(h) =>
         h.pr == pr.key && Passes(cfg, site, o) && CanArm(cfg, site, o) && o.mechanicalSendOk
       case ReviewPublished(h) =>
         h.pr == pr.key && o.decision.Emit? && !o.suppressed && o.createTrust != TrustError && o.createSendOk
       case MarkedEmitted(h) => h.pr == pr.key && o.decision.Emit? && o.createSendOk
       case CloseAttempt(k) => k == pr.key && o.supersedeTrust == Trusted
       case UpdateAttempt(k) => k == pr.key && Marked(cfg.autoMergeLabel, site) && o.updateTrust == Trusted
       case ArmAttempt(k) =>
         k == pr.key && cfg.autoMergeLabel != "" && (o.armTrust == Trusted || o.rearmTrust == Trusted)
       case LabelAttempt(k) =>
         k == pr.key && ((o.trivialOptIn == Some(true) && o.trivialFiles == Some(true)) || Passes(cfg, site, o))
  }

  lemma AttemptsAreAllowed(cfg: Config, item: Item, d: Details)
    requires !item.oracle.filtered
    ensures forall e :: e in Attempted(cfg, item.pr, d, item.oracle) ==> Allows(cfg, item, e)
  {
  }

  lemma ClaimsAreAllowed(cfg: Config, b: Batch, item: Item, h: HeadKey)
    requires !item.oracle.filtered && h.pr == item.pr.key
    ensures forall e :: e in Claimed(cfg, b, AtSite(cfg, item.pr, item.oracle), h, item.oracle) ==> Allows(cfg, item, e)
  {
  }

  lemma EffectsOfVisit(cfg: Config, b: Batch, item: Item)
    ensures var pr, o := item.pr, item.oracle;
            ProcessPR(cfg, b, pr, o).0.effects
            == if !Visits(b, pr, o) then b.effects
               else
                 var d, h := Shown(b, pr, o).value, Head(b, pr, o);
                 b.effects + Attempted(cfg, pr, d, o)
                 + if Closes(pr, d, o) then [] else Claimed(cfg, Tried(cfg, b, pr, d, o), AtSite(cfg, pr, o), h, o)
  {
    VisitIsStated(cfg, b, item.pr, item.oracle);
  }

  lemma VisitIsAllowed(cfg: Config, b: Batch, item: Item)
    ensures b.effects <= ProcessPR(cfg, b, item.pr, item.oracle).0.effects
    ensures forall e :: e in ProcessPR(cfg, b, item.pr, item.oracle).0.effects[|b.effects|..] ==> Allows(cfg, item, e)
  {
    var pr, o := item.pr, item.oracle;
    EffectsOfVisit(cfg, b, item);
    if Visits(b, pr, o) {
      var d, h := Shown(b, pr, o).value, Head(b, pr, o);
      var tried, site := Tried(cfg, b, pr, d, o), AtSite(cfg, pr, o);
      AttemptsAreAllowed(cfg, item, d);
      ClaimsAreAllowed(cfg, tried, item, h);
      AddedEffects(b.effects, Attempted(cfg, pr, d, o),
                   if Closes(pr, d, o) then [] else Claimed(cfg, tried, site, h, o));
    }
  }

  lemma AddedEffects(b: seq<Effect>, attempted: seq<Effect>, claimed: seq<Effect>)
    ensures b <= b + attempted + claimed && (b + attempted + claimed)[|b|..] == attempted + claimed
  {
  }

  ghost predicate AllAllowed(cfg: Config, inputs: seq<PollInput>, effects: seq<Effect>) {
    forall e :: e in effects ==> AllowedBy(cfg, inputs, e)
  }

  predicate AllowedBy(cfg: Config, inputs: seq<PollInput>, e: Effect) {
    exists n, i :: 0 <= n < |inputs| && 0 <= i < |inputs[n].items| && Allows(cfg, inputs[n].items[i], e)
  }

  lemma {:induction false} LoopIsAllowed(cfg: Config, l: Loop, items: seq<Item>, past: seq<Effect>)
    requires l.batch.effects == past
    ensures past <= VisitAll(cfg, l, items).0.batch.effects
    ensures forall e :: e in VisitAll(cfg, l, items).0.batch.effects[|past|..] ==>
              exists i :: 0 <= i < |items| && Allows(cfg, items[i], e)
    decreases |items|
  {
    if items != [] && !items[0].cancelled {
      var next := Visit(cfg, l, items[0]);
      VisitIsAllowed(cfg, l.batch, items[0]);
      LoopIsAllowed(cfg, next, items[1..], next.batch.effects);
      var all := VisitAll(cfg, l, items).0.batch.effects;
      var mine := next.batch.effects[|past|..];
      assert all[|past|..] == mine + all[|next.batch.effects|..];
      forall e | e in all[|past|..]
        ensures exists i :: 0 <= i < |items| && Allows(cfg, items[i], e)
      {
        if e in mine {
          assert Allows(cfg, items[0], e);
        } else {
          var i :| 0 <= i < |items[1..]| && Allows(cfg, items[1..][i], e);
          assert items[i + 1] == items[1..][i];
        }
      }
    }
  }

  /** In every run of polls, whatever is published, tried or marked was allowed by the answers about its own pull
      request in one of the polls: an override had its label and a trusted author, an approve a passed gate and the
      means to arm, a review an Emit and no override in the ledger. */
  lemma {:induction false} EverythingIsAllowed(cfg: Config, c: Cursor, inputs: seq<PollInput>)
    ensures AllAllowed(cfg, inputs, Polls(cfg, c, inputs).1)
  {
    if inputs != [] {
      var n := |inputs| - 1;
      var (before, past) := Polls(cfg, c, inputs[..n]);
      var effects := Poll(cfg, before, inputs[n]).1;
      EverythingIsAllowed(cfg, c, inputs[..n]);
      LoopIsAllowed(cfg, StartLoop(before), inputs[n].items, []);
      forall e | e in past + effects
        ensures AllowedBy(cfg, inputs, e)
      {
        if e in past {
          var m, i :| 0 <= m < n && 0 <= i < |inputs[..n][m].items| && Allows(cfg, inputs[..n][m].items[i], e);
          assert Allows(cfg, inputs[m].items[i], e);
        } else {
          var loop := VisitAll(cfg, StartLoop(before), inputs[n].items).0.batch.effects;
          assert loop[0..] == loop;
          var i :| 0 <= i < |inputs[n].items| && Allows(cfg, inputs[n].items[i], e);
        }
      }
    }
  }

  /* ---------- unreadable gates and details ---------- */

  /** An evaluation of the gate counts as unreadable exactly when the visit reaches the head with nothing speaking for
      it and the first answer the gate needs fails: trust, then the opt-in, then the files. */
  lemma EvaluationIsUnreadableIff(cfg: Config, b: Batch, item: Item, h: HeadKey)
    ensures Evaluation(cfg, b, item, h) == [OverrideDeferred]
            <==> Visits(b, item.pr, item.oracle) && h == Head(b, item.pr, item.oracle)
                 && !Closes(item.pr, Shown(b, item.pr, item.oracle).value, item.oracle)
                 && Fresh(cfg, b, AtSite(cfg, item.pr, item.oracle), h, item.oracle)
                 && PollLaws.Unreadable(cfg, AtSite(cfg, item.pr, item.oracle), item.oracle)
  {
    var pr, o := item.pr, item.oracle;
    ReachedIsTried(cfg, b, pr, o);
    if Visits(b, pr, o) && !Closes(pr, Shown(b, pr, o).value, o) {
      var tried, site := Tried(cfg, b, pr, Shown(b, pr, o).value, o), AtSite(cfg, pr, o);
      StepIsUnreadableIff(cfg, tried, site, Head(b, pr, o), o);
      assert Fresh(cfg, tried, site, Head(b, pr, o), o) <==> Fresh(cfg, b, site, Head(b, pr, o), o);
    }
  }

  lemma StepIsUnreadableIff(cfg: Config, b: Batch, pr: PullRequest, h: HeadKey, o: Oracle)
    requires h.pr == pr.key
    ensures !TryOverride(cfg, b, pr, h.sha, o).1 && TryMechanicalOverride(cfg, b, pr, h.sha, o).1.OverrideDeferred?
            <==> Fresh(cfg, b, pr, h, o) && PollLaws.Unreadable(cfg, pr, o)
  {
    QualifyIsStated(cfg, pr, o);
  }

  lemma ReachedIsTried(cfg: Config, b: Batch, pr: PullRequest, o: Oracle)
    ensures Reached(cfg, b, pr, o)
         == if Visits(b, pr, o) && !Closes(pr, Shown(b, pr, o).value, o)
            then var d := Shown(b, pr, o).value; Some(Decision(Tried(cfg, b, pr, d, o), AtSite(cfg, pr, o), d.headSHA))
            else None
  {
    if Visits(b, pr, o) {
      var d := Shown(b, pr, o).value;
      ClosingIsTried(cfg, b.(detailsCache := b.detailsCache[pr.key := d]), pr, d, o);
      if !Closes(pr, d, o) {
        TriedIsReached(cfg, b, pr, d, o);
      }
    }
  }

  /** The details of a pull request are read once per poll: a second visit does the same whatever it would be shown. */
  lemma DetailsAreReadOnce(cfg: Config, b: Batch, pr: PullRequest, first: Oracle, again: Oracle,
                           other: Option<Details>)
    requires !first.filtered && first.details.Some?
    ensures var seen := ProcessPR(cfg, b, pr, first).0;
            ProcessPR(cfg, seen, pr, again) == ProcessPR(cfg, seen, pr, again.(details := other))
  {
    var seen := ProcessPR(cfg, b, pr, first).0;
    DetailsAreCached(cfg, b, pr, first);
    OnlyTheCacheIsRead(cfg, seen, pr, again, other);
  }

  lemma DetailsAreCached(cfg: Config, b: Batch, pr: PullRequest, o: Oracle)
    requires !o.filtered && o.details.Some?
    ensures pr.key in ProcessPR(cfg, b, pr, o).0.detailsCache
  {
    VisitIsStated(cfg, b, pr, o);
  }

  lemma OnlyTheCacheIsRead(cfg: Config, b: Batch, pr: PullRequest, o: Oracle, other: Option<Details>)
    requires pr.key in b.detailsCache
    ensures ProcessPR(cfg, b, pr, o) == ProcessPR(cfg, b, pr, o.(details := other))
  {
    if Visits(b, pr, o) {
      var d, o' := b.detailsCache[pr.key], o.(details := other);
      VisitIsStated(cfg, b, pr, o);
      VisitIsStated(cfg, b, pr, o');
      SameAttempts(cfg, b, pr, d, o, other);
      SameEnd(cfg, Tried(cfg, b, pr, d, o), pr, d, o, other);
    }
  }

  lemma SameAttempts(cfg: Config, b: Batch, pr: PullRequest, d: Details, o: Oracle, other: Option<Details>)
    ensures Tried(cfg, b, pr, d, o) == Tried(cfg, b, pr, d, o.(details := other))
  {
    assert Attempted(cfg, pr, d, o) == Attempted(cfg, pr, d, o.(details := other));
  }

  lemma SameEnd(cfg: Config, tried: Batch, pr: PullRequest, d: Details, o: Oracle, other: Option<Details>)
    ensures Ended(cfg, tried, pr, d, o) == Ended(cfg, tried, pr, d, o.(details := other))
  {
    DecidesWithoutDetails(cfg, tried, AtSite(cfg, pr, o), HeadKey(pr.key, d.headSHA), o, other);
  }

  lemma DecidesWithoutDetails(cfg: Config, b: Batch, pr: PullRequest, h: HeadKey, o: Oracle, other: Option<Details>)
    ensures DecidedBatch(cfg, b, pr, h, o) == DecidedBatch(cfg, b, pr, h, o.(details := other))
    ensures DecidedOutcome(cfg, b, pr, h, o) == DecidedOutcome(cfg, b, pr, h, o.(details := other))
  {
    var o' := o.(details := other);
    SameConditions(cfg, b, pr, h, o, other);
    assert Claimed(cfg, b, pr, h, o) == Claimed(cfg, b, pr, h, o');
    assert Learned(cfg, b, pr, h, o) == Learned(cfg, b, pr, h, o');
  }

  lemma SameConditions(cfg: Config, b: Batch, pr: PullRequest, h: HeadKey, o: Oracle, other: Option<Details>)
    ensures var o' := o.(details := other);
            && Overrides(cfg, b, pr, h, o) == Overrides(cfg, b, pr, h, o')
            && Fresh(cfg, b, pr, h, o) == Fresh(cfg, b, pr, h, o')
            && Approves(cfg, b, pr, h, o) == Approves(cfg, b, pr, h, o')
            && Postpones(cfg, b, pr, h, o) == Postpones(cfg, b, pr, h, o')
            && SendsOverride(cfg, b, pr, h, o) == SendsOverride(cfg, b, pr, h, o')
            && SendsReview(cfg, b, pr, h, o) == SendsReview(cfg, b, pr, h, o')
  {
  }
}
