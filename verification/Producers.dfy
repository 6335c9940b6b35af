/**
 The publish steps of the three producers in their own form: effects in sequence with early exits, on the
 two shared ledger objects and the coalescer. Each is proved to be one step of `ProducerSpec`.
 */
module Producers {
  import Coalesce = CoalesceSpec
  import opened Coalescing
  import opened Ledgers
  import opened ProducerSpec
  import Spec = LedgerSpec

  class Publisher {
    const ledger: OverrideLedger
    const guard: RetryGuard
    const coalescer: Coalescer
    ghost var history: seq<Published>

    constructor (ledger: OverrideLedger, guard: RetryGuard, coalescer: Coalescer)
      requires ledger.bucket == null && guard.bucket == null && coalescer.Valid() && coalescer.state == Coalesce.EMPTY
      ensures Valid() && View() == NEW_WORLD
      ensures this.ledger == ledger && this.guard == guard && this.coalescer == coalescer
    {
      this.ledger, this.guard, this.coalescer, history := ledger, guard, coalescer, [];
    }

    /** The two ledgers keep separate buckets. */
    ghost predicate Valid()
      reads this, ledger, guard, coalescer, coalescer.repr, coalescer.scheduler
    {
      (ledger.bucket == null || guard.bucket == null || ledger.bucket != guard.bucket) && coalescer.Valid()
    }

    ghost function View(): World
      reads this, ledger, guard, ledger.bucket, guard.bucket, coalescer
    {
      World(ledger.Contents(), guard.Contents(), coalescer.state, history)
    }

    /** Sends the create command and records it in the retry guard's ledger. */
    method SendReview(s: Step, ghost unanswered: bool)
      requires Valid()
      modifies this, guard, guard.bucket
      ensures Valid() && View() == PublishReview(old(View()), s, unanswered)
      ensures guard.bucket != null && (guard.bucket == old(guard.bucket) || fresh(guard.bucket))
    {
      guard.Record(Key(s), s.taskID, s.at);
      history := history + [ReviewAt(s.head, s.taskID, s.at, unanswered)];
    }

    /** Sends an override command and records it in the override ledger. */
    method SendOverride(s: Step)
      requires Valid()
      modifies this, ledger, ledger.bucket
      ensures Valid() && View() == PublishOverride(old(View()), s)
      ensures ledger.bucket != null && (ledger.bucket == old(ledger.bucket) || fresh(ledger.bucket))
    {
      ledger.Record(Key(s), s.taskID, s.at);
      history := history + [OverrideAt(s.head, s.taskID, s.at)];
    }

    /** `PublishCreate`, the review path of the poll loop and the unreviewed scanner. */
    method PublishCreate(s: Step) returns (published: bool)
      requires Valid() && s.request.Create?
      modifies this, guard, guard.bucket
      ensures Valid() && View() == Perform(old(View()), s, guard.isReviewer)
      ensures published <==> history != old(history)
    {
      var suppressed := ledger.Suppressed(Key(s), s.at);
      if suppressed {
        return false;
      }
      if s.request.trust.TrustError? {
        return false;
      }
      if !s.request.sendOk {
        return false;
      }
      SendReview(s, false);
      return true;
    }

    /** `PublishOverride`: an untrusted author gets nothing, and a failed send is handled but not emitted. */
    method PublishLabelOverride(s: Step) returns (handled: bool, emitted: bool)
      requires Valid() && s.request.LabelOverride?
      modifies this, ledger, ledger.bucket
      ensures Valid() && View() == Perform(old(View()), s, guard.isReviewer)
      ensures handled == s.request.trust.Trusted? && (emitted <==> history != old(history))
    {
      if !s.request.trust.Trusted? {
        return false, false;
      }
      if !s.request.sendOk {
        return true, false;
      }
      SendOverride(s);
      return true, true;
    }

    method PublishMechanicalOverride(s: Step) returns (emitted: bool)
      requires Valid() && s.request.MechanicalOverride?
      modifies this, ledger, ledger.bucket
      ensures Valid() && View() == Perform(old(View()), s, guard.isReviewer)
      ensures emitted <==> history != old(history)
    {
      if !s.request.sendOk {
        return false;
      }
      SendOverride(s);
      return true;
    }

    /** `deferWebhookMechanicalOverride`; true means the command is skipped. */
    method DeferWebhookMechanicalOverride(s: Step, t: Trigger) returns (skipped: bool)
      requires Valid()
      modifies coalescer`state, coalescer.repr
      ensures Valid() && skipped == Deferred(t)
      ensures coalescer.state == if Deferred(t) then Coalesce.Release(old(coalescer.state), s.head.pr, s.head.sha)
                                 else old(coalescer.state)
    {
      if !t.webhook || t.force || !t.mechanicalAuthor {
        return false;
      }
      coalescer.Release(s.head.pr, s.head.sha);
      return true;
    }

    /** `checkRetryGuard`: only a forced trigger asks. */
    method CheckRetryGuard(s: Step, t: Trigger) returns (refused: bool)
      ensures refused == (t.force && !Spec.Guard(guard.Contents(), Key(s), s.at,
                                                 Spec.Lookup(t.reviews, s.head.sha, guard.isReviewer)).Publishes())
    {
      if !t.force {
        return false;
      }
      var check := guard.Check(Key(s), s.head.sha, s.at, t.reviews);
      refused := !check.Publishes();
    }

    /** `runTriggerPRReview`. */
    method RunTriggerPRReview(s: Step) returns (published: bool)
      requires Valid() && s.request.Command?
      modifies this, guard, guard.bucket, coalescer`state, coalescer.repr
      ensures Valid() && View() == Perform(old(View()), s, guard.isReviewer)
      ensures published <==> history != old(history)
    {
      var t := s.request.trigger;
      if !t.found || t.filtered || !t.trust.Trusted? {
        return false;
      }
      var skipped := DeferWebhookMechanicalOverride(s, t);
      if skipped {
        return false;
      }
      var suppressed := ledger.Suppressed(Key(s), s.at);
      if suppressed {
        return false;
      }
      var refused := CheckRetryGuard(s, t);
      if refused {
        return false;
      }
      if !t.sendOk {
        return false;
      }
      SendReview(s, Unanswered(t, s.head.sha, guard.isReviewer));
      return true;
    }
  }
}
