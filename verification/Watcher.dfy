/**
 pkg/watcher.go in its own form: methods that update the loaded cursor and the maps of one poll in place.
 Each is proved to be the function of the same name in `PollSpec`.
 */
module Watching {
  import opened Common
  import Spec = PollSpec

  /** The cursor a poll loaded; `processPR` mutates its maps. */
  class Cursor {
    var lastUpdatedAt: Time
    var headSHAs: map<Spec.TaskId, string>
    var deferrals: map<HeadKey, int>

    constructor (loaded: Spec.Cursor)
      ensures View() == loaded
    {
      lastUpdatedAt, headSHAs, deferrals := loaded.lastUpdatedAt, loaded.headSHAs, loaded.deferrals;
    }

    function View(): Spec.Cursor
      reads this
    {
      Spec.Cursor(lastUpdatedAt, headSHAs, deferrals)
    }
  }

  /** The maps of one `processPRs` call, and the commands and GitHub writes it attempted. */
  class Batch {
    var newHeadSHAs: map<Spec.TaskId, string>
    var detailsCache: map<PRKey, Spec.Details>
    var sideEffectsRun: set<PRKey>
    var effects: seq<Spec.Effect>

    constructor ()
      ensures newHeadSHAs == map[] && detailsCache == map[] && sideEffectsRun == {} && effects == []
    {
      newHeadSHAs, detailsCache, sideEffectsRun, effects := map[], map[], {}, [];
    }
  }

  class Watcher {
    const cfg: Spec.Config

    constructor (cfg: Spec.Config)
      ensures this.cfg == cfg
    {
      this.cfg := cfg;
    }

    /** The two objects as the one value the specification works on. */
    static function Seen(c: Cursor, b: Batch): Spec.Batch
      reads c, b
    {
      Spec.Batch(c.headSHAs, c.deferrals, b.newHeadSHAs, b.detailsCache, b.sideEffectsRun, b.effects)
    }

    method TryAutoMerge(c: Cursor, b: Batch, pr: Spec.PullRequest, trust: Spec.Trust)
      modifies b
      ensures Seen(c, b) == Spec.TryAutoMerge(cfg, old(Seen(c, b)), pr, trust)
    {
      if cfg.autoMergeLabel == "" || cfg.autoMergeLabel !in pr.labels {
        return;
      }
      if !trust.Trusted? {
        return;
      }
      b.effects := b.effects + [Spec.ArmAttempt(pr.key)];
    }

    method TryUpdateBranch(c: Cursor, b: Batch, pr: Spec.PullRequest, d: Spec.Details, trust: Spec.Trust)
      modifies b
      ensures Seen(c, b) == Spec.TryUpdateBranch(cfg, old(Seen(c, b)), pr, d, trust)
    {
      if cfg.autoMergeLabel == "" || cfg.autoMergeLabel !in pr.labels {
        return;
      }
      if Spec.IsSupersededDepBump(pr, d) || !Spec.StaleMergeState(d.mergeable) {
        return;
      }
      if !trust.Trusted? {
        return;
      }
      b.effects := b.effects + [Spec.UpdateAttempt(pr.key)];
    }

    method TrySupersedeDepBump(c: Cursor, b: Batch, pr: Spec.PullRequest, d: Spec.Details, o: Spec.Oracle)
      returns (closed: bool)
      modifies b
      ensures (Seen(c, b), closed) == Spec.TrySupersede(old(Seen(c, b)), pr, d, o)
    {
      if !Spec.IsSupersededDepBump(pr, d) {
        return false;
      }
      if !o.supersedeTrust.Trusted? {
        return false;
      }
      b.effects := b.effects + [Spec.CloseAttempt(pr.key)];
      return o.closeOk;
    }

    method MaybeLabelTrivial(c: Cursor, b: Batch, pr: Spec.PullRequest, o: Spec.Oracle) returns (labelled: bool)
      modifies b
      ensures (Seen(c, b), labelled) == Spec.MaybeLabelTrivial(old(Seen(c, b)), pr, o)
    {
      if o.trivialOptIn.None? || !o.trivialOptIn.value {
        return false;
      }
      if o.trivialFiles.None? || !o.trivialFiles.value {
        return false;
      }
      b.effects := b.effects + [Spec.LabelAttempt(pr.key)];
      return o.trivialLabelOk;
    }

    method TryOverride(c: Cursor, b: Batch, pr: Spec.PullRequest, sha: string, o: Spec.Oracle) returns (handled: bool)
      modifies c, b
      ensures (Seen(c, b), handled) == Spec.TryOverride(cfg, old(Seen(c, b)), pr, sha, o)
      ensures c.lastUpdatedAt == old(c.lastUpdatedAt)
    {
      if cfg.overrideLabel == "" || cfg.overrideLabel !in pr.labels {
        return false;
      }
      var overrideID := Spec.OverrideTask(HeadKey(pr.key, sha));
      if overrideID in c.headSHAs {
        b.newHeadSHAs := b.newHeadSHAs[overrideID := sha];
        return true;
      }
      if !o.overrideTrust.Trusted? {
        return false;
      }
      if o.overrideSendOk {
        b.effects := b.effects + [Spec.OverridePublished(overrideID.head)];
        c.headSHAs := c.headSHAs[overrideID := sha];
        b.newHeadSHAs := b.newHeadSHAs[overrideID := sha];
      }
      return true;
    }

    method QualifiesForMechanicalOverride(pr: Spec.PullRequest, o: Spec.Oracle) returns (q: Spec.Qualification)
      ensures q == Spec.Qualify(cfg, pr, o)
      ensures q.Qualifies? ==> cfg.autoMergeLabel != "" && pr.author in cfg.mechanicalOverrideAuthors
                               && o.gateTrust.Trusted? && o.gateOptIn == Some(true) && o.gateFiles == Some(true)
    {
      if cfg.autoMergeLabel == "" {
        return Spec.DoesNotQualify;
      }
      if pr.author !in cfg.mechanicalOverrideAuthors {
        return Spec.DoesNotQualify;
      }
      if o.gateTrust.TrustError? {
        return Spec.Indeterminate;
      }
      if !o.gateTrust.Trusted? {
        return Spec.DoesNotQualify;
      }
      if o.gateOptIn.None? {
        return Spec.Indeterminate;
      }
      if !o.gateOptIn.value {
        return Spec.DoesNotQualify;
      }
      if o.gateFiles.None? {
        return Spec.Indeterminate;
      }
      return if o.gateFiles.value then Spec.Qualifies else Spec.DoesNotQualify;
    }

    method TryMechanicalOverride(c: Cursor, b: Batch, pr: Spec.PullRequest, sha: string, o: Spec.Oracle)
      returns (tried: Spec.OverrideOutcome)
      modifies c, b
      ensures (Seen(c, b), tried) == Spec.TryMechanicalOverride(cfg, old(Seen(c, b)), pr, sha, o)
      ensures c.lastUpdatedAt == old(c.lastUpdatedAt)
    {
      var overrideID := Spec.OverrideTask(HeadKey(pr.key, sha));
      if overrideID in c.headSHAs {
        b.newHeadSHAs := b.newHeadSHAs[overrideID := sha];
        return Spec.OverrideHandled;
      }
      if Spec.ReviewTask(HeadKey(pr.key, sha)) in c.headSHAs {
        return Spec.NotHandled;
      }
      var q := QualifiesForMechanicalOverride(pr, o);
      match q {
        case Indeterminate => return Spec.OverrideDeferred;
        case DoesNotQualify => return Spec.NotHandled;
        case Qualifies =>
      }
      if cfg.autoMergeLabel !in pr.labels {
        b.effects := b.effects + [Spec.LabelAttempt(pr.key)];
        if !o.addLabelOk {
          return Spec.NotHandled;
        }
        TryAutoMerge(c, b, pr.(labels := pr.labels + [cfg.autoMergeLabel]), o.rearmTrust);
      }
      if o.mechanicalSendOk {
        b.effects := b.effects + [Spec.MechanicalPublished(overrideID.head)];
        c.headSHAs := c.headSHAs[overrideID := sha];
        b.newHeadSHAs := b.newHeadSHAs[overrideID := sha];
      }
      return Spec.OverrideHandled;
    }

    method MechanicalOverrideOutcome(c: Cursor, b: Batch, pr: Spec.PullRequest, sha: string, o: Spec.Oracle)
      returns (outcome: Spec.Outcome)
      modifies c, b
      ensures (Seen(c, b), outcome) == Spec.MechanicalOutcome(cfg, old(Seen(c, b)), pr, sha, o)
      ensures c.lastUpdatedAt == old(c.lastUpdatedAt)
    {
      var key := HeadKey(pr.key, sha);
      var tried := TryMechanicalOverride(c, b, pr, sha, o);
      match tried {
        case OverrideHandled =>
          c.deferrals := c.deferrals - {key};
          return Spec.Outcome(pr.updatedAt, true, false);
        case OverrideDeferred =>
          ghost var before := c.deferrals;
          c.deferrals := c.deferrals[key := (if key in c.deferrals then c.deferrals[key] else 0) + 1];
          assert c.deferrals - {key} == before - {key};
          if c.deferrals[key] <= Spec.MAX_DEFERRAL_ATTEMPTS {
            return Spec.Outcome(pr.updatedAt, true, true);
          }
        case NotHandled =>
      }
      c.deferrals := c.deferrals - {key};
      return Spec.UNHANDLED;
    }

    method PublishReviewOutcome(c: Cursor, b: Batch, pr: Spec.PullRequest, sha: string, o: Spec.Oracle)
      returns (outcome: Spec.Outcome)
      modifies c, b
      ensures (Seen(c, b), outcome) == Spec.PublishReviewOutcome(old(Seen(c, b)), pr, sha, o)
      ensures c.lastUpdatedAt == old(c.lastUpdatedAt)
    {
      var head := HeadKey(pr.key, sha);
      var taskID := Spec.ReviewTask(head);
      match o.decision {
        case Settled =>
          c.headSHAs := c.headSHAs[taskID := sha];
          b.newHeadSHAs := b.newHeadSHAs[taskID := sha];
          return Spec.Outcome(pr.updatedAt, true, false);
        case Hold =>
          return Spec.Outcome(0, false, true);
        case Emit =>
      }
      if Spec.CreatePublishes(o) {
        b.effects := b.effects + [Spec.ReviewPublished(head)] + [Spec.MarkedEmitted(head)];
        c.headSHAs := c.headSHAs[taskID := sha];
        b.newHeadSHAs := b.newHeadSHAs[taskID := sha];
        return Spec.Outcome(pr.updatedAt, true, false);
      }
      return Spec.UNHANDLED;
    }

    method ProcessPR(c: Cursor, b: Batch, pr: Spec.PullRequest, o: Spec.Oracle) returns (outcome: Spec.Outcome)
      modifies c, b
      ensures (Seen(c, b), outcome) == Spec.ProcessPR(cfg, old(Seen(c, b)), pr, o)
      ensures c.lastUpdatedAt == old(c.lastUpdatedAt)
    {
      if o.filtered {
        return Spec.UNHANDLED;
      }
      var details := if pr.key in b.detailsCache then Some(b.detailsCache[pr.key]) else o.details;
      if details.None? {
        return Spec.UNHANDLED;
      }
      b.detailsCache := b.detailsCache[pr.key := details.value];
      if details.value.headSHA == "" {
        return Spec.UNHANDLED;
      }
      outcome := ProcessDetails(c, b, pr, details.value, o);
    }

    method ProcessDetails(c: Cursor, b: Batch, found: Spec.PullRequest, d: Spec.Details, o: Spec.Oracle)
      returns (outcome: Spec.Outcome)
      modifies c, b
      ensures (Seen(c, b), outcome) == Spec.ProcessDetails(cfg, old(Seen(c, b)), found, d, o)
      ensures c.lastUpdatedAt == old(c.lastUpdatedAt)
    {
      var pr := found;
      if cfg.trivialAutoMergeEnabled && cfg.autoMergeLabel !in pr.labels {
        var labelled := MaybeLabelTrivial(c, b, pr, o);
        if labelled {
          pr := pr.(labels := pr.labels + [cfg.autoMergeLabel]);
        }
      }
      b.sideEffectsRun := b.sideEffectsRun + {pr.key};
      var closed := TrySupersedeDepBump(c, b, pr, d, o);
      var taskID := Spec.ReviewTask(HeadKey(pr.key, d.headSHA));
      if closed {
        c.headSHAs := c.headSHAs[taskID := d.headSHA];
        b.newHeadSHAs := b.newHeadSHAs[taskID := d.headSHA];
        return Spec.Outcome(pr.updatedAt, true, false);
      }
      TryUpdateBranch(c, b, pr, d, o.updateTrust);
      TryAutoMerge(c, b, pr, o.armTrust);
      outcome := Decide(c, b, pr, d.headSHA, o);
    }

    method Decide(c: Cursor, b: Batch, pr: Spec.PullRequest, sha: string, o: Spec.Oracle)
      returns (outcome: Spec.Outcome)
      modifies c, b
      ensures (Seen(c, b), outcome) == Spec.Decide(cfg, old(Seen(c, b)), pr, sha, o)
      ensures c.lastUpdatedAt == old(c.lastUpdatedAt)
    {
      var overridden := TryOverride(c, b, pr, sha, o);
      if overridden {
        return Spec.Outcome(pr.updatedAt, true, false);
      }
      outcome := MechanicalOverrideOutcome(c, b, pr, sha, o);
      if outcome.handled {
        return;
      }
      var taskID := Spec.ReviewTask(HeadKey(pr.key, sha));
      if taskID in c.headSHAs {
        b.newHeadSHAs := b.newHeadSHAs[taskID := sha];
        return Spec.Outcome(pr.updatedAt, true, false);
      }
      outcome := PublishReviewOutcome(c, b, pr, sha, o);
    }

    method ProcessPRs(c: Cursor, allPRs: seq<Spec.Item>) returns (maxUpdatedAt: Time, b: Batch)
      modifies c
      ensures fresh(b)
      ensures (c.View(), maxUpdatedAt, b.effects) == Spec.ProcessPRs(cfg, old(c.View()), allPRs)
    {
      b := new Batch();
      maxUpdatedAt := c.lastUpdatedAt;
      var deferFloor: Option<Time> := None;
      var i := 0;
      while i < |allPRs|
        invariant 0 <= i <= |allPRs| && fresh(b) && c.lastUpdatedAt == old(c.lastUpdatedAt)
        invariant Spec.VisitAll(cfg, Spec.Loop(Seen(c, b), maxUpdatedAt, deferFloor), allPRs[i..])
               == Spec.VisitAll(cfg, Spec.StartLoop(old(c.View())), allPRs)
      {
        if allPRs[i].cancelled {
          return;
        }
        var pr := allPRs[i].pr;
        var outcome := ProcessPR(c, b, pr, allPRs[i].oracle);
        if outcome.deferred {
          if deferFloor.None? || pr.updatedAt < deferFloor.value {
            deferFloor := Some(pr.updatedAt);
          }
        }
        if outcome.handled && outcome.updatedAt > maxUpdatedAt {
          maxUpdatedAt := outcome.updatedAt;
        }
        assert allPRs[i..][1..] == allPRs[i + 1..];
        i := i + 1;
      }
      if deferFloor.Some? && maxUpdatedAt > deferFloor.value {
        maxUpdatedAt := deferFloor.value;
      }
      c.headSHAs := b.newHeadSHAs;
    }

    /** Returns the cursor as it is stored after the poll, and the batch's effects. */
    method Poll(stored: Spec.Cursor, input: Spec.PollInput) returns (saved: Spec.Cursor, effects: seq<Spec.Effect>)
      ensures (saved, effects) == Spec.Poll(cfg, stored, input)
    {
      if !input.searchOk {
        return stored, [];
      }
      var cursor := new Cursor(stored);
      var maxUpdatedAt, batch := ProcessPRs(cursor, input.items);
      if maxUpdatedAt > cursor.lastUpdatedAt {
        cursor.lastUpdatedAt := maxUpdatedAt;
      }
      saved := if input.saveOk then cursor.View() else stored;
      effects := batch.effects;
    }
  }
}
