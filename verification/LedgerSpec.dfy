/**
 The two in-memory ledgers as functions on the contents of their buckets: the override ledger
 (pkg/override_ledger.go) and the retry guard (pkg/retry_guard.go). Both forget old records on every write;
 the lemmas say that no reader can tell.
 */
module LedgerSpec {
  import opened Common

  /** One hour, in nanoseconds: `overrideSuppressionWindow` and `retryGuardStaleAfter`. */
  const WINDOW: Time := 3_600_000_000_000

  /** A stored value: a record, or bytes that do not decode to one. */
  datatype Record = Record(taskID: string, publishedAt: Time) | Corrupt

  type Bucket = map<string, Record>

  predicate Keeps(r: Record, now: Time) {
    r.Record? && now - r.publishedAt <= WINDOW
  }

  function Pruned(b: Bucket, now: Time): Bucket {
    map key | key in b && Keeps(b[key], now) :: b[key]
  }

  /** One `Record` call: prune, then put. */
  function Recorded(b: Bucket, key: string, taskID: string, now: Time): Bucket {
    Pruned(b, now)[key := Record(taskID, now)]
  }

  /** A publish time in the future counts as fresh. */
  predicate Fresh(r: Record, now: Time) {
    r.Record? && (now - r.publishedAt < 0 || now - r.publishedAt <= WINDOW)
  }

  /** The override ledger's answer. */
  predicate Suppressed(b: Bucket, key: string, now: Time) {
    key in b && Fresh(b[key], now)
  }

  /** The guard's clamped record age. */
  function Age(publishedAt: Time, now: Time): Time {
    if now - publishedAt < 0 then 0 else now - publishedAt
  }

  datatype Reason = Created | ForceOverrodeVerdict | StaleRecordIgnored | SkippedInflight

  /** The guard's answer; a record that does not decode is an error. */
  datatype Check = Check(reason: Reason, existingTaskID: string, recordAge: Time) | DecodeError {
    predicate Publishes() {
      Check? && !reason.SkippedInflight?
    }
  }

  datatype Review = Review(commitID: string, authorLogin: string)

  /** Some configured reviewer has a verdict at this commit. */
  predicate HasVerdict(reviews: seq<Review>, sha: string, isReviewer: string -> bool) {
    exists i :: 0 <= i < |reviews| && reviews[i].commitID == sha && isReviewer(reviews[i].authorLogin)
  }

  /** What the guard decides on; `reviews` is `None` when the lookup fails. */
  datatype Lookup = Lookup(reviews: Option<seq<Review>>, sha: string, isReviewer: string -> bool)

  function Decide(record: Record, now: Time, l: Lookup): Check
    requires record.Record?
  {
    var age := Age(record.publishedAt, now);
    if age > WINDOW then Check(StaleRecordIgnored, "", age)
    else if l.reviews.None? then Check(Created, "", 0)
    else if HasVerdict(l.reviews.value, l.sha, l.isReviewer) then Check(ForceOverrodeVerdict, "", age)
    else Check(SkippedInflight, record.taskID, age)
  }

  function Guard(b: Bucket, key: string, now: Time, l: Lookup): Check {
    if key !in b then Check(Created, "", 0)
    else if b[key].Corrupt? then DecodeError
    else Decide(b[key], now, l)
  }

  /* ---------- runs of Record calls ---------- */

  datatype Call = Call(key: string, taskID: string, at: Time)

  /** The clock does not go back, neither between the calls nor after the last one. */
  predicate Timely(log: seq<Call>, now: Time) {
    (forall i, j :: 0 <= i < j < |log| ==> log[i].at <= log[j].at)
    && (forall i :: 0 <= i < |log| ==> log[i].at <= now)
  }

  /** The bucket after a run of calls. */
  function Ledger(start: Bucket, log: seq<Call>): Bucket {
    if log == [] then start
    else
      var n := |log| - 1;
      Recorded(Ledger(start, log[..n]), log[n].key, log[n].taskID, log[n].at)
  }

  /** The same run on a ledger that never forgets. */
  function Archive(start: Bucket, log: seq<Call>): Bucket {
    if log == [] then start
    else
      var n := |log| - 1;
      Archive(start, log[..n])[log[n].key := Record(log[n].taskID, log[n].at)]
  }

  /** The ledger holds what the archive holds, except values that no reader may trust any more. */
  predicate Forgets(ledger: Bucket, archive: Bucket, now: Time) {
    (forall key :: key in ledger ==> key in archive && ledger[key] == archive[key])
    && (forall key :: key in archive && key !in ledger ==> !Keeps(archive[key], now))
  }

  lemma {:induction false} LedgerForgetsOnlyStale(start: Bucket, log: seq<Call>, now: Time)
    requires Timely(log, now)
    ensures Forgets(Ledger(start, log), Archive(start, log), now)
  {
    if log != [] {
      var n := |log| - 1;
      LedgerForgetsOnlyStale(start, log[..n], log[n].at);
    }
  }

  /** Pruning cannot be seen in the override ledger: whatever the bucket held at first, corrupt values
      included, it answers as if it had never pruned. */
  lemma {:induction false} PruningIsInvisibleToSuppressed(start: Bucket, log: seq<Call>, key: string, now: Time)
    requires Timely(log, now)
    ensures Suppressed(Ledger(start, log), key, now) == Suppressed(Archive(start, log), key, now)
  {
    LedgerForgetsOnlyStale(start, log, now);
  }

  predicate RecordedWithin(log: seq<Call>, key: string, since: Time) {
    exists i :: 0 <= i < |log| && log[i].key == key && since <= log[i].at
  }

  /** The archive holds the newest call for each key. */
  lemma {:induction false} ArchiveHoldsNewest(log: seq<Call>, key: string, now: Time)
    requires Timely(log, now)
    ensures var b := Archive(map[], log);
            && (key in b ==>
                  b[key].Record?
                  && exists i :: 0 <= i < |log| && log[i] == Call(key, b[key].taskID, b[key].publishedAt))
            && (forall i :: 0 <= i < |log| && log[i].key == key ==> key in b && log[i].at <= b[key].publishedAt)
  {
    if log != [] {
      var n := |log| - 1;
      ArchiveHoldsNewest(log[..n], key, log[n].at);
      var before := Archive(map[], log[..n]);
      if log[n].key != key && key in before {
        var i :| 0 <= i < n && log[..n][i] == Call(key, before[key].taskID, before[key].publishedAt);
        assert log[i] == log[..n][i];
      }
      forall i | 0 <= i < |log| && log[i].key == key
        ensures key in Archive(map[], log) && log[i].at <= Archive(map[], log)[key].publishedAt
      {
        assert i < n ==> log[..n][i] == log[i];
      }
    }
  }

  /** From an empty ledger a head is suppressed exactly while some override was recorded for it in the last
      hour; so suppression always begins with a record and always ends. */
  lemma {:induction false} SuppressedIffRecordedWithinTheHour(log: seq<Call>, key: string, now: Time)
    requires Timely(log, now)
    ensures Suppressed(Ledger(map[], log), key, now) <==> RecordedWithin(log, key, now - WINDOW)
  {
    PruningIsInvisibleToSuppressed(map[], log, key, now);
    ArchiveHoldsNewest(log, key, now);
  }

  /** Pruning changes the guard's answer in exactly two ways: a stale record is reported as no record, and a
      corrupt value stops being an error once any publish was recorded. */
  lemma {:induction false} PruningAndTheGuard(start: Bucket, log: seq<Call>, key: string, now: Time, l: Lookup)
    requires Timely(log, now)
    ensures var pruned, kept := Guard(Ledger(start, log), key, now, l), Guard(Archive(start, log), key, now, l);
            pruned == if key in Ledger(start, log) then kept
                      else if kept.DecodeError? || kept.reason.StaleRecordIgnored? then Check(Created, "", 0)
                      else kept
  {
    LedgerForgetsOnlyStale(start, log, now);
  }

  /** A corrupt value survives in the ledger exactly until the first publish for any head is recorded, and in
      the archive until one is recorded for its own. */
  lemma {:induction false} CorruptUntil(start: Bucket, log: seq<Call>, key: string)
    ensures var b := Ledger(start, log);
            key in b && b[key].Corrupt? <==> log == [] && key in start && start[key].Corrupt?
    ensures var b := Archive(start, log);
            key in b && b[key].Corrupt? <==>
              key in start && start[key].Corrupt? && forall i :: 0 <= i < |log| ==> log[i].key != key
  {
    if log != [] {
      var n := |log| - 1;
      CorruptUntil(start, log[..n], key);
      assert forall i :: 0 <= i < n ==> log[..n][i] == log[i];
    }
  }

  /** The guard acts the same on the pruned ledger and on the archive, except on a corrupt value whose error
      the first recorded publish of another head turns into a publish. */
  lemma {:induction false} PruningIsInvisibleToTheGuardIff(start: Bucket, log: seq<Call>, key: string, now: Time,
                                                           l: Lookup)
    requires Timely(log, now)
    ensures Guard(Ledger(start, log), key, now, l).Publishes() == Guard(Archive(start, log), key, now, l).Publishes()
            <==> !(key in start && start[key].Corrupt? && log != [] && forall i :: 0 <= i < |log| ==> log[i].key != key)
  {
    PruningAndTheGuard(start, log, key, now, l);
    CorruptUntil(start, log, key);
  }

  /** From an empty ledger a forced review is refused exactly when a publish for the head was recorded in the
      last hour, the reviews can be read, and none of them is a verdict at the head. */
  lemma {:induction false} RefusedIffInFlight(log: seq<Call>, key: string, now: Time, l: Lookup)
    requires Timely(log, now)
    ensures var check := Guard(Ledger(map[], log), key, now, l);
            && check.Check?
            && (!check.Publishes() <==> RecordedWithin(log, key, now - WINDOW) && l.reviews.Some?
                                        && !HasVerdict(l.reviews.value, l.sha, l.isReviewer))
  {
    LedgerForgetsOnlyStale(map[], log, now);
    ArchiveHoldsNewest(log, key, now);
    CorruptUntil(map[], log, key);
  }

  /** The newest publish recorded for the key is this one. */
  predicate Newest(log: seq<Call>, key: string, taskID: string, at: Time) {
    (exists i :: 0 <= i < |log| && log[i] == Call(key, taskID, at))
    && forall i :: 0 <= i < |log| && log[i].key == key ==> log[i].at <= at
  }

  /** What the guard says after any run of publishes, and why: within the hour of one, it names the newest when it
      refuses, and the verdict when a reviewer's verdict at the head lets the command pass; without one it is never in
      flight, and an unreadable lookup never refuses. */
  lemma {:induction false} GuardSays(log: seq<Call>, key: string, now: Time, l: Lookup)
    requires Timely(log, now)
    ensures var check, recent := Guard(Ledger(map[], log), key, now, l), RecordedWithin(log, key, now - HOUR);
            var verdict := l.reviews.Some?
              && exists i :: (0 <= i < |l.reviews.value|
                              && l.reviews.value[i].commitID == l.sha && l.isReviewer(l.reviews.value[i].authorLogin));
            && check.Check?
            && (check.reason.SkippedInflight? <==> recent && l.reviews.Some? && !verdict)
            && (check.reason.ForceOverrodeVerdict? <==> recent && verdict)
            && (check.reason.StaleRecordIgnored? ==> !recent)
            && (check.reason.SkippedInflight? ==> Newest(log, key, check.existingTaskID, now - check.recordAge))
  {
    LedgerForgetsOnlyStale(map[], log, now);
    ArchiveHoldsNewest(log, key, now);
    CorruptUntil(map[], log, key);
    assert WINDOW == HOUR;
  }

  /** At any clock, one that went back included, a decodable record counts until an hour after its publish, one from the
      future too, and the guard never reports a negative age; a value that does not decode suppresses nothing and makes
      the guard fail. */
  lemma AnswersAtAnyClock(b: Bucket, key: string, now: Time, l: Lookup)
    ensures Suppressed(b, key, now) <==> key in b && b[key].Record? && now <= b[key].publishedAt + HOUR
    ensures Guard(b, key, now, l).DecodeError? <==> key in b && b[key].Corrupt?
    ensures key in b && b[key].Record? ==>
              var check, at := Guard(b, key, now, l), b[key].publishedAt;
              && (check.reason.StaleRecordIgnored? <==> at + HOUR < now)
              && (!check.reason.Created? ==> check.recordAge == Max(0, now - at))
  {
    assert WINDOW == HOUR;
  }
}
