/**
 pkg/override_ledger.go and pkg/retry_guard.go in their own form: both write one bucket of the in-process
 store and prune it while walking it.
 */
module Ledgers {
  import opened Common
  import opened MemDB
  import Spec = LedgerSpec

  /** A bucket of which the visited keys are pruned. */
  ghost function PrunedAt(b: Spec.Bucket, visited: seq<string>, now: Time): Spec.Bucket {
    map key | key in b && (key in visited ==> Spec.Keeps(b[key], now)) :: b[key]
  }

  lemma PrunedAtOneMore(b: Spec.Bucket, visited: seq<string>, key: string, now: Time)
    requires key in b && key !in visited
    ensures key in PrunedAt(b, visited, now) && PrunedAt(b, visited, now)[key] == b[key]
    ensures PrunedAt(b, visited + [key], now)
         == if Spec.Keeps(b[key], now) then PrunedAt(b, visited, now) else PrunedAt(b, visited, now) - {key}
  {
  }

  lemma PrunedAtAll(b: Spec.Bucket, visited: seq<string>, now: Time)
    requires Elements(visited) == b.Keys
    ensures PrunedAt(b, visited, now) == Spec.Pruned(b, now)
  {
    assert forall key :: key in b ==> key in Elements(visited);
  }

  /** Deletes every stale or undecodable record while walking the bucket. `visited` is the walk: every key of
      the snapshot, each exactly once, in order. */
  method Prune(bucket: MemBucket<Spec.Record>, now: Time) returns (ghost visited: seq<string>)
    modifies bucket
    ensures bucket.values == Spec.Pruned(old(bucket.values), now)
    ensures Ordered(visited, false) && Elements(visited) == old(bucket.values).Keys
  {
    ghost var before := bucket.values;
    var it := bucket.Iterator(false);
    it.Rewind();
    visited := [];
    assert PrunedAt(before, [], now) == before;
    while it.Valid()
      invariant fresh(it) && it.bucket == bucket && it.Walks(before.Keys, false)
      invariant 0 <= it.index <= |it.keys| && visited == it.keys[..it.index]
      invariant bucket.values == PrunedAt(before, visited, now)
      decreases |it.keys| - it.index
    {
      var item := it.Item();
      var key, value := item.value.0, item.value.1;
      assert key in Elements(it.keys);
      NotYetVisited(it.keys, it.index);
      PrunedAtOneMore(before, visited, key, now);
      if value.None? || value.value.Corrupt? || now - value.value.publishedAt > Spec.WINDOW {
        bucket.Delete(key);
      }
      visited := visited + [key];
      it.Next();
    }
    assert visited == it.keys;
    PrunedAtAll(before, visited, now);
  }

  lemma NotYetVisited(keys: seq<string>, i: nat)
    requires Ordered(keys, false) && i < |keys|
    ensures keys[i] !in keys[..i]
  {
    forall j | 0 <= j < i
      ensures keys[j] != keys[i]
    {
      LessIsTotal(keys[j], keys[j]);
      assert Before(keys[j], keys[i], false);
    }
  }

  /** The bucket of a ledger does not exist before the first record. */
  class OverrideLedger {
    var bucket: MemBucket?<Spec.Record>

    constructor ()
      ensures bucket == null
    {
      bucket := null;
    }

    function Contents(): Spec.Bucket
      reads this, bucket
    {
      if bucket == null then map[] else bucket.values
    }

    method Record(key: string, taskID: string, now: Time)
      modifies this, bucket
      ensures Contents() == Spec.Recorded(old(Contents()), key, taskID, now)
      ensures bucket != null && (bucket == old(bucket) || (old(bucket) == null && fresh(bucket)))
    {
      if bucket == null {
        bucket := new MemBucket();
      }
      var _ := Prune(bucket, now);
      bucket.Put(key, Spec.Record.Record(taskID, now));
    }

    method Suppressed(key: string, now: Time) returns (suppressed: bool)
      ensures suppressed == Spec.Suppressed(Contents(), key, now)
    {
      if bucket == null {
        return false;
      }
      var item := bucket.Get(key);
      if item.None? || item.value.Corrupt? {
        return false;
      }
      var age := now - item.value.publishedAt;
      if age < 0 {
        return true;
      }
      return age <= Spec.WINDOW;
    }
  }

  class RetryGuard {
    var bucket: MemBucket?<Spec.Record>
    const isReviewer: string -> bool

    constructor (isReviewer: string -> bool)
      ensures bucket == null && this.isReviewer == isReviewer
    {
      this.isReviewer := isReviewer;
      bucket := null;
    }

    function Contents(): Spec.Bucket
      reads this, bucket
    {
      if bucket == null then map[] else bucket.values
    }

    method Record(key: string, taskID: string, now: Time)
      modifies this, bucket
      ensures Contents() == Spec.Recorded(old(Contents()), key, taskID, now)
      ensures bucket != null && (bucket == old(bucket) || (old(bucket) == null && fresh(bucket)))
    {
      if bucket == null {
        bucket := new MemBucket();
      }
      var _ := Prune(bucket, now);
      bucket.Put(key, Spec.Record.Record(taskID, now));
    }

    method Check(key: string, sha: string, now: Time, reviews: Option<seq<Spec.Review>>) returns (check: Spec.Check)
      ensures check == Spec.Guard(Contents(), key, now, Spec.Lookup(reviews, sha, isReviewer))
    {
      if bucket == null {
        return Spec.Check.Check(Spec.Created, "", 0);
      }
      var item := bucket.Get(key);
      if item.None? {
        return Spec.Check.Check(Spec.Created, "", 0);
      }
      if item.value.Corrupt? {
        return Spec.DecodeError;
      }
      var age := now - item.value.publishedAt;
      if age < 0 {
        age := 0;
      }
      if age > Spec.WINDOW {
        return Spec.Check.Check(Spec.StaleRecordIgnored, "", age);
      }
      check := DecideFresh(item.value, sha, age, reviews);
    }

    method DecideFresh(record: Spec.Record, sha: string, age: Time, reviews: Option<seq<Spec.Review>>)
      returns (check: Spec.Check)
      requires record.Record?
      ensures reviews.None? ==> check == Spec.Check.Check(Spec.Created, "", 0)
      ensures reviews.Some? ==>
                check == if Spec.HasVerdict(reviews.value, sha, isReviewer)
                         then Spec.Check.Check(Spec.ForceOverrodeVerdict, "", age)
                         else Spec.Check.Check(Spec.SkippedInflight, record.taskID, age)
    {
      if reviews.None? {
        return Spec.Check.Check(Spec.Created, "", 0);
      }
      var i := 0;
      while i < |reviews.value|
        invariant 0 <= i <= |reviews.value|
        invariant !Spec.HasVerdict(reviews.value[..i], sha, isReviewer)
      {
        var review := reviews.value[i];
        if review.commitID == sha && isReviewer(review.authorLogin) {
          return Spec.Check.Check(Spec.ForceOverrodeVerdict, "", age);
        }
        i := i + 1;
      }
      assert reviews.value[..i] == reviews.value;
      return Spec.Check.Check(Spec.SkippedInflight, record.taskID, age);
    }
  }
}
