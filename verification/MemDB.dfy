/**
 pkg/memdb.go: a bucket of the in-process store and its iterator, which walks a sorted snapshot of the keys
 while the bucket behind it stays live.
 */
module MemDB {
  import opened Common

  /* ---------- the order of keys ---------- */

  /** Go's order on strings. */
  predicate Less(a: string, b: string) {
    b != [] && (a == [] || a[0] < b[0] || (a[0] == b[0] && Less(a[1..], b[1..])))
  }

  lemma {:induction false} LessIsTotal(a: string, b: string)
    ensures Less(a, b) || a == b || Less(b, a)
    ensures !(Less(a, b) && Less(b, a))
    ensures !Less(a, a)
  {
    if a != [] {
      LessIsTotal(a[1..], if b == [] then [] else b[1..]);
      assert a == [a[0]] + a[1..];
    }
    assert b != [] ==> b == [b[0]] + b[1..];
  }

  lemma {:induction false} LessIsTransitive(a: string, b: string, c: string)
    requires Less(a, b) && Less(b, c)
    ensures Less(a, c)
  {
    if a != [] && a[0] == b[0] == c[0] {
      LessIsTransitive(a[1..], b[1..], c[1..]);
    }
  }

  /** The order is decided where two keys first differ; a proper beginning comes first. */
  lemma {:induction false} LessAtFirstDifference(a: string, b: string)
    ensures Less(a, b) <==> exists n :: Differ(a, b, n)
  {
    if a != [] && b != [] && a[0] == b[0] {
      LessAtFirstDifference(a[1..], b[1..]);
      if n :| Differ(a[1..], b[1..], n) {
        assert a[..n + 1] == [a[0]] + a[1..][..n] && b[..n + 1] == [b[0]] + b[1..][..n];
        assert Differ(a, b, n + 1);
      }
      if n :| Differ(a, b, n) {
        assert n > 0 && a[1..][..n - 1] == a[..n][1..] && b[1..][..n - 1] == b[..n][1..];
        assert Differ(a[1..], b[1..], n - 1);
      }
    } else if Less(a, b) {
      assert Differ(a, b, 0);
    } else if n :| Differ(a, b, n) {
      DifferAfterFirst(a, b, n);
    }
  }

  lemma DifferAfterFirst(a: string, b: string, n: int)
    ensures Differ(a, b, n) ==> n == 0 || (a != [] && b != [] && a[0] == b[0])
  {
    if Differ(a, b, n) && n > 0 {
      assert a[..n][0] == b[..n][0];
    }
  }

  /** The keys agree up to `n`, and there `a` ends or has the smaller character. */
  predicate Differ(a: string, b: string, n: int) {
    0 <= n <= |a| && n < |b| && a[..n] == b[..n] && (n == |a| || a[n] < b[n])
  }

  /** Before, in the direction of travel. */
  predicate Before(a: string, b: string, reverse: bool) {
    if reverse then Less(b, a) else Less(a, b)
  }

  predicate Ordered(keys: seq<string>, reverse: bool) {
    forall i, j :: 0 <= i < j < |keys| ==> Before(keys[i], keys[j], reverse)
  }

  function Elements(keys: seq<string>): set<string> {
    set k | k in keys
  }

  /** Strictly ordered keys are distinct, and a set of keys has only one such order: the snapshot does not
      depend on the order in which Go ranges over the map. */
  lemma {:induction false} OrderIsUnique(a: seq<string>, b: seq<string>, reverse: bool)
    requires Ordered(a, reverse) && Ordered(b, reverse) && Elements(a) == Elements(b)
    ensures a == b
  {
    if a == [] || b == [] {
      NoElements(a);
      NoElements(b);
    } else {
      HeadsAgree(a, b, reverse);
      TailElements(a, reverse);
      TailElements(b, reverse);
      OrderIsUnique(a[1..], b[1..], reverse);
      assert a == [a[0]] + a[1..] && b == [b[0]] + b[1..];
    }
  }

  lemma NoElements(keys: seq<string>)
    ensures Elements(keys) == {} <==> keys == []
  {
    if keys != [] {
      assert keys[0] in Elements(keys);
    }
  }

  lemma HeadsAgree(a: seq<string>, b: seq<string>, reverse: bool)
    requires Ordered(a, reverse) && Ordered(b, reverse) && Elements(a) == Elements(b) && a != [] && b != []
    ensures a[0] == b[0]
  {
    assert a[0] in Elements(b) && b[0] in Elements(a);
    var i :| 0 <= i < |b| && b[i] == a[0];
    var j :| 0 <= j < |a| && a[j] == b[0];
    LessIsTotal(a[0], b[0]);
  }

  lemma TailElements(a: seq<string>, reverse: bool)
    requires Ordered(a, reverse) && a != []
    ensures Elements(a[1..]) == Elements(a) - {a[0]}
  {
    LessIsTotal(a[0], a[0]);
    forall k | k in Elements(a) && k != a[0]
      ensures k in Elements(a[1..])
    {
      var i :| 0 <= i < |a| && a[i] == k;
      assert a[1..][i - 1] == k;
    }
    assert forall i :: 1 <= i < |a| ==> Before(a[0], a[i], reverse);
  }

  /** A key between the keys before it and those after it keeps the order. */
  lemma InsertedInOrder(front: seq<string>, key: string, back: seq<string>, reverse: bool)
    requires Ordered(front + back, reverse)
    requires forall i :: 0 <= i < |front| ==> Before(front[i], key, reverse)
    requires forall i :: 0 <= i < |back| ==> Before(key, back[i], reverse)
    ensures Ordered(front + [key] + back, reverse)
  {
    var r, n := front + [key] + back, |front|;
    forall i, j | 0 <= i < j < |r|
      ensures Before(r[i], r[j], reverse)
    {
      var s := front + back;
      if i < n && j < n {
        assert r[i] == s[i] && r[j] == s[j];
      } else if i < n && n < j {
        assert r[i] == s[i] && r[j] == s[j - 1];
      } else if n < i {
        assert r[i] == s[i - 1] && r[j] == s[j - 1];
      }
    }
  }

  lemma InsertedElements(front: seq<string>, key: string, back: seq<string>)
    ensures Elements(front + [key] + back) == Elements(front + back) + {key}
  {
    assert forall k :: k in front + [key] + back <==> k in front + back || k == key;
  }

  lemma AfterTheGap(keys: seq<string>, i: nat, key: string, reverse: bool)
    requires Ordered(keys, reverse) && key !in keys && i < |keys| && !Before(keys[i], key, reverse)
    ensures forall j :: i <= j < |keys| ==> Before(key, keys[j], reverse)
  {
    LessIsTotal(keys[i], key);
    forall j | i < j < |keys|
      ensures Before(key, keys[j], reverse)
    {
      if reverse { LessIsTransitive(keys[j], keys[i], key); } else { LessIsTransitive(key, keys[i], keys[j]); }
    }
  }

  /** Puts one key into its place, the step of an insertion sort. */
  method Insert(keys: seq<string>, key: string, reverse: bool) returns (r: seq<string>)
    requires Ordered(keys, reverse) && key !in keys
    ensures Ordered(r, reverse) && Elements(r) == Elements(keys) + {key}
  {
    var i := 0;
    while i < |keys| && Before(keys[i], key, reverse)
      invariant 0 <= i <= |keys|
      invariant forall j :: 0 <= j < i ==> Before(keys[j], key, reverse)
    {
      i := i + 1;
    }
    if i < |keys| {
      AfterTheGap(keys, i, key, reverse);
    }
    var front, back := keys[..i], keys[i..];
    assert keys == front + back;
    InsertedInOrder(front, key, back, reverse);
    InsertedElements(front, key, back);
    r := front + [key] + back;
  }

  /** The keys of a map in order, whatever order the map yields them in. */
  method SortedKeys<V>(values: map<string, V>, reverse: bool) returns (keys: seq<string>)
    ensures Ordered(keys, reverse) && Elements(keys) == values.Keys
  {
    keys := [];
    var rest := values.Keys;
    while rest != {}
      invariant rest <= values.Keys && Ordered(keys, reverse) && Elements(keys) == values.Keys - rest
      decreases |rest|
    {
      var key :| key in rest;
      assert key !in Elements(keys);
      keys := Insert(keys, key, reverse);
      rest := rest - {key};
    }
  }

  /* ---------- the bucket and its iterator ---------- */

  class MemBucket<V> {
    var values: map<string, V>

    constructor ()
      ensures values == map[]
    {
      values := map[];
    }

    method Put(key: string, value: V)
      modifies this
      ensures values == old(values)[key := value]
    {
      values := values[key := value];
    }

    method Get(key: string) returns (item: Option<V>)
      ensures item == if key in values then Some(values[key]) else None
    {
      item := if key in values then Some(values[key]) else None;
    }

    method Delete(key: string)
      modifies this
      ensures values == old(values) - {key}
    {
      values := values - {key};
    }

    method Iterator(reverse: bool) returns (it: MemIterator<V>)
      ensures fresh(it) && it.bucket == this && it.Walks(values.Keys, reverse) && it.index == 0
    {
      var keys := SortedKeys(values, reverse);
      it := new MemIterator(this, keys, reverse);
    }
  }

  class MemIterator<V> {
    const bucket: MemBucket<V>
    const keys: seq<string>
    const reverse: bool
    var index: int

    constructor (bucket: MemBucket<V>, keys: seq<string>, reverse: bool)
      ensures this.bucket == bucket && this.keys == keys && this.reverse == reverse && index == 0
    {
      this.bucket, this.keys, this.reverse, index := bucket, keys, reverse, 0;
    }

    /** The iterator's snapshot is exactly these keys, each once, in order. */
    predicate Walks(snapshot: set<string>, reverse: bool) {
      Ordered(keys, reverse) && Elements(keys) == snapshot && this.reverse == reverse
    }

    predicate Valid()
      reads this
    {
      0 <= index < |keys|
    }

    /** The item under the cursor: a key of the snapshot with whatever the bucket holds for it now. */
    method Item() returns (item: Option<(string, Option<V>)>)
      ensures item == if !Valid() then None
                      else var key := keys[index];
                           Some((key, if key in bucket.values then Some(bucket.values[key]) else None))
    {
      if !Valid() {
        return None;
      }
      var key := keys[index];
      item := Some((key, if key in bucket.values then Some(bucket.values[key]) else None));
    }

    method Next()
      modifies this
      ensures index == old(index) + 1
    {
      index := index + 1;
    }

    method Rewind()
      modifies this
      ensures index == 0
    {
      index := 0;
    }

    /** Positions at the first key that is not before `key`, by binary search. */
    method Seek(key: string)
      requires Ordered(keys, reverse)
      modifies this
      ensures 0 <= index <= |keys|
      ensures forall i :: 0 <= i < index ==> Before(keys[i], key, reverse)
      ensures forall i :: index <= i < |keys| ==> !Before(keys[i], key, reverse)
    {
      var low, high := 0, |keys|;
      while low < high
        invariant 0 <= low <= high <= |keys|
        invariant forall i :: 0 <= i < low ==> Before(keys[i], key, reverse)
        invariant forall i :: high <= i < |keys| ==> !Before(keys[i], key, reverse)
      {
        var mid := low + (high - low) / 2;
        SeekStep(keys, key, reverse, mid);
        if !Before(keys[mid], key, reverse) {
          high := mid;
        } else {
          low := mid + 1;
        }
      }
      index := low;
    }
  }

  lemma SeekStep(keys: seq<string>, key: string, reverse: bool, mid: nat)
    requires Ordered(keys, reverse) && mid < |keys|
    ensures Before(keys[mid], key, reverse) ==> forall i :: 0 <= i < mid ==> Before(keys[i], key, reverse)
    ensures !Before(keys[mid], key, reverse) ==> forall i :: mid <= i < |keys| ==> !Before(keys[i], key, reverse)
  {
    forall i | 0 <= i < mid && Before(keys[mid], key, reverse)
      ensures Before(keys[i], key, reverse)
    {
      if reverse { LessIsTransitive(key, keys[mid], keys[i]); } else { LessIsTransitive(keys[i], keys[mid], key); }
    }
    forall i | mid < i < |keys| && Before(keys[i], key, reverse)
      ensures Before(keys[mid], key, reverse)
    {
      if reverse { LessIsTransitive(key, keys[i], keys[mid]); } else { LessIsTransitive(keys[mid], keys[i], key); }
    }
  }
}
