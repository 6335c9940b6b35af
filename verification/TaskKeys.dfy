/**
 pkg/taskid.go: the keys from which task identifiers are derived. A decoder that gives back every legal task
 shows that no two tasks share a key; hashing the key to a UUID is not part of this model.
 */
module TaskKeys {
  import opened Common

  /* ---------- decimal numbers ---------- */

  function Digit(d: int): char
    requires 0 <= d < 10
  {
    "0123456789"[d]
  }

  predicate IsDigit(c: char) {
    '0' <= c <= '9'
  }

  function Decimal(n: nat): (s: string)
    ensures s != "" && forall i :: 0 <= i < |s| ==> IsDigit(s[i])
  {
    if n < 10 then [Digit(n)] else Decimal(n / 10) + [Digit(n % 10)]
  }

  /** The `%d` verb. */
  function Itoa(n: int): string {
    if n < 0 then "-" + Decimal(-n) else Decimal(n)
  }

  function Value(s: string): int {
    if s == "" then 0 else 10 * Value(s[..|s| - 1]) + (s[|s| - 1] as int - '0' as int)
  }

  function Atoi(s: string): int {
    if s != "" && s[0] == '-' then -Value(s[1..]) else Value(s)
  }

  lemma {:induction false} ValueOfDecimal(n: nat)
    ensures Value(Decimal(n)) == n
  {
    if n >= 10 {
      ValueOfDecimal(n / 10);
      assert Decimal(n)[..|Decimal(n)| - 1] == Decimal(n / 10);
    }
  }

  lemma AtoiOfItoa(n: int)
    ensures Atoi(Itoa(n)) == n
  {
    if n < 0 {
      ValueOfDecimal(-n);
      assert ("-" + Decimal(-n))[1..] == Decimal(-n);
    } else {
      ValueOfDecimal(n);
    }
  }

  /* ---------- keys ---------- */

  /** What a task is derived for. */
  datatype Task = Review(head: HeadKey) | Override(head: HeadKey) | Forced(head: HeadKey, nonce: string)

  /** `owner/repo#number@sha`; also the key of both ledgers. */
  function HeadString(h: HeadKey): string {
    h.pr.owner + "/" + h.pr.repo + "#" + Itoa(h.pr.number) + "@" + h.sha
  }

  const OVERRIDE := "#override"

  function Key(t: Task): string {
    match t
    case Review(h) => HeadString(h)
    case Override(h) => HeadString(h) + OVERRIDE
    case Forced(h, nonce) => HeadString(h) + "!" + nonce
  }

  predicate Avoids(s: string, cs: string) {
    forall i :: 0 <= i < |s| ==> s[i] !in cs
  }

  /** What GitHub and the watcher supply: no separator occurs in an owner, a repository or a commit. The nonce
      is not restricted. */
  predicate Legal(t: Task) {
    Avoids(t.head.pr.owner, "/") && Avoids(t.head.pr.repo, "#") && Avoids(t.head.sha, "#!")
  }

  /* ---------- the decoder ---------- */

  /** Cuts at the first of the separators; the second part begins with it, or is empty. */
  function Cut(s: string, cs: string): (parts: (string, string))
    ensures parts.0 + parts.1 == s
  {
    if s == "" || s[0] in cs then ("", s)
    else
      var rest := Cut(s[1..], cs);
      ([s[0]] + rest.0, rest.1)
  }

  lemma {:induction false} CutAt(a: string, b: string, cs: string)
    requires Avoids(a, cs) && (b == "" || b[0] in cs)
    ensures Cut(a + b, cs) == (a, b)
  {
    if a == "" {
      assert a + b == b;
    } else {
      assert (a + b)[1..] == a[1..] + b;
      CutAt(a[1..], b, cs);
      assert [a[0]] + a[1..] == a;
    }
  }

  function Tail(s: string): string {
    if s == "" then "" else s[1..]
  }

  function Decode(key: string): Task {
    var (owner, k1) := Cut(key, "/");
    var (repo, k2) := Cut(Tail(k1), "#");
    var (number, k3) := Cut(Tail(k2), "@");
    var (sha, k4) := Cut(Tail(k3), "#!");
    var h := HeadKey(PRKey(owner, repo, Atoi(number)), sha);
    if k4 == "" then Review(h) else if k4[0] == '#' then Override(h) else Forced(h, k4[1..])
  }

  lemma {:induction false} DecimalAvoids(n: int)
    ensures Avoids(Itoa(n), "@")
  {
  }

  /** The part of the key behind the head. */
  function Ending(t: Task): string {
    match t
    case Review(_) => ""
    case Override(_) => OVERRIDE
    case Forced(_, nonce) => "!" + nonce
  }

  lemma Regroup(a: string, b: string, c: string)
    ensures a + b + c == a + (b + c)
  {
  }

  lemma KeyInParts(t: Task)
    ensures var h := t.head;
            Key(t) == h.pr.owner + ("/" + (h.pr.repo + ("#" + (Itoa(h.pr.number) + ("@" + (h.sha + Ending(t)))))))
  {
    var h := t.head;
    var front := h.pr.owner + "/" + h.pr.repo + "#" + Itoa(h.pr.number) + "@";
    KeyIsHeadAndEnding(t);
    Regroup(front, h.sha, Ending(t));
    HeadInParts(h.pr.owner, h.pr.repo, Itoa(h.pr.number), h.sha + Ending(t));
  }

  lemma KeyIsHeadAndEnding(t: Task)
    ensures Key(t) == HeadString(t.head) + Ending(t)
  {
    if t.Forced? {
      Regroup(HeadString(t.head), "!", t.nonce);
    }
  }

  lemma HeadInParts(owner: string, repo: string, number: string, rest: string)
    ensures owner + "/" + repo + "#" + number + "@" + rest
         == owner + ("/" + (repo + ("#" + (number + ("@" + rest)))))
  {
    Regroup(owner + "/" + repo + "#" + number, "@", rest);
    Regroup(owner + "/" + repo + "#", number, "@" + rest);
    Regroup(owner + "/" + repo, "#", number + ("@" + rest));
    Regroup(owner + "/", repo, "#" + (number + ("@" + rest)));
    Regroup(owner, "/", repo + ("#" + (number + ("@" + rest))));
  }

  /** One field is read back from the front of a key. */
  lemma FieldOfKey(field: string, separator: string, rest: string)
    requires |separator| == 1 && Avoids(field, separator)
    ensures var (f, r) := Cut(field + (separator + rest), separator); f == field && Tail(r) == rest
  {
    CutAt(field, separator + rest, separator);
    assert Tail(separator + rest) == rest;
  }

  lemma EndingOfKey(t: Task)
    requires Legal(t)
    ensures Cut(t.head.sha + Ending(t), "#!") == (t.head.sha, Ending(t))
    ensures var e := Ending(t);
            t == if e == "" then Review(t.head) else if e[0] == '#' then Override(t.head) else Forced(t.head, e[1..])
  {
    CutAt(t.head.sha, Ending(t), "#!");
    if t.Forced? {
      assert ("!" + t.nonce)[1..] == t.nonce;
    }
  }

  /** Every legal task can be read back from its key. */
  lemma DecodeOfKey(t: Task)
    requires Legal(t)
    ensures Decode(Key(t)) == t
  {
    var h := t.head;
    var tail := h.sha + Ending(t);
    KeyInParts(t);
    FieldOfKey(h.pr.owner, "/", h.pr.repo + ("#" + (Itoa(h.pr.number) + ("@" + tail))));
    FieldOfKey(h.pr.repo, "#", Itoa(h.pr.number) + ("@" + tail));
    DecimalAvoids(h.pr.number);
    FieldOfKey(Itoa(h.pr.number), "@", tail);
    EndingOfKey(t);
    AtoiOfItoa(h.pr.number);
  }

  /** Two legal tasks have the same key only if they are the same task: review, override and forced review of
      one head are three keys, and so are two heads or two nonces. */
  lemma KeysAreDistinct(a: Task, b: Task)
    requires Legal(a) && Legal(b)
    ensures Key(a) == Key(b) <==> a == b
  {
    DecodeOfKey(a);
    DecodeOfKey(b);
  }
}
