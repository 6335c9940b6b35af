/**
 pkg/filename.go: the slug of a pull request title and the title of its task. Lower-casing is an arbitrary
 function of one character; the segments of a title are ASCII, so characters are bytes.
 */
module Titles {
  import opened Common
  import TaskKeys

  /* ---------- slugs ---------- */

  predicate SlugChar(c: char) {
    'a' <= c <= 'z' || '0' <= c <= '9'
  }

  function ToLower(s: string, lower: char -> char): (r: string)
    ensures |r| == |s| && forall i :: 0 <= i < |s| ==> r[i] == lower(s[i])
  {
    seq(|s|, i requires 0 <= i < |s| => lower(s[i]))
  }

  predicate EndsInWord(s: string) {
    s != "" && SlugChar(s[|s| - 1])
  }

  /** The words of `s`, that is its runs of slug characters, with one hyphen between each two. */
  function Words(s: string): (words: string)
    ensures EndsInWord(s) ==> words != ""
  {
    if s == "" then ""
    else
      var before, c := s[..|s| - 1], s[|s| - 1];
      if !SlugChar(c) then Words(before)
      else if Words(before) == "" || EndsInWord(before) then Words(before) + [c]
      else Words(before) + ['-', c]
  }

  function TrimRight(s: string): string {
    if s != "" && s[|s| - 1] == '-' then TrimRight(s[..|s| - 1]) else s
  }

  function TrimLeft(s: string): string {
    if s != "" && s[0] == '-' then TrimLeft(s[1..]) else s
  }

  /** The words of the lower-cased title, cut to `maxSlug` without a hyphen at the cut. */
  function Slug(title: string, lower: char -> char, maxSlug: nat): string {
    var words := Words(ToLower(title, lower));
    if |words| > maxSlug then TrimRight(words[..maxSlug]) else words
  }

  /** Only slug characters and single hyphens between them. */
  predicate Clean(s: string) {
    && (forall i :: 0 <= i < |s| ==> SlugChar(s[i]) || s[i] == '-')
    && (s != "" ==> s[0] != '-' && s[|s| - 1] != '-')
    && (forall i :: 0 <= i < |s| - 1 ==> s[i] != '-' || s[i + 1] != '-')
  }

  lemma {:induction false} WordsAreClean(s: string)
    ensures Clean(Words(s))
  {
    if s != "" {
      WordsAreClean(s[..|s| - 1]);
    }
  }

  /** What the builder holds after reading `s`: the words so far, and a hyphen for a gap at either end. */
  function Built(s: string): string {
    (if s != "" && !SlugChar(s[0]) then "-" else "") + Words(s)
    + (if s != "" && !EndsInWord(s) && Words(s) != "" then "-" else "")
  }

  /** One step of the builder: a slug character is written, a gap is written once. */
  lemma BuiltOneMore(s: string, c: char)
    ensures Built(s + [c]) == if SlugChar(c) then Built(s) + [c]
                              else if s != "" && !EndsInWord(s) then Built(s)
                              else Built(s) + ['-']
  {
    assert (s + [c])[..|s|] == s;
    if s != "" {
      assert (s + [c])[0] == s[0];
    }
  }

  lemma TrimLeftOf(w: string)
    requires w == "" || w[0] != '-'
    ensures TrimLeft(w) == w && TrimLeft("-" + w) == w
  {
    assert ("-" + w)[1..] == w;
  }

  lemma TrimRightOf(w: string)
    requires w == "" || w[|w| - 1] != '-'
    ensures TrimRight(w) == w && TrimRight(w + "-") == w
  {
    assert (w + "-")[..|w|] == w;
  }

  lemma TrimBoth(w: string, lead: bool, trail: bool)
    requires w == "" || (w[0] != '-' && w[|w| - 1] != '-')
    requires trail ==> w != ""
    ensures TrimRight(TrimLeft((if lead then "-" else "") + w + (if trail then "-" else ""))) == w
  {
    TrimRightOf(w);
    if trail {
      TrimLeftOf(w + "-");
      if lead {
        assert "-" + w + "-" == "-" + (w + "-");
      } else {
        assert "" + w + "-" == w + "-";
      }
    } else {
      TrimLeftOf(w);
      if lead {
        assert "-" + w + "" == "-" + w;
      } else {
        assert "" + w + "" == w;
      }
    }
  }

  lemma TrimmedBuiltIsWords(s: string)
    ensures TrimRight(TrimLeft(Built(s))) == Words(s)
  {
    WordsAreClean(s);
    TrimBoth(Words(s), s != "" && !SlugChar(s[0]), s != "" && !EndsInWord(s) && Words(s) != "");
  }

  lemma BuiltStep(s: string, i: nat)
    requires i < |s|
    ensures Built(s[..i + 1]) == if SlugChar(s[i]) then Built(s[..i]) + [s[i]]
                                 else if i > 0 && !SlugChar(s[i - 1]) then Built(s[..i])
                                 else Built(s[..i]) + ['-']
  {
    assert s[..i + 1] == s[..i] + [s[i]];
    BuiltOneMore(s[..i], s[i]);
  }

  method SlugifyTitle(title: string, lower: char -> char, maxSlug: nat) returns (result: string)
    ensures result == Slug(title, lower, maxSlug)
  {
    var lowered := ToLower(title, lower);
    var b := "";
    var prevHyphen := false;
    var i := 0;
    while i < |lowered|
      invariant 0 <= i <= |lowered|
      invariant b == Built(lowered[..i]) && prevHyphen == (i > 0 && !SlugChar(lowered[i - 1]))
    {
      var r := lowered[i];
      BuiltStep(lowered, i);
      if SlugChar(r) {
        b := b + [r];
        prevHyphen := false;
      } else if !prevHyphen {
        b := b + ['-'];
        prevHyphen := true;
      }
      i := i + 1;
    }
    assert lowered[..i] == lowered;
    TrimmedBuiltIsWords(lowered);
    result := TrimRight(TrimLeft(b));
    if |result| > maxSlug {
      result := TrimRight(result[..maxSlug]);
    }
  }

  /** Trimming a prefix of a clean text leaves a clean text. */
  lemma {:induction false} TrimmedPrefixIsClean(s: string, n: nat)
    requires Clean(s) && n <= |s|
    ensures Clean(TrimRight(s[..n])) && |TrimRight(s[..n])| <= n
  {
    if n > 0 && s[n - 1] == '-' {
      assert s[..n][..n - 1] == s[..n - 1];
      TrimmedPrefixIsClean(s, n - 1);
    }
  }

  /** A slug is clean and not longer than `maxSlug`. */
  lemma SlugIsClean(title: string, lower: char -> char, maxSlug: nat)
    ensures var slug := Slug(title, lower, maxSlug); Clean(slug) && |slug| <= maxSlug
  {
    var words := Words(ToLower(title, lower));
    WordsAreClean(ToLower(title, lower));
    if |words| > maxSlug {
      TrimmedPrefixIsClean(words, maxSlug);
    }
  }

  /** A slug is the words of the title as far as they fit: all of them, or a beginning that lacks at most a hyphen. */
  lemma SlugIsWhatFits(title: string, lower: char -> char, maxSlug: nat)
    ensures var slug, words := Slug(title, lower, maxSlug), Words(ToLower(title, lower));
            if |words| <= maxSlug then slug == words
            else slug <= words && (|slug| == maxSlug || (|slug| == maxSlug - 1 && words[|slug|] == '-'))
  {
    var words := Words(ToLower(title, lower));
    WordsAreClean(ToLower(title, lower));
    if |words| > maxSlug > 0 && words[maxSlug - 1] == '-' {
      assert words[..maxSlug][..maxSlug - 1] == words[..maxSlug - 1];
      TrimRightOf(words[..maxSlug - 1]);
    } else if |words| > maxSlug {
      TrimRightOf(words[..maxSlug]);
    }
  }

  predicate StartsInWord(s: string) {
    s != "" && SlugChar(s[0])
  }

  /** The words of two texts in a row are those of each, with a hyphen between them exactly when there is a gap where
      they meet and words on both sides. */
  lemma {:induction false} WordsInARow(a: string, b: string)
    ensures Words(a + b)
         == Words(a)
            + (if Words(a) != "" && Words(b) != "" && !(EndsInWord(a) && StartsInWord(b)) then "-" else "")
            + Words(b)
    ensures b != "" ==> (EndsInWord(a + b) <==> EndsInWord(b))
  {
    if b == "" {
      assert a + b == a;
    } else {
      var before, c := b[..|b| - 1], b[|b| - 1];
      assert (a + b)[..|a + b| - 1] == a + before;
      WordsInARow(a, before);
      NoWordsNoStart(before);
    }
  }

  lemma {:induction false} NoWordsNoStart(s: string)
    ensures Words(s) == "" ==> !StartsInWord(s) && !EndsInWord(s)
  {
    if s != "" {
      NoWordsNoStart(s[..|s| - 1]);
    }
  }

  predicate KeepsSlugChars(lower: char -> char) {
    lower('-') == '-' && forall c :: SlugChar(c) ==> lower(c) == c
  }

  /** The words of a text that is clean but for a hyphen at its end are the text without that hyphen. */
  lemma {:induction false} WordsOfClean(s: string)
    requires forall i :: 0 <= i < |s| ==> SlugChar(s[i]) || s[i] == '-'
    requires s != "" ==> s[0] != '-'
    requires forall i :: 0 <= i < |s| - 1 ==> s[i] != '-' || s[i + 1] != '-'
    ensures Words(s) == if s != "" && s[|s| - 1] == '-' then s[..|s| - 1] else s
  {
    if s != "" {
      var before, c := s[..|s| - 1], s[|s| - 1];
      WordsOfClean(before);
      assert s == before + [c];
      if c != '-' && before != "" && before[|before| - 1] == '-' {
        assert s[|s| - 2] == '-' && |before| > 1;
        assert before[..|before| - 1] + ['-', c] == s;
      }
    }
  }

  /** Slugging a slug changes nothing. */
  lemma SlugIsIdempotent(title: string, lower: char -> char, maxSlug: nat)
    requires KeepsSlugChars(lower)
    ensures var slug := Slug(title, lower, maxSlug); Slug(slug, lower, maxSlug) == slug
  {
    var slug := Slug(title, lower, maxSlug);
    SlugIsClean(title, lower, maxSlug);
    assert ToLower(slug, lower) == slug;
    WordsOfClean(slug);
  }

  /** The slug characters of a text, in order. */
  function Letters(s: string): string {
    if s == "" then ""
    else Letters(s[..|s| - 1]) + (if SlugChar(s[|s| - 1]) then [s[|s| - 1]] else "")
  }

  lemma LettersOneMore(s: string, c: char)
    ensures Letters(s + [c]) == Letters(s) + (if SlugChar(c) then [c] else "")
  {
    assert (s + [c])[..|s|] == s;
  }

  /** A title that fits loses no letter and gains none. */
  lemma {:induction false} WordsKeepLetters(s: string)
    ensures Letters(Words(s)) == Letters(s)
  {
    if s != "" {
      var before, c := s[..|s| - 1], s[|s| - 1];
      WordsKeepLetters(before);
      LettersOneMore(Words(before), c);
      LettersOneMore(Words(before), '-');
      LettersOneMore(Words(before) + ['-'], c);
      assert Words(before) + ['-', c] == Words(before) + ['-'] + [c];
    }
  }

  /* ---------- task titles ---------- */

  function AppendRetryToken(taskSuffix: string, retryToken: string): string {
    if retryToken == "" then taskSuffix
    else if taskSuffix == "" then "retry-" + retryToken
    else taskSuffix + " - retry-" + retryToken
  }

  /** What a title is made of. */
  datatype Subject = Subject(provider: string, owner: string, repo: string, number: int, sha: string, slug: string)

  /** The title before the suffix, uncut. */
  function Stem(kind: string, x: Subject): string {
    var shortSHA := if |x.sha| > 8 then x.sha[..8] else x.sha;
    var base := "PR " + kind + " " + x.provider + " - " + x.owner + "-" + x.repo + " - "
                + TaskKeys.Itoa(x.number) + " - " + shortSHA;
    if x.slug == "" then base else base + " - " + x.slug
  }

  function SuffixPart(taskSuffix: string): string {
    if taskSuffix == "" then "" else " - " + taskSuffix
  }

  /** `s` or, when it is longer, its first `n` characters. */
  function Cut(s: string, n: int): string {
    if n < 0 then "" else if |s| > n then s[..n] else s
  }

  /** The stem, cut to what the suffix leaves of `maxTitle`, and the whole suffix. */
  function Title(kind: string, x: Subject, maxTitle: int, taskSuffix: string): string {
    Cut(Stem(kind, x), maxTitle - |SuffixPart(taskSuffix)|) + SuffixPart(taskSuffix)
  }

  method ComputeTaskTitle(kind: string, provider: string, owner: string, repo: string, number: int, sha: string,
                          title: string, lower: char -> char, maxSlug: nat, maxTitle: int, taskSuffix: string)
    returns (result: string)
    ensures result == Title(kind, Subject(provider, owner, repo, number, sha, Slug(title, lower, maxSlug)),
                            maxTitle, taskSuffix)
  {
    var shortSHA := sha;
    if |shortSHA| > 8 {
      shortSHA := shortSHA[..8];
    }
    var base := "PR " + kind + " " + provider + " - " + owner + "-" + repo + " - "
                + TaskKeys.Itoa(number) + " - " + shortSHA;
    var slug := SlugifyTitle(title, lower, maxSlug);
    var t := if slug == "" then base else base + " - " + slug;
    var suffixPart := if taskSuffix != "" then " - " + taskSuffix else "";
    assert t == Stem(kind, Subject(provider, owner, repo, number, sha, slug)) && suffixPart == SuffixPart(taskSuffix);
    result := FitTitle(t, suffixPart, maxTitle);
  }

  /** Truncates the stem so that the suffix fits. */
  method FitTitle(stem: string, suffixPart: string, maxTitle: int) returns (result: string)
    ensures result == Cut(stem, maxTitle - |suffixPart|) + suffixPart
  {
    var t := stem;
    if |t| + |suffixPart| > maxTitle {
      var budget := maxTitle - |suffixPart|;
      if budget < 0 {
        budget := 0;
      }
      if |t| > budget {
        t := t[..budget];
      }
    }
    result := t + suffixPart;
  }

  /** A title always ends in its whole suffix, is never longer than `maxTitle` unless the suffix alone is, and
      is the whole stem when that fits. */
  lemma TitleKeepsSuffix(kind: string, x: Subject, maxTitle: int, taskSuffix: string)
    ensures var t, part := Title(kind, x, maxTitle, taskSuffix), SuffixPart(taskSuffix);
            && |part| <= |t| && t[|t| - |part|..] == part
            && |t| <= Max(maxTitle, |part|)
            && t[..|t| - |part|] <= Stem(kind, x)
            && (|Stem(kind, x)| + |part| <= maxTitle ==> t == Stem(kind, x) + part)
  {
    var part := SuffixPart(taskSuffix);
    var kept := Cut(Stem(kind, x), maxTitle - |part|);
    assert (kept + part)[|kept|..] == part && (kept + part)[..|kept|] == kept;
  }

  lemma RetrySuffix(taskSuffix: string, token: string)
    requires token != ""
    ensures var front := (if taskSuffix == "" then " - retry-" else " - " + taskSuffix + " - retry-");
            SuffixPart(AppendRetryToken(taskSuffix, token)) == front + token
  {
    if taskSuffix == "" {
      assert " - " + ("retry-" + token) == " - retry-" + token;
    } else {
      assert " - " + (taskSuffix + " - retry-" + token) == " - " + taskSuffix + " - retry-" + token;
    }
  }

  lemma SameLengthSuffixes(taskSuffix: string, a: string, b: string)
    requires |a| == |b| && a != b
    ensures var p, q := SuffixPart(AppendRetryToken(taskSuffix, a)), SuffixPart(AppendRetryToken(taskSuffix, b));
            |p| == |q| && p != q
  {
    RetrySuffix(taskSuffix, a);
    RetrySuffix(taskSuffix, b);
    var p, q := SuffixPart(AppendRetryToken(taskSuffix, a)), SuffixPart(AppendRetryToken(taskSuffix, b));
    assert p[|p| - |a|..] == a && q[|q| - |b|..] == b;
  }

  /** Two forced reviews of one head whose tokens differ and are equally long never share a title. */
  lemma RetryTitlesDiffer(kind: string, x: Subject, maxTitle: int, taskSuffix: string, a: string, b: string)
    requires |a| == |b| && a != b
    ensures Title(kind, x, maxTitle, AppendRetryToken(taskSuffix, a))
         != Title(kind, x, maxTitle, AppendRetryToken(taskSuffix, b))
  {
    SameLengthSuffixes(taskSuffix, a, b);
    TitleKeepsSuffix(kind, x, maxTitle, AppendRetryToken(taskSuffix, a));
    TitleKeepsSuffix(kind, x, maxTitle, AppendRetryToken(taskSuffix, b));
  }

  /** The override and the review of one head share a title exactly when the suffix leaves room for no more
      than the first three characters. */
  lemma {:induction false} KindsShareTitleIff(x: Subject, maxTitle: int, taskSuffix: string)
    ensures Title("Review", x, maxTitle, taskSuffix) == Title("Override", x, maxTitle, taskSuffix)
            <==> maxTitle - |SuffixPart(taskSuffix)| <= 3
  {
    var r, o, budget := Stem("Review", x), Stem("Override", x), maxTitle - |SuffixPart(taskSuffix)|;
    StemBegins("Review", x);
    StemBegins("Override", x);
    var part := SuffixPart(taskSuffix);
    if budget >= 4 {
      assert (Cut(r, budget) + part)[3] == 'R';
      assert (Cut(o, budget) + part)[3] == 'O';
    } else if budget >= 0 {
      assert Cut(r, budget) == "PR "[..budget] == Cut(o, budget);
    }
  }

  lemma StemBegins(kind: string, x: Subject)
    requires kind != ""
    ensures |Stem(kind, x)| >= 4 && Stem(kind, x)[..3] == "PR " && Stem(kind, x)[3] == kind[0]
  {
  }

  /* ---------- when two titles coincide ---------- */

  /** Both texts begin with a field without blanks; behind it comes nothing or a blank. */
  lemma FieldsAgree(a: string, b: string, x: string, y: string)
    requires TaskKeys.Avoids(a, " ") && TaskKeys.Avoids(b, " ")
    requires (x == "" || x[0] == ' ') && (y == "" || y[0] == ' ')
    ensures a + x == b + y <==> a == b && x == y
  {
    TaskKeys.CutAt(a, x, " ");
    TaskKeys.CutAt(b, y, " ");
  }

  /** The first eight characters of a commit. */
  function Short(sha: string): string {
    if |sha| <= 8 then sha else sha[..8]
  }

  function Repository(x: Subject): string {
    x.owner + "-" + x.repo
  }

  /** No blank in what GitHub and the watcher supply. */
  predicate Unspaced(kind: string, x: Subject) {
    TaskKeys.Avoids(kind, " ") && TaskKeys.Avoids(x.provider, " ") && TaskKeys.Avoids(Repository(x), " ")
    && TaskKeys.Avoids(x.sha, " ")
  }

  function Slugged(slug: string): string {
    if slug == "" then "" else " - " + slug
  }

  lemma StemInParts(kind: string, x: Subject)
    ensures Stem(kind, x)
         == "PR " + (kind + (" " + (x.provider + (" - " + (Repository(x) + (" - " + (TaskKeys.Itoa(x.number)
            + (" - " + (Short(x.sha) + Slugged(x.slug))))))))))
  {
    var number, rest := TaskKeys.Itoa(x.number), Short(x.sha) + Slugged(x.slug);
    StemIsFlat(kind, x);
    StemBack("PR " + kind + " " + x.provider, Repository(x), number, rest);
    TaskKeys.Regroup("PR " + kind + " " + x.provider, " - ", Repository(x) + (" - " + (number + (" - " + rest))));
    StemFront(kind, x.provider, Repository(x) + (" - " + (number + (" - " + rest))));
  }

  lemma StemIsFlat(kind: string, x: Subject)
    ensures Stem(kind, x) == "PR " + kind + " " + x.provider + " - " + Repository(x) + " - " + TaskKeys.Itoa(x.number)
                             + " - " + (Short(x.sha) + Slugged(x.slug))
  {
    var base := "PR " + kind + " " + x.provider + " - ";
    TaskKeys.Regroup(base + x.owner, "-", x.repo);
    TaskKeys.Regroup(base, x.owner, "-" + x.repo);
    TaskKeys.Regroup(x.owner, "-", x.repo);
    var front := base + Repository(x) + " - " + TaskKeys.Itoa(x.number) + " - ";
    TaskKeys.Regroup(front, Short(x.sha), Slugged(x.slug));
    TaskKeys.Regroup(front + Short(x.sha), " - ", x.slug);
    assert front + Short(x.sha) + "" == front + Short(x.sha);
  }

  lemma StemBack(front: string, repository: string, number: string, rest: string)
    ensures front + " - " + repository + " - " + number + " - " + rest
         == front + " - " + (repository + (" - " + (number + (" - " + rest))))
  {
    TaskKeys.Regroup(front + " - " + repository + " - " + number, " - ", rest);
    TaskKeys.Regroup(front + " - " + repository + " - ", number, " - " + rest);
    TaskKeys.Regroup(front + " - " + repository, " - ", number + (" - " + rest));
    TaskKeys.Regroup(front + " - ", repository, " - " + (number + (" - " + rest)));
  }

  lemma StemFront(kind: string, provider: string, rest: string)
    ensures "PR " + kind + " " + provider + " - " + rest == "PR " + (kind + (" " + (provider + (" - " + rest))))
  {
    TaskKeys.Regroup("PR " + kind + " " + provider, " - ", rest);
    TaskKeys.Regroup("PR " + kind + " ", provider, " - " + rest);
    TaskKeys.Regroup("PR " + kind, " ", provider + (" - " + rest));
    TaskKeys.Regroup("PR ", kind, " " + (provider + (" - " + rest)));
  }

  lemma AfterPrefix(prefix: string, a: string, b: string)
    ensures prefix + a == prefix + b <==> a == b
  {
    assert (prefix + a)[|prefix|..] == a && (prefix + b)[|prefix|..] == b;
  }

  /** One field and what separates it from the next. */
  lemma NextField(a: string, b: string, separator: string, x: string, y: string)
    requires TaskKeys.Avoids(a, " ") && TaskKeys.Avoids(b, " ") && separator != "" && separator[0] == ' '
    ensures a + (separator + x) == b + (separator + y) <==> a == b && x == y
  {
    FieldsAgree(a, b, separator + x, separator + y);
    AfterPrefix(separator, x, y);
  }

  lemma NumbersAvoidBlanks(n: int)
    ensures TaskKeys.Avoids(TaskKeys.Itoa(n), " ")
  {
  }

  /** Two uncut stems coincide exactly when kind, provider, owner and repository with the hyphen between them, number,
      the first eight characters of the commit, and slug do. */
  lemma StemsCoincideIff(kind: string, x: Subject, other: string, y: Subject)
    requires Unspaced(kind, x) && Unspaced(other, y)
    ensures Stem(kind, x) == Stem(other, y)
            <==> kind == other && x.provider == y.provider && Repository(x) == Repository(y) && x.number == y.number
                 && Short(x.sha) == Short(y.sha) && x.slug == y.slug
  {
    var m, n := TaskKeys.Itoa(x.number), TaskKeys.Itoa(y.number);
    var endX, endY := Short(x.sha) + Slugged(x.slug), Short(y.sha) + Slugged(y.slug);
    var tailX, tailY := m + (" - " + endX), n + (" - " + endY);
    StemInParts(kind, x);
    StemInParts(other, y);
    var p, q := Repository(x) + (" - " + tailX), Repository(y) + (" - " + tailY);
    AfterPrefix("PR ", kind + (" " + (x.provider + (" - " + p))), other + (" " + (y.provider + (" - " + q))));
    NextField(kind, other, " ", x.provider + (" - " + p), y.provider + (" - " + q));
    NextField(x.provider, y.provider, " - ", p, q);
    NextField(Repository(x), Repository(y), " - ", tailX, tailY);
    NumbersAvoidBlanks(x.number);
    NumbersAvoidBlanks(y.number);
    NextField(m, n, " - ", endX, endY);
    FieldsAgree(Short(x.sha), Short(y.sha), Slugged(x.slug), Slugged(y.slug));
    AfterPrefix(" - ", x.slug, y.slug);
    TaskKeys.AtoiOfItoa(x.number);
    TaskKeys.AtoiOfItoa(y.number);
  }

  /** So titles that fit tell apart two heads of one pull request by the first eight characters of the commit. */
  lemma FittingTitlesCoincideIff(kind: string, x: Subject, other: string, y: Subject, maxTitle: int, taskSuffix: string)
    requires Unspaced(kind, x) && Unspaced(other, y)
    requires |Stem(kind, x)| + |SuffixPart(taskSuffix)| <= maxTitle
             && |Stem(other, y)| + |SuffixPart(taskSuffix)| <= maxTitle
    ensures Title(kind, x, maxTitle, taskSuffix) == Title(other, y, maxTitle, taskSuffix)
            <==> kind == other && x.provider == y.provider && Repository(x) == Repository(y) && x.number == y.number
                 && Short(x.sha) == Short(y.sha) && x.slug == y.slug
  {
    var a, b, part := Stem(kind, x), Stem(other, y), SuffixPart(taskSuffix);
    StemsCoincideIff(kind, x, other, y);
    TitleKeepsSuffix(kind, x, maxTitle, taskSuffix);
    TitleKeepsSuffix(other, y, maxTitle, taskSuffix);
    if a + part == b + part {
      assert a == (a + part)[..|a + part| - |part|] == (b + part)[..|b + part| - |part|] == b;
    }
  }
}
