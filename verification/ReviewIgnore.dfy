/**
 pkg/reviewignore/reviewignore.go over an arbitrary pattern matcher: gitignore's rule that nothing below an
 excluded directory can be included again (gitignore(5), section PATTERN FORMAT).
 */
module ReviewIgnore {

  const FILENAME := ".reviewignore"

  /** `d` is a directory above `path`. */
  predicate Above(d: string, path: string) {
    |d| < |path| && path[..|d|] == d && path[|d|] == '/'
  }

  /** The path or one of the directories above it is matched; directories in either spelling. */
  ghost predicate Excluded(matches: string -> bool, path: string) {
    matches(path) || exists d :: Above(d, path) && (matches(d) || matches(d + "/"))
  }

  class Matcher {
    const matches: string -> bool
    const empty: bool

    /** `Parse`: the file is empty when every line is blank or a comment. */
    constructor Parse(lines: seq<string>, trim: string -> string, compiled: string -> bool)
      ensures matches == compiled
      ensures empty <==> forall i :: 0 <= i < |lines| ==> trim(lines[i]) == "" || trim(lines[i])[0] == '#'
    {
      var patterns := 0;
      for i := 0 to |lines|
        invariant 0 <= patterns
        invariant patterns == 0 <==> forall j :: 0 <= j < i ==> trim(lines[j]) == "" || trim(lines[j])[0] == '#'
      {
        var trimmed := trim(lines[i]);
        if trimmed != "" && trimmed[0] != '#' {
          patterns := patterns + 1;
        }
      }
      matches, empty := compiled, patterns == 0;
    }

    /** Excluded exactly when the path or something above it is matched, except the file itself. */
    method Match(path: string) returns (excluded: bool)
      ensures excluded <==> path != FILENAME && Excluded(matches, path)
    {
      if path == FILENAME {
        return false;
      }
      if matches(path) {
        return true;
      }
      excluded := ParentExcluded(path);
    }

    method ParentExcluded(path: string) returns (excluded: bool)
      ensures excluded <==> exists d :: Above(d, path) && (matches(d) || matches(d + "/"))
    {
      for i := 0 to |path|
        invariant forall d :: Above(d, path) && |d| < i ==> !matches(d) && !matches(d + "/")
      {
        if path[i] != '/' {
          continue;
        }
        var dir := path[..i];
        assert Above(dir, path);
        if matches(dir) || matches(dir + "/") {
          return true;
        }
      }
      return false;
    }
  }

  /** Nothing below an excluded path can be included again, and a directory pattern covers all below it. */
  lemma ExclusionIsInherited(matches: string -> bool, d: string, x: string)
    requires Excluded(matches, d) || matches(d + "/")
    ensures Excluded(matches, d + "/" + x) && d + "/" + x != FILENAME
  {
    var path := d + "/" + x;
    assert path[|d|] == '/';
    if matches(d) || matches(d + "/") {
      assert Above(d, path);
    } else {
      var e :| Above(e, d) && (matches(e) || matches(e + "/"));
      assert path[..|e|] == d[..|e|];
      assert Above(e, path);
    }
    assert '/' !in FILENAME;
    assert '/' in path;
  }

  /** A path is excluded exactly when a pattern matches it, or a directory it lies in. */
  lemma ExcludedIff(matches: string -> bool, path: string)
    ensures Excluded(matches, path)
            <==> matches(path) || exists d, x :: path == d + ("/" + x) && (matches(d) || matches(d + "/"))
  {
    if d :| Above(d, path) && (matches(d) || matches(d + "/")) {
      assert path == d + ("/" + path[|d| + 1..]);
    }
    if d, x :| path == d + ("/" + x) && (matches(d) || matches(d + "/")) {
      assert Above(d, path);
    }
  }
}
