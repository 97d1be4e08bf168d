/** concat (OpenApiMapper.java:291-296, identical in the draft at 266-271): base URL + path. */
module Endpoint {
  import opened Wrappers

  predicate EndsWithSlash(s: string) {
    |s| > 0 && s[|s| - 1] == '/'
  }

  /** Number of '/' characters in `s`. */
  function Slashes(s: string): nat
  {
    if s == [] then 0 else (if s[0] == '/' then 1 else 0) + Slashes(s[1..])
  }

  /** concat; a `None` argument is a null string. */
  function Concat(base: Option<string>, path: Option<string>): string
  {
    var b := base.GetOr("");
    var p := path.GetOr("");
    if EndsWithSlash(b) then b[..|b| - 1] + p else b + p
  }

  lemma {:induction false} SlashesAppend(a: string, b: string)
    ensures Slashes(a + b) == Slashes(a) + Slashes(b)
    decreases |a|
  {
    if a == [] {
      assert a + b == b;
    } else {
      assert (a + b)[0] == a[0] && (a + b)[1..] == a[1..] + b;
      SlashesAppend(a[1..], b);
    }
  }

  /**
   * The path is appended unchanged after the base with exactly one trailing '/'
   * removed (when it has one): no '/' is ever inserted, and null becomes "".
   */
  lemma ConcatShape(base: Option<string>, path: Option<string>)
    ensures var b, p, r := base.GetOr(""), path.GetOr(""), Concat(base, path);
      && |r| == |b| + |p| - (if EndsWithSlash(b) then 1 else 0)
      && r[|r| - |p|..] == p
      && r[..|r| - |p|] == b[..|r| - |p|]
      && Slashes(r) == Slashes(b) + Slashes(p) - (if EndsWithSlash(b) then 1 else 0)
  {
    var b, p := base.GetOr(""), path.GetOr("");
    if EndsWithSlash(b) {
      var b' := b[..|b| - 1];
      assert b == b' + "/";
      SlashesAppend(b', "/");
      SlashesAppend(b', p);
    } else {
      SlashesAppend(b, p);
    }
  }

  /** The example of a base URL with a trailing '/' and an absolute path. */
  lemma ConcatExample()
    ensures Concat(Some("https://api.example.com/"), Some("/posts")) == "https://api.example.com/posts"
  {
  }

  /** A base ending in a single '/' and a path starting with '/' meet in exactly one '/'. */
  lemma ConcatSingleSlash(base: string, path: string)
    requires EndsWithSlash(base) && !EndsWithSlash(base[..|base| - 1])
    requires |path| > 0 && path[0] == '/'
    ensures var r, k := Concat(Some(base), Some(path)), |base| - 1;
      r[k] == '/' && (k == 0 || r[k - 1] != '/')
  {
  }
}
