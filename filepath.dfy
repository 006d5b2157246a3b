/**
 * Go's `path/filepath.Base` on a platform whose only separator is '/'
 * (the volume-name step of `Base` is empty there). Go strings are bytes;
 * the byte '/' never occurs inside a multi-byte UTF-8 sequence, so working
 * on characters gives the same result.
 */
module FilePath {

  /** Every character of `p` is a separator. */
  predicate AllSlashes(p: string) {
    forall i :: 0 <= i < |p| ==> p[i] == '/'
  }

  /** `path` with every trailing '/' removed (the first loop of `Base`). */
  function TrimTrailingSlashes(path: string): (r: string)
    ensures r <= path
    ensures r == [] || r[|r| - 1] != '/'
    ensures forall i :: |r| <= i < |path| ==> path[i] == '/'
    decreases |path|
  {
    if path != [] && path[|path| - 1] == '/' then TrimTrailingSlashes(path[..|path| - 1])
    else path
  }

  /** What follows the last '/' of `path` (the second loop of `Base`). */
  function LastElement(path: string): (r: string)
    ensures '/' !in r
    ensures |r| <= |path| && r == path[|path| - |r|..]
    ensures |r| < |path| ==> path[|path| - |r| - 1] == '/'
    decreases |path|
  {
    if path == [] || path[|path| - 1] == '/' then []
    else LastElement(path[..|path| - 1]) + [path[|path| - 1]]
  }

  /**
   * The last element of `path`: trailing separators are dropped first; an
   * empty path gives "." and a path of separators only gives "/".
   */
  function Base(path: string): (base: string)
    ensures base != []
    ensures path == [] ==> base == "."
    ensures base == "/" <==> path != [] && AllSlashes(path)
    ensures path != [] && !AllSlashes(path) ==> '/' !in base
  {
    if path == [] then "."
    else
      var last := LastElement(TrimTrailingSlashes(path));
      TrimmedEmptyIffSlashes(path);
      if last == [] then "/" else last
  }

  /** A non-empty path trims to nothing, and so has an empty last element, exactly when it is all separators. */
  lemma TrimmedEmptyIffSlashes(path: string)
    requires path != []
    ensures LastElement(TrimTrailingSlashes(path)) == [] <==> AllSlashes(path)
  {
  }

  /** The last element of `dir + name` is `name` when `dir` is empty or ends in '/'. */
  lemma {:induction false} LastElementAfterSlash(dir: string, name: string)
    requires '/' !in name
    requires dir == [] || dir[|dir| - 1] == '/'
    ensures LastElement(dir + name) == name
    decreases |name|
  {
    if name != [] {
      var p := dir + name;
      var init, c := name[..|name| - 1], name[|name| - 1];
      assert p[|p| - 1] == c && c != '/';
      assert p[..|p| - 1] == dir + init;
      LastElementAfterSlash(dir, init);
      assert LastElement(p) == LastElement(dir + init) + [c];
      assert init + [c] == name;
    } else {
      assert dir + name == dir;
    }
  }

  /** Joining a directory and a plain file name with '/' and taking `Base` gives the file name back. */
  lemma BaseOfJoin(dir: string, name: string)
    requires name != [] && '/' !in name
    ensures Base(dir + "/" + name) == name
  {
    var p := dir + "/" + name;
    assert p[|p| - 1] == name[|name| - 1];
    assert TrimTrailingSlashes(p) == p;
    assert p == (dir + "/") + name;
    LastElementAfterSlash(dir + "/", name);
  }

  /** A plain file name is its own `Base`. */
  lemma BaseOfName(name: string)
    requires name != [] && '/' !in name
    ensures Base(name) == name
  {
  }

  /** One more trailing separator does not change `Base` of a non-empty path. */
  lemma BaseIgnoresTrailingSlash(path: string)
    requires path != []
    ensures Base(path + "/") == Base(path)
  {
    var p := path + "/";
    assert p[|p| - 1] == '/' && p[..|p| - 1] == path;
    assert TrimTrailingSlashes(p) == TrimTrailingSlashes(path);
  }

  /** `Base` is idempotent. */
  lemma BaseIdempotent(path: string)
    ensures Base(Base(path)) == Base(path)
  {
  }
}
