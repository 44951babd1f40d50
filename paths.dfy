/**
 * Resolution of relative paths against the directory of the configuration
 * file that was loaded. The separator is `/`; `filepath.Join(dir, path)` with
 * a `dir` ending in `/` is modelled as `dir + path`, without the cleaning
 * `filepath.Join` does (resolving `.` and `..`, collapsing `//`, dropping a
 * trailing `/`).
 */
module Paths {
  import opened Strings

  /** `dir` of `filepath.Split(p)`: everything up to and including the last `/`. */
  function Dir(p: string): (d: string)
    ensures HasPrefix(p, d)
    ensures d == "" || d[|d| - 1] == '/'
    ensures forall i :: |d| <= i < |p| ==> p[i] != '/'
  {
    if p == [] then ""
    else if p[|p| - 1] == '/' then p
    else Dir(p[..|p| - 1])
  }

  /** The directory part ends at the last `/` of the path. */
  lemma DirAtLastSlash(p: string, k: nat)
    requires k < |p| && p[k] == '/'
    requires forall i :: k < i < |p| ==> p[i] != '/'
    ensures Dir(p) == p[..k + 1]
  {
    var d := Dir(p);
    assert |d| > k;
    assert d[|d| - 1] == p[|d| - 1];
  }

  /** strings.HasPrefix(p, "/"), the source's test for an absolute path. */
  predicate IsAbsolute(p: string)
    ensures IsAbsolute(p) <==> HasPrefix(p, "/")
  {
    |p| > 0 && p[0] == '/'
  }

  /**
   * absPath: an empty or absolute path is returned as is; a relative one is
   * placed in the directory of `configFile`, unless that directory is empty.
   */
  function AbsPath(configFile: string, path: string): (r: string)
    ensures path == "" || IsAbsolute(path) ==> r == path
    ensures path != "" && !IsAbsolute(path) ==> r == Dir(configFile) + path
    ensures HasSuffix(r, path)
  {
    if path != "" && !IsAbsolute(path) then
      var dir := Dir(configFile);
      if dir != "" then dir + path else path
    else path
  }

  /** The directory of a path placed under a directory `a` is `a` followed by its own directory. */
  lemma {:induction false} DirUnder(a: string, b: string)
    requires a != "" && a[|a| - 1] == '/'
    ensures Dir(a + b) == a + Dir(b)
  {
    if b == [] {
      assert a + b == a;
    } else if b[|b| - 1] == '/' {
    } else {
      assert (a + b)[..|a + b| - 1] == a + b[..|b| - 1];
      DirUnder(a, b[..|b| - 1]);
    }
  }

  /** A resolved relative path lands in the configuration file's directory. */
  lemma AbsPathDir(configFile: string, path: string)
    requires path != "" && !IsAbsolute(path) && Dir(configFile) != ""
    ensures Dir(AbsPath(configFile, path)) == Dir(configFile) + Dir(path)
  {
    DirUnder(Dir(configFile), path);
  }

  /** When the configuration directory is absolute, every non-empty result is absolute. */
  lemma AbsPathIsAbsolute(configFile: string, path: string)
    requires IsAbsolute(Dir(configFile)) && path != ""
    ensures IsAbsolute(AbsPath(configFile, path))
  {
    var d := Dir(configFile);
    if !IsAbsolute(path) {
      assert (d + path)[..1] == d[..1];
    }
  }

  /** absPath is idempotent when the configuration directory is absolute (or empty). */
  lemma AbsPathIdempotent(configFile: string, path: string)
    requires Dir(configFile) == "" || IsAbsolute(Dir(configFile))
    ensures AbsPath(configFile, AbsPath(configFile, path)) == AbsPath(configFile, path)
  {
    if path != "" && Dir(configFile) != "" {
      AbsPathIsAbsolute(configFile, path);
    }
  }

  /** With a relative configuration directory, resolving twice nests the directory twice. */
  lemma AbsPathNotIdempotentUnderRelativeDir(configFile: string, path: string)
    requires Dir(configFile) != "" && !IsAbsolute(Dir(configFile))
    requires path != "" && !IsAbsolute(path)
    ensures AbsPath(configFile, AbsPath(configFile, path)) == Dir(configFile) + Dir(configFile) + path
  {
    assert (Dir(configFile) + path)[0] == Dir(configFile)[0];
  }

  /** An instance: `x` under `conf/config.yaml` becomes `conf/x`, and then `conf/conf/x`. */
  lemma AbsPathNotIdempotentExample()
    ensures AbsPath("conf/config.yaml", "x") == "conf/x"
    ensures AbsPath("conf/config.yaml", "conf/x") == "conf/conf/x"
  {
    DirAtLastSlash("conf/config.yaml", 4);
    assert "conf/config.yaml"[..5] == "conf/";
    assert !IsAbsolute("x") && !IsAbsolute("conf/x");
    assert "conf/" + "x" == "conf/x";
    assert "conf/" + "conf/x" == "conf/conf/x";
  }

  lemma AbsPathExamples()
    ensures AbsPath("/etc/headscale/config.yaml", "") == ""
    ensures AbsPath("/etc/headscale/config.yaml", "/a/b") == "/a/b"
    ensures AbsPath("/etc/headscale/config.yaml", "rel/x") == "/etc/headscale/rel/x"
    ensures AbsPath("config.yaml", "rel/x") == "rel/x"
  {
    DirAtLastSlash("/etc/headscale/config.yaml", 14);
    assert "/etc/headscale/config.yaml"[..15] == "/etc/headscale/";
    assert !IsAbsolute("rel/x");
    assert "/etc/headscale/" + "rel/x" == "/etc/headscale/rel/x";
    assert forall i :: 0 <= i < |"config.yaml"| ==> "config.yaml"[i] != '/';
  }
}
