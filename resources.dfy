/**
 * `get_resource_path`: where a resource file lives, both when the host
 * runs from its source tree and when it runs from a packaged executable
 * (where the files sit under a `think_mcp_host` directory of the unpack
 * directory). Paths are POSIX paths; `os.path.normpath` comes from the
 * platform library and is a parameter.
 */
module Resources {
  import opened Ascii

  /** The package directory. */
  const Package: string := "think_mcp_host"

  /** The package directory with its separator, whose length the source strips. */
  const PackageDir: string := "think_mcp_host/"

  /** Where the host runs from. */
  datatype Runtime =
    | Frozen(meipass: string)     // a packaged executable, unpacked at `sys._MEIPASS`
    | Source(moduleDir: string)   // the source tree, with the module in `moduleDir`
  {
    /** The directory the relative part is joined to. */
    function Base(): string {
      match this
      case Frozen(meipass) => meipass
      case Source(moduleDir) => moduleDir
    }
  }

  /** `os.path.join(a, b)` on POSIX: an absolute `b` replaces `a`. */
  function PathJoin(a: string, b: string): (p: string)
    ensures StartsWith(b, "/") ==> p == b
    ensures !StartsWith(b, "/") ==> StartsWith(p, a) && EndsWith(p, b)
  {
    if |b| > 0 && b[0] == '/' then b
    else if a == "" || a[|a| - 1] == '/' then a + b
    else a + "/" + b
  }

  predicate EndsWith(s: string, p: string) {
    |p| <= |s| && s[|s| - |p|..] == p
  }

  /** Python's `s[k:]`: empty once `k` is past the end. */
  function Drop(s: string, k: nat): (r: string)
    ensures |r| == if k <= |s| then |s| - k else 0
    ensures k <= |s| ==> s == s[..k] + r
  {
    if k <= |s| then s[k..] else ""
  }

  /**
   * The relative part as the source computes it: a packaged executable
   * adds the package directory unless the path already starts with the
   * package name; the source tree drops `len("think_mcp_host/")`
   * characters from any path that starts with the package name, whether
   * or not a separator follows the name.
   */
  function RelativePartAsWritten(runtime: Runtime, relativePath: string): string {
    match runtime
    case Frozen(_) =>
      if StartsWith(relativePath, Package) then relativePath else PathJoin(Package, relativePath)
    case Source(_) =>
      if StartsWith(relativePath, Package) then Drop(relativePath, |PackageDir|) else relativePath
  }

  /**
   * The relative part with the package directory recognised only as a
   * whole first component: `think_mcp_host/` followed by the rest.
   */
  function RelativePart(runtime: Runtime, relativePath: string): string {
    match runtime
    case Frozen(_) =>
      if StartsWith(relativePath, PackageDir) then relativePath else PathJoin(Package, relativePath)
    case Source(_) =>
      if StartsWith(relativePath, PackageDir) then relativePath[|PackageDir|..] else relativePath
  }

  /**
   * `get_resource_path(relative_path)` as written: normalise the relative
   * part, join it to the base directory and normalise the result.
   */
  function ResourcePathAsWritten(runtime: Runtime, relativePath: string, normpath: string -> string): string {
    var rel := normpath(RelativePartAsWritten(runtime, relativePath));
    normpath(PathJoin(runtime.Base(), rel))
  }

  /** `get_resource_path(relative_path)` with the package directory recognised as a whole component. */
  function ResourcePath(runtime: Runtime, relativePath: string, normpath: string -> string): string {
    var rel := normpath(RelativePart(runtime, relativePath));
    normpath(PathJoin(runtime.Base(), rel))
  }

  // ---------------------------------------------------------------------
  // Properties

  /**
   * As written, in the source tree, a path whose first component merely
   * begins with the package name loses 15 characters and becomes absolute:
   * `think_mcp_hosts/a.txt` turns into `/a.txt`, and the module directory
   * is dropped from the result whatever it is.
   */
  lemma LongerNameEscapesBase(moduleDir: string, normpath: string -> string)
    ensures RelativePartAsWritten(Source(moduleDir), "think_mcp_hosts/a.txt") == "/a.txt"
    ensures normpath("/a.txt") != "" && normpath("/a.txt")[0] == '/' ==>
      ResourcePathAsWritten(Source(moduleDir), "think_mcp_hosts/a.txt", normpath) == normpath(normpath("/a.txt"))
  {
    var rel := "think_mcp_hosts/a.txt";
    assert rel[..|Package|] == Package;
    assert Drop(rel, |PackageDir|) == "/a.txt";
  }

  /**
   * As written, the two layouts disagree on such a path: the packaged
   * executable keeps `think_mcp_hosts/a.txt` as it is, while the source
   * tree's relative part put under the package directory is `/a.txt`.
   */
  lemma LayoutsDisagreeAsWritten(meipass: string, moduleDir: string)
    ensures RelativePartAsWritten(Frozen(meipass), "think_mcp_hosts/a.txt")
      != PathJoin(Package, RelativePartAsWritten(Source(moduleDir), "think_mcp_hosts/a.txt"))
  {
    LongerNameEscapesBase(moduleDir, s => s);
  }

  /**
   * Corrected, the source tree drops exactly the package directory: a path
   * under it loses that first component and nothing else, and any other
   * path is used as it is.
   */
  lemma SourceDropsPackageDir(moduleDir: string, rest: string, other: string)
    requires !StartsWith(other, PackageDir)
    ensures RelativePart(Source(moduleDir), PackageDir + rest) == rest
    ensures RelativePart(Source(moduleDir), other) == other
  {
    assert (PackageDir + rest)[..|PackageDir|] == PackageDir;
  }

  /**
   * Corrected, both layouts name the same file inside the package: for a
   * relative path that does not begin with a separator (after the package
   * directory, if it has one), the packaged relative part is the source
   * tree's relative part under the package directory.
   */
  lemma LayoutsAgree(meipass: string, moduleDir: string, relativePath: string)
    requires !StartsWith(relativePath, "/")
    requires !StartsWith(relativePath, PackageDir + "/")
    ensures RelativePart(Frozen(meipass), relativePath)
      == PathJoin(Package, RelativePart(Source(moduleDir), relativePath))
  {
    if StartsWith(relativePath, PackageDir) {
      var rest := relativePath[|PackageDir|..];
      assert relativePath == PackageDir + rest;
      assert PathJoin(Package, rest) == Package + "/" + rest;
    }
  }

  /**
   * Corrected, in the source tree a relative path that does not begin with
   * the package directory followed by a separator stays relative, so the
   * result stays under the module directory.
   */
  lemma SourceStaysRelative(moduleDir: string, relativePath: string)
    requires !StartsWith(relativePath, "/")
    requires !StartsWith(relativePath, PackageDir + "/")
    ensures !StartsWith(RelativePart(Source(moduleDir), relativePath), "/")
    ensures StartsWith(PathJoin(moduleDir, RelativePart(Source(moduleDir), relativePath)), moduleDir)
  {
  }

  /** A packaged executable always looks inside the package directory of the unpack directory. */
  lemma FrozenUnderPackage(meipass: string, relativePath: string)
    requires !StartsWith(relativePath, "/")
    ensures StartsWith(RelativePart(Frozen(meipass), relativePath), Package)
  {
    if !StartsWith(relativePath, PackageDir) {
      assert PathJoin(Package, relativePath) == Package + "/" + relativePath;
    }
  }

  /**
   * Whenever the normalised relative part is relative, the path handed to
   * the final normalisation lies under the base directory.
   */
  lemma ResultUnderBase(runtime: Runtime, relativePath: string, normpath: string -> string)
    requires !StartsWith(normpath(RelativePart(runtime, relativePath)), "/")
    ensures var joined := PathJoin(runtime.Base(), normpath(RelativePart(runtime, relativePath)));
      ResourcePath(runtime, relativePath, normpath) == normpath(joined) && StartsWith(joined, runtime.Base())
  {
  }
}
