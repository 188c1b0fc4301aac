/** The path filter infra/upload_assets.py applies when it zips a CDK asset
    directory, and the name of the zip it writes. Paths follow POSIX
    `os.path`: `/` is the only separator. Whether a path is a regular file is
    asked of the file system, given here as `isFile`. */
module UploadAssets {
  import opened Common

  /** `s.rstrip("/")`. */
  function StripTrailingSlashes(s: string): (r: string)
    ensures |r| <= |s| && r == s[..|r|]
    ensures r == [] || r[|r| - 1] != '/'
    ensures forall j :: |r| <= j < |s| ==> s[j] == '/'
    decreases |s|
  {
    if s != [] && s[|s| - 1] == '/' then StripTrailingSlashes(s[..|s| - 1]) else s
  }

  /** `os.path.basename`: the part after the last `/`. */
  function Basename(path: string): string
  {
    AfterLast(path, '/')
  }

  /** `os.path.dirname`: everything up to the last `/`, with trailing slashes
      removed unless nothing but slashes is left. */
  function Dirname(path: string): string
  {
    var head := path[..LastIndexOf(path, '/') + 1];
    if exists j :: 0 <= j < |head| && head[j] != '/' then StripTrailingSlashes(head) else head
  }

  /** The name of the directory immediately holding `path`. */
  function ParentName(path: string): string
  {
    Basename(Dirname(path))
  }

  const IgnoredNames := [".DS_Store"]

  /** `zip_filter`: a regular file that is not `.DS_Store`, not compiled
      Python, and whose own directory is not `cdk.out`, `__pycache__` or an
      `.egg-info` directory. */
  predicate ZipFilter(path: string, isFile: string -> bool)
  {
    var parent := ParentName(path);
    && isFile(path)
    && Basename(path) !in IgnoredNames
    && parent != "cdk.out"
    && parent != "__pycache__"
    && !EndsWith(path, ".pyc")
    && !EndsWith(parent, ".egg-info")
  }

  /** The zip `make_zipfile` writes for a source directory. */
  function ZipName(sourceDir: string): string
  {
    sourceDir + ".zip"
  }

  // ---------------------------------------------------------------------------
  // Properties.

  /** `os.path.join(root, name)` for a root with no trailing slash and a plain
      file name: the directory part is the root and the base name is the name. */
  lemma JoinSplits(root: string, name: string)
    requires root != [] && root[|root| - 1] != '/' && '/' !in name
    ensures Dirname(root + "/" + name) == root
    ensures Basename(root + "/" + name) == name
  {
    var path := root + "/" + name;
    var i := LastIndexOf(path, '/');
    assert path[|root|] == '/';
    forall j | |root| < j < |path| ensures path[j] != '/' {
      assert path[j] == name[j - |root| - 1];
    }
    assert i == |root|;
    var head := path[..i + 1];
    assert head == root + "/";
    assert head[|root| - 1] != '/';
    assert StripTrailingSlashes(head) == StripTrailingSlashes(root);
    assert path[i + 1..] == name;
  }

  /** ".pyc" holds no `/`, so a joined path ends with it exactly when its file
      name does. */
  lemma PycOfJoin(root: string, name: string)
    requires '/' !in name
    ensures EndsWith(root + "/" + name, ".pyc") <==> EndsWith(name, ".pyc")
  {
    var path := root + "/" + name;
    if |name| < 4 && |path| >= 4 {
      assert path[|path| - 4..][3 - |name|] == path[|path| - 1 - |name|] == '/';
    }
    if |name| >= 4 {
      assert path[|path| - 4..] == name[|name| - 4..];
    }
  }

  /** For a file `name` inside directory `root`, the filter keeps it exactly
      when it is a regular file, is not `.DS_Store` or compiled Python, and
      `root`'s own last component is not `cdk.out`, `__pycache__` or an
      `.egg-info` directory. */
  lemma FilterOfJoin(root: string, name: string, isFile: string -> bool)
    requires root != [] && root[|root| - 1] != '/' && '/' !in name
    ensures var parent := Basename(root);
      ZipFilter(root + "/" + name, isFile) <==>
        && isFile(root + "/" + name)
        && name != ".DS_Store"
        && parent != "cdk.out" && parent != "__pycache__" && !EndsWith(parent, ".egg-info")
        && !EndsWith(name, ".pyc")
  {
    JoinSplits(root, name);
    PycOfJoin(root, name);
  }

  /** Only the immediate directory is inspected: a file in a sub-directory of
      an excluded directory (`cdk.out/asset/app.py`, say) is kept. */
  lemma AncestorsNotInspected(ancestor: string, dir: string, name: string, isFile: string -> bool)
    requires ancestor != [] && ancestor[|ancestor| - 1] != '/'
    requires dir != [] && '/' !in dir && dir != "cdk.out" && dir != "__pycache__" && !EndsWith(dir, ".egg-info")
    requires '/' !in name && name != ".DS_Store" && !EndsWith(name, ".pyc")
    requires isFile(ancestor + "/" + dir + "/" + name)
    ensures ZipFilter(ancestor + "/" + dir + "/" + name, isFile)
  {
    var root := ancestor + "/" + dir;
    JoinSplits(ancestor, dir);
    FilterOfJoin(root, name, isFile);
  }

  /** A file directly in `cdk.out` is dropped, whatever its name. */
  lemma DirectlyInCdkOutDropped(name: string, isFile: string -> bool)
    requires '/' !in name
    ensures !ZipFilter("cdk.out/" + name, isFile)
  {
    assert "cdk.out/" + name == "cdk.out" + "/" + name;
    JoinSplits("cdk.out", name);
    assert Basename("cdk.out") == "cdk.out" by {
      assert '/' !in "cdk.out";
      assert LastIndexOf("cdk.out", '/') == -1;
    }
  }

  /** A path that is not a regular file is never kept. */
  lemma NonFilesDropped(path: string, isFile: string -> bool)
    requires !isFile(path)
    ensures !ZipFilter(path, isFile)
  {
  }

  /** The zip name gives back the source directory once ".zip" is dropped. */
  lemma ZipNameStrips(sourceDir: string)
    ensures var z := ZipName(sourceDir);
      EndsWith(z, ".zip") && z[..|z| - 4] == sourceDir
  {
  }
}
