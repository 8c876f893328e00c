/** POSIX path manipulation as Python's `os.path` performs it
    (`join`, `normpath`, `abspath`, `basename`), and an abstract file system
    standing in for the queries the queue code makes of the real one. */
module Paths {
  import opened Errors
  import opened Text

  type Path = string

  predicate IsAbs(p: Path) {
    |p| > 0 && p[0] == '/'
  }

  /** `os.path.join(a, b)` for two components. */
  function PathJoin(a: Path, b: Path): (r: Path)
    ensures IsAbs(b) ==> r == b
    ensures !IsAbs(b) ==> |a| <= |r| && r[..|a|] == a
  {
    if IsAbs(b) then b
    else if a == "" || a[|a| - 1] == '/' then a + b
    else a + "/" + b
  }

  /** The component loop of `os.path.normpath`: drops empty and "."
      components and lets ".." cancel the component before it. */
  function NormComponents(comps: seq<string>, acc: seq<string>, rooted: bool): seq<string>
    decreases |comps|
  {
    if comps == [] then acc
    else
      var c := comps[0];
      if c == "" || c == "." then NormComponents(comps[1..], acc, rooted)
      else if c != ".." || (!rooted && acc == []) || (acc != [] && acc[|acc| - 1] == "..") then
        NormComponents(comps[1..], acc + [c], rooted)
      else if acc != [] then NormComponents(comps[1..], acc[..|acc| - 1], rooted)
      else NormComponents(comps[1..], acc, rooted)
  }

  /** `os.path.normpath(p)`: one or two leading slashes are kept (POSIX
      gives exactly two a meaning of its own), three or more become one. */
  function Normpath(p: Path): (r: Path)
    ensures r != ""
  {
    if p == "" then "."
    else
      var slashes: string :=
        if p[0] != '/' then ""
        else if |p| >= 2 && p[1] == '/' && !(|p| >= 3 && p[2] == '/') then "//"
        else "/";
      var r := slashes + Join(NormComponents(Split(p, '/'), [], slashes != ""), "/");
      if r == "" then "." else r
  }

  /** `os.path.abspath(p)` when the working directory is `cwd`. */
  function Abspath(cwd: Path, p: Path): Path
  {
    Normpath(if IsAbs(p) then p else PathJoin(cwd, p))
  }

  function LastSlash(p: Path): (i: int)
    ensures -1 <= i < |p|
    ensures i >= 0 ==> p[i] == '/'
    ensures forall j :: i < j < |p| ==> p[j] != '/'
  {
    if p == [] then -1
    else if p[|p| - 1] == '/' then |p| - 1
    else LastSlash(p[..|p| - 1])
  }

  /** `os.path.basename(p)`: what follows the last slash. */
  function Basename(p: Path): (r: Path)
    ensures '/' !in r
    ensures |r| <= |p| && r == p[|p| - |r|..]
  {
    p[LastSlash(p) + 1..]
  }

  predicate AllSlashes(p: Path) {
    forall k :: 0 <= k < |p| ==> p[k] == '/'
  }

  /** The directories that lead to the normalised absolute path `p`,
      outermost first and without the root: "/a/b/c" has "/a" and "/a/b". */
  function Ancestors(p: Path): (r: seq<Path>)
    ensures forall k :: 0 <= k < |r| ==> |r[k]| < |p| && r[k] == p[..|r[k]|]
    decreases |p|
  {
    var i := LastSlash(p);
    if i <= 0 || AllSlashes(p[..i]) then []
    else
      var up := Ancestors(p[..i]);
      assert forall k :: 0 <= k < |up| ==> up[k] == p[..|up[k]|] by {
        forall k | 0 <= k < |up| ensures up[k] == p[..|up[k]|] {
          assert p[..i][..|up[k]|] == p[..|up[k]|];
        }
      }
      up + [p[..i]]
  }

  /** The part of the file system the queues look at, keyed by normalised
      absolute path text: a path is resolved against the working directory
      and normalised, as the operating system does, so that "s", "s/",
      "./s" and "s/../s" name one key. `undeletable` holds the files whose
      removal fails. */
  datatype FileSystem = FileSystem(
    cwd: Path,
    dirs: set<Path>,
    files: set<Path>,
    executable: set<Path>,
    undeletable: set<Path>)
  {
    /** The key a path names. */
    function Resolve(p: Path): (r: Path)
      ensures IsAbs(p) ==> r == Normpath(p)
    {
      Abspath(cwd, p)
    }

    /** The outermost directory leading to the key `r` that is not a
        directory here, if any: where the operating system's walk down
        the path stops. */
    function Blocking(r: Path): (b: Option<Path>)
      ensures b.None? <==> forall a :: a in Ancestors(r) ==> a in dirs
      ensures b.Some? ==> b.value in Ancestors(r) && b.value !in dirs
    {
      FirstNotIn(Ancestors(r), dirs)
    }

    /** `os.path.isdir(p)` */
    predicate IsDir(p: Path) {
      Resolve(p) in dirs
    }

    /** `os.path.exists(p)` */
    predicate Exists(p: Path) {
      Resolve(p) in files || Resolve(p) in dirs
    }

    /** `os.access(p, os.X_OK)` */
    predicate IsExecutable(p: Path) {
      Resolve(p) in executable
    }

    /** What `open(p, "w")` raises, if anything: the walk down to `p`
        stops at a file (NotADirectoryError) or at a missing directory
        (FileNotFoundError); a directory at `p` itself cannot be written
        (IsADirectoryError). A file at `p` is truncated, which succeeds. */
    function OpenForWrite(p: Path): (e: Option<Error>)
      ensures e.None? <==> Blocking(Resolve(p)).None? && !IsDir(p)
      ensures e.Some? ==> e.value.FileNotFoundError? || e.value.NotADirectoryError? || e.value.IsADirectoryError?
    {
      var key := Resolve(p);
      var b := Blocking(key);
      if b.Some? then
        if b.value in files then Some(NotADirectoryError("[Errno 20] Not a directory: '" + p + "'"))
        else Some(FileNotFoundError("[Errno 2] No such file or directory: '" + p + "'"))
      else if key in dirs then Some(IsADirectoryError("[Errno 21] Is a directory: '" + p + "'"))
      else None
    }
  }

  /** The first element of `xs` outside `s`. */
  function FirstNotIn(xs: seq<Path>, s: set<Path>): (b: Option<Path>)
    ensures b.None? <==> forall a :: a in xs ==> a in s
    ensures b.Some? ==> b.value in xs && b.value !in s
  {
    if xs == [] then None
    else if xs[0] !in s then Some(xs[0])
    else FirstNotIn(xs[1..], s)
  }

  // Worked spellings: what `normpath` makes of a few relative spellings
  // of one directory or file.

  /** A path component that `normpath` keeps as it is. */
  predicate Plain(a: string) {
    a != "" && '/' !in a && a != "." && a != ".."
  }

  lemma NormDrop(c: string, rest: seq<string>, acc: seq<string>)
    requires c == "" || c == "."
    ensures NormComponents([c] + rest, acc, true) == NormComponents(rest, acc, true)
  {
    assert ([c] + rest)[1..] == rest;
  }

  lemma NormKeep(c: string, rest: seq<string>, acc: seq<string>)
    requires Plain(c)
    ensures NormComponents([c] + rest, acc, true) == NormComponents(rest, acc + [c], true)
  {
    assert ([c] + rest)[1..] == rest;
  }

  /** `normpath` of a path with exactly one leading slash. */
  lemma NormOneSlash(p: string)
    requires |p| >= 2 && p[0] == '/' && p[1] != '/'
    ensures Normpath(p) == "/" + Join(NormComponents(Split(p, '/'), [], true), "/")
  {
  }

  /** The pieces of "/a/" followed by `rest`. */
  lemma SplitRooted(a: string, rest: string)
    requires '/' !in a
    ensures Split("/" + a + "/" + rest, '/') == ["", a] + Split(rest, '/')
  {
    SplitAfter(a, rest, '/');
    SplitAfter("", a + "/" + rest, '/');
    assert "/" + a + "/" + rest == "" + ['/'] + (a + "/" + rest);
    assert a + "/" + rest == a + ['/'] + rest;
  }

  lemma SplitPlain(a: string, b: string)
    requires Plain(a) && Plain(b)
    ensures Split("/" + a + "/" + b, '/') == ["", a, b]
  {
    SplitRooted(a, b);
    SplitAbsent(b, '/');
  }

  lemma SplitTrailing(a: string, b: string)
    requires Plain(a) && Plain(b)
    ensures Split("/" + a + "/" + b + "/", '/') == ["", a, b, ""]
  {
    SplitRooted(a, b + "/");
    SplitAfter(b, "", '/');
    SplitAbsent("", '/');
    assert b + "/" == b + ['/'] + "";
    assert "/" + a + "/" + (b + "/") == "/" + a + "/" + b + "/";
    assert ["", a] + ([b] + [""]) == ["", a, b, ""];
  }

  lemma SplitDot(a: string, b: string)
    requires Plain(a) && Plain(b)
    ensures Split("/" + a + "/./" + b, '/') == ["", a, ".", b]
  {
    SplitRooted(a, "./" + b);
    SplitAfter(".", b, '/');
    SplitAbsent(b, '/');
    assert "./" + b == "." + ['/'] + b;
    assert "/" + a + "/" + ("./" + b) == "/" + a + "/./" + b;
    assert ["", a] + (["."] + [b]) == ["", a, ".", b];
  }

  lemma SplitPlainThree(a: string, b: string, c: string)
    requires Plain(a) && Plain(b) && Plain(c)
    ensures Split("/" + a + "/" + b + "/" + c, '/') == ["", a, b, c]
  {
    SplitRooted(a, b + "/" + c);
    SplitAfter(b, c, '/');
    SplitAbsent(c, '/');
    assert b + "/" + c == b + ['/'] + c;
    assert "/" + a + "/" + (b + "/" + c) == "/" + a + "/" + b + "/" + c;
    assert ["", a] + ([b] + [c]) == ["", a, b, c];
  }

  lemma SplitPair(b: string, c: string)
    requires '/' !in b && '/' !in c
    ensures Split(b + "/" + c, '/') == [b, c]
  {
    SplitAfter(b, c, '/');
    SplitAbsent(c, '/');
    assert b + "/" + c == b + ['/'] + c;
  }

  lemma SplitDotThree(a: string, b: string, c: string)
    requires Plain(a) && Plain(b) && Plain(c)
    ensures Split("/" + a + "/./" + b + "/" + c, '/') == ["", a, ".", b, c]
  {
    var bc := b + "/" + c;
    SplitPair(b, c);
    SplitAfter(".", bc, '/');
    assert "./" + bc == "." + ['/'] + bc;
    SplitRooted(a, "./" + bc);
    assert "/" + a + "/" + ("./" + bc) == "/" + a + "/./" + b + "/" + c;
    assert ["", a] + (["."] + [b, c]) == ["", a, ".", b, c];
  }

  lemma NormPair(a: string, b: string)
    requires Plain(a) && Plain(b)
    ensures NormComponents([a, b], [], true) == [a, b]
  {
    NormKeep(a, [b], []);
    NormKeep(b, [], [a]);
    assert [a] + [b] == [a, b];
    assert [b] + [] == [b];
    assert [] + [a] == [a];
  }

  lemma NormPlain(a: string, b: string)
    requires Plain(a) && Plain(b)
    ensures Normpath("/" + a + "/" + b) == "/" + a + "/" + b
  {
    assert ("/" + a + "/" + b)[1] == a[0];
    NormOneSlash("/" + a + "/" + b);
    SplitPlain(a, b);
    NormPair(a, b);
    NormDrop("", [a, b], []);
    assert [""] + [a, b] == ["", a, b];
    assert Join([a, b], "/") == a + "/" + b;
  }

  lemma NormTrailing(a: string, b: string)
    requires Plain(a) && Plain(b)
    ensures Normpath("/" + a + "/" + b + "/") == "/" + a + "/" + b
  {
    assert ("/" + a + "/" + b + "/")[1] == a[0];
    NormOneSlash("/" + a + "/" + b + "/");
    SplitTrailing(a, b);
    assert NormComponents(["", a, b, ""], [], true) == [a, b] by {
      NormDrop("", [a, b, ""], []);
      NormKeep(a, [b, ""], []);
      NormKeep(b, [""], [a]);
      NormDrop("", [], [a, b]);
      assert [""] + [a, b, ""] == ["", a, b, ""];
      assert [a] + [b, ""] == [a, b, ""];
      assert [b] + [""] == [b, ""];
      assert [""] + [] == [""];
      assert [] + [a] == [a];
      assert [a] + [b] == [a, b];
    }
    assert Join([a, b], "/") == a + "/" + b;
  }

  lemma NormDot(a: string, b: string)
    requires Plain(a) && Plain(b)
    ensures Normpath("/" + a + "/./" + b) == "/" + a + "/" + b
  {
    assert ("/" + a + "/./" + b)[1] == a[0];
    NormOneSlash("/" + a + "/./" + b);
    SplitDot(a, b);
    assert NormComponents(["", a, ".", b], [], true) == [a, b] by {
      NormDrop("", [a, ".", b], []);
      NormKeep(a, [".", b], []);
      NormDrop(".", [b], [a]);
      NormKeep(b, [], [a]);
      assert [""] + [a, ".", b] == ["", a, ".", b];
      assert [a] + [".", b] == [a, ".", b];
      assert ["."] + [b] == [".", b];
      assert [b] + [] == [b];
      assert [] + [a] == [a];
      assert [a] + [b] == [a, b];
    }
    assert Join([a, b], "/") == a + "/" + b;
  }

  lemma NormTriple(a: string, b: string, c: string)
    requires Plain(a) && Plain(b) && Plain(c)
    ensures NormComponents([b, c], [a], true) == [a, b, c]
  {
    NormKeep(b, [c], [a]);
    NormKeep(c, [], [a, b]);
    assert [b] + [c] == [b, c];
    assert [c] + [] == [c];
    assert [a] + [b] == [a, b];
    assert [a, b] + [c] == [a, b, c];
  }

  lemma JoinThree(a: string, b: string, c: string)
    ensures Join([a, b, c], "/") == a + "/" + b + "/" + c
  {
    assert [a, b, c][1..] == [b, c];
    assert [b, c][1..] == [c];
    assert Join([c], "/") == c;
    assert Join([b, c], "/") == b + "/" + c;
    assert a + "/" + (b + "/" + c) == a + "/" + b + "/" + c;
  }

  lemma NormPlainThree(a: string, b: string, c: string)
    requires Plain(a) && Plain(b) && Plain(c)
    ensures Normpath("/" + a + "/" + b + "/" + c) == "/" + a + "/" + b + "/" + c
  {
    var p := "/" + a + "/" + b + "/" + c;
    assert p[1] == a[0];
    NormOneSlash(p);
    SplitPlainThree(a, b, c);
    assert NormComponents(["", a, b, c], [], true) == [a, b, c] by {
      NormDrop("", [a, b, c], []);
      NormKeep(a, [b, c], []);
      NormTriple(a, b, c);
      assert [""] + [a, b, c] == ["", a, b, c];
      assert [a] + [b, c] == [a, b, c];
      assert [] + [a] == [a];
    }
    JoinThree(a, b, c);
  }

  lemma NormDotThree(a: string, b: string, c: string)
    requires Plain(a) && Plain(b) && Plain(c)
    ensures Normpath("/" + a + "/./" + b + "/" + c) == "/" + a + "/" + b + "/" + c
  {
    var p := "/" + a + "/./" + b + "/" + c;
    assert p[1] == a[0];
    NormOneSlash(p);
    SplitDotThree(a, b, c);
    assert NormComponents(["", a, ".", b, c], [], true) == [a, b, c] by {
      NormDrop("", [a, ".", b, c], []);
      NormKeep(a, [".", b, c], []);
      NormDrop(".", [b, c], [a]);
      NormTriple(a, b, c);
      assert [""] + [a, ".", b, c] == ["", a, ".", b, c];
      assert [a] + [".", b, c] == [a, ".", b, c];
      assert ["."] + [b, c] == [".", b, c];
      assert [] + [a] == [a];
    }
    JoinThree(a, b, c);
  }

  /** Below a working directory "/a", the spellings "b/", "./b" and "b"
      name one directory. */
  lemma SameDirectory(fs: FileSystem, a: string, b: string)
    requires fs.cwd == "/" + a && Plain(a) && Plain(b)
    ensures fs.Resolve(b + "/") == fs.Resolve("./" + b) == fs.Resolve(b) == "/" + a + "/" + b
  {
    assert ("/" + a)[|"/" + a| - 1] == a[|a| - 1];
    assert PathJoin("/" + a, b + "/") == "/" + a + "/" + b + "/";
    assert PathJoin("/" + a, "./" + b) == "/" + a + "/./" + b;
    assert PathJoin("/" + a, b) == "/" + a + "/" + b;
    NormTrailing(a, b);
    NormDot(a, b);
    NormPlain(a, b);
  }

  /** `os.path.join(x, y)` for a relative `y` and an `x` without a
      trailing slash. */
  lemma PathJoinSlash(x: Path, y: Path)
    requires x != "" && x[|x| - 1] != '/' && !IsAbs(y)
    ensures PathJoin(x, y) == x + "/" + y
  {
  }

  /** Below a working directory "/a", the spellings "./b/c" and "b/c" name
      one file. */
  lemma SameFile(fs: FileSystem, a: string, b: string, c: string)
    requires fs.cwd == "/" + a && Plain(a) && Plain(b) && Plain(c)
    ensures fs.Resolve(PathJoin("./" + b, c)) == fs.Resolve(PathJoin(b, c)) == "/" + a + "/" + b + "/" + c
  {
    assert ("./" + b)[|"./" + b| - 1] == b[|b| - 1];
    PathJoinSlash("./" + b, c);
    PathJoinSlash(b, c);
    var dotted := "./" + b + "/" + c;
    var plain := b + "/" + c;
    assert dotted[0] == '.' && plain[0] == b[0];
    assert ("/" + a)[|"/" + a| - 1] == a[|a| - 1];
    PathJoinSlash("/" + a, dotted);
    PathJoinSlash("/" + a, plain);
    assert "/" + a + "/" + dotted == "/" + a + "/./" + b + "/" + c;
    assert "/" + a + "/" + plain == "/" + a + "/" + b + "/" + c;
    NormDotThree(a, b, c);
    NormPlainThree(a, b, c);
  }

  /** The last slash of `x`, a slash, then a slash-free `c` is the one
      after `x`. */
  lemma {:induction false} LastSlashBefore(x: Path, c: string)
    requires '/' !in c
    ensures LastSlash(x + "/" + c) == |x|
    decreases |c|
  {
    var p := x + "/" + c;
    if c != [] {
      assert p[..|p| - 1] == x + "/" + c[..|c| - 1];
      LastSlashBefore(x, c[..|c| - 1]);
    }
  }

  /** One more component below `x`: `x` itself is added to the
      directories leading there. */
  lemma AncestorsStep(x: Path, c: string)
    requires '/' !in c && x != "" && !AllSlashes(x)
    ensures Ancestors(x + "/" + c) == Ancestors(x) + [x]
  {
    var p := x + "/" + c;
    LastSlashBefore(x, c);
    assert p[..|x|] == x;
  }

  /** The directories leading to "/a/b/c" are "/a" and "/a/b". */
  lemma AncestorsThree(a: string, b: string, c: string)
    requires Plain(a) && Plain(b) && Plain(c)
    ensures Ancestors("/" + a + "/" + b + "/" + c) == ["/" + a, "/" + a + "/" + b]
  {
    var top, mid := "/" + a, "/" + a + "/" + b;
    assert Ancestors(top) == [] by {
      LastSlashBefore("", a);
      assert "" + "/" + a == top;
    }
    assert top[1] == a[0] && !AllSlashes(top);
    AncestorsStep(top, b);
    assert mid[1] == a[0] && !AllSlashes(mid);
    AncestorsStep(mid, c);
  }

  /** Below the working directory "/a", writing "b/c" or its absolute
      path raises FileNotFoundError when nothing is at "/a/b" and "/a" is
      no file, and succeeds when "/a" and "/a/b" are directories and
      "/a/b/c" is not. */
  lemma OpenBelow(fs: FileSystem, a: string, b: string, c: string, p: Path)
    requires fs.cwd == "/" + a && Plain(a) && Plain(b) && Plain(c)
    requires p == PathJoin(b, c) || p == Abspath(fs.cwd, PathJoin(b, c))
    ensures var dir, e := "/" + a + "/" + b, fs.OpenForWrite(p);
            dir !in fs.dirs && dir !in fs.files && "/" + a !in fs.files ==> e.Some? && e.value.FileNotFoundError?
    ensures var dir, e := "/" + a + "/" + b, fs.OpenForWrite(p);
            "/" + a in fs.dirs && dir in fs.dirs && dir + "/" + c !in fs.dirs ==> e.None?
  {
    var top, dir, key := "/" + a, "/" + a + "/" + b, "/" + a + "/" + b + "/" + c;
    assert fs.Resolve(p) == key by {
      SameFile(fs, a, b, c);
      NormPlainThree(a, b, c);
    }
    assert fs.Blocking(key) == FirstNotIn([top, dir], fs.dirs) by {
      AncestorsThree(a, b, c);
    }
    assert [top, dir][1..] == [dir];
    assert dir + "/" + c == key;
  }

  /** Whether `open(p, "w")` succeeds depends only on the working
      directory and the directories; with fewer files, a missing directory
      on the way stays missing. */
  lemma OpenByDirs(f: FileSystem, g: FileSystem, p: Path)
    requires f.cwd == g.cwd && f.dirs == g.dirs
    ensures f.OpenForWrite(p).None? <==> g.OpenForWrite(p).None?
    ensures g.files <= f.files && f.OpenForWrite(p).Some? && f.OpenForWrite(p).value.FileNotFoundError? ==>
              g.OpenForWrite(p).value.FileNotFoundError?
  {
  }
}
