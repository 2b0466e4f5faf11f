/**
 * Scoped file storage (backend/core/scoped_storage.py): every soul's files
 * live under data_dir/owner/soul/category, over the directory tree of
 * `FileTree`. The data directory is one opaque path component; a name is
 * joined the way `pathlib` joins it, where joining "" leaves the path as is.
 */
module Storage {
  import opened Common
  import opened FileTree
  import opened Exceptions

  const Uploads: string := "uploads"
  const Transcripts: string := "transcripts"
  const IndexCategory: string := "index"
  const Categories: seq<string> := [Uploads, Transcripts, IndexCategory]

  /** What `save_file` and `list_files` report about a file (its ctime and path string are not modelled). */
  datatype FileInfo = FileInfo(filename: string, size: nat, category: string)

  datatype CategoryStats = CategoryStats(count: nat, totalSize: nat)

  /** `data_dir or os.getenv("DATA_DIR", "./data")`: an empty argument counts as missing. */
  function DataDir(arg: Option<string>, env: map<string, string>): (d: string)
    ensures arg.Some? && arg.value != "" ==> d == arg.value
    ensures (arg.None? || arg.value == "") ==> d == (if "DATA_DIR" in env then env["DATA_DIR"] else "./data")
  {
    if arg.Some? && arg.value != "" then arg.value
    else if "DATA_DIR" in env then env["DATA_DIR"]
    else "./data"
  }

  /** `path / name` */
  function Child(p: Path, name: string): (r: Path)
    ensures p <= r && |r| <= |p| + 1
    ensures name != "" ==> r == p + [name]
  {
    if name == "" then p else p + [name]
  }

  /**
   * A name that stays one component of its own when joined: not empty, no
   * separator, and not "." or "..". The code joins the names it is given
   * without checking this.
   */
  predicate PlainName(name: string) {
    name != "" && '/' !in name && name != "." && name != ".."
  }

  function OwnerPath(root: Path, owner: string): (r: Path)
    ensures PlainName(owner) ==> r == root + [owner]
  {
    Child(root, owner)
  }

  function SoulPath(root: Path, owner: string, soul: string): (r: Path)
    ensures OwnerPath(root, owner) <= r
    ensures PlainName(owner) && PlainName(soul) ==> r == root + [owner, soul]
  {
    Child(OwnerPath(root, owner), soul)
  }

  function CategoryPath(root: Path, owner: string, soul: string, category: string): (r: Path)
    ensures SoulPath(root, owner, soul) <= r
    ensures PlainName(owner) && PlainName(soul) && PlainName(category) ==> r == root + [owner, soul, category]
  {
    Child(SoulPath(root, owner, soul), category)
  }

  /** A category directory lies inside its soul's directory, which lies inside its owner's. */
  lemma PathsNest(root: Path, owner: string, soul: string, category: string)
    ensures root <= OwnerPath(root, owner) <= SoulPath(root, owner, soul) <= CategoryPath(root, owner, soul, category)
  {
  }

  /** The three categories of a soul are three different directories. */
  lemma CategoriesDistinct(root: Path, owner: string, soul: string)
    ensures forall i, j :: 0 <= i < j < |Categories| ==>
      CategoryPath(root, owner, soul, Categories[i]) != CategoryPath(root, owner, soul, Categories[j])
  {
    var s := SoulPath(root, owner, soul);
    forall i, j | 0 <= i < j < |Categories|
      ensures CategoryPath(root, owner, soul, Categories[i]) != CategoryPath(root, owner, soul, Categories[j])
    {
      assert CategoryPath(root, owner, soul, Categories[i])[|s|] == Categories[i];
      assert CategoryPath(root, owner, soul, Categories[j])[|s|] == Categories[j];
    }
  }

  /** Two different owners' directories do not overlap: nothing lies under both. */
  lemma OwnersDisjoint(root: Path, o1: string, o2: string, q: Path)
    requires PlainName(o1) && PlainName(o2) && o1 != o2
    ensures OwnerPath(root, o1) <= q ==> !(OwnerPath(root, o2) <= q)
  {
    if OwnerPath(root, o1) <= q {
      assert q[|root|] == o1;
    }
  }

  /** Two different souls of one owner do not overlap either. */
  lemma SoulsDisjoint(root: Path, owner: string, s1: string, s2: string, q: Path)
    requires PlainName(owner) && PlainName(s1) && PlainName(s2) && s1 != s2
    ensures SoulPath(root, owner, s1) <= q ==> !(SoulPath(root, owner, s2) <= q)
  {
    if SoulPath(root, owner, s1) <= q {
      assert q[|root| + 1] == s1;
    }
  }

  /** The error `mkdir(parents=True, exist_ok=True)` raises: the target itself a file, or a file on the way. */
  function MkdirError(log: Log, p: Path): (e: string)
    ensures e == "FileExistsError" <==> IsFile(log, p)
  {
    if IsFile(log, p) then "FileExistsError" else "NotADirectoryError"
  }

  /** `mkdir` never turns a directory into anything else. */
  lemma MakeDirsKeepsDirs(log: Log, p: Path, q: Path)
    requires IsDir(log, q) && MakeDirs(log, p).Ok?
    ensures IsDir(MakeDirs(log, p).value, q)
  {
    MakeDirsSpec(log, p);
  }

  lemma MakeDirsMakesTarget(log: Log, p: Path)
    requires |p| >= 1 && MakeDirs(log, p).Ok?
    ensures IsDir(MakeDirs(log, p).value, p)
  {
    MakeDirsFromDirs(log, p, 1, |p|);
    assert p[..|p|] == p;
  }

  /** One `mkdir(parents=True, exist_ok=True)` of `p`, skipped once an earlier one has raised. */
  function EnsureStep(state: (Log, Option<string>), p: Path): (Log, Option<string>) {
    if state.1.Some? then state
    else
      match MakeDirs(state.0, p)
      case Ok(l) => (l, None)
      case Err(l) => (l, Some(MkdirError(state.0, p)))
  }

  /**
   * `ensure_paths_exist` over the categories `cats`, in order: the tree
   * afterwards and the error the first failing `mkdir` raised, if any.
   */
  function EnsureSteps(log: Log, soul: Path, cats: seq<string>): (Log, Option<string>)
    decreases |cats|
  {
    if cats == [] then (log, None)
    else EnsureStep(EnsureSteps(log, soul, cats[..|cats| - 1]), Child(soul, cats[|cats| - 1]))
  }

  lemma EnsureStepsSnoc(log: Log, soul: Path, cats: seq<string>, i: nat)
    requires i < |cats|
    ensures EnsureSteps(log, soul, cats[..i + 1]) == EnsureStep(EnsureSteps(log, soul, cats[..i]), Child(soul, cats[i]))
  {
    assert cats[..i + 1][..i] == cats[..i];
  }

  /** The creation never produces a repeated path. */
  lemma {:induction false} EnsureStepsUnique(log: Log, soul: Path, cats: seq<string>)
    requires Unique(log)
    ensures Unique(EnsureSteps(log, soul, cats).0)
    decreases |cats|
  {
    if cats != [] {
      EnsureStepsUnique(log, soul, cats[..|cats| - 1]);
      var (l, e) := EnsureSteps(log, soul, cats[..|cats| - 1]);
      if e.None? {
        MakeDirsFromUnique(l, Child(soul, cats[|cats| - 1]), 1);
      }
      assert EnsureSteps(log, soul, cats) == EnsureStep((l, e), Child(soul, cats[|cats| - 1]));
    }
  }

  /** When no `mkdir` failed, every category directory exists as a directory. */
  lemma {:induction false} EnsureStepsMakesDirs(log: Log, soul: Path, cats: seq<string>)
    requires |soul| >= 1
    ensures EnsureSteps(log, soul, cats).1.None? ==>
      forall c :: c in cats ==> IsDir(EnsureSteps(log, soul, cats).0, Child(soul, c))
    decreases |cats|
  {
    if cats != [] {
      var init := cats[..|cats| - 1];
      var last := cats[|cats| - 1];
      EnsureStepsMakesDirs(log, soul, init);
      var (l, e) := EnsureSteps(log, soul, init);
      var p := Child(soul, last);
      if e.None? && MakeDirs(l, p).Ok? {
        var l2 := MakeDirs(l, p).value;
        forall c | c in cats ensures IsDir(l2, Child(soul, c)) {
          if c == last {
            MakeDirsMakesTarget(l, p);
          } else {
            assert c in init;
            MakeDirsKeepsDirs(l, p, Child(soul, c));
          }
        }
      }
    }
  }

  /** `StorageError(f"Failed to save file: {e}")` */
  function SaveFailure(reason: string): (r: Raised)
    ensures IsStorageError(r) && r.message == "Failed to save file: " + reason
  {
    Domain(Storage, "Failed to save file: " + reason)
  }

  /**
   * `save_file`: make the three category directories, then write
   * category/filename with `size` bytes. Every failure is a StorageError.
   */
  function Save(log: Log, root: Path, owner: string, soul: string, size: nat, filename: string, category: string)
    : (r: (Log, Result<FileInfo, Raised>))
    ensures r.1.Ok? ==> r.1.value == FileInfo(filename, size, category)
    ensures r.1.Err? ==> IsStorageError(r.1.error) && StartsWith(r.1.error.message, "Failed to save file: ")
  {
    var (l, e) := EnsureSteps(log, SoulPath(root, owner, soul), Categories);
    if e.Some? then
      assert ("Failed to save file: " + e.value)[..|"Failed to save file: "|] == "Failed to save file: ";
      (l, Err(SaveFailure(e.value)))
    else
      match WriteFile(l, Child(CategoryPath(root, owner, soul, category), filename), size)
      case Err(w) =>
        assert ("Failed to save file: " + w)[..|"Failed to save file: "|] == "Failed to save file: ";
        (l, Err(SaveFailure(w)))
      case Ok(l2) => (l2, Ok(FileInfo(filename, size, category)))
  }

  lemma SaveUnique(log: Log, root: Path, owner: string, soul: string, size: nat, filename: string, category: string)
    requires Unique(log)
    ensures Unique(Save(log, root, owner, soul, size, filename, category).0)
  {
    var soulPath := SoulPath(root, owner, soul);
    EnsureStepsUnique(log, soulPath, Categories);
    var (l, e) := EnsureSteps(log, soulPath, Categories);
    if e.None? {
      PutUnique(l, Child(CategoryPath(root, owner, soul, category), filename), File(size));
    }
  }

  /** A successful save reports the file as given and leaves it at category/filename with that size. */
  lemma SaveStoresFile(log: Log, root: Path, owner: string, soul: string, size: nat, filename: string, category: string)
    requires Save(log, root, owner, soul, size, filename, category).1.Ok?
    ensures var (l, r) := Save(log, root, owner, soul, size, filename, category);
      && r.value == FileInfo(filename, size, category)
      && Find(l, Child(CategoryPath(root, owner, soul, category), filename)) == Some(File(size))
  {
  }

  /** The categories `list_files` walks: the given one when it is a non-empty string, else all three. */
  function ListCategories(category: Option<string>): (cats: seq<string>)
    ensures category.Some? && category.value != "" ==> cats == [category.value]
    ensures category.None? || category.value == "" ==> cats == Categories
  {
    if category.Some? && category.value != "" then [category.value] else Categories
  }

  /** The regular files among a directory's children, in listing order, reported under `cat`. */
  function FilesIn(children: seq<(string, Entry)>, cat: string): (files: seq<FileInfo>)
    ensures forall x :: x in files ==> x.category == cat
    decreases |children|
  {
    if children == [] then []
    else
      var (name, e) := children[|children| - 1];
      FilesIn(children[..|children| - 1], cat) + (if e.File? then [FileInfo(name, e.size, cat)] else [])
  }

  /** The inner loop of `list_files`: keep the regular files of one directory listing. */
  method CollectFiles(children: seq<(string, Entry)>, cat: string) returns (files: seq<FileInfo>)
    ensures files == FilesIn(children, cat)
  {
    files := [];
    var j := 0;
    while j < |children|
      invariant 0 <= j <= |children|
      invariant files == FilesIn(children[..j], cat)
    {
      var (name, e) := children[j];
      if e.File? {
        files := files + [FileInfo(name, e.size, cat)];
      }
      assert children[..j + 1][..j] == children[..j];
      j := j + 1;
    }
    assert children[..j] == children;
  }

  /** A file is listed iff it is a regular-file child, under the category walked. */
  lemma {:induction false} FilesInIff(children: seq<(string, Entry)>, cat: string, x: FileInfo)
    ensures x in FilesIn(children, cat) <==> x.category == cat && (x.filename, File(x.size)) in children
    decreases |children|
  {
    if children != [] {
      var init := children[..|children| - 1];
      var (name, e) := children[|children| - 1];
      FilesInIff(init, cat, x);
      assert children == init + [(name, e)];
      assert (x.filename, File(x.size)) in children <==> (x.filename, File(x.size)) in init || (x.filename, File(x.size)) == (name, e);
      assert FilesIn(children, cat) == FilesIn(init, cat) + (if e.File? then [FileInfo(name, e.size, cat)] else []);
    }
  }

  /** Every name listed belongs to a child, so distinct children give distinct listed names. */
  lemma {:induction false} FilesInDistinct(children: seq<(string, Entry)>, cat: string)
    requires DistinctNames(children)
    ensures forall i, j :: 0 <= i < j < |FilesIn(children, cat)| ==>
      FilesIn(children, cat)[i].filename != FilesIn(children, cat)[j].filename
    decreases |children|
  {
    if children != [] {
      var n := |children| - 1;
      var init := children[..n];
      assert DistinctNames(init) by {
        forall i, j | 0 <= i < j < |init| ensures init[i].0 != init[j].0 {
          assert init[i] == children[i] && init[j] == children[j];
        }
      }
      FilesInDistinct(init, cat);
      var prev := FilesIn(init, cat);
      var all := FilesIn(children, cat);
      forall i | 0 <= i < |prev| ensures prev[i].filename != children[n].0 {
        FilesInIff(init, cat, prev[i]);
        var k :| 0 <= k < |init| && init[k] == (prev[i].filename, File(prev[i].size));
        assert children[k] == init[k];
      }
      forall i, j | 0 <= i < j < |all| ensures all[i].filename != all[j].filename {
        if j >= |prev| {
          assert all[j].filename == children[n].0;
          assert all[i] == prev[i];
        } else {
          assert all[i] == prev[i] && all[j] == prev[j];
        }
      }
    }
  }

  /** Walk one more category: a missing directory is skipped, a category path that is a regular file makes `iterdir` raise. */
  function ListStep(acc: Result<seq<FileInfo>, Raised>, log: Log, soul: Path, cat: string): Result<seq<FileInfo>, Raised> {
    if acc.Err? then acc
    else
      var p := Child(soul, cat);
      match Find(log, p)
      case None => acc
      case Some(File(_)) => Err(Other("NotADirectoryError"))
      case Some(Dir) => Ok(acc.value + FilesIn(Children(log, p), cat))
  }

  /** `list_files` over the categories `cats`, in order. */
  function ListIn(log: Log, soul: Path, cats: seq<string>): (r: Result<seq<FileInfo>, Raised>)
    ensures r.Err? ==> r.error == Other("NotADirectoryError")
    ensures r.Ok? ==> forall x :: x in r.value ==> x.category in cats
    decreases |cats|
  {
    if cats == [] then Ok([])
    else ListStep(ListIn(log, soul, cats[..|cats| - 1]), log, soul, cats[|cats| - 1])
  }

  lemma ListInSnoc(log: Log, soul: Path, cats: seq<string>, i: nat)
    requires i < |cats|
    ensures ListIn(log, soul, cats[..i + 1]) == ListStep(ListIn(log, soul, cats[..i]), log, soul, cats[i])
  {
    assert cats[..i + 1][..i] == cats[..i];
  }

  /** A file is listed iff it is a regular file directly inside the directory of one of the categories walked. */
  lemma {:induction false} ListInIff(log: Log, soul: Path, cats: seq<string>, x: FileInfo)
    requires ListIn(log, soul, cats).Ok?
    ensures x in ListIn(log, soul, cats).value <==>
      x.category in cats && IsDir(log, Child(soul, x.category))
      && (Child(soul, x.category) + [x.filename], File(x.size)) in log
    decreases |cats|
  {
    if cats != [] {
      var init := cats[..|cats| - 1];
      var cat := cats[|cats| - 1];
      var prev := ListIn(log, soul, init);
      assert ListIn(log, soul, cats) == ListStep(prev, log, soul, cat);
      assert prev.Ok?;
      ListInIff(log, soul, init, x);
      var p := Child(soul, cat);
      assert cats == init + [cat];
      assert x.category in cats <==> x.category in init || x.category == cat;
      if IsDir(log, p) {
        assert ListIn(log, soul, cats).value == prev.value + FilesIn(Children(log, p), cat);
        FilesInIff(Children(log, p), cat, x);
      } else {
        assert ListIn(log, soul, cats) == prev;
      }
    }
  }

  /** Listing fails iff some category walked is a regular file. */
  lemma {:induction false} ListInOk(log: Log, soul: Path, cats: seq<string>)
    ensures ListIn(log, soul, cats).Ok? <==> forall c :: c in cats ==> !IsFile(log, Child(soul, c))
    decreases |cats|
  {
    if cats != [] {
      ListInOk(log, soul, cats[..|cats| - 1]);
      assert cats == cats[..|cats| - 1] + [cats[|cats| - 1]];
    }
  }

  /** After a successful save under a named category, the category is a directory holding the file. */
  lemma SavedFileFound(log: Log, root: Path, owner: string, soul: string, size: nat, filename: string, category: string)
    requires PlainName(owner) && PlainName(soul) && PlainName(category) && PlainName(filename)
    requires Save(log, root, owner, soul, size, filename, category).1.Ok?
    ensures var l := Save(log, root, owner, soul, size, filename, category).0;
      var catPath := CategoryPath(root, owner, soul, category);
      IsDir(l, catPath) && Find(l, catPath + [filename]) == Some(File(size))
  {
    var catPath := CategoryPath(root, owner, soul, category);
    var filePath := catPath + [filename];
    var (l1, e) := EnsureSteps(log, SoulPath(root, owner, soul), Categories);
    assert e.None? && WriteFile(l1, filePath, size).Ok?;
    assert filePath[..|filePath| - 1] == catPath;
    assert IsDir(l1, catPath);
    assert catPath != filePath;
  }

  /**
   * After a successful save, listing that category shows the file exactly
   * once, whatever was there before: a second save of the same name
   * overwrites the first.
   */
  lemma SavedFileListedOnce(log: Log, root: Path, owner: string, soul: string, size: nat, filename: string, category: string)
    requires Unique(log)
    requires PlainName(owner) && PlainName(soul) && PlainName(category) && PlainName(filename)
    requires Save(log, root, owner, soul, size, filename, category).1.Ok?
    ensures var l := Save(log, root, owner, soul, size, filename, category).0;
      var listed := ListIn(l, SoulPath(root, owner, soul), [category]);
      && listed.Ok?
      && FileInfo(filename, size, category) in listed.value
      && forall i, j :: 0 <= i < j < |listed.value| ==> listed.value[i].filename != listed.value[j].filename
  {
    SaveUnique(log, root, owner, soul, size, filename, category);
    SavedFileFound(log, root, owner, soul, size, filename, category);
    ListedOnce(Save(log, root, owner, soul, size, filename, category).0, SoulPath(root, owner, soul), category, filename, size);
  }

  /** A regular file directly inside an existing category directory is listed there exactly once. */
  lemma ListedOnce(log: Log, soul: Path, category: string, filename: string, size: nat)
    requires Unique(log) && category != ""
    requires IsDir(log, soul + [category]) && Find(log, soul + [category] + [filename]) == Some(File(size))
    ensures var listed := ListIn(log, soul, [category]);
      && listed.Ok?
      && FileInfo(filename, size, category) in listed.value
      && forall i, j :: 0 <= i < j < |listed.value| ==> listed.value[i].filename != listed.value[j].filename
  {
    var catPath := soul + [category];
    FindSpec(log, catPath + [filename]);
    var children := Children(log, catPath);
    assert ListIn(log, soul, [category]) == Ok(FilesIn(children, category)) by {
      assert [category][..0] == [];
      assert ListIn(log, soul, [category][..0]) == Ok([]);
      assert Child(soul, category) == catPath;
      assert [] + FilesIn(children, category) == FilesIn(children, category);
    }
    FilesInIff(children, category, FileInfo(filename, size, category));
    ChildrenDistinct(log, catPath);
    FilesInDistinct(children, category);
  }

  function TotalSize(files: seq<FileInfo>): (n: nat)
    ensures files == [] ==> n == 0
    decreases |files|
  {
    if files == [] then 0 else TotalSize(files[..|files| - 1]) + files[|files| - 1].size
  }

  /** A category's entry in the storage statistics. */
  function StatsOf(files: seq<FileInfo>): (s: CategoryStats)
    ensures s.count == |files| && s.totalSize == TotalSize(files)
  {
    CategoryStats(|files|, TotalSize(files))
  }

  /** The total of a listing is the sum of its parts. */
  lemma {:induction false} TotalSizeAppend(a: seq<FileInfo>, b: seq<FileInfo>)
    ensures TotalSize(a + b) == TotalSize(a) + TotalSize(b)
    decreases |b|
  {
    if b != [] {
      TotalSizeAppend(a, b[..|b| - 1]);
      assert (a + b)[..|a + b| - 1] == a + b[..|b| - 1];
      assert (a + b)[|a + b| - 1] == b[|b| - 1];
      assert TotalSize(a + b) == TotalSize(a + b[..|b| - 1]) + b[|b| - 1].size;
      assert TotalSize(b) == TotalSize(b[..|b| - 1]) + b[|b| - 1].size;
    } else {
      assert a + b == a;
    }
  }

  /** `path.exists()` then `unlink()`: Ok(false) when missing; unlinking a directory raises. */
  function DeletePath(log: Log, p: Path, tree: bool): (r: (Log, Result<bool, Raised>))
    ensures Find(log, p).None? ==> r == (log, Ok(false))
    ensures r.1 == Ok(true) <==> Find(log, p).Some? && (if tree then Find(log, p).value.Dir? else Find(log, p).value.File?)
    ensures r.1 == Ok(true) ==> forall q :: Find(r.0, q) == (if q == p || (tree && p <= q) then None else Find(log, q))
    ensures r.1.Err? ==> r.0 == log && r.1.error == Other(if tree then "NotADirectoryError" else "IsADirectoryError")
  {
    match Find(log, p)
    case None => (log, Ok(false))
    case Some(e) =>
      if tree && e.Dir? then (Remove(log, p, true), Ok(true))
      else if !tree && e.File? then (Remove(log, p, false), Ok(true))
      else (log, Err(Other(if tree then "NotADirectoryError" else "IsADirectoryError")))
  }

  /** Deleting one owner's data leaves everything under any other owner exactly as it was. */
  lemma DeleteOwnerIsolated(log: Log, root: Path, o1: string, o2: string, q: Path)
    requires PlainName(o1) && PlainName(o2) && o1 != o2 && OwnerPath(root, o2) <= q
    ensures Find(DeletePath(log, OwnerPath(root, o1), true).0, q) == Find(log, q)
  {
    OwnersDisjoint(root, o1, o2, q);
  }

  /** Deleting one soul's data leaves everything under the owner's other souls as it was. */
  lemma DeleteSoulIsolated(log: Log, root: Path, owner: string, s1: string, s2: string, q: Path)
    requires PlainName(owner) && PlainName(s1) && PlainName(s2) && s1 != s2 && SoulPath(root, owner, s2) <= q
    ensures Find(DeletePath(log, SoulPath(root, owner, s1), true).0, q) == Find(log, q)
  {
    SoulsDisjoint(root, owner, s1, s2, q);
  }

  /** `ScopedPathBuilder`: the data directory the paths hang from. */
  class ScopedPathBuilder {
    const dataDir: Path

    constructor(dataDirArg: Option<string>, env: map<string, string>)
      ensures dataDir == [DataDir(dataDirArg, env)]
    {
      dataDir := [DataDir(dataDirArg, env)];
    }

    /** `ensure_paths_exist`: `mkdir(parents=True, exist_ok=True)` for each category in turn; the first error stops it. */
    method EnsurePathsExist(fs: FileSystem, owner: string, soul: string) returns (error: Option<string>)
      requires fs.Valid()
      modifies fs
      ensures fs.Valid()
      ensures (fs.log, error) == EnsureSteps(old(fs.log), SoulPath(dataDir, owner, soul), Categories)
    {
      var soulPath := SoulPath(dataDir, owner, soul);
      ghost var log0 := fs.log;
      error := None;
      var i := 0;
      while i < |Categories|
        invariant 0 <= i <= |Categories|
        invariant fs.Valid()
        invariant (fs.log, error) == EnsureSteps(log0, soulPath, Categories[..i])
      {
        EnsureStepsSnoc(log0, soulPath, Categories, i);
        if error.None? {
          var p := Child(soulPath, Categories[i]);
          var before := fs.log;
          var ok := fs.MakeDirsAt(p);
          if !ok {
            error := Some(MkdirError(before, p));
          }
        }
        i := i + 1;
      }
      assert Categories[..i] == Categories;
    }
  }

  /** `ScopedStorage`: the storage manager over the file system. */
  class ScopedStorage {
    const pathBuilder: ScopedPathBuilder
    const dataDir: Path
    const fs: FileSystem

    constructor(dataDirArg: Option<string>, env: map<string, string>, fileSystem: FileSystem)
      requires fileSystem.Valid()
      ensures dataDir == [DataDir(dataDirArg, env)] && fs == fileSystem && Valid()
    {
      pathBuilder := new ScopedPathBuilder(dataDirArg, env);
      dataDir := [DataDir(dataDirArg, env)];
      fs := fileSystem;
    }

    predicate Valid()
      reads fs
    {
      fs.Valid() && pathBuilder.dataDir == dataDir && |dataDir| == 1
    }

    /** `save_file` */
    method SaveFile(owner: string, soul: string, size: nat, filename: string, category: string)
      returns (r: Result<FileInfo, Raised>)
      requires Valid()
      modifies fs
      ensures Valid()
      ensures (fs.log, r) == Save(old(fs.log), dataDir, owner, soul, size, filename, category)
    {
      var error := pathBuilder.EnsurePathsExist(fs, owner, soul);
      if error.Some? {
        return Err(SaveFailure(error.value));
      }
      var written := fs.Write(Child(CategoryPath(dataDir, owner, soul, category), filename), size);
      if written.Some? {
        return Err(SaveFailure(written.value));
      }
      r := Ok(FileInfo(filename, size, category));
    }

    /** `list_files`: each category directory in turn, its regular files in listing order. */
    method ListFiles(owner: string, soul: string, category: Option<string>) returns (r: Result<seq<FileInfo>, Raised>)
      requires Valid()
      ensures r == ListIn(fs.log, SoulPath(dataDir, owner, soul), ListCategories(category))
    {
      var soulPath := SoulPath(dataDir, owner, soul);
      var categories := ListCategories(category);
      var files: seq<FileInfo> := [];
      var i := 0;
      while i < |categories|
        invariant 0 <= i <= |categories|
        invariant ListIn(fs.log, soulPath, categories[..i]) == Ok(files)
      {
        var cat := categories[i];
        var categoryPath := Child(soulPath, cat);
        ListInSnoc(fs.log, soulPath, categories, i);
        if fs.Exists(categoryPath) {
          if IsFile(fs.log, categoryPath) {
            r := Err(Other("NotADirectoryError"));
            ListInStops(fs.log, soulPath, categories, i + 1);
            return;
          }
          var listed := CollectFiles(Children(fs.log, categoryPath), cat);
          files := files + listed;
        }
        i := i + 1;
      }
      assert categories[..i] == categories;
      r := Ok(files);
    }

    /** `delete_file`: True iff the file existed and was removed. */
    method DeleteFile(owner: string, soul: string, filename: string, category: string) returns (r: Result<bool, Raised>)
      requires Valid()
      modifies fs
      ensures Valid()
      ensures (fs.log, r) == DeletePath(old(fs.log), Child(CategoryPath(dataDir, owner, soul, category), filename), false)
    {
      var p := Child(CategoryPath(dataDir, owner, soul, category), filename);
      if !fs.Exists(p) {
        return Ok(false);
      }
      var error := fs.Unlink(p);
      r := if error.None? then Ok(true) else Err(Other(error.value));
    }

    /** `delete_soul_data`: True iff the soul's directory existed and was removed with everything in it. */
    method DeleteSoulData(owner: string, soul: string) returns (r: Result<bool, Raised>)
      requires Valid()
      modifies fs
      ensures Valid()
      ensures (fs.log, r) == DeletePath(old(fs.log), SoulPath(dataDir, owner, soul), true)
    {
      var p := SoulPath(dataDir, owner, soul);
      if !fs.Exists(p) {
        return Ok(false);
      }
      var error := fs.RmTree(p);
      r := if error.None? then Ok(true) else Err(Other(error.value));
    }

    /** `delete_owner_data`: True iff the owner's directory existed and was removed with everything in it. */
    method DeleteOwnerData(owner: string) returns (r: Result<bool, Raised>)
      requires Valid()
      modifies fs
      ensures Valid()
      ensures (fs.log, r) == DeletePath(old(fs.log), OwnerPath(dataDir, owner), true)
    {
      var p := OwnerPath(dataDir, owner);
      if !fs.Exists(p) {
        return Ok(false);
      }
      var error := fs.RmTree(p);
      r := if error.None? then Ok(true) else Err(Other(error.value));
    }

    /** `get_storage_stats`: for each of the three categories, how many files it lists and their total size. */
    method GetStorageStats(owner: string, soul: string) returns (r: Result<map<string, CategoryStats>, Raised>)
      requires Valid()
      ensures r.Ok? <==> forall c :: c in Categories ==> !IsFile(fs.log, CategoryPath(dataDir, owner, soul, c))
      ensures r.Ok? ==> r.value.Keys == {Uploads, Transcripts, IndexCategory}
      ensures r.Ok? ==> forall c :: c in Categories ==>
        var listed := ListIn(fs.log, SoulPath(dataDir, owner, soul), [c]);
        listed.Ok? && r.value[c] == StatsOf(listed.value)
    {
      var stats := map[Uploads := CategoryStats(0, 0), Transcripts := CategoryStats(0, 0), IndexCategory := CategoryStats(0, 0)];
      var soulPath := SoulPath(dataDir, owner, soul);
      var i := 0;
      while i < |Categories|
        invariant 0 <= i <= |Categories|
        invariant stats.Keys == {Uploads, Transcripts, IndexCategory}
        invariant forall k :: 0 <= k < i ==> !IsFile(fs.log, Child(soulPath, Categories[k]))
        invariant forall k :: 0 <= k < i ==>
          var listed := ListIn(fs.log, soulPath, [Categories[k]]);
          listed.Ok? && stats[Categories[k]] == StatsOf(listed.value)
      {
        var files := ListFiles(owner, soul, Some(Categories[i]));
        ListInOk(fs.log, soulPath, [Categories[i]]);
        if files.Err? {
          assert IsFile(fs.log, CategoryPath(dataDir, owner, soul, Categories[i]));
          return Err(files.error);
        }
        stats := stats[Categories[i] := StatsOf(files.value)];
        i := i + 1;
      }
      r := Ok(stats);
    }
  }

  /** Once a category walk fails, walking further categories fails the same way. */
  lemma {:induction false} ListInStops(log: Log, soul: Path, cats: seq<string>, n: nat)
    requires n <= |cats| && ListIn(log, soul, cats[..n]).Err?
    ensures ListIn(log, soul, cats) == ListIn(log, soul, cats[..n])
    decreases |cats| - n
  {
    if n < |cats| {
      ListInSnoc(log, soul, cats, n);
      ListInStops(log, soul, cats, n + 1);
    } else {
      assert cats[..n] == cats;
    }
  }
}
