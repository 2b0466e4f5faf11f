/**
 * The directory tree under the backend's data directory, as the storage and
 * index code sees it through `pathlib` and `shutil`. A path is a sequence of
 * opaque components; the tree is the log of its entries in creation order,
 * which is the order a directory listing returns them in this model.
 */
module FileTree {
  import opened Common

  type Path = seq<string>

  datatype Entry = Dir | File(size: nat)

  type Log = seq<(Path, Entry)>

  /** No path appears twice. */
  predicate Unique(log: Log) {
    forall i, j :: 0 <= i < j < |log| ==> log[i].0 != log[j].0
  }

  /** The entry at `p`, if any. */
  function Find(log: Log, p: Path): Option<Entry> {
    if |log| == 0 then None
    else if log[0].0 == p then Some(log[0].1)
    else Find(log[1..], p)
  }

  /** A path is missing iff no entry carries it; what is found is an entry of the log. */
  lemma {:induction false} FindSpec(log: Log, p: Path)
    ensures Find(log, p).None? <==> forall i :: 0 <= i < |log| ==> log[i].0 != p
    ensures Find(log, p).Some? ==> (p, Find(log, p).value) in log
    decreases |log|
  {
    if |log| > 0 && log[0].0 != p {
      FindSpec(log[1..], p);
      assert forall i :: 1 <= i < |log| ==> log[i] == log[1..][i - 1];
    }
  }

  /** In a log without repeats, every entry is the one found at its path. */
  lemma {:induction false} FindEntry(log: Log, i: nat)
    requires Unique(log) && i < |log|
    ensures Find(log, log[i].0) == Some(log[i].1)
    decreases i
  {
    if i > 0 {
      assert log[1..][i - 1] == log[i];
      FindEntry(log[1..], i - 1);
    }
  }

  /** The first path of a log without repeats is not found in the rest. */
  lemma HeadNotInTail(log: Log)
    requires Unique(log) && |log| > 0
    ensures Find(log[1..], log[0].0).None?
  {
    forall i | 0 <= i < |log[1..]| ensures log[1..][i].0 != log[0].0 {
      assert log[1..][i] == log[i + 1];
    }
    FindSpec(log[1..], log[0].0);
  }

  predicate IsDir(log: Log, p: Path) {
    Find(log, p) == Some(Dir)
  }

  predicate IsFile(log: Log, p: Path) {
    Find(log, p).Some? && Find(log, p).value.File?
  }

  /** Write `e` at `p`: an existing entry is replaced where it stands, a new one is appended. */
  function Put(log: Log, p: Path, e: Entry): (r: Log)
    ensures Find(r, p) == Some(e)
    ensures forall q :: q != p ==> Find(r, q) == Find(log, q)
    ensures Find(log, p).Some? ==> |r| == |log|
    ensures Find(log, p).None? ==> r == log + [(p, e)]
  {
    if |log| == 0 then [(p, e)]
    else if log[0].0 == p then [(p, e)] + log[1..]
    else [log[0]] + Put(log[1..], p, e)
  }

  lemma {:induction false} PutUnique(log: Log, p: Path, e: Entry)
    requires Unique(log)
    ensures Unique(Put(log, p, e))
    decreases |log|
  {
    if |log| > 0 && log[0].0 != p {
      PutUnique(log[1..], p, e);
      var rest := Put(log[1..], p, e);
      HeadNotInTail(log);
      assert Find(rest, log[0].0).None?;
      FindSpec(rest, log[0].0);
      var r := [log[0]] + rest;
      forall i, j | 0 <= i < j < |r| ensures r[i].0 != r[j].0 {
        if i > 0 { assert r[i] == rest[i - 1] && r[j] == rest[j - 1]; }
        else { assert r[j] == rest[j - 1]; }
      }
    } else if |log| > 0 {
      var r := [(p, e)] + log[1..];
      forall i, j | 0 <= i < j < |r| ensures r[i].0 != r[j].0 {
        assert r[j] == log[j];
        if i > 0 { assert r[i] == log[i]; }
      }
    }
  }

  /** Drop every entry at or below `p` (`tree`), or only the one at `p`. */
  function Remove(log: Log, p: Path, tree: bool): (r: Log)
    ensures forall q :: Find(r, q) == (if q == p || (tree && p <= q) then None else Find(log, q))
    ensures |r| <= |log|
    ensures forall x :: x in r ==> x in log
  {
    if |log| == 0 then []
    else
      var rest := Remove(log[1..], p, tree);
      assert forall x :: x in log[1..] ==> x in log;
      if log[0].0 == p || (tree && p <= log[0].0) then rest else [log[0]] + rest
  }

  lemma {:induction false} RemoveUnique(log: Log, p: Path, tree: bool)
    requires Unique(log)
    ensures Unique(Remove(log, p, tree))
    decreases |log|
  {
    if |log| > 0 {
      RemoveUnique(log[1..], p, tree);
      var rest := Remove(log[1..], p, tree);
      if !(log[0].0 == p || (tree && p <= log[0].0)) {
        HeadNotInTail(log);
        assert Find(rest, log[0].0).None?;
        FindSpec(rest, log[0].0);
        var r := [log[0]] + rest;
        forall i, j | 0 <= i < j < |r| ensures r[i].0 != r[j].0 {
          assert r[j] == rest[j - 1];
          if i > 0 { assert r[i] == rest[i - 1]; }
        }
      }
    }
  }

  /** The entries directly inside `dir`, by name, in creation order (`iterdir`). */
  function Children(log: Log, dir: Path): (r: seq<(string, Entry)>)
    ensures forall name, e :: (name, e) in r <==> (dir + [name], e) in log
  {
    if |log| == 0 then []
    else
      var rest := Children(log[1..], dir);
      var here := |log[0].0| == |dir| + 1 && dir <= log[0].0;
      assert here ==> log[0].0 == dir + [log[0].0[|dir|]];
      assert forall x :: x in log <==> x == log[0] || x in log[1..];
      if here then [(log[0].0[|dir|], log[0].1)] + rest else rest
  }

  predicate DistinctNames(c: seq<(string, Entry)>) {
    forall i, j :: 0 <= i < j < |c| ==> c[i].0 != c[j].0
  }

  /** A name whose path is missing is not among the children. */
  lemma ChildNotNamed(log: Log, dir: Path, name: string)
    requires Find(log, dir + [name]).None?
    ensures forall c :: c in Children(log, dir) ==> c.0 != name
  {
    FindSpec(log, dir + [name]);
    forall c | c in Children(log, dir) ensures c.0 != name {
      assert (dir + [c.0], c.1) in log;
    }
  }

  lemma ConsDistinct(name: string, e: Entry, rest: seq<(string, Entry)>)
    requires DistinctNames(rest) && forall c :: c in rest ==> c.0 != name
    ensures DistinctNames([(name, e)] + rest)
  {
    var c := [(name, e)] + rest;
    forall i, j | 0 <= i < j < |c| ensures c[i].0 != c[j].0 {
      assert c[j] == rest[j - 1];
      if i > 0 {
        assert c[i] == rest[i - 1];
      }
    }
  }

  lemma UniqueTail(log: Log)
    requires Unique(log) && |log| > 0
    ensures Unique(log[1..])
  {
    forall i, j | 0 <= i < j < |log| - 1 ensures log[1..][i].0 != log[1..][j].0 {
      assert log[1..][i] == log[i + 1] && log[1..][j] == log[j + 1];
    }
  }

  /** Children carry distinct names when no path repeats. */
  lemma {:induction false} ChildrenDistinct(log: Log, dir: Path)
    requires Unique(log)
    ensures DistinctNames(Children(log, dir))
    decreases |log|
  {
    if |log| > 0 {
      UniqueTail(log);
      ChildrenDistinct(log[1..], dir);
      if |log[0].0| == |dir| + 1 && dir <= log[0].0 {
        var name := log[0].0[|dir|];
        assert log[0].0 == dir + [name];
        HeadNotInTail(log);
        ChildNotNamed(log[1..], dir, name);
        ConsDistinct(name, log[0].1, Children(log[1..], dir));
      }
    }
  }

  /** Neither missing nor a regular file. */
  predicate NotFile(o: Option<Entry>) {
    o.None? || o.value.Dir?
  }

  /**
   * `mkdir(parents=True, exist_ok=True)`: create every missing directory on
   * the way to `p`, shortest prefix first. A regular file on the way makes it
   * fail, leaving the directories made so far.
   */
  function MakeDirsFrom(log: Log, p: Path, k: nat): Result<Log, Log>
    requires 1 <= k <= |p| + 1
    decreases |p| + 1 - k
  {
    if k > |p| then Ok(log)
    else
      var here := Find(log, p[..k]);
      if !NotFile(here) then Err(log)
      else MakeDirsFrom(if here.None? then Put(log, p[..k], Dir) else log, p, k + 1)
  }

  /** From prefix length `k` on, it succeeds iff no prefix is a regular file. */
  lemma {:induction false} MakeDirsFromOk(log: Log, p: Path, k: nat)
    requires 1 <= k <= |p| + 1
    ensures MakeDirsFrom(log, p, k).Ok? <==> forall j :: k <= j <= |p| ==> NotFile(Find(log, p[..j]))
    decreases |p| + 1 - k
  {
    if k <= |p| && NotFile(Find(log, p[..k])) {
      var next := if Find(log, p[..k]).None? then Put(log, p[..k], Dir) else log;
      MakeDirsFromOk(next, p, k + 1);
      forall j | k < j <= |p| ensures Find(next, p[..j]) == Find(log, p[..j]) {
        assert |p[..j]| != |p[..k]|;
      }
    }
  }

  /** Paths other than the prefixes of length `k` and more are left as they were. */
  lemma {:induction false} MakeDirsFromKeeps(log: Log, p: Path, k: nat, q: Path)
    requires 1 <= k <= |p| + 1
    requires !(k <= |q| <= |p| && q == p[..|q|])
    ensures MakeDirsFrom(log, p, k).Ok? ==> Find(MakeDirsFrom(log, p, k).value, q) == Find(log, q)
    decreases |p| + 1 - k
  {
    if k <= |p| && NotFile(Find(log, p[..k])) {
      var next := if Find(log, p[..k]).None? then Put(log, p[..k], Dir) else log;
      MakeDirsFromKeeps(next, p, k + 1, q);
      assert q != p[..k];
    }
  }

  /** On success every prefix of length `k` and more is a directory. */
  lemma {:induction false} MakeDirsFromDirs(log: Log, p: Path, k: nat, j: nat)
    requires 1 <= k <= j <= |p|
    ensures MakeDirsFrom(log, p, k).Ok? ==> IsDir(MakeDirsFrom(log, p, k).value, p[..j])
    decreases |p| + 1 - k
  {
    if NotFile(Find(log, p[..k])) {
      var next := if Find(log, p[..k]).None? then Put(log, p[..k], Dir) else log;
      if j > k {
        MakeDirsFromDirs(next, p, k + 1, j);
      } else {
        MakeDirsFromKeeps(next, p, k + 1, p[..k]);
      }
    }
  }

  /** The tree after `MakeDirsFrom`, whether it succeeded or not. */
  function After(r: Result<Log, Log>): Log {
    if r.Ok? then r.value else r.error
  }

  /**
   * Whatever holds of a tree and survives adding a missing directory holds of
   * the tree `MakeDirsFrom` leaves, whether it succeeded or not.
   */
  lemma {:induction false} MakeDirsFromPreserves(log: Log, p: Path, k: nat, inv: Log -> bool)
    requires 1 <= k <= |p| + 1 && inv(log)
    requires forall l: Log, q: Path :: inv(l) && Find(l, q).None? ==> inv(Put(l, q, Dir))
    ensures inv(After(MakeDirsFrom(log, p, k)))
    decreases |p| + 1 - k
  {
    if k <= |p| && NotFile(Find(log, p[..k])) {
      MakeDirsFromPreserves(if Find(log, p[..k]).None? then Put(log, p[..k], Dir) else log, p, k + 1, inv);
    }
  }

  lemma MakeDirsFromUnique(log: Log, p: Path, k: nat)
    requires 1 <= k <= |p| + 1 && Unique(log)
    ensures Unique(After(MakeDirsFrom(log, p, k)))
  {
    forall l: Log, q: Path | Unique(l) && Find(l, q).None? ensures Unique(Put(l, q, Dir)) {
      PutUnique(l, q, Dir);
    }
    MakeDirsFromPreserves(log, p, k, Unique);
  }

  function MakeDirs(log: Log, p: Path): Result<Log, Log> {
    MakeDirsFrom(log, p, 1)
  }

  /**
   * `mkdir(parents=True, exist_ok=True)` succeeds iff no prefix of `p` is a
   * regular file; then every prefix is a directory and nothing else changed.
   */
  lemma MakeDirsSpec(log: Log, p: Path)
    ensures var r := MakeDirs(log, p);
      && (r.Ok? <==> forall j :: 1 <= j <= |p| ==> NotFile(Find(log, p[..j])))
      && (r.Ok? ==> forall j :: 1 <= j <= |p| ==> IsDir(r.value, p[..j]))
      && (r.Ok? ==> forall q :: !(1 <= |q| <= |p| && q == p[..|q|]) ==> Find(r.value, q) == Find(log, q))
  {
    MakeDirsFromOk(log, p, 1);
    var r := MakeDirsFrom(log, p, 1);
    forall j | 1 <= j <= |p| ensures r.Ok? ==> IsDir(r.value, p[..j]) {
      MakeDirsFromDirs(log, p, 1, j);
    }
    forall q | !(1 <= |q| <= |p| && q == p[..|q|]) ensures r.Ok? ==> Find(r.value, q) == Find(log, q) {
      MakeDirsFromKeeps(log, p, 1, q);
    }
  }

  /**
   * The error resolving `d`, which is not a directory, as a parent raises:
   * the walk stops at the first component that is not a directory, with
   * NotADirectoryError for a regular file and FileNotFoundError for a
   * missing one.
   */
  function ParentError(log: Log, d: Path): (e: string)
    requires |d| > 0
    ensures e == "NotADirectoryError" || e == "FileNotFoundError"
    ensures (|d| == 1 || IsDir(log, d[..|d| - 1])) ==> (e == "NotADirectoryError" <==> IsFile(log, d))
    decreases |d|
  {
    if |d| > 1 && !IsDir(log, d[..|d| - 1]) then ParentError(log, d[..|d| - 1])
    else if IsFile(log, d) then "NotADirectoryError"
    else "FileNotFoundError"
  }

  /**
   * `open(p, "wb")` then writing `size` bytes: the parent must be a
   * directory and `p` must not be one; an existing file is overwritten.
   */
  function WriteFile(log: Log, p: Path, size: nat): (r: Result<Log, string>)
    ensures r.Ok? <==> |p| > 0 && (|p| == 1 || IsDir(log, p[..|p| - 1])) && Find(log, p) != Some(Dir)
    ensures r.Ok? ==> r.value == Put(log, p, File(size))
    ensures |p| > 1 && IsFile(log, p[..|p| - 1]) && (|p| == 2 || IsDir(log, p[..|p| - 2])) ==>
      r == Err("NotADirectoryError")
  {
    if |p| == 0 then Err("FileNotFoundError")
    else if |p| > 1 && !IsDir(log, p[..|p| - 1]) then
      assert |p| == 2 || p[..|p| - 1][..|p| - 2] == p[..|p| - 2];
      Err(ParentError(log, p[..|p| - 1]))
    else if Find(log, p) == Some(Dir) then Err("IsADirectoryError")
    else Ok(Put(log, p, File(size)))
  }

  /** The file system the backend writes to. */
  class FileSystem {
    var log: Log

    constructor(initial: Log)
      requires Unique(initial)
      ensures log == initial && Valid()
    {
      log := initial;
    }

    predicate Valid()
      reads this
    {
      Unique(log)
    }

    /** `Path.exists()` */
    function Exists(p: Path): (b: bool)
      reads this
    {
      Find(log, p).Some?
    }

    /** `mkdir(parents=True, exist_ok=True)`; on failure the directories already made stay. */
    method MakeDirsAt(p: Path) returns (ok: bool)
      requires Valid()
      modifies this
      ensures Valid()
      ensures ok <==> MakeDirs(old(log), p).Ok?
      ensures ok ==> log == MakeDirs(old(log), p).value
      ensures !ok ==> log == MakeDirs(old(log), p).error
    {
      MakeDirsFromUnique(log, p, 1);
      match MakeDirs(log, p)
      case Ok(l) => log := l; ok := true;
      case Err(l) => log := l; ok := false;
    }

    /** Write a file of `size` bytes at `p`, or fail with the error's name and change nothing. */
    method Write(p: Path, size: nat) returns (error: Option<string>)
      requires Valid()
      modifies this
      ensures Valid()
      ensures error.None? <==> WriteFile(old(log), p, size).Ok?
      ensures error.None? ==> log == WriteFile(old(log), p, size).value
      ensures error.Some? ==> log == old(log) && error.value == WriteFile(old(log), p, size).error
    {
      match WriteFile(log, p, size)
      case Ok(l) => PutUnique(log, p, File(size)); log := l; error := None;
      case Err(e) => error := Some(e);
    }

    /** `Path.unlink()` on a path known to exist: only a regular file can be unlinked. */
    method Unlink(p: Path) returns (error: Option<string>)
      requires Valid()
      modifies this
      ensures Valid()
      ensures error.None? <==> IsFile(old(log), p)
      ensures error.None? ==> log == Remove(old(log), p, false)
      ensures error.Some? ==> log == old(log)
      ensures error.Some? ==> error.value == if Find(old(log), p).None? then "FileNotFoundError" else "IsADirectoryError"
    {
      if IsFile(log, p) {
        RemoveUnique(log, p, false);
        log := Remove(log, p, false);
        error := None;
      } else {
        error := Some(if Find(log, p).None? then "FileNotFoundError" else "IsADirectoryError");
      }
    }

    /** `shutil.rmtree(p)` on a path known to exist: only a directory tree can be removed. */
    method RmTree(p: Path) returns (error: Option<string>)
      requires Valid()
      modifies this
      ensures Valid()
      ensures error.None? <==> IsDir(old(log), p)
      ensures error.None? ==> log == Remove(old(log), p, true)
      ensures error.Some? ==> log == old(log)
      ensures error.Some? ==> error.value == if Find(old(log), p).None? then "FileNotFoundError" else "NotADirectoryError"
    {
      if IsDir(log, p) {
        RemoveUnique(log, p, true);
        log := Remove(log, p, true);
        error := None;
      } else {
        error := Some(if Find(log, p).None? then "FileNotFoundError" else "NotADirectoryError");
      }
    }
  }
}
