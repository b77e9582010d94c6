/**
 * The operating-system services the core relies on (os.path.join, os.path.dirname,
 * os.path.exists, os.path.isfile, os.listdir, os.mkdir), reduced to a file system that
 * is two sets of paths: the directories and the regular files.
 */
module Os {
  import opened Outcomes

  /** A path as the sequence of its components; the empty path is the file-system root. */
  type Path = seq<string>

  /** os.path.join of a path and one more component. */
  function Join(p: Path, name: string): (r: Path)
    ensures |r| == |p| + 1 && r[..|p|] == p && r[|p|] == name
  {
    p + [name]
  }

  /** os.path.dirname: the path without its last component; the root is its own parent. */
  function DirName(p: Path): (r: Path)
    ensures |p| > 0 ==> |r| == |p| - 1 && Join(r, p[|p| - 1]) == p
    ensures |p| == 0 ==> r == []
  {
    if |p| == 0 then [] else p[..|p| - 1]
  }

  lemma DirNameOfJoin(p: Path, name: string)
    ensures DirName(Join(p, name)) == p
  {
  }

  /** The errors os.mkdir and os.listdir raise. */
  datatype OsError = FileNotFound(path: Path) | FileExists(path: Path) | NotADirectory(path: Path)

  class FileSystem {
    var dirs: set<Path>
    var files: set<Path>

    constructor (dirs: set<Path>, files: set<Path>)
      ensures this.dirs == dirs && this.files == files
    {
      this.dirs := dirs;
      this.files := files;
    }

    /** os.path.exists */
    predicate Exists(p: Path)
      reads this
    {
      p in dirs || p in files
    }

    /** os.path.isfile */
    predicate IsFile(p: Path)
      reads this
    {
      p in files
    }

    /** The regular files that sit directly inside directory d. */
    ghost function FilesIn(d: Path): set<Path>
      reads this
    {
      set p | p in files && |p| == |d| + 1 && p[..|d|] == d
    }

    /** os.listdir: the names of the entries of directory d. */
    function ListDir(d: Path): (r: Result<set<string>, OsError>)
      reads this
      ensures r.Success? <==> d in dirs
      ensures r.Success? ==> forall n :: n in r.value <==> Exists(Join(d, n))
      ensures r.Failure? ==> r.error == if d in files then NotADirectory(d) else FileNotFound(d)
    {
      if d in dirs then
        var names := set p | p in dirs + files && |p| == |d| + 1 && p[..|d|] == d :: p[|d|];
        assert forall n :: n in names <==> Exists(Join(d, n)) by {
          forall n ensures n in names <==> Exists(Join(d, n)) {
            if n in names {
              var p :| p in dirs + files && |p| == |d| + 1 && p[..|d|] == d && p[|d|] == n;
              assert p == Join(d, n);
            }
          }
        }
        Success(names)
      else if d in files then Failure(NotADirectory(d))
      else Failure(FileNotFound(d))
    }

    /**
     * os.mkdir: creates p when p does not exist and its parent is a directory; otherwise
     * the error names p, as the filename of Python's OSError does.
     */
    method Mkdir(p: Path) returns (r: Outcome<OsError>)
      modifies this`dirs
      ensures r.Pass? <==> !old(Exists(p)) && DirName(p) in old(dirs)
      ensures r.Pass? ==> dirs == old(dirs) + {p}
      ensures r.Fail? ==> dirs == old(dirs)
      ensures r.Fail? ==> r.error == if old(Exists(p)) then FileExists(p)
                                     else if DirName(p) in files then NotADirectory(p)
                                     else FileNotFound(p)
    {
      if Exists(p) {
        return Fail(FileExists(p));
      }
      var parent := DirName(p);
      if parent !in dirs {
        return Fail(if parent in files then NotADirectory(p) else FileNotFound(p));
      }
      dirs := dirs + {p};
      return Pass;
    }

    /** What a field's save callback does to the file system: a regular file appears at p. */
    method WriteFile(p: Path)
      modifies this`files
      ensures files == old(files) + {p}
    {
      files := files + {p};
    }
  }

  /** Joining distinct names to one directory gives distinct paths. */
  lemma {:induction false} JoinImageSize(d: Path, names: set<string>)
    ensures |set n | n in names :: Join(d, n)| == |names|
    decreases names
  {
    if names != {} {
      var n :| n in names;
      var rest := names - {n};
      JoinImageSize(d, rest);
      var image := set m | m in names :: Join(d, m);
      var restImage := set m | m in rest :: Join(d, m);
      assert image == restImage + {Join(d, n)};
      assert Join(d, n) !in restImage;
    }
  }

  /** Counting the names os.listdir reports that os.path.isfile accepts counts the regular files of d. */
  lemma ListedFilesCount(fs: FileSystem, d: Path)
    requires d in fs.dirs
    ensures var names := fs.ListDir(d).value;
            |set n | n in names && fs.IsFile(Join(d, n))| == |fs.FilesIn(d)|
  {
    var names := fs.ListDir(d).value;
    var listed := set n | n in names && fs.IsFile(Join(d, n));
    var image := set n | n in listed :: Join(d, n);
    assert image == fs.FilesIn(d) by {
      forall p | p in fs.FilesIn(d) ensures p in image {
        assert p == Join(d, p[|d|]);
      }
    }
    JoinImageSize(d, listed);
  }
}
