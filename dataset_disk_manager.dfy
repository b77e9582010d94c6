/**
 * dataset_disk_manager.py: the directory tree of one dataset folder, the positive and
 * negative counters, and the names under which the fields of each saved sample are
 * written:
 *   <dataset>/<folder>/{positive_samples|negative_samples}/<field>/
 *       {positive|negative}_<field>_<total>_(<ordinal>)
 */
module DiskManager {
  import opened Outcomes
  import opened Os
  import opened Exceptions
  import opened Decimal
  import opened Generator

  const POSITIVE_DATA_FOLDER := "positive_samples"
  const NEGATIVE_DATA_FOLDER := "negative_samples"

  datatype Polarity = Positive | Negative

  /** The two counters of a manager. */
  datatype Counters = Counters(positive: nat, negative: nat)

  /**
   * What one save reserves inside the critical section: the sample's polarity, its
   * ordinal within that polarity (the counter before the increment) and the total of
   * both counters after the increment.
   */
  datatype Reservation = Reservation(polarity: Polarity, ordinal: nat, total: nat)

  function Count(c: Counters, p: Polarity): nat {
    if p == Positive then c.positive else c.negative
  }

  /** The critical section of save_sample, for a sample of polarity p. */
  function Reserve(c: Counters, p: Polarity): (r: (Counters, Reservation))
    ensures r.1 == Reservation(p, Count(c, p), c.positive + c.negative + 1)
    ensures Count(r.0, p) == Count(c, p) + 1
    ensures forall q :: q != p ==> Count(r.0, q) == Count(c, q)
  {
    var next := if p == Positive then c.(positive := c.positive + 1) else c.(negative := c.negative + 1);
    (next, Reservation(p, Count(c, p), next.positive + next.negative))
  }

  /** The counters after saves of polarities ps, one after the other, starting from c. */
  function Final(c: Counters, ps: seq<Polarity>): Counters {
    if ps == [] then c else Reserve(Final(c, ps[..|ps| - 1]), ps[|ps| - 1]).0
  }

  /** The reservations those saves make, in order. */
  function Reservations(c: Counters, ps: seq<Polarity>): (rs: seq<Reservation>)
    ensures |rs| == |ps|
  {
    if ps == [] then [] else Reservations(c, ps[..|ps| - 1]) + [Reserve(Final(c, ps[..|ps| - 1]), ps[|ps| - 1]).1]
  }

  /** How many entries of ps are p. */
  function Occurrences(ps: seq<Polarity>, p: Polarity): nat {
    if ps == [] then 0 else Occurrences(ps[..|ps| - 1], p) + (if ps[|ps| - 1] == p then 1 else 0)
  }

  /** The ordinals the reservations of polarity p carry, in order. */
  function OrdinalsOf(rs: seq<Reservation>, p: Polarity): seq<nat> {
    if rs == [] then []
    else OrdinalsOf(rs[..|rs| - 1], p) + (if rs[|rs| - 1].polarity == p then [rs[|rs| - 1].ordinal] else [])
  }

  /** lo, lo + 1, ..., lo + n - 1 */
  function Interval(lo: nat, n: nat): (s: seq<nat>)
    ensures |s| == n && forall i :: 0 <= i < n ==> s[i] == lo + i
  {
    seq(n, i => lo + i)
  }

  lemma {:induction false} OccurrencesSplit(ps: seq<Polarity>)
    ensures Occurrences(ps, Positive) + Occurrences(ps, Negative) == |ps|
  {
    if ps != [] {
      OccurrencesSplit(ps[..|ps| - 1]);
    }
  }

  /** Each save raises exactly the counter of its polarity by one. */
  lemma {:induction false} FinalCounts(c: Counters, ps: seq<Polarity>)
    ensures Final(c, ps) == Counters(c.positive + Occurrences(ps, Positive), c.negative + Occurrences(ps, Negative))
  {
    if ps != [] {
      FinalCounts(c, ps[..|ps| - 1]);
    }
  }

  lemma {:induction false} ReservationsPrefix(c: Counters, ps: seq<Polarity>, j: nat)
    requires j <= |ps|
    ensures Reservations(c, ps[..j]) == Reservations(c, ps)[..j]
    decreases |ps|
  {
    if j < |ps| {
      var init := ps[..|ps| - 1];
      assert ps[..j] == init[..j];
      ReservationsPrefix(c, init, j);
    } else {
      assert ps[..j] == ps;
    }
  }

  /**
   * The k-th save of a sequence reserves its polarity's starting count plus the number
   * of earlier saves of that polarity, and the total starting count plus k + 1.
   */
  lemma {:induction false} ReservationAt(c: Counters, ps: seq<Polarity>, k: nat)
    requires k < |ps|
    ensures Reservations(c, ps)[k]
            == Reservation(ps[k], Count(c, ps[k]) + Occurrences(ps[..k], ps[k]), c.positive + c.negative + k + 1)
  {
    ReservationsPrefix(c, ps, k + 1);
    var pre := ps[..k + 1];
    assert pre[..|pre| - 1] == ps[..k];
    assert Reservations(c, ps)[k] == Reservations(c, pre)[k];
    FinalCounts(c, ps[..k]);
    FinalCounts(c, pre);
    OccurrencesSplit(pre);
  }

  /**
   * Gap-free ordinals: over any sequence of saves, the ordinals one polarity receives
   * are, in order, its starting count, that plus one, and so on, one per save.
   */
  lemma {:induction false} OrdinalsGapFree(c: Counters, ps: seq<Polarity>, p: Polarity)
    ensures OrdinalsOf(Reservations(c, ps), p) == Interval(Count(c, p), Occurrences(ps, p))
  {
    if ps != [] {
      var init := ps[..|ps| - 1];
      var rs := Reservations(c, ps);
      assert rs[..|rs| - 1] == Reservations(c, init);
      OrdinalsGapFree(c, init, p);
      FinalCounts(c, init);
    }
  }

  /** Two different saves never share a total nor, within a polarity, an ordinal. */
  lemma ReservationsDistinct(c: Counters, ps: seq<Polarity>, j: nat, k: nat)
    requires j < k < |ps|
    ensures Reservations(c, ps)[j].total < Reservations(c, ps)[k].total
    ensures ps[j] == ps[k] ==> Reservations(c, ps)[j].ordinal < Reservations(c, ps)[k].ordinal
  {
    ReservationAt(c, ps, j);
    ReservationAt(c, ps, k);
    if ps[j] == ps[k] {
      assert ps[..k][..j] == ps[..j];
      OccurrencesMonotone(ps[..k], j, ps[k]);
    }
  }

  lemma {:induction false} OccurrencesMonotone(ps: seq<Polarity>, j: nat, p: Polarity)
    requires j < |ps| && ps[j] == p
    ensures Occurrences(ps[..j], p) < Occurrences(ps, p)
    decreases |ps|
  {
    var init := ps[..|ps| - 1];
    if j < |ps| - 1 {
      assert init[..j] == ps[..j];
      OccurrencesMonotone(init, j, p);
    } else {
      assert init == ps[..j];
    }
  }

  function DataFolder(p: Polarity): string {
    if p == Positive then POSITIVE_DATA_FOLDER else NEGATIVE_DATA_FOLDER
  }

  function FilePrefix(p: Polarity): string {
    if p == Positive then "positive_" else "negative_"
  }

  /** The name of one field's file: {positive|negative}_<field>_<total>_(<ordinal>). */
  function FileName(p: Polarity, field: string, total: nat, ordinal: nat): (r: string)
    ensures FilePrefix(p) + field + "_" <= r
    ensures |r| > 0 && r[|r| - 1] == ')'
  {
    FilePrefix(p) + field + "_" + NatToString(total) + "_(" + NatToString(ordinal) + ")"
  }

  /** The index of the first non-digit of s, or |s| when there is none. */
  function DigitRun(s: string): nat {
    if |s| == 0 || !IsDigit(s[0]) then 0 else 1 + DigitRun(s[1..])
  }

  lemma {:induction false} DigitRunOfConcat(a: string, x: string)
    requires AllDigits(a)
    requires |x| > 0 && !IsDigit(x[0])
    ensures DigitRun(a + x) == |a|
    decreases |a|
  {
    if |a| == 0 {
      assert a + x == x;
    } else {
      assert (a + x)[0] == a[0];
      assert (a + x)[1..] == a[1..] + x;
      DigitRunOfConcat(a[1..], x);
    }
  }

  lemma DigitsBeforeSeparator(a: string, x: string, c: string, y: string)
    requires AllDigits(a) && AllDigits(c)
    requires |x| > 0 && !IsDigit(x[0]) && |y| > 0 && !IsDigit(y[0])
    requires a + x == c + y
    ensures a == c && x == y
  {
    DigitRunOfConcat(a, x);
    DigitRunOfConcat(c, y);
    assert a == (a + x)[..|a|];
    assert c == (c + y)[..|c|];
    assert x == (a + x)[|a|..];
    assert y == (c + y)[|c|..];
  }

  /** A file name is its head (prefix, field, separator) followed by the total and the ordinal part. */
  lemma FileNameSplit(p: Polarity, field: string, total: nat, ordinal: nat)
    ensures FileName(p, field, total, ordinal)
            == (FilePrefix(p) + field + "_") + (NatToString(total) + ("_(" + NatToString(ordinal) + ")"))
  {
  }

  /** Within one field directory of one polarity, a file name determines the total and the ordinal. */
  lemma FileNameInjective(p: Polarity, field: string, t1: nat, o1: nat, t2: nat, o2: nat)
    requires FileName(p, field, t1, o1) == FileName(p, field, t2, o2)
    ensures t1 == t2 && o1 == o2
  {
    var head := FilePrefix(p) + field + "_";
    var s1, s2 := NatToString(t1), NatToString(t2);
    var n1, n2 := NatToString(o1), NatToString(o2);
    var rest1, rest2 := "_(" + n1 + ")", "_(" + n2 + ")";
    FileNameSplit(p, field, t1, o1);
    FileNameSplit(p, field, t2, o2);
    assert head + (s1 + rest1) == head + (s2 + rest2);
    assert s1 + rest1 == (head + (s1 + rest1))[|head|..];
    assert s2 + rest2 == (head + (s2 + rest2))[|head|..];
    DigitsBeforeSeparator(s1, rest1, s2, rest2);
    assert n1 == rest1[2..|rest1| - 1];
    assert n2 == rest2[2..|rest2| - 1];
    NatToStringInjective(t1, t2);
    NatToStringInjective(o1, o2);
  }

  /** <dataset>/<folder>/<positive_samples|negative_samples> */
  function BranchDir(root: Path, folder: string, p: Polarity): Path {
    Join(Join(root, folder), DataFolder(p))
  }

  /** <dataset>/<folder>/<positive_samples|negative_samples>/<field> */
  function FieldDir(root: Path, folder: string, p: Polarity, field: string): Path {
    Join(BranchDir(root, folder, p), field)
  }

  /** The path one save writes the given field to. */
  function SamplePath(root: Path, folder: string, field: string, res: Reservation): (r: Path)
    ensures r == root + [folder, DataFolder(res.polarity), field, FileName(res.polarity, field, res.total, res.ordinal)]
  {
    Join(FieldDir(root, folder, res.polarity, field), FileName(res.polarity, field, res.total, res.ordinal))
  }

  /**
   * Unique names: over any sequence of saves, no two (save, field) pairs are written
   * to the same path.
   */
  lemma SamplePathsDistinct(root: Path, folder: string, c: Counters, ps: seq<Polarity>,
                            j: nat, f: string, k: nat, g: string)
    requires j < |ps| && k < |ps| && (j != k || f != g)
    ensures SamplePath(root, folder, f, Reservations(c, ps)[j]) != SamplePath(root, folder, g, Reservations(c, ps)[k])
  {
    var rs := Reservations(c, ps);
    var pj, pk := SamplePath(root, folder, f, rs[j]), SamplePath(root, folder, g, rs[k]);
    if pj == pk {
      assert pj[|root| + 1] == pk[|root| + 1];
      assert rs[j].polarity == rs[k].polarity;
      assert pj[|root| + 2] == pk[|root| + 2];
      assert pj[|root| + 3] == pk[|root| + 3];
      FileNameInjective(rs[j].polarity, f, rs[j].total, rs[j].ordinal, rs[k].total, rs[k].ordinal);
      if j < k {
        ReservationsDistinct(c, ps, j, k);
      } else if k < j {
        ReservationsDistinct(c, ps, k, j);
      }
    }
  }

  /** A first positive save into an empty folder of a sample with field a writes positive_a_1_(0). */
  lemma FirstPositiveSaveName()
    ensures var r := Reservations(Counters(0, 0), [Positive])[0];
            r == Reservation(Positive, 0, 1) && FileName(r.polarity, "a", r.total, r.ordinal) == "positive_a_1_(0)"
  {
    assert [Positive][..0] == [];
  }

  /** A positive then a negative save into an empty folder, fields a and b. */
  lemma PositiveThenNegativeNames()
    ensures var rs := Reservations(Counters(0, 0), [Positive, Negative]);
            && rs == [Reservation(Positive, 0, 1), Reservation(Negative, 0, 2)]
            && FileName(Positive, "b", 1, 0) == "positive_b_1_(0)"
            && FileName(Negative, "a", 2, 0) == "negative_a_2_(0)"
            && FileName(Negative, "b", 2, 0) == "negative_b_2_(0)"
  {
    assert [Positive, Negative][..1] == [Positive];
    assert [Positive][..0] == [];
  }

  /** The directories _set_up_folders ensures, for the given dataset fields. */
  function FieldDirs(branch: Path, fields: seq<string>): set<Path> {
    set f | f in fields :: Join(branch, f)
  }

  function TopDirs(root: Path, folder: string): set<Path> {
    {root, Join(root, folder), BranchDir(root, folder, Positive), BranchDir(root, folder, Negative)}
  }

  function TreeDirs(root: Path, folder: string, fields: seq<string>): set<Path> {
    TopDirs(root, folder)
    + FieldDirs(BranchDir(root, folder, Positive), fields)
    + FieldDirs(BranchDir(root, folder, Negative), fields)
  }

  /** The step _set_up_folders repeats: os.mkdir(p) unless os.path.exists(p). */
  method MakeDirIfMissing(fs: FileSystem, p: Path) returns (r: Outcome<OsError>)
    modifies fs`dirs
    ensures old(fs.Exists(p)) ==> r.Pass? && fs.dirs == old(fs.dirs)
    ensures !old(fs.Exists(p)) && DirName(p) in old(fs.dirs) ==> r.Pass? && fs.dirs == old(fs.dirs) + {p}
    ensures !old(fs.Exists(p)) && DirName(p) !in old(fs.dirs) ==> r.Fail? && fs.dirs == old(fs.dirs)
    ensures r.Pass? ==> fs.Exists(p)
    ensures r.Fail? ==> r.error == if DirName(p) in fs.files then NotADirectory(p) else FileNotFound(p)
  {
    r := Pass;
    if !fs.Exists(p) {
      r := fs.Mkdir(p);
    }
  }

  /** The inner loop of _set_up_folders: one directory per field under branch. */
  method SetUpFieldDirs(fs: FileSystem, branch: Path, fields: seq<string>) returns (r: Outcome<OsError>)
    modifies fs`dirs
    ensures old(fs.dirs) <= fs.dirs <= old(fs.dirs) + FieldDirs(branch, fields)
    ensures r.Pass? ==> FieldDirs(branch, fields) <= fs.dirs + fs.files
    ensures branch in old(fs.dirs) && FieldDirs(branch, fields) !! fs.files ==> r.Pass?
    ensures FieldDirs(branch, fields) <= old(fs.dirs) + fs.files ==> r.Pass? && fs.dirs == old(fs.dirs)
    ensures r.Fail? ==> r.error.path in FieldDirs(branch, fields)
  {
    for i := 0 to |fields|
      invariant old(fs.dirs) <= fs.dirs <= old(fs.dirs) + FieldDirs(branch, fields)
      invariant branch in old(fs.dirs) ==> branch in fs.dirs
      invariant forall j :: 0 <= j < i ==> fs.Exists(Join(branch, fields[j]))
      invariant FieldDirs(branch, fields) <= old(fs.dirs) + fs.files ==> fs.dirs == old(fs.dirs)
    {
      var fieldPath := Join(branch, fields[i]);
      assert fieldPath in FieldDirs(branch, fields);
      var out := MakeDirIfMissing(fs, fieldPath);
      if out.Fail? {
        return out;
      }
    }
    return Pass;
  }

  /**
   * The first two steps of _set_up_folders: the dataset directory, then the folder
   * inside it, each created unless something already exists there.
   */
  method SetUpRootDirs(fs: FileSystem, root: Path, folder: string) returns (r: Outcome<OsError>)
    modifies fs`dirs
    ensures old(fs.dirs) <= fs.dirs <= old(fs.dirs) + {root, Join(root, folder)}
    ensures r.Pass? ==> {root, Join(root, folder)} <= fs.dirs + fs.files
    ensures DirName(root) in old(fs.dirs) && {root, Join(root, folder)} !! fs.files ==>
              r.Pass? && fs.dirs == old(fs.dirs) + {root, Join(root, folder)}
    ensures {root, Join(root, folder)} <= old(fs.dirs) + fs.files ==> r.Pass? && fs.dirs == old(fs.dirs)
    ensures r.Fail? ==> r.error.path in {root, Join(root, folder)}
  {
    var folderPath := Join(root, folder);
    DirNameOfJoin(root, folder);
    r := MakeDirIfMissing(fs, root);
    if r.Fail? {
      return;
    }
    r := MakeDirIfMissing(fs, folderPath);
  }

  /**
   * The next two steps of _set_up_folders: positive_samples, then negative_samples,
   * inside the folder, each created unless something already exists there.
   */
  method SetUpPolarityDirs(fs: FileSystem, folderPath: Path) returns (r: Outcome<OsError>)
    modifies fs`dirs
    ensures var both := {Join(folderPath, POSITIVE_DATA_FOLDER), Join(folderPath, NEGATIVE_DATA_FOLDER)};
            && old(fs.dirs) <= fs.dirs <= old(fs.dirs) + both
            && (r.Pass? ==> both <= fs.dirs + fs.files)
            && (folderPath in old(fs.dirs) && both !! fs.files ==> r.Pass? && fs.dirs == old(fs.dirs) + both)
            && (both <= old(fs.dirs) + fs.files ==> r.Pass? && fs.dirs == old(fs.dirs))
            && (r.Fail? ==> r.error.path in both)
  {
    var positivePath := Join(folderPath, POSITIVE_DATA_FOLDER);
    var negativePath := Join(folderPath, NEGATIVE_DATA_FOLDER);
    DirNameOfJoin(folderPath, POSITIVE_DATA_FOLDER);
    DirNameOfJoin(folderPath, NEGATIVE_DATA_FOLDER);
    r := MakeDirIfMissing(fs, positivePath);
    if r.Fail? {
      return;
    }
    r := MakeDirIfMissing(fs, negativePath);
  }

  /**
   * The first four steps of _set_up_folders: the dataset directory, the folder and the
   * two polarity directories, each created unless something already exists there.
   */
  method SetUpTopDirs(fs: FileSystem, root: Path, folder: string) returns (r: Outcome<OsError>)
    modifies fs`dirs
    ensures old(fs.dirs) <= fs.dirs <= old(fs.dirs) + TopDirs(root, folder)
    ensures r.Pass? ==> TopDirs(root, folder) <= fs.dirs + fs.files
    ensures DirName(root) in old(fs.dirs) && TopDirs(root, folder) !! fs.files ==>
              r.Pass? && fs.dirs == old(fs.dirs) + TopDirs(root, folder)
    ensures TopDirs(root, folder) <= old(fs.dirs) + fs.files ==> r.Pass? && fs.dirs == old(fs.dirs)
    ensures r.Fail? ==> r.error.path in TopDirs(root, folder)
  {
    var folderPath := Join(root, folder);
    ghost var upper := {root, folderPath};
    ghost var lower := {Join(folderPath, POSITIVE_DATA_FOLDER), Join(folderPath, NEGATIVE_DATA_FOLDER)};
    assert TopDirs(root, folder) == upper + lower;
    r := SetUpRootDirs(fs, root, folder);
    if r.Fail? {
      return;
    }
    r := SetUpPolarityDirs(fs, folderPath);
  }

  /**
   * _set_up_folders: raises FileNotFoundError, creating nothing, when the parent of the
   * dataset path does not exist; otherwise creates, where missing, the dataset
   * directory, the folder, both polarity directories and one directory per dataset
   * field under each. It only ever creates directories of the tree; and it is
   * idempotent: when the whole tree exists it changes nothing.
   */
  method SetUpFolders(fs: FileSystem, root: Path, folder: string, fields: seq<string>) returns (r: Outcome<Error>)
    modifies fs`dirs
    ensures !old(fs.Exists(DirName(root))) ==> r == Fail(OsError(FileNotFound(DirName(root)))) && fs.dirs == old(fs.dirs)
    ensures old(fs.dirs) <= fs.dirs <= old(fs.dirs) + TreeDirs(root, folder, fields)
    ensures r.Pass? ==> TreeDirs(root, folder, fields) <= fs.dirs + fs.files
    ensures DirName(root) in old(fs.dirs) && TreeDirs(root, folder, fields) !! fs.files ==>
              r.Pass? && fs.dirs == old(fs.dirs) + TreeDirs(root, folder, fields)
    ensures old(fs.Exists(DirName(root))) && TreeDirs(root, folder, fields) <= old(fs.dirs) + fs.files ==>
              r.Pass? && fs.dirs == old(fs.dirs)
    ensures r.Fail? ==> r.error.OsError?
                        && (r.error.cause == FileNotFound(DirName(root)) || r.error.cause.path in TreeDirs(root, folder, fields))
  {
    if !fs.Exists(DirName(root)) {
      return Fail(OsError(FileNotFound(DirName(root))));
    }
    var out := SetUpTopDirs(fs, root, folder);
    if out.Fail? {
      return Fail(OsError(out.error));
    }
    var branches := [BranchDir(root, folder, Positive), BranchDir(root, folder, Negative)];
    ghost var tree := TreeDirs(root, folder, fields);
    ghost var happy := DirName(root) in old(fs.dirs) && tree !! fs.files;
    ghost var done := TopDirs(root, folder);
    for b := 0 to |branches|
      invariant done == TopDirs(root, folder)
                        + (if b >= 1 then FieldDirs(branches[0], fields) else {})
                        + (if b >= 2 then FieldDirs(branches[1], fields) else {})
      invariant old(fs.dirs) <= fs.dirs <= old(fs.dirs) + done
      invariant done <= fs.dirs + fs.files
      invariant happy ==> fs.dirs == old(fs.dirs) + done
      invariant tree <= old(fs.dirs) + fs.files ==> fs.dirs == old(fs.dirs)
    {
      out := SetUpFieldDirs(fs, branches[b], fields);
      if out.Fail? {
        return Fail(OsError(out.error));
      }
      done := done + FieldDirs(branches[b], fields);
    }
    return Pass;
  }

  /** The error os.listdir gives for a path that is not a directory. */
  function ListDirError(fs: FileSystem, d: Path): OsError
    reads fs
  {
    if d in fs.files then NotADirectory(d) else FileNotFound(d)
  }

  /**
   * _count_samples: the number of regular files in the first dataset field's negative
   * and positive directories, in that order. IndexError when the sample has no dataset
   * field; os.listdir fails when either directory is missing.
   */
  function CountSamples(fs: FileSystem, root: Path, folder: string, fields: seq<string>): (r: Result<(nat, nat), Error>)
    reads fs
    ensures |fields| == 0 ==> r == Failure(IndexError)
    ensures |fields| > 0 ==>
              (r.Success? <==> FieldDir(root, folder, Negative, fields[0]) in fs.dirs
                               && FieldDir(root, folder, Positive, fields[0]) in fs.dirs)
    ensures |fields| > 0 && FieldDir(root, folder, Negative, fields[0]) !in fs.dirs ==>
              r == Failure(OsError(ListDirError(fs, FieldDir(root, folder, Negative, fields[0]))))
    ensures |fields| > 0 && FieldDir(root, folder, Negative, fields[0]) in fs.dirs
            && FieldDir(root, folder, Positive, fields[0]) !in fs.dirs ==>
              r == Failure(OsError(ListDirError(fs, FieldDir(root, folder, Positive, fields[0]))))
    ensures r.Success? ==>
              r.value == (|fs.FilesIn(FieldDir(root, folder, Negative, fields[0]))|,
                          |fs.FilesIn(FieldDir(root, folder, Positive, fields[0]))|)
  {
    if |fields| == 0 then Failure(IndexError)
    else
      var field := fields[0];
      var negativePath := FieldDir(root, folder, Negative, field);
      var positivePath := FieldDir(root, folder, Positive, field);
      match fs.ListDir(negativePath)
      case Failure(e) => Failure(OsError(e))
      case Success(negativeNames) =>
        match fs.ListDir(positivePath)
        case Failure(e) => Failure(OsError(e))
        case Success(positiveNames) =>
          ListedFilesCount(fs, negativePath);
          ListedFilesCount(fs, positivePath);
          var countNegatives := |set n | n in negativeNames && fs.IsFile(Join(negativePath, n))|;
          var countPositives := |set n | n in positiveNames && fs.IsFile(Join(positivePath, n))|;
          Success((countNegatives, countPositives))
  }

  /** The handle save_sample returns when the fields are written by a separate thread. */
  datatype WriterThread = WriterThread

  class DatasetDiskManager {
    const fs: FileSystem
    const datasetPath: Path
    const folderName: string
    /** The sample given at construction; it fixes the accepted class and the field directories. */
    const sample: GeneratedSample
    var positiveCount: nat
    var negativeCount: nat
    /** The counters found on disk at construction. */
    ghost const initial: Counters
    /** The polarities of the saves that reserved names, in the order they did. */
    ghost var saved: seq<Polarity>

    ghost predicate Valid()
      reads this
    {
      Counters(positiveCount, negativeCount) == Final(initial, saved)
    }

    /** Every reservation this manager has made, in order. */
    ghost function History(): seq<Reservation>
      reads this
    {
      Reservations(initial, saved)
    }

    constructor Init(fs: FileSystem, datasetPath: Path, folderName: string, sample: GeneratedSample,
                     negative: nat, positive: nat)
      ensures Valid() && saved == [] && initial == Counters(positive, negative)
      ensures this.fs == fs && this.datasetPath == datasetPath && this.folderName == folderName
      ensures this.sample == sample && negativeCount == negative && positiveCount == positive
    {
      this.fs := fs;
      this.datasetPath := datasetPath;
      this.folderName := folderName;
      this.sample := sample;
      negativeCount, positiveCount := negative, positive;
      initial := Counters(positive, negative);
      saved := [];
    }

    /**
     * __init__: sets up the directory tree, then seeds the counters with the regular
     * files found in the first dataset field's negative and positive directories.
     */
    static method Create(fs: FileSystem, datasetPath: Path, folderName: string, sample: GeneratedSample)
      returns (r: Result<DatasetDiskManager, Error>)
      modifies fs`dirs
      ensures !old(fs.Exists(DirName(datasetPath))) ==>
                r == Failure(OsError(FileNotFound(DirName(datasetPath)))) && fs.dirs == old(fs.dirs)
      ensures old(fs.dirs) <= fs.dirs <= old(fs.dirs) + TreeDirs(datasetPath, folderName, sample.datasetFields)
      ensures (&& DirName(datasetPath) in old(fs.dirs)
               && TreeDirs(datasetPath, folderName, sample.datasetFields) !! fs.files
               && |sample.datasetFields| > 0) ==> r.Success?
      ensures r.Failure? ==>
                || (r.error == IndexError && |sample.datasetFields| == 0
                    && TreeDirs(datasetPath, folderName, sample.datasetFields) <= fs.dirs + fs.files)
                || (r.error.OsError?
                    && (|| r.error.cause == FileNotFound(DirName(datasetPath))
                        || r.error.cause.path in TreeDirs(datasetPath, folderName, sample.datasetFields)))
      ensures (&& |sample.datasetFields| == 0
               && (|| (DirName(datasetPath) in old(fs.dirs) && TreeDirs(datasetPath, folderName, []) !! fs.files)
                   || (old(fs.Exists(DirName(datasetPath))) && TreeDirs(datasetPath, folderName, []) <= old(fs.dirs) + fs.files)))
              ==> r == Failure(IndexError)
      ensures (&& |sample.datasetFields| > 0
               && old(fs.Exists(DirName(datasetPath)))
               && TreeDirs(datasetPath, folderName, sample.datasetFields) <= old(fs.dirs) + fs.files)
              ==> && fs.dirs == old(fs.dirs)
                  && (r.Success? <==> && FieldDir(datasetPath, folderName, Negative, sample.datasetFields[0]) in fs.dirs
                                      && FieldDir(datasetPath, folderName, Positive, sample.datasetFields[0]) in fs.dirs)
                  && (r.Failure? ==> r.error.OsError? && r.error.cause.NotADirectory?)
      ensures r.Success? ==>
                var m := r.value;
                && |sample.datasetFields| > 0 && fresh(m) && m.Valid() && m.saved == []
                && m.fs == fs && m.datasetPath == datasetPath && m.folderName == folderName && m.sample == sample
                && TreeDirs(datasetPath, folderName, sample.datasetFields) <= fs.dirs + fs.files
                && m.negativeCount == |fs.FilesIn(FieldDir(datasetPath, folderName, Negative, sample.datasetFields[0]))|
                && m.positiveCount == |fs.FilesIn(FieldDir(datasetPath, folderName, Positive, sample.datasetFields[0]))|
    {
      var setup := SetUpFolders(fs, datasetPath, folderName, sample.datasetFields);
      if setup.Fail? {
        return Failure(setup.error);
      }
      var counted := CountSamples(fs, datasetPath, folderName, sample.datasetFields);
      if counted.Failure? {
        return Failure(counted.error);
      }
      var (negatives, positives) := counted.value;
      var m := new DatasetDiskManager.Init(fs, datasetPath, folderName, sample, negatives, positives);
      return Success(m);
    }

    /** get_negative_samples_count: the files found at construction plus the negative saves since. */
    method GetNegativeSamplesCount() returns (n: nat)
      requires Valid()
      ensures n == initial.negative + Occurrences(saved, Negative)
    {
      FinalCounts(initial, saved);
      return negativeCount;
    }

    /** get_positive_samples_count: the files found at construction plus the positive saves since. */
    method GetPositiveSamplesCount() returns (n: nat)
      requires Valid()
      ensures n == initial.positive + Occurrences(saved, Positive)
    {
      FinalCounts(initial, saved);
      return positiveCount;
    }

    /**
     * save_sample: a sample of another class raises TypeError and changes nothing.
     * Otherwise one atomic step reserves the next ordinal of the sample's polarity and
     * the new total; then each dataset field is written, in order, to its file, and the
     * first field refused because of an active pipeline stops the writes. The
     * reservation is kept even then. With useThread the failure is not reported.
     */
    method SaveSample(s: GeneratedSample, useThread: bool) returns (r: Result<Option<WriterThread>, Error>, ghost written: nat)
      requires Valid() && s.Valid()
      modifies this`positiveCount, this`negativeCount, this`saved, s`held, fs`files
      ensures Valid() && s.held == old(s.held)
      ensures s.cls != sample.cls ==>
                && r == Failure(TypeError) && written == 0
                && positiveCount == old(positiveCount) && negativeCount == old(negativeCount)
                && saved == old(saved) && fs.files == old(fs.files)
      ensures s.cls == sample.cls ==>
                var p := if s.IsPositive() then Positive else Negative;
                var res := Reserve(old(Counters(positiveCount, negativeCount)), p).1;
                && saved == old(saved) + [p]
                && History() == old(History()) + [res]
                && (p == Positive ==> positiveCount == old(positiveCount) + 1 && negativeCount == old(negativeCount))
                && (p == Negative ==> negativeCount == old(negativeCount) + 1 && positiveCount == old(positiveCount))
                && res.ordinal == old(Count(Counters(positiveCount, negativeCount), p))
                && res.total == positiveCount + negativeCount
                && written <= |s.datasetFields|
                && fs.files == old(fs.files)
                               + (set i | 0 <= i < written :: SamplePath(datasetPath, folderName, s.datasetFields[i], res))
                && (forall i :: 0 <= i < written ==> !s.ActivePipeline(s.datasetFields[i]))
                && (written < |s.datasetFields| ==> s.ActivePipeline(s.datasetFields[written]))
                && (useThread ==> r == Success(Some(WriterThread)))
                && (!useThread && written == |s.datasetFields| ==> r == Success(None))
                && (!useThread && written < |s.datasetFields| ==>
                      r == Failure(AnotherActivePipeline(s.datasetFields[written])))
    {
      if s.cls != sample.cls {
        return Failure(TypeError), 0;
      }
      ghost var before := Counters(positiveCount, negativeCount);
      // the critical section
      var count: nat;
      var folderPosNeg: string;
      ghost var p: Polarity;
      if s.IsPositive() {
        count := positiveCount;
        folderPosNeg := POSITIVE_DATA_FOLDER;
        positiveCount := positiveCount + 1;
        p := Positive;
      } else {
        count := negativeCount;
        folderPosNeg := NEGATIVE_DATA_FOLDER;
        negativeCount := negativeCount + 1;
        p := Negative;
      }
      var positive, negative := positiveCount, negativeCount;
      saved := saved + [p];
      ghost var res := Reservation(p, count, positive + negative);
      assert res == Reserve(before, p).1;
      assert saved[..|saved| - 1] == old(saved);
      var failure;
      failure, written := SaveAllFields(s, folderPosNeg, count, positive + negative, res);
      if useThread {
        r := Success(Some(WriterThread));
      } else if failure.Some? {
        r := Failure(failure.value);
      } else {
        r := Success(None);
      }
    }

    /**
     * The nested save_all_fields of save_sample: writes each dataset field of s, in
     * order, to its file for the reservation res, and stops at the first field whose
     * save is refused because of an active pipeline.
     */
    method SaveAllFields(s: GeneratedSample, folderPosNeg: string, count: nat, total: nat, ghost res: Reservation)
      returns (failure: Option<Error>, ghost written: nat)
      requires s.Valid()
      requires res == Reservation(if s.IsPositive() then Positive else Negative, count, total)
      requires folderPosNeg == DataFolder(res.polarity)
      modifies s`held, fs`files
      ensures s.held == old(s.held)
      ensures written <= |s.datasetFields|
      ensures fs.files == old(fs.files)
                          + (set i | 0 <= i < written :: SamplePath(datasetPath, folderName, s.datasetFields[i], res))
      ensures forall i :: 0 <= i < written ==> !s.ActivePipeline(s.datasetFields[i])
      ensures failure.None? <==> written == |s.datasetFields|
      ensures failure.Some? ==> s.ActivePipeline(s.datasetFields[written])
                                && failure.value == AnotherActivePipeline(s.datasetFields[written])
    {
      var path := Join(Join(datasetPath, folderName), folderPosNeg);
      var fields := s.datasetFields;
      var i := 0;
      failure := None;
      while i < |fields| && failure.None?
        invariant i <= |fields|
        invariant s.held == old(s.held)
        invariant fs.files == old(fs.files)
                              + (set j | 0 <= j < i :: SamplePath(datasetPath, folderName, fields[j], res))
        invariant forall j :: 0 <= j < i ==> !s.ActivePipeline(fields[j])
        invariant failure.Some? ==> i < |fields| && s.ActivePipeline(fields[i])
                                    && failure.value == AnotherActivePipeline(fields[i])
        decreases |fields| - i, failure.None?
      {
        var fileName := if s.IsPositive() then "positive_" else "negative_";
        fileName := fileName + fields[i] + "_" + NatToString(total) + "_(";
        fileName := fileName + NatToString(count);
        fileName := fileName + ")";
        assert fileName == FileName(res.polarity, fields[i], res.total, res.ordinal);
        var filePath := Join(Join(path, fields[i]), fileName);
        assert filePath == SamplePath(datasetPath, folderName, fields[i], res);
        var out := s.SaveField(fields[i], filePath, fs);
        if out.Fail? {
          failure := Some(out.error);
        } else {
          assert (set j | 0 <= j < i + 1 :: SamplePath(datasetPath, folderName, fields[j], res))
              == (set j | 0 <= j < i :: SamplePath(datasetPath, folderName, fields[j], res)) + {filePath};
          i := i + 1;
        }
      }
      written := i;
    }
  }
}
