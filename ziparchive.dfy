/**
 * The zip plugin dialog (libs/plugins/contextmenu/ziparchive/__init__.py):
 * which files go into `<path>.zip` under which names, in which order, and
 * the progress value shown while they are written.
 *
 * `os.walk` is an input: each step names its directory by the components
 * below the archived root and lists that directory's file names.
 */
module ZipArchive {
  import opened Wrappers
  import opened PosixPath

  /** One step of `os.walk(path)`: a directory below the root and its file names. */
  datatype WalkStep = WalkStep(relDir: seq<string>, fileNames: seq<string>)

  /** A file met by the walk: the directory it is in (relative to the root) and its name. */
  datatype FileRef = FileRef(relDir: seq<string>, name: string)

  /** One `zip_file.write(file_path, archive_name)` call. */
  datatype Write = Write(filePath: string, archiveName: string)

  /** Every directory and file name of the walk is a plain name, as `os.walk` reports them. */
  predicate WellFormedWalk(walk: seq<WalkStep>)
  {
    forall i :: 0 <= i < |walk| ==>
      (forall k :: 0 <= k < |walk[i].relDir| ==> IsName(walk[i].relDir[k])) &&
      (forall k :: 0 <= k < |walk[i].fileNames| ==> IsName(walk[i].fileNames[k]))
  }

  /** The number of files listed by the first `i` steps of the walk. */
  function TotalUpTo(walk: seq<WalkStep>, i: nat): nat
    requires i <= |walk|
  {
    if i == 0 then 0 else TotalUpTo(walk, i - 1) + |walk[i - 1].fileNames|
  }

  /** `sum(len(f) for _, _, f in os.walk(path))`: the number of files of the walk. */
  function TotalFiles(walk: seq<WalkStep>): nat
  {
    TotalUpTo(walk, |walk|)
  }

  /** The files of one walk step, in listing order. */
  function StepFiles(step: WalkStep): (fs: seq<FileRef>)
    ensures |fs| == |step.fileNames|
    ensures forall k :: 0 <= k < |fs| ==> fs[k] == FileRef(step.relDir, step.fileNames[k])
  {
    seq(|step.fileNames|, k requires 0 <= k < |step.fileNames| => FileRef(step.relDir, step.fileNames[k]))
  }

  /** The files met by the first `i` steps of the walk, in the order it meets them. */
  function FilesUpTo(walk: seq<WalkStep>, i: nat): seq<FileRef>
    requires i <= |walk|
  {
    if i == 0 then [] else FilesUpTo(walk, i - 1) + StepFiles(walk[i - 1])
  }

  /** The files of the walk in the order the walk meets them. */
  function Files(walk: seq<WalkStep>): seq<FileRef>
  {
    FilesUpTo(walk, |walk|)
  }

  /**
   * The write for one file of a directory archive: the file's path below
   * `path`, stored as `basename(path)/relpath(file, path)`.
   */
  function EntryFor(path: string, f: FileRef): Write
  {
    Write(Join(JoinAll(path, f.relDir), f.name), Join(Basename(path), Relative(f.relDir + [f.name])))
  }

  /** The writes for a sequence of files, one each, in the same order. */
  function WritesFor(path: string, fs: seq<FileRef>): (ws: seq<Write>)
    ensures |ws| == |fs|
  {
    seq(|fs|, k requires 0 <= k < |fs| => EntryFor(path, fs[k]))
  }

  /** The writes for the first `i` steps of the walk, made one step at a time. */
  function WritesUpTo(path: string, walk: seq<WalkStep>, i: nat): (ws: seq<Write>)
    requires i <= |walk|
    ensures |ws| == TotalUpTo(walk, i)
  {
    if i == 0 then []
    else WritesUpTo(path, walk, i - 1) + WritesFor(path, StepFiles(walk[i - 1]))
  }

  /** The writes `create_zip` makes for a directory, in the order it makes them. */
  function ArchiveWrites(path: string, walk: seq<WalkStep>): seq<Write>
  {
    WritesUpTo(path, walk, |walk|)
  }

  /** The name of the last file listed by the first `i` steps, if any. */
  function LastNameUpTo(walk: seq<WalkStep>, i: nat): Option<string>
    requires i <= |walk|
  {
    if i == 0 then None
    else if walk[i - 1].fileNames != [] then Some(walk[i - 1].fileNames[|walk[i - 1].fileNames| - 1])
    else LastNameUpTo(walk, i - 1)
  }

  /** The name of the last file the walk lists, if any. */
  function LastName(walk: seq<WalkStep>): Option<string>
  {
    LastNameUpTo(walk, |walk|)
  }

  /** `int(count / count_files * 100)`, on integers: the progress-bar value. */
  function Progress(countFiles: nat, count: nat): (r: int)
    requires countFiles > 0
    ensures r >= 0 && r * countFiles <= count * 100 < (r + 1) * countFiles
  {
    count * 100 / countFiles
  }

  /** The first `i` steps meet exactly as many files as they list. */
  lemma {:induction false} FilesUpToCount(walk: seq<WalkStep>, i: nat)
    requires i <= |walk|
    ensures |FilesUpTo(walk, i)| == TotalUpTo(walk, i)
  {
    if i > 0 {
      FilesUpToCount(walk, i - 1);
    }
  }

  /** The walk meets exactly as many files as `count_files` counts. */
  lemma FilesCount(walk: seq<WalkStep>)
    ensures |Files(walk)| == TotalFiles(walk)
  {
    FilesUpToCount(walk, |walk|);
  }

  /** Every file met by the first `i` steps of a well-formed walk has plain names only. */
  lemma {:induction false} FilesUpToWellFormed(walk: seq<WalkStep>, i: nat, k: nat)
    requires WellFormedWalk(walk)
    requires i <= |walk| && k < |FilesUpTo(walk, i)|
    ensures IsName(FilesUpTo(walk, i)[k].name)
    ensures forall m :: 0 <= m < |FilesUpTo(walk, i)[k].relDir| ==> IsName(FilesUpTo(walk, i)[k].relDir[m])
  {
    var init := FilesUpTo(walk, i - 1);
    if k >= |init| {
      assert FilesUpTo(walk, i)[k] == StepFiles(walk[i - 1])[k - |init|];
    } else {
      assert FilesUpTo(walk, i)[k] == init[k];
      FilesUpToWellFormed(walk, i - 1, k);
    }
  }

  /** Writing step by step gives one write per file met, in the order the walk meets them. */
  lemma {:induction false} WritesUpToPerFile(path: string, walk: seq<WalkStep>, i: nat)
    requires i <= |walk|
    ensures WritesUpTo(path, walk, i) == WritesFor(path, FilesUpTo(walk, i))
  {
    if i > 0 {
      WritesUpToPerFile(path, walk, i - 1);
      WritesForConcat(path, FilesUpTo(walk, i - 1), StepFiles(walk[i - 1]));
    }
  }

  /** The writes of a directory archive are the writes of its files, one each, in walk order. */
  lemma ArchiveWritesPerFile(path: string, walk: seq<WalkStep>)
    ensures ArchiveWrites(path, walk) == WritesFor(path, Files(walk))
  {
    WritesUpToPerFile(path, walk, |walk|);
  }

  /** The last name the walk lists is the name of the last file it meets. */
  lemma {:induction false} LastNameUpToIsLastFile(walk: seq<WalkStep>, i: nat)
    requires i <= |walk|
    ensures LastNameUpTo(walk, i).Some? <==> FilesUpTo(walk, i) != []
    ensures LastNameUpTo(walk, i).Some? ==>
              LastNameUpTo(walk, i).value == FilesUpTo(walk, i)[|FilesUpTo(walk, i)| - 1].name
  {
    if i > 0 {
      LastNameUpToIsLastFile(walk, i - 1);
      var fs := StepFiles(walk[i - 1]);
      if fs != [] {
        assert FilesUpTo(walk, i)[|FilesUpTo(walk, i)| - 1] == fs[|fs| - 1];
      } else {
        assert FilesUpTo(walk, i) == FilesUpTo(walk, i - 1);
      }
    }
  }

  /** The label ends on the last file of the walk. */
  lemma LastNameIsLastFile(walk: seq<WalkStep>)
    requires TotalFiles(walk) > 0
    ensures |Files(walk)| == TotalFiles(walk)
    ensures LastName(walk) == Some(Files(walk)[TotalFiles(walk) - 1].name)
  {
    FilesCount(walk);
    LastNameUpToIsLastFile(walk, |walk|);
  }

  /**
   * Every entry of a directory archive is named by the root directory's
   * name, a separator, and the file's path relative to the root; when the
   * root's name is empty (a path ending in a separator) the relative path
   * stands alone.
   */
  lemma ArchiveNamesUnderRoot(path: string, walk: seq<WalkStep>, k: nat)
    requires WellFormedWalk(walk)
    requires k < TotalFiles(walk)
    ensures |Files(walk)| == |ArchiveWrites(path, walk)| == TotalFiles(walk)
    ensures var root := Basename(path);
            var f := Files(walk)[k];
            var rel := Relative(f.relDir + [f.name]);
            ArchiveWrites(path, walk)[k].archiveName == if root == [] then rel else root + [Sep] + rel
  {
    FilesCount(walk);
    ArchiveWritesPerFile(path, walk);
    FilesUpToWellFormed(walk, |walk|, k);
    EntryNameUnderRoot(path, Files(walk)[k]);
  }

  /**
   * The write for one file whose directory and name are plain names: it is
   * stored under the root's name, a separator, and the relative path, which
   * neither is empty nor starts with a separator.
   */
  lemma EntryNameUnderRoot(path: string, f: FileRef)
    requires forall m :: 0 <= m < |f.relDir| ==> IsName(f.relDir[m])
    requires IsName(f.name)
    ensures var root := Basename(path);
            var rel := Relative(f.relDir + [f.name]);
            rel != [] && rel[0] != Sep &&
            EntryFor(path, f).archiveName == if root == [] then rel else root + [Sep] + rel
  {
    var parts := f.relDir + [f.name];
    assert forall m :: 0 <= m < |parts| ==> IsName(parts[m]) by {
      forall m | 0 <= m < |parts| ensures IsName(parts[m]) {
        if m < |f.relDir| { assert parts[m] == f.relDir[m]; } else { assert parts[m] == f.name; }
      }
    }
    JoinAllNoLeadingSep("", parts);
    SplitParts(path);
    var root := Basename(path);
    if root != [] {
      JoinUnderRoot(root, Relative(parts));
    }
  }

  /**
   * A directory archive holds one write per file counted by the walk, and
   * the `k`-th write reads the `k`-th file met, from its path below `path`.
   */
  lemma ArchiveWritesOnePerFile(path: string, walk: seq<WalkStep>)
    ensures |ArchiveWrites(path, walk)| == |Files(walk)| == TotalFiles(walk)
    ensures forall k :: 0 <= k < |ArchiveWrites(path, walk)| ==>
              ArchiveWrites(path, walk)[k].filePath == Join(JoinAll(path, Files(walk)[k].relDir), Files(walk)[k].name)
  {
    FilesCount(walk);
    ArchiveWritesPerFile(path, walk);
  }

  /**
   * Archiving `/d`, which holds `a` and a subdirectory `s` holding `b`,
   * stores `d/a` and `d/s/b`.
   */
  lemma NestedDirectoryExample()
    ensures ArchiveWrites("/d", [WalkStep([], ["a"]), WalkStep(["s"], ["b"])])
            == [Write("/d/a", "d/a"), Write("/d/s/b", "d/s/b")]
  {
    var walk := [WalkStep([], ["a"]), WalkStep(["s"], ["b"])];
    assert StepFiles(walk[0]) == [FileRef([], "a")];
    assert StepFiles(walk[1]) == [FileRef(["s"], "b")];
    assert FilesUpTo(walk, 1) == [FileRef([], "a")];
    assert Files(walk) == [FileRef([], "a"), FileRef(["s"], "b")];
    ArchiveWritesPerFile("/d", walk);
    ExampleEntries();
  }

  /** The two entries of the nested-directory example. */
  lemma ExampleEntries()
    ensures EntryFor("/d", FileRef([], "a")) == Write("/d/a", "d/a")
    ensures EntryFor("/d", FileRef(["s"], "b")) == Write("/d/s/b", "d/s/b")
  {
    assert LastIndexOf("/d", Sep) == 0;
    assert Basename("/d") == "d";
    assert JoinAll("/d", ["s"]) == "/d/s";
    assert [] + ["a"] == ["a"] && ["a"][1..] == [];
    assert Relative(["a"]) == JoinAll("a", []) == "a";
    assert ["s", "b"][1..] == ["b"] && ["b"][1..] == [];
    assert Relative(["s"] + ["b"]) == Relative(["s", "b"]);
    assert Relative(["s", "b"]) == JoinAll("s", ["b"]) == "s/b";
    assert JoinAll("/d", []) == "/d";
    assert Join("/d", "a") == "/d/a";
    assert Join("d", "a") == "d/a";
    assert Join("/d/s", "b") == "/d/s/b";
    assert Join("d", "s/b") == "d/s/b";
  }

  /** Progress stays within 0..100 while `count` runs from 1 to `count_files`, and ends at 100. */
  lemma ProgressBounds(countFiles: nat, count: nat)
    requires 0 < countFiles && count <= countFiles
    ensures 0 <= Progress(countFiles, count) <= 100
    ensures count == countFiles ==> Progress(countFiles, count) == 100
  {
    var x := count * 100;
    var q := x / countFiles;
    assert q * countFiles + x % countFiles == x;
    if q > 100 {
      MulLe(101, q, countFiles);
    }
    if count == countFiles && q < 100 {
      MulLe(q, 99, countFiles);
    }
  }

  /** Multiplying by a non-negative factor keeps an inequality. */
  lemma MulLe(x: int, y: int, c: nat)
    requires x <= y
    ensures x * c <= y * c
  {
  }

  /** Progress never goes back while `count` grows. */
  lemma ProgressMonotone(countFiles: nat, a: nat, b: nat)
    requires 0 < countFiles && a <= b
    ensures Progress(countFiles, a) <= Progress(countFiles, b)
  {
    var x, y := a * 100, b * 100;
    var q, p := x / countFiles, y / countFiles;
    assert x == q * countFiles + x % countFiles;
    assert y == p * countFiles + y % countFiles;
    if p < q {
      MulLe(p + 1, q, countFiles);
    }
  }

  /** Appending one file appends its write. */
  lemma WritesForAppend(path: string, fs: seq<FileRef>, f: FileRef)
    ensures WritesFor(path, fs + [f]) == WritesFor(path, fs) + [EntryFor(path, f)]
  {
  }

  /** The writes for two runs of files are the writes of each, in order. */
  lemma WritesForConcat(path: string, a: seq<FileRef>, b: seq<FileRef>)
    ensures WritesFor(path, a + b) == WritesFor(path, a) + WritesFor(path, b)
  {
  }

  /** The zip dialog: its progress bar, its file label and the archive it writes. */
  class DialogZipArchive {
    /** The path of the entry being archived. */
    var path: string
    /** `count_files`, counted by the first walk. */
    var countFiles: nat
    /** The path the archive is written to. */
    var archivePath: string
    /** The progress-bar value. */
    var progress: int
    /** The label showing the file being packed. */
    var packedName: string
    /** The writes made into the archive, oldest first. */
    var writes: seq<Write>
    /** The archive has been closed. */
    var closed: bool
    /** How many times the dialog has been dismissed. */
    var dismissals: nat
    /** `set_progress_value` raised `ZeroDivisionError`, ending the packing coroutine. */
    var failed: bool

    constructor (entryPath: string)
      ensures path == entryPath && progress == 0 && packedName == ""
      ensures writes == [] && !closed && dismissals == 0 && !failed
    {
      path := entryPath;
      countFiles := 0;
      archivePath := "";
      progress := 0;
      packedName := "";
      writes := [];
      closed := false;
      dismissals := 0;
      failed := false;
    }

    /** `set_progress_value`: fails, as the division does, when `count_files` is zero. */
    method SetProgressValue(countFiles: nat, count: nat) returns (ok: bool)
      modifies this`progress
      ensures ok <==> countFiles > 0
      ensures ok ==> progress == Progress(countFiles, count)
      ensures !ok ==> progress == old(progress)
    {
      if countFiles == 0 {
        return false;
      }
      progress := count * 100 / countFiles;
      return true;
    }

    /** `set_name_packed_file`: shows the name of the file being packed. */
    method SetNamePackedFile(fileName: string)
      modifies this`packedName
      ensures packedName == fileName
    {
      packedName := fileName;
    }

    /**
     * `on_open`: counts the files of `countingWalk`, opens `<path>.zip` for
     * writing and runs the packing coroutine over `walk` to its end.
     */
    method OnOpen(countingWalk: seq<WalkStep>, isDir: bool, walk: seq<WalkStep>) returns (count: nat)
      modifies this
      ensures path == old(path) && archivePath == path + ".zip"
      ensures countFiles == TotalFiles(countingWalk)
      ensures isDir && countFiles == 0 && TotalFiles(walk) > 0 ==>
                failed && !closed && dismissals == old(dismissals) && writes == []
      ensures !(isDir && countFiles == 0 && TotalFiles(walk) > 0) ==>
                !failed && closed && dismissals == old(dismissals) + 1 &&
                writes == (if isDir then ArchiveWrites(path, walk) else [Write(path, Basename(path))])
      ensures TotalFiles(countingWalk) == TotalFiles(walk) ==> !failed && closed && dismissals == old(dismissals) + 1
      ensures !failed ==> count == (if isDir then TotalFiles(walk) else 0)
      ensures !failed && isDir && TotalFiles(walk) > 0 ==> LastName(walk) == Some(packedName)
      ensures TotalFiles(countingWalk) == TotalFiles(walk) > 0 && isDir ==> progress == 100
      ensures failed || !(isDir && TotalFiles(walk) > 0) ==>
                progress == old(progress) && packedName == old(packedName)
      ensures !failed && isDir && TotalFiles(walk) > 0 ==>
                countFiles > 0 && progress == Progress(countFiles, TotalFiles(walk))
    {
      countFiles := TotalFiles(countingWalk);
      archivePath := path + ".zip";
      writes := [];
      closed := false;
      failed := false;
      count := CreateZip(isDir, walk);
      if TotalFiles(countingWalk) == TotalFiles(walk) && isDir && count > 0 {
        ProgressBounds(countFiles, count);
      }
    }

    /**
     * `create_zip`: for a directory, one write per file of the walk, in walk
     * order, counting each file and updating progress and label before the
     * write; for anything else, one write named by the last path component.
     * Then the archive is closed and the dialog dismissed.
     */
    method CreateZip(isDir: bool, walk: seq<WalkStep>) returns (count: nat)
      requires !closed && !failed
      modifies this`progress, this`packedName, this`writes, this`closed, this`dismissals, this`failed
      ensures var n := TotalFiles(walk);
              isDir && countFiles == 0 && n > 0 ==>
                failed && !closed && dismissals == old(dismissals) && count == 1 &&
                writes == old(writes) && progress == old(progress) && packedName == old(packedName)
      ensures var n := TotalFiles(walk);
              !(isDir && countFiles == 0 && n > 0) ==>
                !failed && closed && dismissals == old(dismissals) + 1 &&
                count == (if isDir then n else 0) &&
                writes == old(writes) + (if isDir then ArchiveWrites(path, walk) else [Write(path, Basename(path))]) &&
                progress == (if isDir && n > 0 then Progress(countFiles, n) else old(progress)) &&
                (isDir && n > 0 ==> LastName(walk) == Some(packedName)) &&
                (!(isDir && n > 0) ==> packedName == old(packedName))
    {
      if isDir {
        count := PackWalk(walk);
        if failed {
          return;
        }
      } else {
        count := 0;
        writes := writes + [Write(path, Basename(path))];
      }
      closed := true;
      dismissals := dismissals + 1;
    }

    /** The outer loop of `create_zip` over the steps of the walk, for a directory. */
    method PackWalk(walk: seq<WalkStep>) returns (count: nat)
      requires !failed
      modifies this`progress, this`packedName, this`writes, this`failed
      ensures failed <==> countFiles == 0 && TotalFiles(walk) > 0
      ensures failed ==> count == 1 && writes == old(writes) && progress == old(progress) &&
                         packedName == old(packedName)
      ensures !failed ==> count == TotalFiles(walk) && writes == old(writes) + ArchiveWrites(path, walk)
      ensures !failed && count == 0 ==> progress == old(progress) && packedName == old(packedName)
      ensures !failed && count > 0 ==> progress == Progress(countFiles, count) && LastName(walk) == Some(packedName)
    {
      count := 0;
      var i := 0;
      while i < |walk|
        invariant 0 <= i <= |walk|
        invariant count == TotalUpTo(walk, i)
        invariant writes == old(writes) + WritesUpTo(path, walk, i)
        invariant countFiles == 0 ==> count == 0
        invariant count == 0 ==> progress == old(progress) && packedName == old(packedName)
        invariant count > 0 ==> progress == Progress(countFiles, count) && LastNameUpTo(walk, i) == Some(packedName)
        invariant !failed
      {
        count := PackFiles(walk[i], count);
        if failed {
          StepFilesCounted(walk, i);
          AppendNothing(old(writes), WritesUpTo(path, walk, i));
          return;
        }
        AppendAssoc(old(writes), WritesUpTo(path, walk, i), WritesFor(path, StepFiles(walk[i])));
        i := i + 1;
      }
    }

    /**
     * The inner loop of `create_zip` over one directory's file names: each
     * file is counted, progress and label are updated, then the file is
     * written under `basename(path)/relpath(file, path)`.
     */
    method PackFiles(step: WalkStep, count0: nat) returns (count: nat)
      requires !failed
      requires countFiles == 0 ==> count0 == 0
      modifies this`progress, this`packedName, this`writes, this`failed
      ensures failed <==> countFiles == 0 && |step.fileNames| > 0
      ensures failed ==> count == count0 + 1 && writes == old(writes) && progress == old(progress) &&
                         packedName == old(packedName)
      ensures !failed ==> count == count0 + |step.fileNames| &&
                          writes == old(writes) + WritesFor(path, StepFiles(step))
      ensures !failed && |step.fileNames| > 0 ==>
                progress == Progress(countFiles, count) && packedName == step.fileNames[|step.fileNames| - 1]
      ensures |step.fileNames| == 0 ==> progress == old(progress) && packedName == old(packedName)
    {
      var rootDir := Basename(path);
      count := count0;
      var j := 0;
      while j < |step.fileNames|
        invariant 0 <= j <= |step.fileNames|
        invariant count == count0 + j && !failed
        invariant countFiles == 0 ==> j == 0
        invariant writes == old(writes) + WritesFor(path, StepFiles(step)[..j])
        invariant j == 0 ==> progress == old(progress) && packedName == old(packedName)
        invariant j > 0 ==> progress == Progress(countFiles, count) && packedName == step.fileNames[j - 1]
      {
        var fileName := step.fileNames[j];
        count := count + 1;
        var ok := SetProgressValue(countFiles, count);
        if !ok {
          failed := true;
          return;
        }
        SetNamePackedFile(fileName);
        var filePath := Join(JoinAll(path, step.relDir), fileName);
        var archiveName := Join(rootDir, Relative(step.relDir + [fileName]));
        assert StepFiles(step)[..j + 1] == StepFiles(step)[..j] + [FileRef(step.relDir, fileName)];
        WritesForAppend(path, StepFiles(step)[..j], FileRef(step.relDir, fileName));
        AppendAssoc(old(writes), WritesFor(path, StepFiles(step)[..j]), [Write(filePath, archiveName)]);
        writes := writes + [Write(filePath, archiveName)];
        j := j + 1;
      }
      assert StepFiles(step)[..j] == StepFiles(step);
    }
  }

  /** Appending in two steps is appending once. */
  lemma AppendAssoc<T>(a: seq<T>, b: seq<T>, c: seq<T>)
    ensures a + b + c == a + (b + c)
  {
  }

  /** Appending nothing changes nothing. */
  lemma AppendNothing<T>(a: seq<T>, b: seq<T>)
    requires |b| == 0
    ensures a + b == a
  {
  }

  /** A walk with a step that lists files has at least those files in total. */
  lemma StepFilesCounted(walk: seq<WalkStep>, i: nat)
    requires i < |walk|
    ensures TotalFiles(walk) >= |walk[i].fileNames|
  {
    TotalUpToMonotone(walk, i + 1, |walk|);
  }

  /** Counting more steps of the walk never counts fewer files. */
  lemma {:induction false} TotalUpToMonotone(walk: seq<WalkStep>, i: nat, j: nat)
    requires i <= j <= |walk|
    ensures TotalUpTo(walk, i) <= TotalUpTo(walk, j)
    decreases j - i
  {
    if i < j {
      TotalUpToMonotone(walk, i, j - 1);
    }
  }
}
