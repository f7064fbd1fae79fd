/** `FileOperationsService`: finding license files and copying a file into several
    directories, and `PathHelpers.MapToLicenseModel`, which splits found paths. */
module FileOperations {
  import opened Wrappers
  import opened Text
  import opened Models
  import opened FileSystems

  const CopyErrorPrefix := "Ошибка при копировании лицензии "

  /** `PathHelpers.MapToLicenseModel`: each path as its file name and directory. */
  function MapToLicenseModel(fullFilePaths: seq<string>): (r: seq<LicenseModel>)
    ensures |r| == |fullFilePaths|
    ensures forall i :: 0 <= i < |r| ==>
      r[i].fileName == GetFileName(fullFilePaths[i]) && r[i].directoryPath == GetDirectoryName(fullFilePaths[i])
  {
    if fullFilePaths == [] then []
    else
      [LicenseModel(GetFileName(fullFilePaths[0]), GetDirectoryName(fullFilePaths[0]))]
      + MapToLicenseModel(fullFilePaths[1..])
  }

  /** A file that was put into a directory is found again under its name in that
      directory. */
  lemma MapToLicenseModelRecovers(dir: string, name: string)
    requires dir != [] && !IsSeparator(dir[|dir| - 1])
    requires name != [] && NoSeparator(name)
    ensures MapToLicenseModel([Combine(dir, name)]) == [LicenseModel(name, dir)]
  {
    CombineSplits(dir, name);
  }

  /** `Select(x => x.FileName)` */
  function FileNames(licenses: seq<LicenseModel>): (r: seq<string>)
    ensures |r| == |licenses| && forall i :: 0 <= i < |r| ==> r[i] == licenses[i].fileName
  {
    seq(|licenses|, i requires 0 <= i < |licenses| => licenses[i].fileName)
  }

  /** Where a copy of `source` lands in directory `dir`. */
  function Target(dir: string, source: string): string {
    Combine(dir, GetFileName(source))
  }

  /** A file entry without its read-only flag and with every other attribute kept. */
  function Cleared(e: FileEntry): FileEntry {
    e.(attributes := e.attributes - {ReadOnly})
  }

  /** The attribute step before each copy: a read-only source loses that flag only. */
  function ClearReadOnly(files: map<string, FileEntry>, path: string): (r: map<string, FileEntry>)
    ensures path in files ==> r == files[path := Cleared(files[path])]
    ensures path !in files ==> r == files
  {
    if path in files && ReadOnly in files[path].attributes
    then files[path := Cleared(files[path])]
    else
      assert path in files ==> Cleared(files[path]) == files[path] by {
        if path in files {
          assert files[path].attributes - {ReadOnly} == files[path].attributes;
        }
      }
      files
  }

  /** What `CopyToAllFolders` does: the outcome and the files afterwards. */
  function CopyAll(files: map<string, FileEntry>, dirs: set<string>, source: string, dests: seq<string>)
    : (Outcome, map<string, FileEntry>)
    decreases |dests|
  {
    if dests == [] then (Pass, files)
    else
      var cleared := ClearReadOnly(files, source);
      match CopyFile(cleared, dirs, source, Target(dests[0], source))
      case None => (Fail(CopyErrorPrefix + dests[0]), cleared)
      case Some(copied) => CopyAll(copied, dirs, source, dests[1..])
  }

  /** An empty list of destinations changes nothing. */
  lemma CopyAllNone(files: map<string, FileEntry>, dirs: set<string>, source: string)
    ensures CopyAll(files, dirs, source, []) == (Pass, files)
  {
  }

  /** Only the source and the copies' targets can change. */
  lemma {:induction false} CopyAllFrame(files: map<string, FileEntry>, dirs: set<string>, source: string,
                                        dests: seq<string>, p: string)
    requires p != source && forall d <- dests :: p != Target(d, source)
    ensures var after := CopyAll(files, dirs, source, dests).1;
      (p in after <==> p in files) && (p in files ==> after[p] == files[p])
    decreases |dests|
  {
    if dests != [] {
      var cleared := ClearReadOnly(files, source);
      match CopyFile(cleared, dirs, source, Target(dests[0], source))
      case None =>
      case Some(copied) =>
        assert forall d <- dests[1..] :: d in dests;
        CopyAllFrame(copied, dirs, source, dests[1..], p);
    }
  }

  /** On success every destination holds the source as it was, read-only flag cleared,
      and so does the source itself. */
  lemma {:induction false} CopyAllPass(files: map<string, FileEntry>, dirs: set<string>, source: string,
                                       dests: seq<string>)
    requires dests != [] && CopyAll(files, dirs, source, dests).0 == Pass
    ensures source in files
    ensures var after := CopyAll(files, dirs, source, dests).1;
      source in after && after[source] == Cleared(files[source])
      && forall d <- dests :: Target(d, source) in after && after[Target(d, source)] == Cleared(files[source])
    decreases |dests|
  {
    var cleared := ClearReadOnly(files, source);
    var copied := CopyFile(cleared, dirs, source, Target(dests[0], source)).value;
    assert copied[source] == Cleared(files[source]);
    if |dests| > 1 {
      CopyAllPass(copied, dirs, source, dests[1..]);
      assert Cleared(copied[source]) == Cleared(files[source]);
      var after := CopyAll(files, dirs, source, dests).1;
      forall d <- dests
        ensures Target(d, source) in after && after[Target(d, source)] == Cleared(files[source])
      {
        if !exists d' <- dests[1..] :: Target(d', source) == Target(d, source) {
          assert d == dests[0];
          CopyAllFrame(copied, dirs, source, dests[1..], Target(d, source));
        }
      }
    }
  }

  /** A failure names the first destination whose copy failed: the copies before it have
      all been made, and nothing is done for the destinations after it. */
  lemma {:induction false} CopyAllFail(files: map<string, FileEntry>, dirs: set<string>, source: string,
                                       dests: seq<string>)
    returns (i: nat)
    requires CopyAll(files, dirs, source, dests).0.Fail?
    ensures i < |dests|
    ensures CopyAll(files, dirs, source, dests).0 == Fail(CopyErrorPrefix + dests[i])
    ensures var before := CopyAll(files, dirs, source, dests[..i]);
      before.0 == Pass
      && CopyFile(ClearReadOnly(before.1, source), dirs, source, Target(dests[i], source)).None?
      && CopyAll(files, dirs, source, dests).1 == ClearReadOnly(before.1, source)
    decreases |dests|
  {
    var cleared := ClearReadOnly(files, source);
    match CopyFile(cleared, dirs, source, Target(dests[0], source))
    case None =>
      i := 0;
    case Some(copied) =>
      var j := CopyAllFail(copied, dirs, source, dests[1..]);
      i := j + 1;
      assert dests[..i][0] == dests[0];
      assert dests[..i][1..] == dests[1..][..j];
  }

  class FileOperationsService {
    const fs: FileSystem

    constructor(fs: FileSystem)
      ensures this.fs == fs
    {
      this.fs := fs;
    }

    /** `IsFolderExist` */
    predicate IsFolderExist(path: string)
      reads fs
    {
      path in fs.dirs
    }

    /** `FindLicFile`: the name of the first license file directly in `path`; `None` (the
        `null` of `FirstOrDefault`) when there is none, and the empty name when the
        search throws. */
    function FindLicFile(path: string): (r: Option<string>)
      ensures fs.licenseFilesIn(path).None? ==> r == Some([])
      ensures fs.licenseFilesIn(path) == Some([]) ==> r.None?
      ensures fs.licenseFilesIn(path).Some? && fs.licenseFilesIn(path).value != [] ==>
        r == Some(GetFileName(fs.licenseFilesIn(path).value[0]))
    {
      match fs.licenseFilesIn(path)
      case None => Some([])
      case Some(paths) => if paths == [] then None else Some(GetFileName(paths[0]))
    }

    /** `FindAllLicFiles`: every license file under `path`; nothing when the search
        throws. */
    function FindAllLicFiles(path: string): (r: seq<LicenseModel>)
      ensures fs.licenseFilesUnder(path).None? ==> r == []
      ensures fs.licenseFilesUnder(path).Some? ==> |r| == |fs.licenseFilesUnder(path).value|
      ensures forall i :: 0 <= i < |r| ==>
        r[i].fileName == GetFileName(fs.licenseFilesUnder(path).value[i])
        && r[i].directoryPath == GetDirectoryName(fs.licenseFilesUnder(path).value[i])
    {
      match fs.licenseFilesUnder(path)
      case None => []
      case Some(paths) => MapToLicenseModel(paths)
    }

    /** `CopyToAllFolders`: copies the file into each directory in turn and stops at the
        first copy that fails. */
    method CopyToAllFolders(downloadLicensePath: string, destinationDirectories: seq<string>)
      returns (r: Outcome)
      modifies fs
      ensures (r, fs.files) == CopyAll(old(fs.files), old(fs.dirs), downloadLicensePath, destinationDirectories)
      ensures fs.dirs == old(fs.dirs)
    {
      var i := 0;
      while i < |destinationDirectories|
        invariant 0 <= i <= |destinationDirectories|
        invariant fs.dirs == old(fs.dirs)
        invariant CopyAll(old(fs.files), fs.dirs, downloadLicensePath, destinationDirectories)
          == CopyAll(fs.files, fs.dirs, downloadLicensePath, destinationDirectories[i..])
      {
        var destinationDir := destinationDirectories[i];
        if downloadLicensePath in fs.files {
          var attributes := fs.files[downloadLicensePath].attributes;
          if ReadOnly in attributes {
            fs.SetAttributes(downloadLicensePath, attributes - {ReadOnly});
          }
        }
        var destinationFile := Combine(destinationDir, GetFileName(downloadLicensePath));
        var ok := fs.Copy(downloadLicensePath, destinationFile);
        if !ok {
          return Fail(CopyErrorPrefix + destinationDir);
        }
        assert destinationDirectories[i..][1..] == destinationDirectories[i + 1..];
        i := i + 1;
      }
      r := Pass;
    }
  }
}
