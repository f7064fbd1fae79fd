/** The part of the disk the program touches: files with their attributes, the existing
    directories, and Windows-style paths.

    Directory walks (`Directory.EnumerateFiles`, `Directory.GetDirectories`) are given as
    fixed functions of the start directory: their order is the file system's and is not
    derived from the file map. */
module FileSystems {
  import opened Wrappers
  import opened Text

  datatype FileAttribute = ReadOnly | Hidden | System | Archive

  datatype FileEntry = FileEntry(bytes: seq<bv8>, attributes: set<FileAttribute>)

  predicate IsSeparator(c: char) { c == '\\' || c == '/' }

  predicate NoSeparator(s: string) {
    forall k :: 0 <= k < |s| ==> !IsSeparator(s[k])
  }

  /** The position of the last separator in `path[..n]`. */
  function LastSeparator(path: string, n: nat): (r: Option<nat>)
    requires n <= |path|
    ensures r.Some? ==>
      r.value < n && IsSeparator(path[r.value]) && forall k :: r.value < k < n ==> !IsSeparator(path[k])
    ensures r.None? ==> forall k :: 0 <= k < n ==> !IsSeparator(path[k])
  {
    if n == 0 then None
    else if IsSeparator(path[n - 1]) then Some(n - 1)
    else LastSeparator(path, n - 1)
  }

  /** `Path.GetFileName`: what follows the last separator. */
  function GetFileName(path: string): (r: string)
    ensures NoSeparator(r) && EndsWith(path, r)
  {
    match LastSeparator(path, |path|)
    case None => path
    case Some(k) => path[k + 1..]
  }

  /** `Path.GetDirectoryName`: what precedes the last separator, empty without one. */
  function GetDirectoryName(path: string): string {
    match LastSeparator(path, |path|)
    case None => []
    case Some(k) => path[..k]
  }

  /** `Path.Combine(dir, name)` for a relative `name`. */
  function Combine(dir: string, name: string): string {
    if name == [] then dir
    else if dir == [] then name
    else if IsSeparator(dir[|dir| - 1]) then dir + name
    else dir + "\\" + name
  }

  /** A plain file name joined to a directory (not ending in a separator) splits back into
      the two. */
  lemma CombineSplits(dir: string, name: string)
    requires dir != [] && !IsSeparator(dir[|dir| - 1])
    requires name != [] && NoSeparator(name)
    ensures GetFileName(Combine(dir, name)) == name
    ensures GetDirectoryName(Combine(dir, name)) == dir
  {
    var p := Combine(dir, name);
    assert p[|dir|] == '\\';
    assert forall k :: |dir| < k < |p| ==> p[k] == name[k - |dir| - 1];
    assert LastSeparator(p, |p|) == Some(|dir|);
    assert p[|dir| + 1..] == name;
    assert p[..|dir|] == dir;
  }

  /** A name after a separator is what `GetFileName` returns. */
  lemma SeparatorThenName(head: string, name: string)
    requires head != [] && IsSeparator(head[|head| - 1])
    requires NoSeparator(name)
    ensures GetFileName(head + name) == name
  {
    var p := head + name;
    var sep := |head| - 1;
    assert IsSeparator(p[sep]);
    assert forall k :: sep < k < |p| ==> !IsSeparator(p[k]) by {
      assert forall k :: sep < k < |p| ==> p[k] == name[k - sep - 1];
    }
    assert LastSeparator(p, |p|) == Some(sep);
    assert p[sep + 1..] == name;
  }

  /** A plain file name keeps its name wherever it is put. */
  lemma FileNameOfCombine(dir: string, name: string)
    requires name != [] && NoSeparator(name)
    ensures GetFileName(Combine(dir, name)) == name
  {
    if dir != [] {
      var head := if IsSeparator(dir[|dir| - 1]) then dir else dir + "\\";
      var p := head + name;
      assert Combine(dir, name) == p;
      SeparatorThenName(head, name);
    }
  }

  /** `File.Copy(source, destination, true)` can write `destination`: its directory exists
      and no read-only or hidden file is in the way (Win32 `CopyFile` refuses to
      overwrite either). */
  predicate CanCopyTo(files: map<string, FileEntry>, dirs: set<string>, path: string) {
    GetDirectoryName(path) in dirs
    && !(path in files && (ReadOnly in files[path].attributes || Hidden in files[path].attributes))
  }

  /** `new FileStream(path, FileMode.Create)` can open `path`: its directory exists and no
      read-only, hidden or system file is in the way (`CREATE_ALWAYS` refuses all three). */
  predicate CanCreate(files: map<string, FileEntry>, dirs: set<string>, path: string) {
    GetDirectoryName(path) in dirs
    && !(path in files && (ReadOnly in files[path].attributes || Hidden in files[path].attributes
                           || System in files[path].attributes))
  }

  /** `File.Copy(source, destination, true)`: the destination becomes a copy of the source,
      attributes included; `None` where the call throws. */
  function CopyFile(files: map<string, FileEntry>, dirs: set<string>, source: string, destination: string)
    : (r: Option<map<string, FileEntry>>)
    ensures r.Some? <==> source in files && source != destination && CanCopyTo(files, dirs, destination)
    ensures r.Some? ==> destination in r.value && r.value[destination] == files[source]
    ensures r.Some? ==> forall p :: p != destination ==> (p in r.value <==> p in files) && (p in files ==> r.value[p] == files[p])
  {
    if source in files && source != destination && CanCopyTo(files, dirs, destination)
    then Some(files[destination := files[source]])
    else None
  }

  /** A file created (or truncated) and filled with `bytes`; an existing file keeps its
      attributes, a new one is marked for archiving. `None` where the call throws. */
  function CreateFile(files: map<string, FileEntry>, dirs: set<string>, path: string, bytes: seq<bv8>)
    : (r: Option<map<string, FileEntry>>)
    ensures r.Some? <==> CanCreate(files, dirs, path)
    ensures r.Some? ==> path in r.value && r.value[path].bytes == bytes
    ensures r.Some? ==> forall p :: p != path ==> (p in r.value <==> p in files) && (p in files ==> r.value[p] == files[p])
  {
    if CanCreate(files, dirs, path)
    then Some(files[path := FileEntry(bytes, if path in files then files[path].attributes else {Archive})])
    else None
  }

  /** The disk. */
  class FileSystem {
    var files: map<string, FileEntry>
    var dirs: set<string>
    /** `Directory.EnumerateFiles(root, "*.ISL", SearchOption.AllDirectories)`, in
        enumeration order; `None` where the walk throws. */
    const licenseFilesUnder: string -> Option<seq<string>>
    /** `Directory.EnumerateFiles(root, "*.ISL")`, the top level only. */
    const licenseFilesIn: string -> Option<seq<string>>
    /** `Directory.GetDirectories(root, "bin", SearchOption.AllDirectories)` */
    const binDirectoriesUnder: string -> seq<string>

    constructor(files: map<string, FileEntry>, dirs: set<string>,
                licenseFilesUnder: string -> Option<seq<string>>,
                licenseFilesIn: string -> Option<seq<string>>,
                binDirectoriesUnder: string -> seq<string>)
      ensures this.files == files && this.dirs == dirs
      ensures this.licenseFilesUnder == licenseFilesUnder && this.licenseFilesIn == licenseFilesIn
      ensures this.binDirectoriesUnder == binDirectoriesUnder
    {
      this.files := files;
      this.dirs := dirs;
      this.licenseFilesUnder := licenseFilesUnder;
      this.licenseFilesIn := licenseFilesIn;
      this.binDirectoriesUnder := binDirectoriesUnder;
    }

    /** `File.SetAttributes` */
    method SetAttributes(path: string, attributes: set<FileAttribute>)
      requires path in files
      modifies this
      ensures files == old(files)[path := old(files)[path].(attributes := attributes)]
      ensures dirs == old(dirs)
    {
      files := files[path := files[path].(attributes := attributes)];
    }

    /** `File.Copy(source, destination, true)`; `false` where it throws. */
    method Copy(source: string, destination: string) returns (ok: bool)
      modifies this
      ensures ok <==> CopyFile(old(files), dirs, source, destination).Some?
      ensures files == if ok then CopyFile(old(files), dirs, source, destination).value else old(files)
      ensures dirs == old(dirs)
    {
      var r := CopyFile(files, dirs, source, destination);
      ok := r.Some?;
      if ok {
        files := r.value;
      }
    }

    /** Writes a whole file through `new FileStream(path, FileMode.Create, ...)`. */
    method Create(path: string, bytes: seq<bv8>) returns (ok: bool)
      modifies this
      ensures ok <==> CreateFile(old(files), dirs, path, bytes).Some?
      ensures files == if ok then CreateFile(old(files), dirs, path, bytes).value else old(files)
      ensures dirs == old(dirs)
    {
      var r := CreateFile(files, dirs, path, bytes);
      ok := r.Some?;
      if ok {
        files := r.value;
      }
    }
  }
}
