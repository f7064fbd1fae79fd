/** `DownloadModelExtentions.CopyToAllFolders`: puts a downloaded license and its
    description next to every license already installed. */
module DownloadModels {
  import opened Wrappers
  import opened Text
  import opened Models
  import opened FileSystems
  import opened FileOperations

  function Directories(licenses: seq<LicenseModel>): (r: seq<string>)
    ensures |r| == |licenses| && forall i :: 0 <= i < |r| ==> r[i] == licenses[i].directoryPath
  {
    seq(|licenses|, i requires 0 <= i < |licenses| => licenses[i].directoryPath)
  }

  /** The destinations: the distinct directories of the installed licenses, or, when there
      are none, every `bin` directory of the installation. */
  function Destinations(licenses: seq<LicenseModel>, binDirectories: seq<string>): seq<string> {
    var dirs := Distinct(Directories(licenses));
    if dirs == [] then binDirectories else dirs
  }

  /** With licenses installed, every directory holding one is a destination, once; without,
      the `bin` directories are. */
  lemma DestinationsSpec(licenses: seq<LicenseModel>, binDirectories: seq<string>)
    ensures licenses == [] ==> Destinations(licenses, binDirectories) == binDirectories
    ensures licenses != [] ==> NoDuplicates(Destinations(licenses, binDirectories))
    ensures licenses != [] ==>
      forall d :: d in Destinations(licenses, binDirectories) <==> exists l <- licenses :: l.directoryPath == d
  {
    var dirs := Directories(licenses);
    DistinctMembers(dirs);
    DistinctEmpty(dirs);
    forall d
      ensures d in dirs <==> exists l <- licenses :: l.directoryPath == d
    {
      if d in dirs {
        var i :| 0 <= i < |dirs| && dirs[i] == d;
        assert licenses[i] in licenses;
      }
    }
  }

  /** The two passes: the license to every destination, then the description. */
  function CopyBoth(files: map<string, FileEntry>, dirs: set<string>, model: DownloadModel, dests: seq<string>)
    : (Outcome, map<string, FileEntry>)
  {
    var license := CopyAll(files, dirs, model.licensePath, dests);
    if license.0.Fail? then (Fail(license.0.error), license.1)
    else CopyAll(license.1, dirs, model.descriptionPath, dests)
  }

  /** A failure of the license pass is the result, and no description is copied. */
  lemma CopyBothLicenseFirst(files: map<string, FileEntry>, dirs: set<string>, model: DownloadModel,
                             dests: seq<string>)
    ensures var license := CopyAll(files, dirs, model.licensePath, dests);
      license.0.Fail? ==> CopyBoth(files, dirs, model, dests) == license
    ensures CopyBoth(files, dirs, model, dests).0 == Pass <==>
      CopyAll(files, dirs, model.licensePath, dests).0 == Pass
      && CopyAll(CopyAll(files, dirs, model.licensePath, dests).1, dirs, model.descriptionPath, dests).0 == Pass
  {
  }

  /** On success every destination holds both files, each as it was and without its
      read-only flag, provided the two have different names. */
  lemma CopyBothPlaces(files: map<string, FileEntry>, dirs: set<string>, model: DownloadModel,
                       dests: seq<string>)
    requires dests != [] && CopyBoth(files, dirs, model, dests).0 == Pass
    requires GetFileName(model.licensePath) != [] && GetFileName(model.descriptionPath) != []
    requires GetFileName(model.licensePath) != GetFileName(model.descriptionPath)
    ensures model.licensePath in files && model.descriptionPath in files
    ensures var after := CopyBoth(files, dirs, model, dests).1;
      forall d <- dests ::
        Target(d, model.licensePath) in after && after[Target(d, model.licensePath)] == Cleared(files[model.licensePath])
        && Target(d, model.descriptionPath) in after
        && after[Target(d, model.descriptionPath)] == Cleared(files[model.descriptionPath])
  {
    var lic := model.licensePath;
    var desc := model.descriptionPath;
    var mid := CopyAll(files, dirs, lic, dests).1;
    CopyAllPass(files, dirs, lic, dests);
    CopyAllPass(mid, dirs, desc, dests);
    assert desc != lic;
    forall d <- dests
      ensures desc != Target(d, lic)
    {
      FileNameOfCombine(d, GetFileName(lic));
    }
    CopyAllFrame(files, dirs, lic, dests, desc);
    var after := CopyBoth(files, dirs, model, dests).1;
    forall d <- dests
      ensures Target(d, lic) in after && after[Target(d, lic)] == Cleared(files[lic])
    {
      FileNameOfCombine(d, GetFileName(lic));
      forall d' <- dests
        ensures Target(d, lic) != Target(d', desc)
      {
        FileNameOfCombine(d', GetFileName(desc));
      }
      CopyAllFrame(mid, dirs, desc, dests, Target(d, lic));
    }
  }

  /** `CopyToAllFolders` of a download: choose the destinations, then run both passes. */
  method CopyToAllFolders(model: DownloadModel, fileOperationsService: FileOperationsService,
                          a0InstallationPath: string) returns (r: Outcome)
    modifies fileOperationsService.fs
    ensures var fs := fileOperationsService.fs;
      var dests := Destinations(fileOperationsService.FindAllLicFiles(a0InstallationPath),
                                fs.binDirectoriesUnder(a0InstallationPath));
      (r, fs.files) == CopyBoth(old(fs.files), old(fs.dirs), model, dests)
    ensures fileOperationsService.fs.dirs == old(fileOperationsService.fs.dirs)
  {
    var licenses := fileOperationsService.FindAllLicFiles(a0InstallationPath);
    var destinationDirs := Distinct(Directories(licenses));
    if destinationDirs == [] {
      destinationDirs := fileOperationsService.fs.binDirectoriesUnder(a0InstallationPath);
    }
    var copyLicenseResult := fileOperationsService.CopyToAllFolders(model.licensePath, destinationDirs);
    if copyLicenseResult.Fail? {
      return Fail(copyLicenseResult.error);
    }
    var copyDescriptionResult := fileOperationsService.CopyToAllFolders(model.descriptionPath, destinationDirs);
    if copyDescriptionResult.Fail? {
      return Fail(copyDescriptionResult.error);
    }
    return Pass;
  }
}
