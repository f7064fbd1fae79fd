/** `LicenseViewModel`: the license dialog. It lists the installed licenses, downloads
    each again, and adds a license by number. Dialogs become the last message shown. */
module LicenseViewModels {
  import opened Wrappers
  import opened Text
  import opened Models
  import opened FileSystems
  import opened FileOperations
  import opened DownloadModels

  const NoLicensesFound := "Лицензионные файлы не найдены. Введите номер лицензии, который указан на ключе или в программе А0 (в меню Справка -> О программе)"
  const EnterLicenseNumber := "Введите номер лицензии, который указан на ключе или в программе А0 (в меню Справка -> О программе)"
  const LicensesUpdated := "Лицензии обновлены!"
  /** `Exception.Message` of the `NullReferenceException` thrown by `Licenses.Count` on a
      list never filled. */
  const NullReferenceMessage := "Object reference not set to an instance of an object."
  /** License numbers shorter than this are padded on the left with zeros. */
  const LicenseNumberLength := 8

  function NotInstalled(path: string): string {
    "Программа A0 не установлена или отсутствует доступ к папке " + path
  }

  function ExceptionText(message: string): string {
    "Ошибка: " + message
  }

  function LicenseAdded(name: string): string {
    "Лицензия " + name + " добавлена!"
  }

  /** The list shown for the found license files: each distinct file name once, none
      selected. */
  function LicenseEntries(found: seq<LicenseModel>): seq<UpdateLicenseModel> {
    var names := Distinct(FileNames(found));
    seq(|names|, i requires 0 <= i < |names| => UpdateLicenseModel(names[i], false))
  }

  lemma LicenseEntriesSpec(found: seq<LicenseModel>)
    ensures LicenseEntries(found) == [] <==> found == []
    ensures forall e <- LicenseEntries(found) :: !e.isSelected
    ensures NoDuplicates(Names(LicenseEntries(found)))
    ensures forall n :: n in Names(LicenseEntries(found)) <==> n in FileNames(found)
  {
    var names := FileNames(found);
    assert Names(LicenseEntries(found)) == Distinct(names);
    DistinctMembers(names);
    DistinctEmpty(names);
  }

  function Names(licenses: seq<UpdateLicenseModel>): (r: seq<string>)
    ensures |r| == |licenses| && forall i :: 0 <= i < |r| ==> r[i] == licenses[i].name
  {
    seq(|licenses|, i requires 0 <= i < |licenses| => licenses[i].name)
  }

  /** The license number as it is downloaded: short numbers zero-padded. */
  function PaddedNumber(name: string): string {
    if |name| < LicenseNumberLength then PadLeft(name, LicenseNumberLength, '0') else name
  }

  /** A padded number has at least eight characters and ends with the number typed; only
      zeros are put in front, and a long enough number is kept as it is. Padding twice
      pads once. */
  lemma PaddedNumberSpec(name: string)
    ensures |PaddedNumber(name)| == if |name| < LicenseNumberLength then LicenseNumberLength else |name|
    ensures EndsWith(PaddedNumber(name), name)
    ensures forall k :: 0 <= k < |PaddedNumber(name)| - |name| ==> PaddedNumber(name)[k] == '0'
    ensures |name| >= LicenseNumberLength ==> PaddedNumber(name) == name
    ensures PaddedNumber(PaddedNumber(name)) == PaddedNumber(name)
  {
  }

  /** `DownloadAndCopyLicense` for one name: the download's outcome, then the copy of the
      downloaded file into every destination; the result is the file's name. */
  function DownloadAndCopy(files: map<string, FileEntry>, dirs: set<string>, download: string -> Result<string>,
                           dests: seq<string>, name: string)
    : (Result<string>, map<string, FileEntry>)
  {
    match download(name)
    case Failure(e) => (Failure(e), files)
    case Success(path) =>
      var copied := CopyAll(files, dirs, path, dests);
      (if copied.0.Fail? then Failure(copied.0.error) else Success(GetFileName(path)), copied.1)
  }

  /** A failed download touches nothing; a success names a file that every destination now
      holds, as downloaded with its read-only flag cleared. */
  lemma DownloadAndCopySpec(files: map<string, FileEntry>, dirs: set<string>, download: string -> Result<string>,
                            dests: seq<string>, name: string)
    ensures download(name).Failure? ==> DownloadAndCopy(files, dirs, download, dests, name) == (download(name), files)
    ensures var (r, after) := DownloadAndCopy(files, dirs, download, dests, name);
      r.Success? && dests != [] ==>
        download(name).Success? && r.value == GetFileName(download(name).value)
        && download(name).value in files
        && forall d <- dests :: Combine(d, r.value) in after && after[Combine(d, r.value)] == Cleared(files[download(name).value])
  {
    if download(name).Success? && dests != [] {
      var path := download(name).value;
      if CopyAll(files, dirs, path, dests).0 == Pass {
        CopyAllPass(files, dirs, path, dests);
      }
    }
  }

  /** `UpdateLicenses`' loop: each license downloaded and copied in list order, whatever
      the outcome of the ones before. */
  function UpdateAll(files: map<string, FileEntry>, dirs: set<string>, download: string -> Result<string>,
                     dests: seq<string>, names: seq<string>): map<string, FileEntry>
    decreases |names|
  {
    if names == [] then files
    else UpdateAll(DownloadAndCopy(files, dirs, download, dests, names[0]).1, dirs, download, dests, names[1..])
  }

  lemma {:induction false} UpdateAllAppend(files: map<string, FileEntry>, dirs: set<string>,
                                           download: string -> Result<string>, dests: seq<string>,
                                           a: seq<string>, b: seq<string>)
    ensures UpdateAll(files, dirs, download, dests, a + b)
      == UpdateAll(UpdateAll(files, dirs, download, dests, a), dirs, download, dests, b)
    decreases |a|
  {
    if a == [] {
      assert a + b == b;
    } else {
      assert (a + b)[0] == a[0];
      assert (a + b)[1..] == a[1..] + b;
      UpdateAllAppend(DownloadAndCopy(files, dirs, download, dests, a[0]).1, dirs, download, dests, a[1..], b);
    }
  }

  /** A license whose download fails leaves the update of the others as if it were not in
      the list. */
  lemma UpdateAllSkips(files: map<string, FileEntry>, dirs: set<string>, download: string -> Result<string>,
                       dests: seq<string>, a: seq<string>, name: string, b: seq<string>)
    requires download(name).Failure?
    ensures UpdateAll(files, dirs, download, dests, a + [name] + b) == UpdateAll(files, dirs, download, dests, a + b)
  {
    UpdateAllAppend(files, dirs, download, dests, a + [name], b);
    UpdateAllAppend(files, dirs, download, dests, a, [name]);
    UpdateAllAppend(files, dirs, download, dests, a, b);
    var mid := UpdateAll(files, dirs, download, dests, a);
    assert [name][1..] == [];
    assert UpdateAll(mid, dirs, download, dests, [name]) == mid;
  }

  class LicenseViewModel {
    const fileOperations: FileOperationsService
    /** The installation folder from the settings; an unset one is the empty path. */
    const a0InstallationPath: string
    /** The license download as this dialog uses it: the path of the saved license file,
        or the error. */
    const download: string -> Result<string>
    var isBusy: bool
    var licenseName: Option<string>
    var licenses: Option<seq<UpdateLicenseModel>>
    var lastMessage: Option<Message>

    constructor(settings: SettingsModel, fileOperations: FileOperationsService, download: string -> Result<string>)
      ensures this.fileOperations == fileOperations && this.download == download
      ensures a0InstallationPath == settings.a0InstallationPath.GetOr([])
      ensures !isBusy && licenseName.None?
      ensures Found(None, None) == (licenses, lastMessage)
    {
      this.fileOperations := fileOperations;
      this.download := download;
      a0InstallationPath := settings.a0InstallationPath.GetOr([]);
      isBusy := false;
      licenseName := None;
      licenses := None;
      lastMessage := None;
      new;
      FindAllLicenses();
    }

    /** The destinations of a copy: the distinct directories holding installed licenses. */
    function Destinations(): seq<string>
      reads fileOperations.fs
    {
      Distinct(Directories(fileOperations.FindAllLicFiles(a0InstallationPath)))
    }

    /** `FindAllLicenses` starting from the given list and message. */
    function Found(before: Option<seq<UpdateLicenseModel>>, message: Option<Message>)
      : (Option<seq<UpdateLicenseModel>>, Option<Message>)
      reads fileOperations.fs
    {
      if !fileOperations.IsFolderExist(a0InstallationPath) then (before, Some(Error(NotInstalled(a0InstallationPath))))
      else
        var found := fileOperations.FindAllLicFiles(a0InstallationPath);
        if found == [] then (before, Some(Error(NoLicensesFound)))
        else (Some(LicenseEntries(found)), message)
    }

    /** `FindAllLicenses`: the list of installed licenses, or an error when the folder is
        missing or holds none. */
    method FindAllLicenses()
      modifies this`licenses, this`lastMessage
      ensures (licenses, lastMessage) == Found(old(licenses), old(lastMessage))
    {
      if fileOperations.IsFolderExist(a0InstallationPath) {
        var foundLicense := fileOperations.FindAllLicFiles(a0InstallationPath);
        if foundLicense == [] {
          lastMessage := Some(Error(NoLicensesFound));
        } else {
          licenses := Some(LicenseEntries(foundLicense));
        }
      } else {
        lastMessage := Some(Error(NotInstalled(a0InstallationPath)));
      }
    }

    /** `DownloadAndCopyLicense`: busy from the start, and idle again only once the copy
        has been tried, so a failed download leaves the dialog busy. */
    method DownloadAndCopyLicense(name: string) returns (r: Result<string>)
      modifies this`isBusy, fileOperations.fs
      ensures (r, fileOperations.fs.files)
        == DownloadAndCopy(old(fileOperations.fs.files), old(fileOperations.fs.dirs), download, Destinations(), name)
      ensures fileOperations.fs.dirs == old(fileOperations.fs.dirs)
      ensures isBusy <==> download(name).Failure?
    {
      isBusy := true;
      var licenseResult := download(name);
      if licenseResult.Failure? {
        return licenseResult;
      }
      var found := fileOperations.FindAllLicFiles(a0InstallationPath);
      var destinationDirs := Distinct(Directories(found));
      var copyResult := fileOperations.CopyToAllFolders(licenseResult.value, destinationDirs);
      if copyResult.Fail? {
        isBusy := false;
        return Failure(copyResult.error);
      }
      isBusy := false;
      r := Success(GetFileName(licenseResult.value));
    }

    /** `UpdateLicenses`: every listed license downloaded and copied again, in order, then
        one message; the busy flag is what the last license left. */
    method UpdateLicenses()
      modifies this`isBusy, this`lastMessage, fileOperations.fs
      ensures fileOperations.fs.dirs == old(fileOperations.fs.dirs)
      ensures licenses.None? ==>
        lastMessage == Some(Error(ExceptionText(NullReferenceMessage)))
        && fileOperations.fs.files == old(fileOperations.fs.files) && isBusy == old(isBusy)
      ensures licenses == Some([]) ==>
        lastMessage == Some(Error(NotInstalled(a0InstallationPath)))
        && fileOperations.fs.files == old(fileOperations.fs.files) && isBusy == old(isBusy)
      ensures licenses.Some? && licenses.value != [] ==>
        var names := Names(licenses.value);
        lastMessage == Some(Info(LicensesUpdated))
        && fileOperations.fs.files
           == UpdateAll(old(fileOperations.fs.files), old(fileOperations.fs.dirs), download, old(Destinations()), names)
        && (isBusy <==> download(names[|names| - 1]).Failure?)
    {
      if licenses.None? {
        lastMessage := Some(Error(ExceptionText(NullReferenceMessage)));
        return;
      }
      if licenses.value == [] {
        lastMessage := Some(Error(NotInstalled(a0InstallationPath)));
        return;
      }
      var names := Names(licenses.value);
      ghost var dests := Destinations();
      ghost var whole := UpdateAll(fileOperations.fs.files, fileOperations.fs.dirs, download, dests, names);
      var i := 0;
      while i < |names|
        invariant 0 <= i <= |names|
        invariant fileOperations.fs.dirs == old(fileOperations.fs.dirs)
        invariant Destinations() == dests
        invariant whole == UpdateAll(fileOperations.fs.files, fileOperations.fs.dirs, download, dests, names[i..])
        invariant i > 0 ==> (isBusy <==> download(names[i - 1]).Failure?)
      {
        var _ := DownloadAndCopyLicense(names[i]);
        assert names[i..][1..] == names[i + 1..];
        i := i + 1;
      }
      lastMessage := Some(Info(LicensesUpdated));
    }

    /** `AddLicense`: checks the list and the number, pads the number, downloads and
        copies the license, and lists it. */
    method AddLicense()
      modifies this`isBusy, this`lastMessage, this`licenseName, this`licenses, fileOperations.fs
      ensures fileOperations.fs.dirs == old(fileOperations.fs.dirs)
      ensures old(licenses).None? || old(licenses) == Some([]) ==>
        lastMessage == Some(Error(NotInstalled(a0InstallationPath)))
        && licenses == old(licenses) && licenseName == old(licenseName) && isBusy == old(isBusy)
        && fileOperations.fs.files == old(fileOperations.fs.files)
      ensures old(licenses).Some? && old(licenses).value != [] && (old(licenseName).None? || old(licenseName) == Some([])) ==>
        lastMessage == Some(Error(EnterLicenseNumber))
        && licenses == old(licenses) && licenseName == old(licenseName) && isBusy == old(isBusy)
        && fileOperations.fs.files == old(fileOperations.fs.files)
      ensures old(licenses).Some? && old(licenses).value != [] && old(licenseName).Some? && old(licenseName).value != [] ==>
        var number := PaddedNumber(old(licenseName).value);
        var (r, files) := DownloadAndCopy(old(fileOperations.fs.files), old(fileOperations.fs.dirs), download, old(Destinations()), number);
        licenseName == Some(number)
        && fileOperations.fs.files == files
        && (isBusy <==> download(number).Failure?)
        && (r.Failure? ==> lastMessage == Some(Error(r.error)) && licenses == old(licenses))
        && (r.Success? ==>
              lastMessage == Some(Info(LicenseAdded(r.value)))
              && licenses == Some(old(licenses).value + [UpdateLicenseModel(r.value, false)]))
    {
      if licenses.None? || licenses.value == [] {
        lastMessage := Some(Error(NotInstalled(a0InstallationPath)));
        return;
      }
      if licenseName.None? || licenseName.value == [] {
        lastMessage := Some(Error(EnterLicenseNumber));
        return;
      }
      if |licenseName.value| < LicenseNumberLength {
        licenseName := Some(PadLeft(licenseName.value, LicenseNumberLength, '0'));
      }
      var fileNameResult := DownloadAndCopyLicense(licenseName.value);
      if fileNameResult.Failure? {
        lastMessage := Some(Error(fileNameResult.error));
        return;
      }
      licenses := Some(licenses.value + [UpdateLicenseModel(fileNameResult.value, false)]);
      lastMessage := Some(Info(LicenseAdded(fileNameResult.value)));
    }
  }
}
