/** `MainViewModel`: the main window. It lists the installed licenses, gathers the
    information about the chosen one (fresh license files copied into place, expiry
    dates, the update catalog filtered for it) and downloads the chosen updates. Dialogs
    become the last message shown. */
module MainViewModels {
  import opened Wrappers
  import opened Text
  import opened Dates
  import opened Models
  import opened FileSystems
  import opened FileOperations
  import opened DownloadModels
  import opened UpdateModels
  import opened Streams
  import Y = YandexServices
  import L = LicenseViewModels

  const SelectLicense := "Выберите лицензию из списка"
  const LicensesNotFound := "Лицензионные файлы не найдены"
  const LicenseInfoReceived := "Информация о лицензии получена!"
  const SelectUpdates := "Выберите обновления для загрузки"
  const UpdatesDownloaded := "Обновления загружены!"

  const A0Absent := "Лицензия А0 отсутствует"
  const A0Until := "Лицензия А0 действительна до: "
  const PirAbsent := "Лицензия ПИР отсутствует"
  const PirUntil := "Лицензия ПИР действительна до: "
  const SubscriptionAbsent := "Подписка на базы отсутствует"
  const SubscriptionUntil := "Подписка на базы: "

  predicate IsNullOrEmpty(s: Option<string>) {
    s.None? || s.value == []
  }

  /** The text shown for an expiry date: the "absent" text for `default(DateTime)`, and
      otherwise the lead-in followed by the date as `dd.MM.yyyy`. */
  function ExpText(d: Date, absent: string, until: string): string
    requires Valid(d)
  {
    if d == MinDate then absent else until + FormatDate(d, '.')
  }

  /** The date can be read back from its text, and only `MinDate` shows the "absent"
      text when that text does not begin with the lead-in. */
  lemma ExpTextSpec(d: Date, absent: string, until: string)
    requires Valid(d) && !StartsWith(absent, until)
    ensures ExpText(d, absent, until) == absent <==> d == MinDate
    ensures d != MinDate ==>
      StartsWith(ExpText(d, absent, until), until)
      && ParseDate(ExpText(d, absent, until)[|until|..], '.') == Some(d)
  {
    if d != MinDate {
      var t := until + FormatDate(d, '.');
      assert t[..|until|] == until;
      assert t[|until|..] == FormatDate(d, '.');
      ParseFormat(d, '.');
    }
  }

  /** The three texts for a license's dates. */
  function ExpTexts(info: LicenseInfoModel): (string, string, string)
    requires Valid(info.a0LicenseExpAt) && Valid(info.pirLicenseExpAt) && Valid(info.subscriptionLicenseExpAt)
  {
    (ExpText(info.a0LicenseExpAt, A0Absent, A0Until),
     ExpText(info.pirLicenseExpAt, PirAbsent, PirUntil),
     ExpText(info.subscriptionLicenseExpAt, SubscriptionAbsent, SubscriptionUntil))
  }

  /** `UpdateModels?.Clear()` */
  function ClearedModels(models: Option<seq<UpdateModel>>): Option<seq<UpdateModel>> {
    if models.Some? then Some([]) else None
  }

  /** The private `DownloadAndCopyLicense` after the download: a failed download is the
      result; otherwise both downloaded files are copied into place. */
  function CopyDownloaded(d: Y.LicenseDownload, dirs: set<string>, dests: seq<string>): (Outcome, map<string, FileEntry>) {
    match d.result
    case Failure(e) => (Fail(e), d.files)
    case Success(model) => CopyBoth(d.files, dirs, model, dests)
  }

  lemma NoSeparatorAppend(a: string, b: string)
    requires NoSeparator(a) && NoSeparator(b)
    ensures NoSeparator(a + b)
  {
    assert forall k :: |a| <= k < |a + b| ==> (a + b)[k] == b[k - |a|];
  }

  /** A license name without separators gives two plain file names, and different
      ones. */
  lemma PlainFileNames(licenseName: string)
    requires NoSeparator(licenseName)
    ensures NoSeparator(Y.LicenseFileName(licenseName)) && Y.LicenseFileName(licenseName) != []
    ensures NoSeparator(Y.DescriptionFileName(licenseName)) && Y.DescriptionFileName(licenseName) != []
    ensures Y.LicenseFileName(licenseName) != Y.DescriptionFileName(licenseName)
  {
    Y.FileNames(licenseName);
    var base := Y.BaseName(licenseName);
    assert NoSeparator(base) by {
      if EndsWith(licenseName, Y.LicenseExtension) {
        assert forall k :: 0 <= k < |base| ==> base[k] == licenseName[k];
      }
    }
    NoSeparatorAppend(base, Y.LicenseExtension);
    NoSeparatorAppend(base, Y.DescriptionExtension);
    var licenseFile := base + Y.LicenseExtension;
    var descriptionFile := base + Y.DescriptionExtension;
    assert licenseFile[|licenseFile| - 1] == 'L';
    assert descriptionFile[|descriptionFile| - 1] == 'd';
  }

  /** A license whose files were downloaded and copied sits, under its normalised file
      name, in every destination, holding the bytes its link streamed. */
  lemma LicenseInPlace(cache: Option<(Y.YandexEmbedded, int)>, files: map<string, FileEntry>, dirs: set<string>,
                       appPath: string, licenseName: string, net: Y.Remote, now: int, dests: seq<string>)
    requires NoSeparator(licenseName) && dests != []
    requires CopyDownloaded(Y.DownloadLicenseSpec(cache, files, dirs, appPath, licenseName, net, now), dirs, dests).0 == Pass
    ensures Y.ListingFor(cache, net, now).Some?
    ensures var listing := Y.ListingFor(cache, net, now).value.0;
      var item := Y.LicenseItem(licenseName, listing);
      var after := CopyDownloaded(Y.DownloadLicenseSpec(cache, files, dirs, appPath, licenseName, net, now), dirs, dests).1;
      item.Success? && item.value.file in net.bodies
      && forall dest <- dests ::
        Combine(dest, Y.LicenseFileName(licenseName)) in after
        && after[Combine(dest, Y.LicenseFileName(licenseName))].bytes == Flatten(ReadChunks(net.bodies[item.value.file]))
  {
    var d := Y.DownloadLicenseSpec(cache, files, dirs, appPath, licenseName, net, now);
    assert d.result.Success?;
    var listing := Y.ListingFor(cache, net, now).value.0;
    var fetched := Y.FetchLicense(files, dirs, appPath, licenseName, listing, net);
    assert d.result == fetched.result && d.files == fetched.files;
    Y.FetchLicenseSuccess(files, dirs, appPath, licenseName, listing, net);
    var model := fetched.result.value;
    var licenseFile := Y.LicenseFileName(licenseName);
    PlainFileNames(licenseName);
    FileNameOfCombine(appPath, licenseFile);
    FileNameOfCombine(appPath, Y.DescriptionFileName(licenseName));
    assert CopyBoth(fetched.files, dirs, model, dests).0 == Pass;
    CopyBothPlaces(fetched.files, dirs, model, dests);
    assert forall dest <- dests :: Target(dest, model.licensePath) == Combine(dest, licenseFile);
  }

  /** `FindAllLicenses` over the installation folder `path`, starting from the given list
      and message. */
  function Found(fileOperations: FileOperationsService, path: string, before: Option<seq<string>>,
                 message: Option<Message>): (Option<seq<string>>, Option<Message>)
    reads fileOperations.fs
  {
    if !fileOperations.IsFolderExist(path) then (before, Some(Error(L.NotInstalled(path))))
    else
      var found := fileOperations.FindAllLicFiles(path);
      if found == [] then (before, Some(Error(LicensesNotFound)))
      else (Some(Distinct(FileOperations.FileNames(found))), message)
  }

  /** The list shown holds each installed license file's name once. */
  lemma FoundSpec(fileOperations: FileOperationsService, path: string, before: Option<seq<string>>,
                  message: Option<Message>)
    ensures var (after, _) := Found(fileOperations, path, before, message);
      after != before ==>
        var names := FileOperations.FileNames(fileOperations.FindAllLicFiles(path));
        after == Some(Distinct(names)) && NoDuplicates(after.value) && forall n :: n in after.value <==> n in names
  {
    DistinctMembers(FileOperations.FileNames(fileOperations.FindAllLicFiles(path)));
  }

  class MainViewModel {
    const fileOperations: FileOperationsService
    const yandex: Y.YandexService
    /** The installation folder from the settings; an unset one is the empty path. */
    const a0InstallationPath: string
    var selectedLicense: Option<string>
    var downloadPath: Option<string>
    var a0LicenseExp: Option<string>
    var pirLicenseExp: Option<string>
    var subscriptionLicenseExp: Option<string>
    var licenses: Option<seq<string>>
    var updateModels: Option<seq<UpdateModel>>
    var lastMessage: Option<Message>

    /** Both services work on the one disk. */
    predicate OneDisk() {
      yandex.fs == fileOperations.fs
    }

    constructor(fileOperations: FileOperationsService, yandex: Y.YandexService, settings: SettingsModel)
      ensures this.fileOperations == fileOperations && this.yandex == yandex
      ensures a0InstallationPath == settings.a0InstallationPath.GetOr([])
      ensures downloadPath == settings.downloadUpdatesPath
      ensures selectedLicense.None? && updateModels.None?
      ensures a0LicenseExp.None? && pirLicenseExp.None? && subscriptionLicenseExp.None?
      ensures (licenses, lastMessage) == Found(fileOperations, a0InstallationPath, None, None)
    {
      this.fileOperations := fileOperations;
      this.yandex := yandex;
      var path := settings.a0InstallationPath.GetOr([]);
      a0InstallationPath := path;
      selectedLicense := None;
      a0LicenseExp := None;
      pirLicenseExp := None;
      subscriptionLicenseExp := None;
      updateModels := None;
      // what `FindAllLicenses` leaves, starting from no list and no message
      var found := Found(fileOperations, path, None, None);
      licenses := found.0;
      lastMessage := found.1;
      downloadPath := settings.downloadUpdatesPath;
    }

    /** `FindAllLicenses`: the names of the installed licenses, or an error when the
        folder is missing or holds none. */
    method FindAllLicenses()
      modifies this`licenses, this`lastMessage
      ensures (licenses, lastMessage) == Found(fileOperations, a0InstallationPath, old(licenses), old(lastMessage))
    {
      if fileOperations.IsFolderExist(a0InstallationPath) {
        var foundLicense := fileOperations.FindAllLicFiles(a0InstallationPath);
        if foundLicense == [] {
          lastMessage := Some(Error(LicensesNotFound));
        } else {
          licenses := Some(Distinct(FileOperations.FileNames(foundLicense)));
        }
      } else {
        lastMessage := Some(Error(L.NotInstalled(a0InstallationPath)));
      }
    }

    /** Where `DownloadModel.CopyToAllFolders` puts the files. */
    function CopyDestinations(): seq<string>
      reads fileOperations.fs
    {
      DownloadModels.Destinations(fileOperations.FindAllLicFiles(a0InstallationPath),
                                  fileOperations.fs.binDirectoriesUnder(a0InstallationPath))
    }

    /** The private `DownloadAndCopyLicense`: the license downloaded, then both of its
        files copied into place. */
    method DownloadAndCopyLicense(licenseName: string, net: Y.Remote, now: int) returns (r: Outcome)
      requires OneDisk()
      modifies fileOperations.fs, yandex`licenseCache, yandex`licenseProgress
      ensures var d := Y.DownloadLicenseSpec(old(yandex.licenseCache), old(fileOperations.fs.files),
                                             old(fileOperations.fs.dirs), yandex.appPath, licenseName, net, now);
        (r, fileOperations.fs.files) == CopyDownloaded(d, old(fileOperations.fs.dirs), old(CopyDestinations()))
        && yandex.licenseCache == d.cache && yandex.licenseProgress == old(yandex.licenseProgress) + d.reports
      ensures fileOperations.fs.dirs == old(fileOperations.fs.dirs)
    {
      var licenseResult := yandex.DownloadLicense(licenseName, net, now);
      if licenseResult.Failure? {
        return Fail(licenseResult.error);
      }
      var copyResult := DownloadModels.CopyToAllFolders(licenseResult.value, fileOperations, a0InstallationPath);
      if copyResult.Fail? {
        return Fail(copyResult.error);
      }
      r := Pass;
    }

    /** The steps of `GetLicenseInfo` after the license files are in place: the license
        information, the date texts, the catalog for that license. */
    method ShowLicenseInfo(licenseName: string, net: Y.Remote, now: int)
      modifies this`a0LicenseExp, this`pirLicenseExp, this`subscriptionLicenseExp, this`updateModels,
               this`lastMessage, yandex`updatesCache
      ensures var info := Y.GetLicensesInfo(licenseName, net);
        info.Failure? ==>
          lastMessage == Some(Error(info.error)) && updateModels == old(updateModels)
          && a0LicenseExp == old(a0LicenseExp) && pirLicenseExp == old(pirLicenseExp)
          && subscriptionLicenseExp == old(subscriptionLicenseExp) && yandex.updatesCache == old(yandex.updatesCache)
      ensures var info := Y.GetLicensesInfo(licenseName, net);
        info.Success? ==>
          Valid(info.value.a0LicenseExpAt) && Valid(info.value.pirLicenseExpAt)
          && Valid(info.value.subscriptionLicenseExpAt)
          && a0LicenseExp.Some? && pirLicenseExp.Some? && subscriptionLicenseExp.Some?
          && (a0LicenseExp.value, pirLicenseExp.value, subscriptionLicenseExp.value) == ExpTexts(info.value)
      ensures var info := Y.GetLicensesInfo(licenseName, net);
        var (updates, cache) := Y.GetUpdatesSpec(old(yandex.updatesCache), net, now);
        info.Success? ==>
          yandex.updatesCache == cache
          && (updates.Failure? ==> lastMessage == Some(Error(updates.error)) && updateModels == old(updateModels))
          && (updates.Success? ==>
                var filtered := ApplyFilterSpec(updates.value, info.value);
                (filtered.Failure? ==> lastMessage == Some(Error(filtered.error)) && updateModels == old(updateModels))
                && (filtered.Success? ==>
                      lastMessage == Some(Info(LicenseInfoReceived)) && updateModels == Some(filtered.value)))
    {
      var licenseResult := Y.GetLicensesInfo(licenseName, net);
      if licenseResult.Failure? {
        lastMessage := Some(Error(licenseResult.error));
        return;
      }
      var info := licenseResult.value;
      Y.GetLicensesInfoSuccess(licenseName, net);
      a0LicenseExp := Some(ExpText(info.a0LicenseExpAt, A0Absent, A0Until));
      pirLicenseExp := Some(ExpText(info.pirLicenseExpAt, PirAbsent, PirUntil));
      subscriptionLicenseExp := Some(ExpText(info.subscriptionLicenseExpAt, SubscriptionAbsent, SubscriptionUntil));
      var updatesResult := yandex.GetUpdates(net, now);
      if updatesResult.Failure? {
        lastMessage := Some(Error(updatesResult.error));
        return;
      }
      var filteredCollectionResult := ApplyFilter(updatesResult.value, info);
      if filteredCollectionResult.Failure? {
        lastMessage := Some(Error(filteredCollectionResult.error));
        return;
      }
      updateModels := Some(filteredCollectionResult.value);
      lastMessage := Some(Info(LicenseInfoReceived));
    }

    /** `GetLicenseInfo`: the update list is emptied, a license must be chosen, its files
        are downloaded and copied into place, and only then is its information shown;
        the first step that fails is the message. */
    method GetLicenseInfo(net: Y.Remote, now: int)
      requires OneDisk()
      modifies fileOperations.fs, yandex`licenseCache, yandex`licenseProgress, yandex`updatesCache,
               this`a0LicenseExp, this`pirLicenseExp, this`subscriptionLicenseExp, this`updateModels, this`lastMessage
      ensures fileOperations.fs.dirs == old(fileOperations.fs.dirs)
      ensures IsNullOrEmpty(selectedLicense) ==>
        lastMessage == Some(Error(SelectLicense)) && updateModels == ClearedModels(old(updateModels))
        && fileOperations.fs.files == old(fileOperations.fs.files)
        && yandex.licenseCache == old(yandex.licenseCache) && yandex.updatesCache == old(yandex.updatesCache)
        && a0LicenseExp == old(a0LicenseExp) && pirLicenseExp == old(pirLicenseExp)
        && subscriptionLicenseExp == old(subscriptionLicenseExp)
      ensures !IsNullOrEmpty(selectedLicense) ==>
        var d := Y.DownloadLicenseSpec(old(yandex.licenseCache), old(fileOperations.fs.files),
                                       old(fileOperations.fs.dirs), yandex.appPath, selectedLicense.value, net, now);
        var (copied, files) := CopyDownloaded(d, old(fileOperations.fs.dirs), old(CopyDestinations()));
        fileOperations.fs.files == files && yandex.licenseCache == d.cache
        && yandex.licenseProgress == old(yandex.licenseProgress) + d.reports
        && (copied.Fail? ==>
              lastMessage == Some(Error(copied.error)) && updateModels == ClearedModels(old(updateModels))
              && a0LicenseExp == old(a0LicenseExp) && pirLicenseExp == old(pirLicenseExp)
              && subscriptionLicenseExp == old(subscriptionLicenseExp)
              && yandex.updatesCache == old(yandex.updatesCache))
      ensures !IsNullOrEmpty(selectedLicense) ==>
        var d := Y.DownloadLicenseSpec(old(yandex.licenseCache), old(fileOperations.fs.files),
                                       old(fileOperations.fs.dirs), yandex.appPath, selectedLicense.value, net, now);
        var info := Y.GetLicensesInfo(selectedLicense.value, net);
        CopyDownloaded(d, old(fileOperations.fs.dirs), old(CopyDestinations())).0 == Pass ==>
          (info.Failure? ==>
             lastMessage == Some(Error(info.error)) && updateModels == ClearedModels(old(updateModels))
             && a0LicenseExp == old(a0LicenseExp) && pirLicenseExp == old(pirLicenseExp)
             && subscriptionLicenseExp == old(subscriptionLicenseExp)
             && yandex.updatesCache == old(yandex.updatesCache))
          && (info.Success? ==>
                Valid(info.value.a0LicenseExpAt) && Valid(info.value.pirLicenseExpAt)
                && Valid(info.value.subscriptionLicenseExpAt)
                && a0LicenseExp.Some? && pirLicenseExp.Some? && subscriptionLicenseExp.Some?
                && (a0LicenseExp.value, pirLicenseExp.value, subscriptionLicenseExp.value) == ExpTexts(info.value))
      ensures !IsNullOrEmpty(selectedLicense) ==>
        var d := Y.DownloadLicenseSpec(old(yandex.licenseCache), old(fileOperations.fs.files),
                                       old(fileOperations.fs.dirs), yandex.appPath, selectedLicense.value, net, now);
        var info := Y.GetLicensesInfo(selectedLicense.value, net);
        var (updates, cache) := Y.GetUpdatesSpec(old(yandex.updatesCache), net, now);
        CopyDownloaded(d, old(fileOperations.fs.dirs), old(CopyDestinations())).0 == Pass && info.Success? ==>
          yandex.updatesCache == cache
          && (updates.Failure? ==>
                lastMessage == Some(Error(updates.error)) && updateModels == ClearedModels(old(updateModels)))
          && (updates.Success? ==>
                var filtered := ApplyFilterSpec(updates.value, info.value);
                (filtered.Failure? ==>
                   lastMessage == Some(Error(filtered.error)) && updateModels == ClearedModels(old(updateModels)))
                && (filtered.Success? ==>
                      lastMessage == Some(Info(LicenseInfoReceived)) && updateModels == Some(filtered.value)))
    {
      updateModels := ClearedModels(updateModels);
      if IsNullOrEmpty(selectedLicense) {
        lastMessage := Some(Error(SelectLicense));
        return;
      }
      var downloadLicenseResult := DownloadAndCopyLicense(selectedLicense.value, net, now);
      if downloadLicenseResult.Fail? {
        lastMessage := Some(Error(downloadLicenseResult.error));
        return;
      }
      ShowLicenseInfo(selectedLicense.value, net, now);
    }

    /** `DownloadSelected`: the checked updates of the list, downloaded into the download
        path. Without a list `UpdateModels.Where` throws and nothing happens. */
    method DownloadSelected(net: Y.Remote)
      requires OneDisk()
      modifies fileOperations.fs, yandex`updatesProgress, this`lastMessage
      ensures fileOperations.fs.dirs == old(fileOperations.fs.dirs)
      ensures updateModels.None? ==>
        lastMessage == old(lastMessage) && fileOperations.fs.files == old(fileOperations.fs.files)
        && yandex.updatesProgress == old(yandex.updatesProgress)
      ensures updateModels.Some? && Filter(updateModels.value, IsSelected) == [] ==>
        lastMessage == Some(Error(SelectUpdates)) && fileOperations.fs.files == old(fileOperations.fs.files)
        && yandex.updatesProgress == old(yandex.updatesProgress)
      ensures updateModels.Some? && Filter(updateModels.value, IsSelected) != [] ==>
        var d := Y.DownloadAll(old(fileOperations.fs.files), old(fileOperations.fs.dirs),
                               yandex.settings.yandexUrl.GetOr([]), downloadPath,
                               Y.AllUrls(Filter(updateModels.value, IsSelected)), net);
        fileOperations.fs.files == d.files && yandex.updatesProgress == old(yandex.updatesProgress) + d.reports
        && lastMessage == Some(if d.outcome.Fail? then Error(d.outcome.error) else Info(UpdatesDownloaded))
    {
      if updateModels.None? {
        return;
      }
      var selectedUpdates := Filter(updateModels.value, IsSelected);
      if selectedUpdates == [] {
        lastMessage := Some(Error(SelectUpdates));
        return;
      }
      var downloadResult := yandex.DownloadUpdates(selectedUpdates, downloadPath, net);
      if downloadResult.Fail? {
        lastMessage := Some(Error(downloadResult.error));
        return;
      }
      lastMessage := Some(Info(UpdatesDownloaded));
    }
  }

  /** `item => item.IsSelected` */
  function IsSelected(u: UpdateModel): bool {
    u.isSelected
  }

  /** The updates handed to the download are exactly the checked ones of the list, and
      there are none only when nothing is checked. */
  lemma SelectedSpec(models: seq<UpdateModel>)
    ensures forall u :: u in Filter(models, IsSelected) <==> u in models && u.isSelected
    ensures Filter(models, IsSelected) == [] <==> forall u <- models :: !u.isSelected
  {
    forall u ensures u in Filter(models, IsSelected) <==> u in models && u.isSelected {
      FilterMembers(models, IsSelected, u);
    }
    if Filter(models, IsSelected) != [] {
      assert Filter(models, IsSelected)[0] in Filter(models, IsSelected);
    }
  }
}
