/** `YandexService`: the update catalog, the license listing, license and description
    downloads and the subscription feed, all fetched from a public Yandex Disk folder.

    The network is a `Remote` value that says what each request answers; a request that
    throws (no connection, a bad status, a body that does not deserialize) is a missing
    answer. `IMemoryCache` is two fields holding a value and its absolute expiry, and the
    clock is the `now` parameter, in seconds. */
module YandexServices {
  import opened Wrappers
  import opened Text
  import opened Dates
  import opened Models
  import opened ParseHelpers
  import opened UpdateModels
  import opened FileSystems
  import opened Streams
  import JsonDateTimeConverter

  /** `TimeSpan.FromHours(1)`, in seconds. */
  const CacheLifetime := 3600
  const LicenseExtension := ".ISL"
  const DescriptionExtension := ".ild"
  /** The subscription runs for 365 days from the date in the feed. */
  const SubscriptionDays := 365

  const UpdatesFetchError := "Ошибка при получении обновленй"
  const UpdatesDownloadError := "Ошибка при скачивании обновлений"
  const ListingError := "Ошибка при получении списка лицензий"
  const LicenseError := "Ошибка при получении лицензии"
  const SubscriptionError := "Ошибка при получении файла подписки"
  const LicenseFormatError := "Лицензия должна быть в формате .ISL"
  const LicenseDownloadError := "Ошибка при скачивании лицензии"
  const DescriptionFormatError := "Фаил должен быть в формате .ild"
  const DescriptionSaveError := "Ошибка при сохранеии фаила с описанием лицензий"
  const DescriptionReadError := "Ошибка при скачивании фаила с описанием лицензий"

  function LicenseNotFound(name: string): string {
    "Лицензия " + name + " не найдена"
  }

  function DescriptionNotFound(name: string): string {
    "Фаил с описанием лицензий " + name + " не найден"
  }

  /** `YandexItem`: a file of the public folder and its download link. */
  datatype YandexItem = YandexItem(name: string, file: string, size: int, revision: int)

  /** `YandexEmbedded`: the listing of the license folder. */
  datatype YandexEmbedded = YandexEmbedded(items: seq<YandexItem>, limit: int, offset: int, total: int)

  /** One entry of the subscription feed before its `dd-MM-yyyy` date is read. */
  datatype SubscriptionRecord = SubscriptionRecord(number: string, date: string)

  /** What the remote side answers.
      - `updatesCatalog`: the catalog behind `YandexUrl + UpdatesUrl`;
      - `licenseListing`: the `_embedded` listing behind `YandexUrl + LicenseUrl&limit=1000`;
      - `subscriptionFeed`: the feed behind `YandexUrl + SubscriptionUrl`;
      - `itemInfo`: the item metadata behind a request URL;
      - `bodies`: the chunks a download link streams;
      - `texts`: a download link's body decoded as windows-1251 text. */
  datatype Remote = Remote(
    updatesCatalog: Option<seq<YandexUpdateModel>>,
    licenseListing: Option<YandexEmbedded>,
    subscriptionFeed: Option<seq<SubscriptionRecord>>,
    itemInfo: map<string, YandexItem>,
    bodies: map<string, seq<seq<bv8>>>,
    texts: map<string, string>)

  function Lookup<K, V>(m: map<K, V>, k: K): (r: Option<V>)
    ensures r.Some? <==> k in m
    ensures r.Some? ==> r.value == m[k]
  {
    if k in m then Some(m[k]) else None
  }

  // ---- The cache

  /** `TryGetValue` on an entry with absolute expiry: present until the expiry instant. */
  function Cached<T>(entry: Option<(T, int)>, now: int): (r: Option<T>)
    ensures r.Some? <==> entry.Some? && now < entry.value.1
    ensures r.Some? ==> r.value == entry.value.0
  {
    if entry.Some? && now < entry.value.1 then Some(entry.value.0) else None
  }

  // ---- File names

  /** The license name without a trailing `.ISL`. */
  function BaseName(licenseName: string): string {
    if EndsWith(licenseName, LicenseExtension) then licenseName[..|licenseName| - 4] else licenseName
  }

  /** The license file's name: `.ISL` appended unless already there. */
  function LicenseFileName(licenseName: string): string {
    if EndsWith(licenseName, LicenseExtension) then licenseName else licenseName + LicenseExtension
  }

  /** The description file's name: a trailing `.ISL` replaced by `.ild`, or `.ild`
      appended. */
  function DescriptionFileName(licenseName: string): string {
    if EndsWith(licenseName, LicenseExtension)
    then licenseName[..|licenseName| - 4] + DescriptionExtension
    else licenseName + DescriptionExtension
  }

  /** `name.Split('.').Length > 2`: more than one dot. */
  predicate TooManyDots(name: string) {
    CountChar(name, '.') + 1 > 2
  }

  /** Both names share the base name, so `123` and `123.ISL` name the same files, and
      either name is accepted exactly when the base name has no dot. */
  lemma {:induction false} FileNames(licenseName: string)
    ensures LicenseFileName(licenseName) == BaseName(licenseName) + LicenseExtension
    ensures DescriptionFileName(licenseName) == BaseName(licenseName) + DescriptionExtension
    ensures BaseName(LicenseFileName(licenseName)) == BaseName(licenseName)
    ensures LicenseFileName(LicenseFileName(licenseName)) == LicenseFileName(licenseName)
    ensures DescriptionFileName(LicenseFileName(licenseName)) == DescriptionFileName(licenseName)
    ensures !TooManyDots(LicenseFileName(licenseName)) <==> CountChar(BaseName(licenseName), '.') == 0
    ensures !TooManyDots(DescriptionFileName(licenseName)) <==> CountChar(BaseName(licenseName), '.') == 0
  {
    var b := BaseName(licenseName);
    if EndsWith(licenseName, LicenseExtension) {
      assert licenseName == b + LicenseExtension;
    }
    var l := b + LicenseExtension;
    assert EndsWith(l, LicenseExtension);
    assert l[..|l| - 4] == b;
    CountCharAppend(b, LicenseExtension, '.');
    CountCharAppend(b, DescriptionExtension, '.');
    assert CountChar(LicenseExtension, '.') == 1;
    assert CountChar(DescriptionExtension, '.') == 1;
  }

  /** `Items.FirstOrDefault(x => x.Name == name)` */
  function FindItem(items: seq<YandexItem>, name: string): (r: Option<YandexItem>)
    ensures r.None? <==> forall k :: 0 <= k < |items| ==> items[k].name != name
    ensures r.Some? ==> r.value.name == name && r.value in items
  {
    if items == [] then None
    else if items[0].name == name then Some(items[0])
    else
      var r := FindItem(items[1..], name);
      assert forall k :: 1 <= k < |items| ==> items[k] == items[1..][k - 1];
      r
  }

  /** The item found is the first one with the name. */
  lemma {:induction false} FindItemFirst(items: seq<YandexItem>, name: string, i: nat)
    requires i < |items| && items[i].name == name
    requires forall k :: 0 <= k < i ==> items[k].name != name
    ensures FindItem(items, name) == Some(items[i])
  {
    if i > 0 {
      FindItemFirst(items[1..], name, i - 1);
    }
  }

  /** The listing entry of the license file, or why there is none. */
  function LicenseItem(licenseName: string, listing: YandexEmbedded): Result<YandexItem> {
    var name := LicenseFileName(licenseName);
    if TooManyDots(name) then Failure(LicenseFormatError)
    else match FindItem(listing.items, name)
      case None => Failure(LicenseNotFound(name))
      case Some(item) => Success(item)
  }

  /** The listing entry of the description file, or why there is none. */
  function DescriptionItem(licenseName: string, listing: YandexEmbedded): Result<YandexItem> {
    var name := DescriptionFileName(licenseName);
    if TooManyDots(name) then Failure(DescriptionFormatError)
    else match FindItem(listing.items, name)
      case None => Failure(DescriptionNotFound(name))
      case Some(item) => Success(item)
  }

  /** The entry found carries the normalised name, and it is found exactly when the
      base name has no dot and the listing has a file of that name. */
  lemma ItemLookup(licenseName: string, listing: YandexEmbedded)
    ensures LicenseItem(licenseName, listing).Success? ==>
      LicenseItem(licenseName, listing).value.name == LicenseFileName(licenseName)
      && LicenseItem(licenseName, listing).value in listing.items
    ensures DescriptionItem(licenseName, listing).Success? ==>
      DescriptionItem(licenseName, listing).value.name == DescriptionFileName(licenseName)
      && DescriptionItem(licenseName, listing).value in listing.items
    ensures LicenseItem(licenseName, listing).Success? <==>
      CountChar(BaseName(licenseName), '.') == 0
      && exists it <- listing.items :: it.name == LicenseFileName(licenseName)
    ensures DescriptionItem(licenseName, listing).Success? <==>
      CountChar(BaseName(licenseName), '.') == 0
      && exists it <- listing.items :: it.name == DescriptionFileName(licenseName)
  {
    FileNames(licenseName);
  }

  // ---- Saving a download

  /** A response body saved to `path`: whether it worked, the files afterwards and the
      values reported. A missing body or a file that cannot be opened changes nothing. */
  function SaveBody(files: map<string, FileEntry>, dirs: set<string>, path: string,
                    body: Option<seq<seq<bv8>>>, size: int)
    : (bool, map<string, FileEntry>, seq<int>)
  {
    match body
    case None => (false, files, [])
    case Some(chunks) =>
      match CreateFile(files, dirs, path, Flatten(ReadChunks(chunks)))
      case None => (false, files, [])
      case Some(saved) => (true, saved, Progress(ReadChunks(chunks), size))
  }

  /** A saved body is at `path` in full and nothing else changes; an unsaved one changes
      nothing and reports nothing. */
  lemma SaveBodySpec(files: map<string, FileEntry>, dirs: set<string>, path: string,
                     body: Option<seq<seq<bv8>>>, size: int)
    ensures var (ok, after, reports) := SaveBody(files, dirs, path, body, size);
      ok <==> body.Some? && CanCreate(files, dirs, path)
    ensures var (ok, after, reports) := SaveBody(files, dirs, path, body, size);
      ok ==>
        path in after && after[path].bytes == Flatten(ReadChunks(body.value))
        && reports == Progress(ReadChunks(body.value), size)
        && forall p :: p != path ==> (p in after <==> p in files) && (p in files ==> after[p] == files[p])
    ensures var (ok, after, reports) := SaveBody(files, dirs, path, body, size);
      !ok ==> after == files && reports == []
  {
  }

  /** Opens `path` for writing and copies the body into it. */
  method SaveStream(fs: FileSystem, path: string, body: Option<seq<seq<bv8>>>, size: int)
    returns (ok: bool, reports: seq<int>)
    modifies fs
    ensures (ok, fs.files, reports) == SaveBody(old(fs.files), old(fs.dirs), path, body, size)
    ensures fs.dirs == old(fs.dirs)
  {
    if body.None? {
      return false, [];
    }
    var written;
    written, reports := CopyStream(body.value, size);
    ok := fs.Create(path, written);
    if !ok {
      reports := [];
    }
  }

  /** The outcome of downloading one listed file: its path or an error, the files
      afterwards and the values reported. */
  datatype Download = Download(result: Result<string>, files: map<string, FileEntry>, reports: seq<int>)

  /** `DownloadLicenseFile` and `DownloadLicenseDescriptionFile` once the entry is looked
      up: the file is saved under its listed name in the application directory. */
  function DownloadItem(files: map<string, FileEntry>, dirs: set<string>, appPath: string,
                        item: Result<YandexItem>, net: Remote, error: string): Download
  {
    match item
    case Failure(e) => Download(Failure(e), files, [])
    case Success(it) =>
      var path := Combine(appPath, it.name);
      var (ok, after, reports) := SaveBody(files, dirs, path, Lookup(net.bodies, it.file), it.size);
      if ok then Download(Success(path), after, reports) else Download(Failure(error), files, [])
  }

  method DownloadFile(fs: FileSystem, appPath: string, item: Result<YandexItem>, net: Remote, error: string)
    returns (r: Result<string>, reports: seq<int>)
    modifies fs
    ensures Download(r, fs.files, reports) == DownloadItem(old(fs.files), old(fs.dirs), appPath, item, net, error)
    ensures fs.dirs == old(fs.dirs)
  {
    if item.Failure? {
      return Failure(item.error), [];
    }
    var path := Combine(appPath, item.value.name);
    var ok;
    ok, reports := SaveStream(fs, path, Lookup(net.bodies, item.value.file), item.value.size);
    if !ok {
      return Failure(error), reports;
    }
    r := Success(path);
  }

  /** Two different plain names in one directory are two different paths. */
  lemma CombineInjective(dir: string, a: string, b: string)
    requires a != [] && b != [] && a != b
    ensures Combine(dir, a) != Combine(dir, b)
  {
    if dir != [] {
      var k := if IsSeparator(dir[|dir| - 1]) then |dir| else |dir| + 1;
      assert Combine(dir, a)[k..] == a;
      assert Combine(dir, b)[k..] == b;
    }
  }

  // ---- The license download

  /** The two files of a license once the listing is known: the result, the files
      afterwards and the values reported. */
  datatype LicenseFiles = LicenseFiles(result: Result<DownloadModel>, files: map<string, FileEntry>, reports: seq<int>)

  /** The license file, then the description file. A failed description download is not
      returned where it happens: the following read of its path throws, and the handler
      answers with the generic `LicenseError`. */
  function FetchLicense(files: map<string, FileEntry>, dirs: set<string>, appPath: string, licenseName: string,
                        listing: YandexEmbedded, net: Remote): LicenseFiles
  {
    var license := DownloadItem(files, dirs, appPath, LicenseItem(licenseName, listing), net, LicenseDownloadError);
    if license.result.Failure? then LicenseFiles(Failure(license.result.error), license.files, license.reports)
    else
      var description := DownloadItem(license.files, dirs, appPath, DescriptionItem(licenseName, listing), net,
                                      DescriptionSaveError);
      var result := if description.result.Failure? then Failure(LicenseError)
                    else Success(DownloadModel(license.result.value, description.result.value));
      LicenseFiles(result, description.files, license.reports + description.reports)
  }

  /** The listing a license download works from and the cache afterwards: a live entry
      as it is, or else a fetched listing, cached for an hour; `None` when the fetch
      fails. */
  function ListingFor(cache: Option<(YandexEmbedded, int)>, net: Remote, now: int)
    : Option<(YandexEmbedded, Option<(YandexEmbedded, int)>)>
  {
    match Cached(cache, now)
    case Some(listing) => Some((listing, cache))
    case None =>
      match net.licenseListing
      case None => None
      case Some(listing) => Some((listing, Some((listing, now + CacheLifetime))))
  }

  /** A live cache entry is used without a request; otherwise a fetched listing is cached
      for an hour, and a failed fetch leaves the cache as it was. */
  lemma ListingForSpec(cache: Option<(YandexEmbedded, int)>, net: Remote, now: int, net': Remote)
    ensures Cached(cache, now).Some? ==>
      ListingFor(cache, net, now) == ListingFor(cache, net', now) == Some((Cached(cache, now).value, cache))
    ensures Cached(cache, now).None? ==> (ListingFor(cache, net, now).None? <==> net.licenseListing.None?)
    ensures Cached(cache, now).None? && net.licenseListing.Some? ==>
      ListingFor(cache, net, now) == Some((net.licenseListing.value, Some((net.licenseListing.value, now + CacheLifetime))))
    ensures ListingFor(cache, net, now).Some? ==> var cache' := ListingFor(cache, net, now).value.1;
      Cached(cache', now) == Some(ListingFor(cache, net, now).value.0)
  {
  }

  /** What `DownloadLicense` produces: the result, the files, the values reported and the
      listing cache afterwards. */
  datatype LicenseDownload = LicenseDownload(
    result: Result<DownloadModel>,
    files: map<string, FileEntry>,
    reports: seq<int>,
    cache: Option<(YandexEmbedded, int)>)

  /** `DownloadLicense`: the listing, then the two files; a failed listing fetch changes
      nothing. */
  function DownloadLicenseSpec(cache: Option<(YandexEmbedded, int)>, files: map<string, FileEntry>,
                               dirs: set<string>, appPath: string, licenseName: string, net: Remote,
                               now: int): LicenseDownload
  {
    match ListingFor(cache, net, now)
    case None => LicenseDownload(Failure(ListingError), files, [], cache)
    case Some((listing, cache')) =>
      var fetched := FetchLicense(files, dirs, appPath, licenseName, listing, net);
      LicenseDownload(fetched.result, fetched.files, fetched.reports, cache')
  }

  /** A failed license file is the result, and no description is fetched. */
  lemma FetchLicenseFileFailure(files: map<string, FileEntry>, dirs: set<string>, appPath: string,
                                licenseName: string, listing: YandexEmbedded, net: Remote)
    ensures var license := DownloadItem(files, dirs, appPath, LicenseItem(licenseName, listing), net, LicenseDownloadError);
      license.result.Failure? ==>
        FetchLicense(files, dirs, appPath, licenseName, listing, net)
          == LicenseFiles(Failure(license.result.error), files, [])
  {
  }

  /** A failed description leaves the license file in place but gives the generic error
      instead of its own. */
  lemma FetchDescriptionFailure(files: map<string, FileEntry>, dirs: set<string>, appPath: string,
                                licenseName: string, listing: YandexEmbedded, net: Remote)
    ensures var license := DownloadItem(files, dirs, appPath, LicenseItem(licenseName, listing), net, LicenseDownloadError);
      var description := DownloadItem(license.files, dirs, appPath, DescriptionItem(licenseName, listing), net,
                                      DescriptionSaveError);
      license.result.Success? && description.result.Failure? ==>
        FetchLicense(files, dirs, appPath, licenseName, listing, net)
          == LicenseFiles(Failure(LicenseError), license.files, license.reports)
        && description.result.error != LicenseError
  {
    var license := DownloadItem(files, dirs, appPath, LicenseItem(licenseName, listing), net, LicenseDownloadError);
    if license.result.Success? {
      var description := DownloadItem(license.files, dirs, appPath, DescriptionItem(licenseName, listing), net,
                                      DescriptionSaveError);
      if description.result.Failure? {
        assert description.files == license.files && description.reports == [];
        assert license.reports + [] == license.reports;
        DescriptionErrorsDiffer(licenseName, listing, description.result.error);
      }
    }
  }

  /** No description failure reads like the generic license error. */
  lemma DescriptionErrorsDiffer(licenseName: string, listing: YandexEmbedded, error: string)
    requires error == DescriptionSaveError
      || (DescriptionItem(licenseName, listing).Failure? && error == DescriptionItem(licenseName, listing).error)
    ensures error != LicenseError
  {
    if error != DescriptionSaveError && error != DescriptionFormatError {
      var name := DescriptionFileName(licenseName);
      assert error == DescriptionNotFound(name);
      assert error[0] == 'Ф' && LicenseError[0] == 'О';
    } else if error == DescriptionSaveError {
      assert error[11] == 'с' && LicenseError[11] == 'п';
    } else {
      assert error[0] == 'Ф' && LicenseError[0] == 'О';
    }
  }

  /** On success the two files sit in the application directory under their normalised
      names, each holding the bytes its link streamed. */
  lemma FetchLicenseSuccess(files: map<string, FileEntry>, dirs: set<string>, appPath: string,
                            licenseName: string, listing: YandexEmbedded, net: Remote)
    requires FetchLicense(files, dirs, appPath, licenseName, listing, net).result.Success?
    ensures LicenseItem(licenseName, listing).Success? && DescriptionItem(licenseName, listing).Success?
    ensures var m := FetchLicense(files, dirs, appPath, licenseName, listing, net).result.value;
      m.licensePath == Combine(appPath, LicenseFileName(licenseName))
      && m.descriptionPath == Combine(appPath, DescriptionFileName(licenseName))
    ensures var f := FetchLicense(files, dirs, appPath, licenseName, listing, net);
      var li := LicenseItem(licenseName, listing).value;
      var di := DescriptionItem(licenseName, listing).value;
      li.file in net.bodies && di.file in net.bodies
      && f.result.value.licensePath in f.files && f.result.value.descriptionPath in f.files
      && f.files[f.result.value.licensePath].bytes == Flatten(ReadChunks(net.bodies[li.file]))
      && f.files[f.result.value.descriptionPath].bytes == Flatten(ReadChunks(net.bodies[di.file]))
  {
    ItemLookup(licenseName, listing);
    FileNames(licenseName);
    var license := DownloadItem(files, dirs, appPath, LicenseItem(licenseName, listing), net, LicenseDownloadError);
    assert license.result.Success?;
    var description := DownloadItem(license.files, dirs, appPath, DescriptionItem(licenseName, listing), net,
                                    DescriptionSaveError);
    assert description.result.Success?;
    var li := LicenseItem(licenseName, listing).value;
    var di := DescriptionItem(licenseName, listing).value;
    DownloadItemSuccess(files, dirs, appPath, li, net, LicenseDownloadError);
    DownloadItemSuccess(license.files, dirs, appPath, di, net, DescriptionSaveError);
    assert li.name != di.name by {
      assert li.name[|li.name| - 1] == 'L' && di.name[|di.name| - 1] == 'd';
    }
    CombineInjective(appPath, li.name, di.name);
  }

  /** A listed file downloaded: its path, its bytes, and nothing else changed. */
  lemma DownloadItemSuccess(files: map<string, FileEntry>, dirs: set<string>, appPath: string,
                            item: YandexItem, net: Remote, error: string)
    requires DownloadItem(files, dirs, appPath, Success(item), net, error).result.Success?
    ensures var d := DownloadItem(files, dirs, appPath, Success(item), net, error);
      var path := Combine(appPath, item.name);
      d.result.value == path && item.file in net.bodies && path in d.files
      && d.files[path].bytes == Flatten(ReadChunks(net.bodies[item.file]))
      && forall p :: p != path ==> (p in d.files <==> p in files) && (p in files ==> d.files[p] == files[p])
  {
    SaveBodySpec(files, dirs, Combine(appPath, item.name), Lookup(net.bodies, item.file), item.size);
  }

  // ---- The license information

  /** `ParseLicenseDescriptionFile`: the description text and the A0 and ПИР expiry dates
      read from it; the subscription date is left at `MinDate`. */
  function ParseDescription(licenseName: string, listing: YandexEmbedded, net: Remote): Result<LicenseInfoModel> {
    match DescriptionItem(licenseName, listing)
    case Failure(e) => Failure(e)
    case Success(item) =>
      match Lookup(net.texts, item.file)
      case None => Failure(DescriptionReadError)
      case Some(content) =>
        match FindA0LicenseExp(content)
        case Failure(e) => Failure(e)
        case Success(a0) =>
          match FindPIRLicenseExp(content)
          case Failure(e) => Failure(e)
          case Success(pir) => Success(LicenseInfoModel(content, a0, pir, MinDate))
  }

  /** The subscription number of a license: no `.ISL`, no leading zeros. */
  function SubscriptionKey(licenseName: string): (key: string)
    ensures EndsWith(BaseName(licenseName), key)
    ensures key == [] || key[0] != '0'
    ensures forall k :: 0 <= k < |BaseName(licenseName)| - |key| ==> BaseName(licenseName)[k] == '0'
  {
    TrimStart(BaseName(licenseName), '0')
  }

  /** The feed with its dates read by `JsonDateTimeConverter`; `None` when one of them
      cannot be read and deserialization throws. */
  function DecodeFeed(records: seq<SubscriptionRecord>): (r: Option<seq<SubscriptionModel>>)
    ensures r.Some? ==> |r.value| == |records|
    ensures r.Some? ==> ValidDates(r.value)
    ensures r.Some? ==>
      forall k :: 0 <= k < |records| ==>
        r.value[k].number == records[k].number
        && JsonDateTimeConverter.Read(records[k].date) == Success(JsonDateTimeConverter.DateTime(r.value[k].date, 0))
    ensures r.None? <==> exists k :: 0 <= k < |records| && JsonDateTimeConverter.Read(records[k].date).Failure?
  {
    if records == [] then Some([])
    else match JsonDateTimeConverter.Read(records[0].date)
      case Failure(_) => None
      case Success(d) =>
        var rest := DecodeFeed(records[1..]);
        assert forall k :: 1 <= k < |records| ==> records[k] == records[1..][k - 1];
        if rest.None? then None else Some([SubscriptionModel(records[0].number, d.date)] + rest.value)
  }

  /** Every date of the feed is a real date. */
  predicate ValidDates(subscriptions: seq<SubscriptionModel>) {
    forall k :: 0 <= k < |subscriptions| ==> Valid(subscriptions[k].date)
  }

  /** `FirstOrDefault(x => x.Number == key)` */
  function FindSubscription(subscriptions: seq<SubscriptionModel>, key: string): (r: Option<nat>)
    ensures r.Some? ==> r.value < |subscriptions| && subscriptions[r.value].number == key
    ensures r.Some? ==> forall k :: 0 <= k < r.value ==> subscriptions[k].number != key
    ensures r.None? ==> forall k :: 0 <= k < |subscriptions| ==> subscriptions[k].number != key
  {
    if subscriptions == [] then None
    else if subscriptions[0].number == key then Some(0)
    else match FindSubscription(subscriptions[1..], key)
      case None => None
      case Some(k) => Some(k + 1)
  }

  /** `GetSubscription`: 365 days after the date of the license's entry in the feed;
      `default`, a success holding `MinDate`, when it has none. */
  function Subscription(licenseName: string, net: Remote): Result<Date> {
    match net.subscriptionFeed
    case None => Failure(SubscriptionError)
    case Some(records) =>
      match DecodeFeed(records)
      case None => Failure(SubscriptionError)
      case Some(subscriptions) => SubscribedUntil(subscriptions, SubscriptionKey(licenseName))
  }

  /** The end of the subscription numbered `key` in the decoded feed. */
  function SubscribedUntil(subscriptions: seq<SubscriptionModel>, key: string): Result<Date>
    requires ValidDates(subscriptions)
  {
    match FindSubscription(subscriptions, key)
    case None => Success(MinDate)
    case Some(k) =>
      match AddDays(subscriptions[k].date, SubscriptionDays)
      case None => Failure(SubscriptionError)
      case Some(d) => Success(d)
  }

  /** A key with an entry in the feed is subscribed until exactly 365 days after the
      first such entry's date; one without is reported with `MinDate`. */
  lemma SubscribedUntilSpec(subscriptions: seq<SubscriptionModel>, key: string)
    requires ValidDates(subscriptions)
    ensures (forall k :: 0 <= k < |subscriptions| ==> subscriptions[k].number != key) ==>
      SubscribedUntil(subscriptions, key) == Success(MinDate)
    ensures forall i ::
      (0 <= i < |subscriptions| && subscriptions[i].number == key
       && (forall k :: 0 <= k < i ==> subscriptions[k].number != key)
       && SubscribedUntil(subscriptions, key).Success?) ==>
      DayNumber(SubscribedUntil(subscriptions, key).value) == DayNumber(subscriptions[i].date) + SubscriptionDays
  {
    match FindSubscription(subscriptions, key)
    case None =>
    case Some(k) =>
      forall i | 0 <= i < |subscriptions| && subscriptions[i].number == key
        && (forall k :: 0 <= k < i ==> subscriptions[k].number != key)
        && SubscribedUntil(subscriptions, key).Success?
        ensures DayNumber(SubscribedUntil(subscriptions, key).value) == DayNumber(subscriptions[i].date) + SubscriptionDays
      {
        assert i == k;
        AddDaysNumber(subscriptions[k].date, SubscriptionDays);
      }
  }

  /** A missing or undecodable feed is the subscription error; a decoded one is looked up
      under the license's subscription key. */
  lemma SubscriptionSpec(licenseName: string, net: Remote)
    ensures net.subscriptionFeed.None? ==> Subscription(licenseName, net) == Failure(SubscriptionError)
    ensures net.subscriptionFeed.Some? && DecodeFeed(net.subscriptionFeed.value).None? ==>
      Subscription(licenseName, net) == Failure(SubscriptionError)
    ensures net.subscriptionFeed.Some? && DecodeFeed(net.subscriptionFeed.value).Some? ==>
      Subscription(licenseName, net)
      == SubscribedUntil(DecodeFeed(net.subscriptionFeed.value).value, SubscriptionKey(licenseName))
  {
  }

  /** `GetLicensesInfo`: a fresh listing (the cache is not consulted), the description,
      then the subscription; the first failure is the result. */
  function GetLicensesInfo(licenseName: string, net: Remote): Result<LicenseInfoModel> {
    match net.licenseListing
    case None => Failure(ListingError)
    case Some(listing) =>
      match ParseDescription(licenseName, listing, net)
      case Failure(e) => Failure(e)
      case Success(info) =>
        match Subscription(licenseName, net)
        case Failure(e) => Failure(e)
        case Success(d) => Success(info.(subscriptionLicenseExpAt := d))
  }

  /** What a successful answer holds: the description text of the license's `.ild` file,
      the A0 and ПИР dates the parser reads from it, and the subscription date; every
      date is a real date or `MinDate`. */
  lemma GetLicensesInfoSuccess(licenseName: string, net: Remote)
    requires GetLicensesInfo(licenseName, net).Success?
    ensures net.licenseListing.Some? && DescriptionItem(licenseName, net.licenseListing.value).Success?
    ensures var info := GetLicensesInfo(licenseName, net).value;
      var item := DescriptionItem(licenseName, net.licenseListing.value).value;
      item.name == DescriptionFileName(licenseName)
      && item.file in net.texts && info.content == net.texts[item.file]
      && FindA0LicenseExp(info.content) == Success(info.a0LicenseExpAt)
      && FindPIRLicenseExp(info.content) == Success(info.pirLicenseExpAt)
      && Subscription(licenseName, net) == Success(info.subscriptionLicenseExpAt)
    ensures var info := GetLicensesInfo(licenseName, net).value;
      Valid(info.a0LicenseExpAt) && Valid(info.pirLicenseExpAt) && Valid(info.subscriptionLicenseExpAt)
  {
    var listing := net.licenseListing.value;
    ItemLookup(licenseName, listing);
    ParseDescriptionSuccess(licenseName, listing, net);
    SubscriptionValid(licenseName, net);
  }

  /** A parsed description: the text of the `.ild` file and the dates read from it. */
  lemma ParseDescriptionSuccess(licenseName: string, listing: YandexEmbedded, net: Remote)
    requires ParseDescription(licenseName, listing, net).Success?
    ensures DescriptionItem(licenseName, listing).Success?
    ensures var info := ParseDescription(licenseName, listing, net).value;
      var item := DescriptionItem(licenseName, listing).value;
      item.file in net.texts && info.content == net.texts[item.file]
      && FindA0LicenseExp(info.content) == Success(info.a0LicenseExpAt)
      && FindPIRLicenseExp(info.content) == Success(info.pirLicenseExpAt)
      && info.subscriptionLicenseExpAt == MinDate
  {
  }

  /** A subscription date is a real date. */
  lemma SubscriptionValid(licenseName: string, net: Remote)
    requires Subscription(licenseName, net).Success?
    ensures Valid(Subscription(licenseName, net).value)
  {
    var records := net.subscriptionFeed.value;
    var subscriptions := DecodeFeed(records).value;
    match FindSubscription(subscriptions, SubscriptionKey(licenseName))
    case None =>
    case Some(k) =>
      assert JsonDateTimeConverter.Read(records[k].date).Success?;
  }

  /** Each failure comes from the first step that fails, with that step's message. */
  lemma GetLicensesInfoFailure(licenseName: string, net: Remote)
    ensures net.licenseListing.None? ==> GetLicensesInfo(licenseName, net) == Failure(ListingError)
    ensures net.licenseListing.Some? && ParseDescription(licenseName, net.licenseListing.value, net).Failure? ==>
      GetLicensesInfo(licenseName, net) == Failure(ParseDescription(licenseName, net.licenseListing.value, net).error)
    ensures (net.licenseListing.Some? && ParseDescription(licenseName, net.licenseListing.value, net).Success?
             && Subscription(licenseName, net).Failure?) ==>
      GetLicensesInfo(licenseName, net) == Failure(SubscriptionError)
  {
    match net.subscriptionFeed
    case None =>
    case Some(records) =>
      match DecodeFeed(records)
      case None =>
      case Some(subscriptions) =>
  }

  // ---- The update catalog and update downloads

  /** `GetUpdatesByHttp` */
  function UpdatesByHttp(net: Remote): (r: Result<seq<YandexUpdateModel>>)
    ensures r.Failure? ==> r.error == UpdatesFetchError
  {
    match net.updatesCatalog
    case None => Failure(UpdatesFetchError)
    case Some(catalog) => Success(catalog)
  }

  /** `GetUpdates`: the catalog from the cache or fetched, then cached for an hour; a
      failed fetch is not cached. */
  function GetUpdatesSpec(cache: Option<(seq<YandexUpdateModel>, int)>, net: Remote, now: int)
    : (Result<seq<UpdateModel>>, Option<(seq<YandexUpdateModel>, int)>)
  {
    match Cached(cache, now)
    case Some(catalog) => (Success(MapToUpdateModels(catalog)), cache)
    case None =>
      match UpdatesByHttp(net)
      case Failure(e) => (Failure(e), cache)
      case Success(catalog) => (Success(MapToUpdateModels(catalog)), Some((catalog, now + CacheLifetime)))
  }

  /** A fetched catalog answers every call of the following hour, whatever the remote
      side then says, and a failed fetch leaves the cache as it was. */
  lemma GetUpdatesCaches(cache: Option<(seq<YandexUpdateModel>, int)>, net: Remote, now: int,
                         net': Remote, later: int)
    requires Cached(cache, now).None? && now <= later < now + CacheLifetime
    ensures var (r, cache') := GetUpdatesSpec(cache, net, now);
      r.Success? ==> GetUpdatesSpec(cache', net', later) == (r, cache')
    ensures var (r, cache') := GetUpdatesSpec(cache, net, now);
      r.Failure? ==> r == Failure(UpdatesFetchError) && cache' == cache
    ensures var (r, cache') := GetUpdatesSpec(cache, net, now);
      r.Success? ==> r.value == MapToUpdateModels(net.updatesCatalog.value)
  {
  }

  /** The download URLs of `updates`, in order. */
  function AllUrls(updates: seq<UpdateModel>): seq<string> {
    if updates == [] then [] else updates[0].urls + AllUrls(updates[1..])
  }

  /** The URLs from update `i` on: its own, then those of the updates after it. */
  lemma AllUrlsStep(updates: seq<UpdateModel>, i: nat)
    requires i < |updates|
    ensures AllUrls(updates[i..]) == updates[i].urls + AllUrls(updates[i + 1..])
  {
    assert updates[i..][0] == updates[i] && updates[i..][1..] == updates[i + 1..];
  }

  /** What `DownloadUpdates` produces: the outcome, the files and the values reported. */
  datatype UpdatesDownload = UpdatesDownload(outcome: Outcome, files: map<string, FileEntry>, reports: seq<int>)

  /** One URL of an update: its item metadata, then its body saved under the item's
      name in the download directory; whether it worked, the files and the values
      reported. */
  function DownloadOne(files: map<string, FileEntry>, dirs: set<string>, urlPrefix: string,
                       downloadPath: Option<string>, url: string, net: Remote): (bool, map<string, FileEntry>, seq<int>)
  {
    match Lookup(net.itemInfo, urlPrefix + url)
    case None => (false, files, [])
    case Some(item) =>
      match downloadPath
      case None => (false, files, [])
      case Some(dir) => SaveBody(files, dirs, Combine(dir, item.name), Lookup(net.bodies, item.file), item.size)
  }

  /** The downloads of `urls` in turn, stopping at the first one that fails. */
  function DownloadAll(files: map<string, FileEntry>, dirs: set<string>, urlPrefix: string,
                       downloadPath: Option<string>, urls: seq<string>, net: Remote): UpdatesDownload
    decreases |urls|
  {
    if urls == [] then UpdatesDownload(Pass, files, [])
    else
      var (ok, after, reports) := DownloadOne(files, dirs, urlPrefix, downloadPath, urls[0], net);
      if !ok then UpdatesDownload(Fail(UpdatesDownloadError), files, [])
      else
        var rest := DownloadAll(after, dirs, urlPrefix, downloadPath, urls[1..], net);
        UpdatesDownload(rest.outcome, rest.files, reports + rest.reports)
  }

  /** `DownloadAll` of one URL followed by more. */
  lemma DownloadAllCons(files: map<string, FileEntry>, dirs: set<string>, urlPrefix: string,
                        downloadPath: Option<string>, url: string, rest: seq<string>, net: Remote)
    ensures var (ok, after, reports) := DownloadOne(files, dirs, urlPrefix, downloadPath, url, net);
      var d := DownloadAll(files, dirs, urlPrefix, downloadPath, [url] + rest, net);
      var tail := DownloadAll(after, dirs, urlPrefix, downloadPath, rest, net);
      if ok then d == UpdatesDownload(tail.outcome, tail.files, reports + tail.reports)
      else d == UpdatesDownload(Fail(UpdatesDownloadError), files, []) && after == files && reports == []
  {
    assert ([url] + rest)[0] == url && ([url] + rest)[1..] == rest;
    match Lookup(net.itemInfo, urlPrefix + url)
    case None =>
    case Some(item) =>
      match downloadPath
      case None =>
      case Some(dir) =>
        SaveBodySpec(files, dirs, Combine(dir, item.name), Lookup(net.bodies, item.file), item.size);
  }

  /** Any failure of the downloads carries the one generic message. */
  lemma {:induction false} DownloadAllFailure(files: map<string, FileEntry>, dirs: set<string>, urlPrefix: string,
                                              downloadPath: Option<string>, urls: seq<string>, net: Remote)
    ensures var d := DownloadAll(files, dirs, urlPrefix, downloadPath, urls, net);
      d.outcome.Fail? ==> d.outcome == Fail(UpdatesDownloadError)
    decreases |urls|
  {
    if urls != [] {
      var (ok, after, reports) := DownloadOne(files, dirs, urlPrefix, downloadPath, urls[0], net);
      if ok {
        DownloadAllFailure(after, dirs, urlPrefix, downloadPath, urls[1..], net);
      }
    }
  }

  /** The downloads succeed only when there is a download directory and every URL has
      item metadata whose link answers. */
  lemma {:induction false} DownloadAllPass(files: map<string, FileEntry>, dirs: set<string>, urlPrefix: string,
                                           downloadPath: Option<string>, urls: seq<string>, net: Remote)
    ensures var d := DownloadAll(files, dirs, urlPrefix, downloadPath, urls, net);
      d.outcome == Pass ==>
        (urls != [] ==> downloadPath.Some?)
        && forall u <- urls :: urlPrefix + u in net.itemInfo && net.itemInfo[urlPrefix + u].file in net.bodies
    decreases |urls|
  {
    if urls != [] {
      var (ok, after, reports) := DownloadOne(files, dirs, urlPrefix, downloadPath, urls[0], net);
      if ok {
        var item := net.itemInfo[urlPrefix + urls[0]];
        var path := Combine(downloadPath.value, item.name);
        SaveBodySpec(files, dirs, path, Lookup(net.bodies, item.file), item.size);
        DownloadAllPass(after, dirs, urlPrefix, downloadPath, urls[1..], net);
        assert forall u <- urls :: u == urls[0] || u in urls[1..];
      }
    }
  }

  /** After a successful download the last URL's file is in the download directory,
      under its item's name, holding the whole body. */
  lemma {:induction false} DownloadAllLast(files: map<string, FileEntry>, dirs: set<string>, urlPrefix: string,
                                           downloadPath: Option<string>, urls: seq<string>, net: Remote)
    requires DownloadAll(files, dirs, urlPrefix, downloadPath, urls, net).outcome == Pass && urls != []
    ensures urlPrefix + urls[|urls| - 1] in net.itemInfo && downloadPath.Some?
    ensures var item := net.itemInfo[urlPrefix + urls[|urls| - 1]];
      var path := Combine(downloadPath.value, item.name);
      var d := DownloadAll(files, dirs, urlPrefix, downloadPath, urls, net);
      item.file in net.bodies && path in d.files && d.files[path].bytes == Flatten(ReadChunks(net.bodies[item.file]))
    decreases |urls|
  {
    var (ok, after, reports) := DownloadOne(files, dirs, urlPrefix, downloadPath, urls[0], net);
    var item := net.itemInfo[urlPrefix + urls[0]];
    var path := Combine(downloadPath.value, item.name);
    SaveBodySpec(files, dirs, path, Lookup(net.bodies, item.file), item.size);
    if |urls| == 1 {
      assert DownloadAll(files, dirs, urlPrefix, downloadPath, urls, net).files == after;
    } else {
      var rest := DownloadAll(after, dirs, urlPrefix, downloadPath, urls[1..], net);
      assert rest.outcome == Pass && DownloadAll(files, dirs, urlPrefix, downloadPath, urls, net).files == rest.files;
      DownloadAllLast(after, dirs, urlPrefix, downloadPath, urls[1..], net);
      LastOfTail(urls);
    }
  }

  lemma LastOfTail(s: seq<string>)
    requires |s| > 1
    ensures s[1..][|s[1..]| - 1] == s[|s| - 1]
  {
  }

  /** Nothing to download is a success that changes nothing. */
  lemma DownloadAllNothing(files: map<string, FileEntry>, dirs: set<string>, urlPrefix: string,
                           downloadPath: Option<string>, updates: seq<UpdateModel>, net: Remote)
    requires forall u <- updates :: u.urls == []
    ensures DownloadAll(files, dirs, urlPrefix, downloadPath, AllUrls(updates), net) == UpdatesDownload(Pass, files, [])
  {
    AllUrlsEmpty(updates);
  }

  lemma {:induction false} AllUrlsEmpty(updates: seq<UpdateModel>)
    requires forall u <- updates :: u.urls == []
    ensures AllUrls(updates) == []
  {
    if updates != [] {
      assert updates[0] in updates;
      assert forall u <- updates[1..] :: u in updates;
      AllUrlsEmpty(updates[1..]);
    }
  }

  /** The inner loop of `DownloadUpdates`, over the URLs of one update: `failed` when
      one of them failed and the whole download stops, and the values reported. */
  method DownloadUrls(fs: FileSystem, urls: seq<string>, later: seq<string>, prefix: string, downloadPath: Option<string>,
                      net: Remote)
    returns (failed: bool, reports: seq<int>)
    modifies fs
    ensures fs.dirs == old(fs.dirs)
    ensures var before := DownloadAll(old(fs.files), fs.dirs, prefix, downloadPath, urls + later, net);
      failed ==> before == UpdatesDownload(Fail(UpdatesDownloadError), fs.files, reports)
    ensures var before := DownloadAll(old(fs.files), fs.dirs, prefix, downloadPath, urls + later, net);
      var after := DownloadAll(fs.files, fs.dirs, prefix, downloadPath, later, net);
      !failed ==> before == UpdatesDownload(after.outcome, after.files, reports + after.reports)
  {
    ghost var dirs := fs.dirs;
    ghost var whole := DownloadAll(fs.files, dirs, prefix, downloadPath, urls + later, net);
    reports := [];
    var j := 0;
    while j < |urls|
      invariant 0 <= j <= |urls|
      invariant fs.dirs == dirs
      invariant var rest := DownloadAll(fs.files, dirs, prefix, downloadPath, urls[j..] + later, net);
        whole == UpdatesDownload(rest.outcome, rest.files, reports + rest.reports)
    {
      ghost var files := fs.files;
      assert urls[j..] + later == [urls[j]] + (urls[j + 1..] + later);
      DownloadAllCons(files, dirs, prefix, downloadPath, urls[j], urls[j + 1..] + later, net);
      var ok, r := DownloadUrl(fs, urls[j], prefix, downloadPath, net);
      if !ok {
        return true, reports;
      }
      ghost var rest := DownloadAll(fs.files, dirs, prefix, downloadPath, urls[j + 1..] + later, net);
      assert reports + (r + rest.reports) == (reports + r) + rest.reports;
      reports := reports + r;
      j := j + 1;
    }
    assert urls[j..] + later == later;
    failed := false;
  }

  /** One pass of the inner loop body of `DownloadUpdates`. */
  method DownloadUrl(fs: FileSystem, url: string, prefix: string, downloadPath: Option<string>, net: Remote)
    returns (ok: bool, reports: seq<int>)
    modifies fs
    ensures (ok, fs.files, reports) == DownloadOne(old(fs.files), old(fs.dirs), prefix, downloadPath, url, net)
    ensures fs.dirs == old(fs.dirs)
  {
    var yandexItem := Lookup(net.itemInfo, prefix + url);
    if yandexItem.None? || downloadPath.None? {
      return false, [];
    }
    var path := Combine(downloadPath.value, yandexItem.value.name);
    ok, reports := SaveStream(fs, path, Lookup(net.bodies, yandexItem.value.file), yandexItem.value.size);
  }

  /** The values reported so far, then those of the rest of the download. */
  lemma ReportsThen(whole: UpdatesDownload, reports: seq<int>, current: UpdatesDownload, r: seq<int>,
                    rest: UpdatesDownload)
    requires whole == UpdatesDownload(current.outcome, current.files, reports + current.reports)
    requires current == UpdatesDownload(rest.outcome, rest.files, r + rest.reports)
    ensures whole == UpdatesDownload(rest.outcome, rest.files, (reports + r) + rest.reports)
  {
    assert reports + (r + rest.reports) == (reports + r) + rest.reports;
  }

  /** The outer loop of `DownloadUpdates`, over the updates: `failed` when one URL
      failed and the download stopped there, and the values reported. */
  method DownloadEach(fs: FileSystem, updates: seq<UpdateModel>, prefix: string, downloadPath: Option<string>,
                      net: Remote)
    returns (failed: bool, reports: seq<int>)
    modifies fs
    ensures fs.dirs == old(fs.dirs)
    ensures DownloadAll(old(fs.files), fs.dirs, prefix, downloadPath, AllUrls(updates), net)
      == UpdatesDownload(if failed then Fail(UpdatesDownloadError) else Pass, fs.files, reports)
  {
    ghost var dirs := fs.dirs;
    ghost var whole := DownloadAll(fs.files, dirs, prefix, downloadPath, AllUrls(updates), net);
    assert updates[0..] == updates;
    reports := [];
    var i := 0;
    while i < |updates|
      invariant 0 <= i <= |updates|
      invariant fs.dirs == dirs
      invariant var rest := DownloadAll(fs.files, dirs, prefix, downloadPath, AllUrls(updates[i..]), net);
        whole == UpdatesDownload(rest.outcome, rest.files, reports + rest.reports)
    {
      ghost var current := DownloadAll(fs.files, dirs, prefix, downloadPath, AllUrls(updates[i..]), net);
      AllUrlsStep(updates, i);
      var stop, r := DownloadUrls(fs, updates[i].urls, AllUrls(updates[i + 1..]), prefix, downloadPath, net);
      if stop {
        assert current == UpdatesDownload(Fail(UpdatesDownloadError), fs.files, r);
        return true, reports + r;
      }
      ghost var rest := DownloadAll(fs.files, dirs, prefix, downloadPath, AllUrls(updates[i + 1..]), net);
      assert current == UpdatesDownload(rest.outcome, rest.files, r + rest.reports);
      ReportsThen(whole, reports, current, r, rest);
      reports := reports + r;
      i := i + 1;
    }
    failed := false;
  }

  class YandexService {
    /** The settings read once, when the service is built. */
    const settings: SettingsModel
    /** The directory of the executable, where licenses are saved. */
    const appPath: string
    const fs: FileSystem
    /** The `updates` cache entry. */
    var updatesCache: Option<(seq<YandexUpdateModel>, int)>
    /** The `license` cache entry. */
    var licenseCache: Option<(YandexEmbedded, int)>
    /** The values raised through `DownloadUpdatesProgressChanged`, oldest first. */
    var updatesProgress: seq<int>
    /** The values raised through `DownloadLicenseProgressChanged`, oldest first. */
    var licenseProgress: seq<int>

    constructor(settings: SettingsModel, appPath: string, fs: FileSystem)
      ensures this.settings == settings && this.appPath == appPath && this.fs == fs
      ensures updatesCache.None? && licenseCache.None?
      ensures updatesProgress == [] && licenseProgress == []
    {
      this.settings := settings;
      this.appPath := appPath;
      this.fs := fs;
      updatesCache := None;
      licenseCache := None;
      updatesProgress := [];
      licenseProgress := [];
    }

    /** `GetUpdates` */
    method GetUpdates(net: Remote, now: int) returns (r: Result<seq<UpdateModel>>)
      modifies this`updatesCache
      ensures (r, updatesCache) == GetUpdatesSpec(old(updatesCache), net, now)
    {
      var hit := Cached(updatesCache, now);
      var yandexUpdateModels;
      if hit.Some? {
        yandexUpdateModels := hit.value;
      } else {
        var result := UpdatesByHttp(net);
        if result.Failure? {
          return Failure(result.error);
        }
        updatesCache := Some((result.value, now + CacheLifetime));
        yandexUpdateModels := result.value;
      }
      r := Success(MapToUpdateModels(yandexUpdateModels));
    }

    /** `DownloadUpdates`: every URL of every update in turn. `YandexUrl` is put in front
        of each URL, as text (an unset one adds nothing). */
    method DownloadUpdates(updates: seq<UpdateModel>, downloadPath: Option<string>, net: Remote)
      returns (r: Outcome)
      modifies fs, this`updatesProgress
      ensures var d := DownloadAll(old(fs.files), old(fs.dirs), settings.yandexUrl.GetOr([]), downloadPath,
                                   AllUrls(updates), net);
        r == d.outcome && fs.files == d.files && updatesProgress == old(updatesProgress) + d.reports
      ensures fs.dirs == old(fs.dirs)
    {
      var prefix := settings.yandexUrl.GetOr([]);
      var failed, reports := DownloadEach(fs, updates, prefix, downloadPath, net);
      updatesProgress := updatesProgress + reports;
      r := if failed then Fail(UpdatesDownloadError) else Pass;
    }

    /** `DownloadLicense` */
    method DownloadLicense(licenseName: string, net: Remote, now: int) returns (r: Result<DownloadModel>)
      modifies fs, this`licenseCache, this`licenseProgress
      ensures var d := DownloadLicenseSpec(old(licenseCache), old(fs.files), old(fs.dirs), appPath, licenseName,
                                           net, now);
        r == d.result && fs.files == d.files && licenseProgress == old(licenseProgress) + d.reports
        && licenseCache == d.cache
      ensures fs.dirs == old(fs.dirs)
    {
      var hit := Cached(licenseCache, now);
      var yandexResource;
      if hit.Some? {
        yandexResource := hit.value;
      } else {
        if net.licenseListing.None? {
          return Failure(ListingError);
        }
        licenseCache := Some((net.licenseListing.value, now + CacheLifetime));
        yandexResource := net.licenseListing.value;
      }
      assert ListingFor(old(licenseCache), net, now) == Some((yandexResource, licenseCache));
      var reports;
      r, reports := FetchFiles(licenseName, yandexResource, net);
      licenseProgress := licenseProgress + reports;
    }

    /** The part of `DownloadLicense` after the listing: the license file, then the
        description file. */
    method FetchFiles(licenseName: string, yandexResource: YandexEmbedded, net: Remote)
      returns (r: Result<DownloadModel>, reports: seq<int>)
      modifies fs
      ensures LicenseFiles(r, fs.files, reports) == FetchLicense(old(fs.files), old(fs.dirs), appPath, licenseName,
                                                                  yandexResource, net)
      ensures fs.dirs == old(fs.dirs)
    {
      var licensePath, licenseReports := DownloadFile(fs, appPath, LicenseItem(licenseName, yandexResource), net,
                                                      LicenseDownloadError);
      if licensePath.Failure? {
        return Failure(licensePath.error), licenseReports;
      }
      var descriptionPath, descriptionReports := DownloadFile(fs, appPath, DescriptionItem(licenseName, yandexResource),
                                                              net, DescriptionSaveError);
      reports := licenseReports + descriptionReports;
      // The failure built here is not returned; reading `descriptionPath.Value` below
      // then throws, and the handler answers with the generic message.
      if descriptionPath.Failure? {
        return Failure(LicenseError), reports;
      }
      r := Success(DownloadModel(licensePath.value, descriptionPath.value));
    }
  }
}
