# A0Utils.Wpf: a Dafny model of its core

A0Utils.Wpf is a Windows desktop helper for the A0 estimating program. It finds the
license files (`*.ISL`) of an A0 installation. It downloads fresh license files and their
descriptions (`*.ild`) from a public Yandex Disk folder and copies them next to every
installed license. It reads the expiry dates of the A0 and ПИР licenses and of the
database subscription. From the remote catalog it offers the updates that the license
entitles the user to, and it downloads the ones the user checks. Settings live in
`settings.json` next to the executable.

The model covers what those steps compute and change:

- `ParseHelpers` (`parse_helpers.dfy`) is the description parser. The regular
  expressions are written as scanners, and each is proved against the pattern read as a
  language: sound, complete, leftmost match. It covers `FindA0LicenseExp`,
  `FindPIRLicenseExp`, `FindLicenseType`, `FindNsi` and `FindPrices`.
- `UpdateModels` (`update_model.dfy`) models `MapToUpdateModels`, `ApplyFilter` with its
  two loops, and `UpdateText`, which works in place on an array.
- `JsonDateTimeConverter` is the `dd-MM-yyyy` converter, with both round trips.
- `FileSystems` and `FileOperations` model the disk, `PathHelpers.MapToLicenseModel` and
  `FileOperationsService`: finding license files, and copying one file into many
  directories.
- `DownloadModels` models `DownloadModelExtentions.CopyToAllFolders`.
- `YandexServices` models `YandexService`:
  - the catalog and listing caches;
  - the license, description and update downloads, each with its streamed copy loop
    and progress reports;
  - the license information;
  - the subscription feed.
- `SettingsServices` models `SettingsService`.
- `LicenseViewModels` and `MainViewModels` model the two windows' commands. Their
  dialogs become the last message shown.
- Support modules:
  - `Text`: white space, search, `Split` into lines, `TrimStart`, `PadLeft`, LINQ
    `Where` and `Distinct`;
  - `Dates`: the Gregorian calendar, `AddDays`, and the `dd.MM.yyyy` text form;
  - `Streams`: the read loop and its percentages;
  - `Wrappers`: `Option`, and `Result` as in CSharpFunctionalExtensions;
  - `Models`: the data records as datatypes.

The outside world enters as parameters:

- `Remote` holds what the HTTP endpoints answer;
- `now` is the clock, in seconds;
- the directory walks are fixed functions of a `FileSystem`.

Objects whose fields the program updates are classes with `modifies` frames:
`FileSystem`, the services and the view models. Their methods are proved against
specification functions, and those functions are proved to have the promised properties.

`DownloadLicense` is modelled as written. At line 150 of `Services/YandexService.cs` the
failure of the description download is built but not returned. `.Value` on that failure
then throws, and the catch turns any description failure into the generic
"Ошибка при получении лицензии" (`FetchDescriptionFailure`).

A comparison in `ApplyFilter` gives `IsNullOrEmpty` a `PriceModel`, which is not a
string. The model reads it as its evident intent: "a price header was found", that is,
`Name` was set (`UpdateModels.PricesFound`).

## Model

| member | source | states |
|---|---|---|
| ParseHelpers.ExpMatchAtSound | A0Utils.Wpf/Helpers/ParseHelpers.cs:13-15 | every match the expiry scanner reports is a match of `\[tag\]\s*Поддержка до:\s*(\d{2}\.\d{2}\.\d{4})`, capturing the date text |
| ParseHelpers.ExpMatchAtComplete | A0Utils.Wpf/Helpers/ParseHelpers.cs:13-15 | every match of that pattern is found by the scanner, with the same capture |
| ParseHelpers.FirstExpMatch | A0Utils.Wpf/Helpers/ParseHelpers.cs:14-15 | `Regex.Match` returns the leftmost matching position, and no position before it matches |
| ParseHelpers.FindExp | A0Utils.Wpf/Helpers/ParseHelpers.cs:11-30 | the result of an expiry finder is a real date or the error "Failed to parse date." |
| ParseHelpers.FindExpLeftmost | A0Utils.Wpf/Helpers/ParseHelpers.cs:15-25 | only the leftmost match decides: its date when that is a real date, the parse error otherwise, whatever later matches hold |
| ParseHelpers.FindExpNoMatch | A0Utils.Wpf/Helpers/ParseHelpers.cs:28-29 | with no match the result is `default`, a success holding `DateTime.MinValue` |
| ParseHelpers.FindA0LicenseExp | A0Utils.Wpf/Helpers/ParseHelpers.cs:11-30 | the shared finder with the `[А0]` tag: a real date or the parse error |
| ParseHelpers.FindPIRLicenseExp | A0Utils.Wpf/Helpers/ParseHelpers.cs:32-51 | the shared finder with the `[ПИР]` tag: a real date or the parse error |
| ParseHelpers.SentinelMatchShape | A0Utils.Wpf/Helpers/ParseHelpers.cs:55-62 | a line has a `Sentinel(?:\s+HL)?` match exactly when it contains `Sentinel`, and the match is `Sentinel` or `Sentinel`, white space, `HL` |
| ParseHelpers.MatchFromShape | A0Utils.Wpf/Helpers/ParseHelpers.cs:55 | the match starting at an occurrence of `Sentinel` has one of the two license-type shapes |
| ParseHelpers.SentinelMatchTakesHl | A0Utils.Wpf/Helpers/ParseHelpers.cs:55 | the optional `\s+HL` is always taken when it follows the leftmost `Sentinel` |
| ParseHelpers.FindLicenseType | A0Utils.Wpf/Helpers/ParseHelpers.cs:53-68 | fails, with "Failed to parse license type.", exactly when no line contains `Sentinel`; otherwise gives a license-type text starting with `Sentinel` |
| ParseHelpers.FindLicenseTypeFirst | A0Utils.Wpf/Helpers/ParseHelpers.cs:58-65 | the first line containing `Sentinel` decides the license type |
| ParseHelpers.WhiteThenAtSound | A0Utils.Wpf/Helpers/ParseHelpers.cs:72 | the backtracking `\s*` before the template ends at a white run after which the template starts |
| ParseHelpers.WhiteThenAtComplete | A0Utils.Wpf/Helpers/ParseHelpers.cs:72 | any white run followed by the template is accepted by `\s*` |
| ParseHelpers.NsiMatchFromSound | A0Utils.Wpf/Helpers/ParseHelpers.cs:72-76 | a scanner match is a line start, white space and the escaped template |
| ParseHelpers.NsiMatchFromComplete | A0Utils.Wpf/Helpers/ParseHelpers.cs:72-76 | every such line start is found by the scanner |
| ParseHelpers.NsiMatchesIff | A0Utils.Wpf/Helpers/ParseHelpers.cs:72-76 | the `^\s*template` multiline scanner agrees with the pattern in both directions |
| ParseHelpers.NsiMatchesOneLine | A0Utils.Wpf/Helpers/ParseHelpers.cs:72-76 | on a line without line feeds the match means "after leading white space the line starts with the template" |
| ParseHelpers.FindNsi | A0Utils.Wpf/Helpers/ParseHelpers.cs:70-85 | the result is empty or a line of the data that matches |
| ParseHelpers.FindNsiFirst | A0Utils.Wpf/Helpers/ParseHelpers.cs:76-81 | the first matching line is returned |
| ParseHelpers.FindNsiNone | A0Utils.Wpf/Helpers/ParseHelpers.cs:84 | with no matching line the result is the empty string |
| ParseHelpers.FindNsiFound | A0Utils.Wpf/Helpers/ParseHelpers.cs:70-85 | on non-empty lines the result is non-empty exactly when some line matches |
| ParseHelpers.FirstHeader | A0Utils.Wpf/Helpers/ParseHelpers.cs:89-104 | the first line, at or after a position, that matches the price-header pattern |
| ParseHelpers.PairMatchAt | A0Utils.Wpf/Helpers/ParseHelpers.cs:91 | a date-pair match ends after the position it starts at and within the line |
| ParseHelpers.ValidPairs | A0Utils.Wpf/Helpers/ParseHelpers.cs:111-114 | only pairs whose two dates both parse are kept |
| ParseHelpers.AppendLineDates | A0Utils.Wpf/Helpers/ParseHelpers.cs:108-116 | the inner loop appends every parseable date pair of the line, in order |
| ParseHelpers.CollectStep | A0Utils.Wpf/Helpers/ParseHelpers.cs:106-120 | a line starting with `с: ` adds its pairs and the section goes on |
| ParseHelpers.FindPrices | A0Utils.Wpf/Helpers/ParseHelpers.cs:87-125 | the method with its `found` flag and `break` computes `PricesOf` |
| ParseHelpers.PricesName | A0Utils.Wpf/Helpers/ParseHelpers.cs:97-104 | `Name` is set exactly when some line is a header, and then to the template; without a header there are no dates |
| ParseHelpers.CollectFromValid | A0Utils.Wpf/Helpers/ParseHelpers.cs:111-114 | every collected pair holds two real dates |
| ParseHelpers.CollectFromShift | A0Utils.Wpf/Helpers/ParseHelpers.cs:106-120 | collecting is independent of the lines before the start |
| ParseHelpers.FirstHeaderShift | A0Utils.Wpf/Helpers/ParseHelpers.cs:97-104 | header-free leading lines only shift the header's position |
| ParseHelpers.PricesIgnorePrefix | A0Utils.Wpf/Helpers/ParseHelpers.cs:95-104 | lines before the first header are ignored |
| ParseHelpers.CollectFromStops | A0Utils.Wpf/Helpers/ParseHelpers.cs:118-121 | collection stops at the first line that does not start with `с: ` |
| ParseHelpers.PricesStopAtSectionEnd | A0Utils.Wpf/Helpers/ParseHelpers.cs:118-121 | whatever follows the end of the price section changes nothing |
| ParseHelpers.FirstHeaderPrefix | A0Utils.Wpf/Helpers/ParseHelpers.cs:97-104 | lines after a found header do not change which header is first |
| Text.SkipWhite | A0Utils.Wpf/Helpers/ParseHelpers.cs:13 | the greedy `\s*`: every skipped character is white, and the next one is not |
| Text.SkipWhiteUnique | A0Utils.Wpf/Helpers/ParseHelpers.cs:13 | a white run ended by a non-white character is the greedy one |
| Text.IndexOf | A0Utils.Wpf/Helpers/ParseHelpers.cs:55 | the leftmost occurrence at or after a position, or none at all |
| Text.IndexOfContains | A0Utils.Wpf/Helpers/ParseHelpers.cs:55 | a search from the start finds something exactly when the text contains the pattern |
| Text.CountChar | A0Utils.Wpf/Services/YandexService.cs:283 | the number of occurrences of a character is zero exactly when it does not occur |
| Text.CountCharAppend | A0Utils.Wpf/Services/YandexService.cs:283 | counting is additive over concatenation |
| Text.TrimStart | A0Utils.Wpf/Services/YandexService.cs:238 | `TrimStart(c)` leaves a suffix that does not start with `c`, and only `c`s were removed |
| Text.PadLeft | A0Utils.Wpf/ViewModels/LicenseViewModel.cs:196 | `PadLeft(n, c)` has length `max(n, |s|)`, ends with `s` and is padded with `c` |
| Text.SplitLinesShape | A0Utils.Wpf/Models/UpdateModel.cs:74 | the split lines are non-empty, hold no CR or LF, and together are the text without its CRs and LFs |
| Text.SplitFromLines | A0Utils.Wpf/Models/UpdateModel.cs:74 | every piece of the split of the rest is a non-empty line without breaks |
| Text.SplitFromConcat | A0Utils.Wpf/Models/UpdateModel.cs:74 | the pieces concatenate back to the text without breaks |
| Text.ConcatAppend | A0Utils.Wpf/Models/UpdateModel.cs:74 | concatenating lines distributes over appending them |
| Text.Filter | A0Utils.Wpf/Models/UpdateModel.cs:104-108 | LINQ `Where` keeps only elements satisfying the predicate |
| Text.FilterMembers | A0Utils.Wpf/Models/UpdateModel.cs:104-108 | an element is kept exactly when it is in the input and satisfies the predicate |
| Text.FilterAppend | A0Utils.Wpf/Models/UpdateModel.cs:104-108 | `Where` distributes over concatenation |
| Text.FilterCongruent | A0Utils.Wpf/Models/UpdateModel.cs:104-108 | predicates that agree on the elements select the same elements |
| Text.Distinct | A0Utils.Wpf/Models/DownloadModel.cs:24 | `Distinct` is never longer than its input |
| Text.DistinctMembers | A0Utils.Wpf/Models/DownloadModel.cs:24 | the result has no duplicates and the same members as the input |
| Text.DistinctOfUnique | A0Utils.Wpf/Models/DownloadModel.cs:24 | a list without duplicates is its own `Distinct` |
| Text.DistinctEmpty | A0Utils.Wpf/Models/DownloadModel.cs:25 | `Any()` of the distinct elements is `Any()` of the elements |
| Dates.BeforeIsDayOrder | A0Utils.Wpf/Models/UpdateModel.cs:125 | `DateTime`'s `>` on dates is the order of day numbers, and equal dates have equal numbers |
| Dates.NextDay | A0Utils.Wpf/Services/YandexService.cs:244 | the day after is a real, later date; there is none only after the last date `DateTime` holds |
| Dates.NextDayNumber | A0Utils.Wpf/Services/YandexService.cs:244 | the day after has the next day number |
| Dates.AddDays | A0Utils.Wpf/Services/YandexService.cs:244 | `AddDays` gives a real date or throws |
| Dates.AddDaysNumber | A0Utils.Wpf/Services/YandexService.cs:244 | a successful `AddDays(n)` lands exactly n days later |
| Dates.DigitChar | A0Utils.Wpf/ViewModels/MainViewModel.cs:156 | the digit character of a number below ten reads back as that number |
| Dates.ParseDate | A0Utils.Wpf/Helpers/ParseHelpers.cs:17 | `DateTime.TryParse` of `dd.MM.yyyy` succeeds only on that shape and only for a real date |
| Dates.FormatDate | A0Utils.Wpf/ViewModels/MainViewModel.cs:156 | `{date:dd.MM.yyyy}` has the two-two-four digit shape |
| Dates.ParseFormat | A0Utils.Wpf/ViewModels/MainViewModel.cs:156 | parsing a formatted date gives the date back |
| Dates.FormatParse | A0Utils.Wpf/Helpers/ParseHelpers.cs:17 | a text that parses is the formatting of its date |
| JsonDateTimeConverter.Write | A0Utils.Wpf/Converters/JsonDateTimeConverter.cs:14-15 | `ToString("dd-MM-yyyy")` has the date shape |
| JsonDateTimeConverter.Read | A0Utils.Wpf/Converters/JsonDateTimeConverter.cs:11-12 | `ParseExact` succeeds only on that shape, for a real date, at midnight |
| JsonDateTimeConverter.ReadWrite | A0Utils.Wpf/Converters/JsonDateTimeConverter.cs:9-15 | reading what was written gives the same day at midnight |
| JsonDateTimeConverter.WriteRead | A0Utils.Wpf/Converters/JsonDateTimeConverter.cs:9-15 | writing what was read gives the same text back |
| Streams.ReadChunks | A0Utils.Wpf/Services/YandexService.cs:306 | the loop consumes the chunks before the first empty read |
| Streams.Int32 | A0Utils.Wpf/Services/YandexService.cs:313 | the `(int)` cast of a `long` is within 32 bits and the identity on values that fit |
| Streams.CopyStream | A0Utils.Wpf/Services/YandexService.cs:301-315 | the loop writes the bytes of the chunks read and reports `Progress` |
| Streams.ReadChunksPrefix | A0Utils.Wpf/Services/YandexService.cs:306 | a run of non-empty reads that ends in an empty one, or at the end, is what is read |
| Streams.ProgressAt | A0Utils.Wpf/Services/YandexService.cs:309-314 | one report per chunk: the percentage of the size read once that chunk was written |
| Streams.ProgressSilent | A0Utils.Wpf/Services/YandexService.cs:311 | without a positive size nothing is reported |
| Streams.ProgressPercentages | A0Utils.Wpf/Services/YandexService.cs:309-314 | when no more than the size arrives, the reports lie in 0..100, never go down, and end at 100 exactly when everything arrived |
| Streams.ProgressStep | A0Utils.Wpf/Services/YandexService.cs:309-314 | any two reports are ordered, and a report is 100 exactly when all bytes have arrived by then |
| Streams.Percent | A0Utils.Wpf/Services/YandexService.cs:313 | `part * 100 / total` lies in 0..100, grows with the part, and is 100 only for the whole |
| FileSystems.LastSeparator | A0Utils.Wpf/Helpers/PathHelpers.cs:15 | the position of the last separator in a prefix, or none |
| FileSystems.GetFileName | A0Utils.Wpf/Helpers/PathHelpers.cs:15 | `Path.GetFileName` is a separator-free suffix of the path |
| FileSystems.CombineSplits | A0Utils.Wpf/Services/FileOperationsService.cs:72 | `GetFileName` and `GetDirectoryName` take `Path.Combine(dir, name)` apart again |
| FileSystems.SeparatorThenName | A0Utils.Wpf/Services/FileOperationsService.cs:72 | a plain name after a separator is the file name |
| FileSystems.FileNameOfCombine | A0Utils.Wpf/Services/FileOperationsService.cs:72 | a plain name keeps its name in any directory |
| FileSystems.CopyFile | A0Utils.Wpf/Services/FileOperationsService.cs:74 | `File.Copy(s, d, true)` succeeds exactly when the source exists, differs from the destination, the destination's directory exists and no read-only or hidden file is at the destination; then the destination holds the source's contents and attributes and every other path is untouched |
| FileSystems.CreateFile | A0Utils.Wpf/Services/YandexService.cs:299 | `FileMode.Create` succeeds exactly when the directory exists and no read-only, hidden or system file is at the path; the file then holds the bytes and nothing else changes |
| FileSystems.FileSystem.SetAttributes | A0Utils.Wpf/Services/FileOperationsService.cs:66 | only the attributes of that file change |
| FileSystems.FileSystem.Copy | A0Utils.Wpf/Services/FileOperationsService.cs:74 | the disk after the call is `CopyFile`'s, or unchanged on failure |
| FileSystems.FileSystem.Create | A0Utils.Wpf/Services/YandexService.cs:299 | the disk after the call is `CreateFile`'s, or unchanged on failure |
| FileOperations.MapToLicenseModel | A0Utils.Wpf/Helpers/PathHelpers.cs:9-19 | one license model per path, in order, holding the path's file name and directory |
| FileOperations.MapToLicenseModelRecovers | A0Utils.Wpf/Helpers/PathHelpers.cs:9-19 | a file put into a directory is found again under its name in that directory |
| FileOperations.ClearReadOnly | A0Utils.Wpf/Services/FileOperationsService.cs:62-70 | the source loses its read-only flag and keeps everything else |
| FileOperations.CopyAllNone | A0Utils.Wpf/Services/FileOperationsService.cs:85 | no destinations is a success that changes nothing |
| FileOperations.CopyAllFrame | A0Utils.Wpf/Services/FileOperationsService.cs:60-82 | only the source and the copies' targets can change |
| FileOperations.CopyAllPass | A0Utils.Wpf/Services/FileOperationsService.cs:60-85 | on success every destination holds the source, with its read-only flag cleared |
| FileOperations.CopyAllFail | A0Utils.Wpf/Services/FileOperationsService.cs:74-82 | a failure names the first destination that failed; the copies before it were made and none after it |
| FileOperations.FileOperationsService.FindLicFile | A0Utils.Wpf/Services/FileOperationsService.cs:23-38 | the first license file's name, `null` when there is none, the empty name when the search throws |
| FileOperations.FileOperationsService.FindAllLicFiles | A0Utils.Wpf/Services/FileOperationsService.cs:40-56 | every license file found under the path, split into name and directory; nothing when the walk throws |
| FileOperations.FileOperationsService.CopyToAllFolders | A0Utils.Wpf/Services/FileOperationsService.cs:58-86 | the loop's outcome and disk are `CopyAll`'s |
| DownloadModels.DestinationsSpec | A0Utils.Wpf/Models/DownloadModel.cs:23-28 | each directory holding a license is a destination once; with no licenses the `bin` directories are the destinations |
| DownloadModels.CopyBothLicenseFirst | A0Utils.Wpf/Models/DownloadModel.cs:30-42 | a failed license pass is the result and copies no description; success needs both passes |
| DownloadModels.CopyBothPlaces | A0Utils.Wpf/Models/DownloadModel.cs:30-42 | on success every destination holds both files as they were, read-only flag cleared |
| DownloadModels.CopyToAllFolders | A0Utils.Wpf/Models/DownloadModel.cs:21-43 | the outcome and disk are those of both passes over the chosen destinations |
| UpdateModels.MapToUpdateModels | A0Utils.Wpf/Models/UpdateModel.cs:59-70 | one update model per record, in order, with all six fields copied and the check box clear |
| UpdateModels.MapToUpdateModelsRoundTrip | A0Utils.Wpf/Models/UpdateModel.cs:59-70 | the catalog can be read back from the update models |
| UpdateModels.MapToUpdateModelsAppend | A0Utils.Wpf/Models/UpdateModel.cs:59-70 | the mapping commutes with concatenation |
| UpdateModels.StampedSpec | A0Utils.Wpf/Models/UpdateModel.cs:123-128 | exactly the updates whose date parses and is later than the expiry get " (Лицензия истекла)", and only the name changes |
| UpdateModels.StampAll | A0Utils.Wpf/Models/UpdateModel.cs:121-130 | one stamped update per update |
| UpdateModels.UpdateText | A0Utils.Wpf/Models/UpdateModel.cs:119-133 | the list is renamed in place, element by element, and returned |
| UpdateModels.ToArray | A0Utils.Wpf/Models/UpdateModel.cs:104-105 | `ToList()` gives a fresh list with the same elements |
| UpdateModels.CollectNsiFilter | A0Utils.Wpf/Models/UpdateModel.cs:76-85 | the loop keeps, in order, the НСИ names `FindNsi` finds |
| UpdateModels.CollectPricesFilter | A0Utils.Wpf/Models/UpdateModel.cs:93-102 | the loop collects exactly the price indexes whose header is found |
| UpdateModels.ApplyFilter | A0Utils.Wpf/Models/UpdateModel.cs:72-117 | the method computes `ApplyFilterSpec` |
| UpdateModels.ApplyFilterFails | A0Utils.Wpf/Models/UpdateModel.cs:87-91 | the filter fails exactly when no line names a key type, with `FindLicenseType`'s error |
| UpdateModels.NsiFilterMembers | A0Utils.Wpf/Models/UpdateModel.cs:76-85 | a name is in the НСИ filter exactly when it is an НСИ update's name that `FindNsi` finds |
| UpdateModels.PricesFilterMembers | A0Utils.Wpf/Models/UpdateModel.cs:93-102 | an index is in the price filter exactly when it is a price book's index whose header is found |
| UpdateModels.ApplyFilterGroups | A0Utils.Wpf/Models/UpdateModel.cs:104-116 | the result is the stamped A0 and ПИР updates of the key type, then the found НСИ, the found price books and all tables |
| UpdateModels.ApplyFilterMembers | A0Utils.Wpf/Models/UpdateModel.cs:104-116 | every result comes from the catalog, at most renamed, lies in the five categories, and an A0 or ПИР one has the detected key type |
| UpdateModels.ApplyFilterKeepsTables | A0Utils.Wpf/Models/UpdateModel.cs:108-115 | every table of the catalog is offered |
| YandexServices.Cached | A0Utils.Wpf/Services/YandexService.cs:53-62 | an entry with absolute expiry is found until its expiry instant |
| YandexServices.FileNames | A0Utils.Wpf/Services/YandexService.cs:278-286 | both file names share the base name; normalising is idempotent; a name passes the dot check exactly when the base name has no dot |
| YandexServices.FindItem | A0Utils.Wpf/Services/YandexService.cs:288 | `FirstOrDefault` by name finds a listed item with that name, or none exists |
| YandexServices.FindItemFirst | A0Utils.Wpf/Services/YandexService.cs:288 | the item found is the first with that name |
| YandexServices.ItemLookup | A0Utils.Wpf/Services/YandexService.cs:278-293 | the license and description entries are found exactly when the base name has no dot and the listing has the normalised name |
| YandexServices.SaveBodySpec | A0Utils.Wpf/Services/YandexService.cs:297-319 | saving succeeds exactly when there is a body and the path can be created; a saved body is at the path in full with its progress reported, nothing else changes, and an unsaved one changes nothing |
| YandexServices.SaveStream | A0Utils.Wpf/Services/YandexService.cs:297-317 | the method's outcome, disk and reports are `SaveBody`'s |
| YandexServices.DownloadFile | A0Utils.Wpf/Services/YandexService.cs:295-325 | the method's result, disk and reports are `DownloadItem`'s |
| YandexServices.CombineInjective | A0Utils.Wpf/Services/YandexService.cs:354 | the license and description paths in one directory differ |
| YandexServices.ListingForSpec | A0Utils.Wpf/Services/YandexService.cs:126-140 | a live cache entry is used without a request; a fetched listing is cached for an hour; a failed fetch leaves the cache as it was |
| YandexServices.FetchLicenseFileFailure | A0Utils.Wpf/Services/YandexService.cs:142-146 | a failed license file is the result, and no description is fetched |
| YandexServices.FetchDescriptionFailure | A0Utils.Wpf/Services/YandexService.cs:147-160 | a failed description leaves the license file saved but gives the generic license error instead of its own |
| YandexServices.DescriptionErrorsDiffer | A0Utils.Wpf/Services/YandexService.cs:342-352 | no description error reads like the generic license error |
| YandexServices.FetchLicenseSuccess | A0Utils.Wpf/Services/YandexService.cs:142-153 | on success both files sit in the application directory under their normalised names, with the bytes their links streamed |
| YandexServices.DownloadItemSuccess | A0Utils.Wpf/Services/YandexService.cs:295-319 | a downloaded item is at `Combine(appPath, name)` with its bytes, and nothing else changed |
| YandexServices.DecodeFeed | A0Utils.Wpf/Services/YandexService.cs:237 | the feed decodes record by record through the converter, and fails exactly when one date cannot be read |
| YandexServices.FindSubscription | A0Utils.Wpf/Services/YandexService.cs:238 | `FirstOrDefault` by number: the first entry with the key, or none has it |
| YandexServices.SubscriptionKey | A0Utils.Wpf/Services/YandexService.cs:224-238 | the key is the base name without `.ISL` and without its leading zeros: a suffix that does not start with `0` |
| YandexServices.SubscribedUntilSpec | A0Utils.Wpf/Services/YandexService.cs:238-244 | the first entry for the key gives its date plus exactly 365 days; no entry gives `default` |
| YandexServices.SubscriptionSpec | A0Utils.Wpf/Services/YandexService.cs:229-253 | a missing or undecodable feed is the subscription error; otherwise the key is looked up |
| YandexServices.GetLicensesInfoSuccess | A0Utils.Wpf/Services/YandexService.cs:163-188 | a success holds the description text of the `.ild` entry, its A0 and ПИР dates, the subscription end, all real dates |
| YandexServices.ParseDescriptionSuccess | A0Utils.Wpf/Services/YandexService.cs:387-437 | the parsed description is the text of the `.ild` entry and the two dates read from it |
| YandexServices.SubscriptionValid | A0Utils.Wpf/Services/YandexService.cs:238-244 | a subscription end is a real date |
| YandexServices.GetLicensesInfoFailure | A0Utils.Wpf/Services/YandexService.cs:168-184 | each failure is that of the first step that fails, with its message |
| YandexServices.UpdatesByHttp | A0Utils.Wpf/Services/YandexService.cs:197-218 | a failure carries "Ошибка при получении обновленй" |
| YandexServices.GetUpdatesCaches | A0Utils.Wpf/Services/YandexService.cs:50-70 | a fetched catalog answers every call of the following hour, a failed fetch is not cached, and the result is the mapped catalog |
| YandexServices.AllUrlsStep | A0Utils.Wpf/Services/YandexService.cs:77-79 | the URLs are those of each update in turn |
| YandexServices.DownloadAllCons | A0Utils.Wpf/Services/YandexService.cs:79-109 | one URL downloaded, then the rest; a failure stops everything |
| YandexServices.DownloadAllFailure | A0Utils.Wpf/Services/YandexService.cs:114-118 | every failure carries the one message "Ошибка при скачивании обновлений" |
| YandexServices.DownloadAllPass | A0Utils.Wpf/Services/YandexService.cs:81-87 | success needs a download directory and, for every URL, item metadata whose link answers |
| YandexServices.DownloadAllLast | A0Utils.Wpf/Services/YandexService.cs:84-107 | after success the last URL's file is in the download directory under its item's name, with its whole body |
| YandexServices.DownloadAllNothing | A0Utils.Wpf/Services/YandexService.cs:77-112 | with no URLs the download is a success that changes nothing |
| YandexServices.AllUrlsEmpty | A0Utils.Wpf/Services/YandexService.cs:77-79 | updates without URLs give no URLs |
| YandexServices.DownloadUrls | A0Utils.Wpf/Services/YandexService.cs:79-109 | the inner loop does the first URLs' part of `DownloadAll` |
| YandexServices.DownloadUrl | A0Utils.Wpf/Services/YandexService.cs:81-107 | one pass of the inner loop is `DownloadOne` |
| YandexServices.DownloadEach | A0Utils.Wpf/Services/YandexService.cs:77-110 | the two loops compute `DownloadAll` of all URLs |
| YandexServices.YandexService.constructor | A0Utils.Wpf/Services/YandexService.cs:36-48 | the settings read once, empty caches, nothing reported |
| YandexServices.YandexService.GetUpdates | A0Utils.Wpf/Services/YandexService.cs:50-70 | result and cache are `GetUpdatesSpec`'s |
| YandexServices.YandexService.DownloadUpdates | A0Utils.Wpf/Services/YandexService.cs:72-119 | outcome, disk and progress are `DownloadAll`'s over every URL, prefixed with `YandexUrl` |
| YandexServices.YandexService.DownloadLicense | A0Utils.Wpf/Services/YandexService.cs:121-161 | result, disk, progress and cache are `DownloadLicenseSpec`'s |
| YandexServices.YandexService.FetchFiles | A0Utils.Wpf/Services/YandexService.cs:142-160 | the license file then the description, as `FetchLicense` |
| SettingsServices.LoadSettingsSpec | A0Utils.Wpf/Services/SettingsService.cs:50-74 | no readable record gives empty settings; a readable one keeps every field and gets the profile's `Downloads` folder when its download path is empty |
| SettingsServices.LoadSaved | A0Utils.Wpf/Services/SettingsService.cs:50-95 | a saved record with a download path reads back exactly |
| SettingsServices.UpdateDownloadPathReadsBack | A0Utils.Wpf/Services/SettingsService.cs:22-34 | after `UpdateDownloadPath(p)` the settings read back differ only in the path |
| SettingsServices.SaveWithoutDownloadPathReadsBack | A0Utils.Wpf/Services/SettingsService.cs:36-48 | after `SaveWithoutDownloadPath(s)` the settings read back are `s` with the earlier path |
| SettingsServices.SettingsService.Save | A0Utils.Wpf/Services/SettingsService.cs:76-95 | the file holds the new record, or is unchanged when it cannot be written |
| SettingsServices.SettingsService.UpdateDownloadPath | A0Utils.Wpf/Services/SettingsService.cs:22-34 | the current settings are saved with only the path replaced |
| SettingsServices.SettingsService.SaveWithoutDownloadPath | A0Utils.Wpf/Services/SettingsService.cs:36-48 | the record is saved with the current download path, which the caller's record also gets |
| LicenseViewModels.LicenseEntriesSpec | A0Utils.Wpf/ViewModels/LicenseViewModel.cs:102-106 | the list holds each found file name once, none checked, and is empty only when nothing was found |
| LicenseViewModels.PaddedNumberSpec | A0Utils.Wpf/ViewModels/LicenseViewModel.cs:194-197 | a number shorter than 8 is zero-padded to 8, a longer one is unchanged, and padding twice is padding once |
| LicenseViewModels.DownloadAndCopySpec | A0Utils.Wpf/ViewModels/LicenseViewModel.cs:219-235 | a failed download touches nothing; a success names a file that every destination now holds, read-only flag cleared |
| LicenseViewModels.UpdateAllAppend | A0Utils.Wpf/ViewModels/LicenseViewModel.cs:141-144 | updating a list is updating its parts in turn |
| LicenseViewModels.UpdateAllSkips | A0Utils.Wpf/ViewModels/LicenseViewModel.cs:141-144 | a license whose download fails does not affect the others |
| LicenseViewModels.LicenseViewModel.constructor | A0Utils.Wpf/ViewModels/LicenseViewModel.cs:26-41 | the installation path from the settings, then `FindAllLicenses` |
| LicenseViewModels.LicenseViewModel.FindAllLicenses | A0Utils.Wpf/ViewModels/LicenseViewModel.cs:88-120 | the list of installed licenses, or the not-found or not-installed message |
| LicenseViewModels.LicenseViewModel.DownloadAndCopyLicense | A0Utils.Wpf/ViewModels/LicenseViewModel.cs:216-236 | the copy into every license directory, and busy stays set only after a failed download |
| LicenseViewModels.LicenseViewModel.UpdateLicenses | A0Utils.Wpf/ViewModels/LicenseViewModel.cs:131-153 | every listed license downloaded and copied in order, then "Лицензии обновлены!"; the error message for a missing or empty list |
| LicenseViewModels.LicenseViewModel.AddLicense | A0Utils.Wpf/ViewModels/LicenseViewModel.cs:178-214 | the guards' messages; else the padded number downloaded, copied and appended to the list, or the error shown |
| MainViewModels.ExpTextSpec | A0Utils.Wpf/ViewModels/MainViewModel.cs:154-164 | only `default(DateTime)` shows the "absent" text; another date shows the lead-in and a text that parses back to it |
| MainViewModels.NoSeparatorAppend | A0Utils.Wpf/Services/YandexService.cs:278-281 | joining two separator-free names gives one |
| MainViewModels.PlainFileNames | A0Utils.Wpf/Services/YandexService.cs:333-340 | a plain license name gives two plain, distinct file names |
| MainViewModels.LicenseInPlace | A0Utils.Wpf/ViewModels/MainViewModel.cs:304-318 | after a download and copy that succeed, every destination holds the license file with the bytes its link streamed |
| MainViewModels.FoundSpec | A0Utils.Wpf/ViewModels/MainViewModel.cs:281-289 | a new list holds each installed license file's name once |
| MainViewModels.SelectedSpec | A0Utils.Wpf/ViewModels/MainViewModel.cs:202-207 | the updates downloaded are exactly the checked ones, and none only when nothing is checked |
| MainViewModels.MainViewModel.constructor | A0Utils.Wpf/ViewModels/MainViewModel.cs:29-48 | the installation path and download path from the settings, then `FindAllLicenses` |
| MainViewModels.MainViewModel.FindAllLicenses | A0Utils.Wpf/ViewModels/MainViewModel.cs:274-302 | the distinct names of the installed licenses, or the not-found or not-installed message |
| MainViewModels.MainViewModel.DownloadAndCopyLicense | A0Utils.Wpf/ViewModels/MainViewModel.cs:304-319 | the license downloaded, then both files copied into place; the first failure is the result |
| MainViewModels.MainViewModel.ShowLicenseInfo | A0Utils.Wpf/ViewModels/MainViewModel.cs:147-182 | the license information, the three texts, then the catalog filtered for the license, with the first failure shown |
| MainViewModels.MainViewModel.GetLicenseInfo | A0Utils.Wpf/ViewModels/MainViewModel.cs:128-189 | the list cleared, the selection checked, and each step's failure shown before the later steps run |
| MainViewModels.MainViewModel.DownloadSelected | A0Utils.Wpf/ViewModels/MainViewModel.cs:200-217 | the checked updates downloaded to the download path, with a message for nothing checked, for failure and for success |

## Left out

- HTTP and JSON transport are not modelled. `Remote` gives each endpoint's answer as
  data: the catalog, the folder listing, item metadata, bodies as chunk sequences, and
  texts already decoded. `GetUpdatesByHttp` and `GetLicenseResource` are therefore
  lookups in `Remote`.
- windows-1251 decoding is not modelled: a description's text is given as decoded.
- `IMemoryCache` is reduced to one entry per key with an absolute expiry. The clock is the
  `now` parameter.
- The regex engine is not modelled. Each pattern the core uses is written as a scanner and
  proved against the pattern.
- Text.IsDigit: `\d` in .NET matches every Unicode decimal digit (category Nd), but the
  model accepts only `0`-`9`. A date written in other digits is not modelled;
  `DateTime.TryParse` would reject it after the regex had matched. windows-1251 decodes
  to no other decimal digit, so a downloaded description never contains one.
- FileSystems.CopyFile and FileSystems.CreateFile fail only for the reasons the
  attributes and the directory set give. Locked files, missing permissions, a full disk
  and paths that name a directory are not modelled.
- `DateTime.TryParse` depends on the culture. The model accepts only the Russian
  `dd.MM.yyyy` form; other forms TryParse would accept are not modelled.
- Dates.ParseDate: accepts only `dd.MM.yyyy` with two-digit day and month, a narrower
  language than `DateTime.TryParse`.
- The user interface is not modelled: the settings and license dialogs, `SaveTo`'s folder
  picker, property-change notifications, and `DownloadProgress` binding to the view.
  A dialog is the view model's `lastMessage`.
- Logging is not modelled. It has no effect on results.
- Windows path rules are reduced to `\` and `/` separators. Drive letters, rooted names
  and invalid characters in `Path.Combine`, `GetFileName` and `GetDirectoryName` are not
  modelled.
- Directory walks have a fixed order and outcome given by the `FileSystem`. That covers
  `Directory.EnumerateFiles` and `Directory.GetDirectories`; the exceptions
  `GetDirectories` may throw are not modelled.
- A stream that fails partway is not modelled. The file it leaves half-written, and its
  exception, are left out too.
- Progress uses a `long` for the bytes read. Overflow of that `long` is not modelled; the
  `(int)` cast of the percentage is (`Streams.Int32`).
- A listing whose `_embedded` is `null` is not modelled. A failed listing fetch is.
- LicenseViewModels.LicenseViewModel.DownloadAndCopyLicense: the download is an abstract
  function from the name to a saved path or an error. `ViewModels/LicenseViewModel.cs`
  treats `DownloadLicense` as returning the path of one file, while
  `Services/YandexService.cs` returns a `DownloadModel` with two. So the dialog's download
  is not tied to `YandexServices`, and its effects on the disk, the listing cache and the
  progress reports are not modelled.
- An unset `A0InstallationPath` is modelled as the empty path.
- `UpdateService`, `App` start-up and dependency wiring, and `AssemblyHelpers` are not
  modelled: they are outside the core.
- FileSystems.FileSystem.SetAttributes: the exceptions `File.SetAttributes` can throw are
  not modelled. It is called only on a file that exists.
- The `IsNullOrEmpty(FindPrices(...))` test in `ApplyFilter` does not type-check as written.
  It is modelled as the evident test "the header was found" (`UpdateModels.PricesFound`).
- MainViewModels.MainViewModel.DownloadSelected: with no update list, `Where` throws and
  the exception is not caught. The model states only that nothing changes, with no
  message.
- Concurrency is not modelled. The `async` commands run to completion one at a time.
