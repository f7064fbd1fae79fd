/** The data-only classes of the program, as values. A C# `string` property that may be
    `null` (a freshly constructed settings record, say) is an `Option<string>`. */
module Models {
  import opened Wrappers
  import opened Dates

  /** `SettingsModel`, the record stored in `settings.json`. */
  datatype SettingsModel = SettingsModel(
    a0InstallationPath: Option<string>,
    yandexUrl: Option<string>,
    licenseUrl: Option<string>,
    subscriptionUrl: Option<string>,
    updatesUrl: Option<string>,
    downloadUpdatesPath: Option<string>)

  /** `new SettingsModel()`: every property unset. */
  const EmptySettings := SettingsModel(None, None, None, None, None, None)

  /** `LicenseInfoModel`: the description text and the three expiry dates read from it;
      `MinDate` (`default(DateTime)`) stands for an absent license. */
  datatype LicenseInfoModel = LicenseInfoModel(
    content: string,
    a0LicenseExpAt: Date,
    pirLicenseExpAt: Date,
    subscriptionLicenseExpAt: Date)

  /** `LicensesExpModel` */
  datatype LicensesExpModel = LicensesExpModel(
    a0LicenseExpAt: Date,
    pirLicenseExpAt: Date,
    subscriptionLicenseExpAt: Date)

  /** `PriceModel`: `Name` is `null` until a header is seen. */
  datatype PriceModel = PriceModel(name: Option<string>, dates: seq<(Date, Date)>)

  /** `LicenseModel`: a license file found on disk, split into name and directory. */
  datatype LicenseModel = LicenseModel(fileName: string, directoryPath: string)

  /** `UpdateLicenseModel`: an entry of the license dialog's list. */
  datatype UpdateLicenseModel = UpdateLicenseModel(name: string, isSelected: bool)

  /** `SubscriptionModel`: one entry of the subscription feed. */
  datatype SubscriptionModel = SubscriptionModel(number: string, date: Date)

  /** The dialog `MessageDialogHelper` last showed: an error or an information box with
      its text. */
  datatype Message = Error(text: string) | Info(text: string)

  /** `DownloadModel`: where `DownloadLicense` saved the license and its description. */
  datatype DownloadModel = DownloadModel(licensePath: string, descriptionPath: string)
}

/** `LicenseStatus`, which only the status-to-brush converter reads. */
module LicenseStatuses {
  datatype LicenseStatus = None | Warning
}
