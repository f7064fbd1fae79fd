/** The update catalog and its filtering against a license description
    (`UpdateModelExtensions`).

    `UpdateModel` is a value here. The program's lists of update models are produced by the
    lazy `Select` of `MapToUpdateModels`, so every enumeration of the catalog yields fresh
    objects and the in-place renaming of `UpdateText` touches only the list it is given;
    that list is an array of records in this model. */
module UpdateModels {
  import opened Wrappers
  import opened Text
  import opened Dates
  import opened Models
  import opened ParseHelpers

  const CategoryA0 := "A0"
  const CategoryPir := "ПИР"
  const CategoryNsi := "Базы НСИ"
  const CategoryPrices := "Справочники цен"
  const CategoryTables := "Таблицы"
  const ExpiredSuffix := " (Лицензия истекла)"

  /** A catalog record as the update feed delivers it. */
  datatype YandexUpdateModel = YandexUpdateModel(
    name: string, keyType: string, category: string, urls: seq<string>, index: string, date: string)

  /** A catalog record as the main window lists it, with its check box. */
  datatype UpdateModel = UpdateModel(
    name: string, keyType: string, category: string, urls: seq<string>, index: string, date: string,
    isSelected: bool)

  function ToUpdateModel(y: YandexUpdateModel): UpdateModel {
    UpdateModel(y.name, y.keyType, y.category, y.urls, y.index, y.date, false)
  }

  /** The catalog record an update model was made from. */
  function ToYandexUpdateModel(u: UpdateModel): YandexUpdateModel {
    YandexUpdateModel(u.name, u.keyType, u.category, u.urls, u.index, u.date)
  }

  /** `MapToUpdateModels`: one update model per record, in order, with all six fields
      copied and the check box clear. */
  function MapToUpdateModels(ys: seq<YandexUpdateModel>): (r: seq<UpdateModel>)
    ensures |r| == |ys|
    ensures forall i :: 0 <= i < |ys| ==>
      r[i].name == ys[i].name && r[i].keyType == ys[i].keyType && r[i].category == ys[i].category
      && r[i].urls == ys[i].urls && r[i].index == ys[i].index && r[i].date == ys[i].date
      && !r[i].isSelected
  {
    if ys == [] then [] else [ToUpdateModel(ys[0])] + MapToUpdateModels(ys[1..])
  }

  function ToYandexUpdateModels(us: seq<UpdateModel>): (r: seq<YandexUpdateModel>)
    ensures |r| == |us|
  {
    if us == [] then [] else [ToYandexUpdateModel(us[0])] + ToYandexUpdateModels(us[1..])
  }

  /** The mapping loses nothing: the catalog can be read back from the update models. */
  lemma {:induction false} MapToUpdateModelsRoundTrip(ys: seq<YandexUpdateModel>)
    ensures ToYandexUpdateModels(MapToUpdateModels(ys)) == ys
  {
    if ys != [] {
      MapToUpdateModelsRoundTrip(ys[1..]);
      assert MapToUpdateModels(ys)[1..] == MapToUpdateModels(ys[1..]);
    }
  }

  /** The mapping works record by record: it commutes with concatenation. */
  lemma {:induction false} MapToUpdateModelsAppend(a: seq<YandexUpdateModel>, b: seq<YandexUpdateModel>)
    ensures MapToUpdateModels(a + b) == MapToUpdateModels(a) + MapToUpdateModels(b)
  {
    if a == [] {
      assert a + b == b;
    } else {
      assert (a + b)[1..] == a[1..] + b;
      MapToUpdateModelsAppend(a[1..], b);
    }
  }

  // ---------------------------------------------------------------------------------------
  // UpdateText
  // ---------------------------------------------------------------------------------------

  /** The update's own date parses and is later than the license's expiry. */
  predicate IsExpired(u: UpdateModel, expiry: Date) {
    var d := ParseDate(u.date, '.');
    d.Some? && Before(expiry, d.value)
  }

  /** One step of `UpdateText`'s loop. */
  function Stamped(u: UpdateModel, expiry: Date): UpdateModel {
    if IsExpired(u, expiry) then u.(name := u.name + ExpiredSuffix) else u
  }

  /** The suffix is added once, exactly to the expired updates, and nothing but the name
      changes. */
  lemma StampedSpec(u: UpdateModel, expiry: Date)
    ensures IsExpired(u, expiry) ==> Stamped(u, expiry).name == u.name + ExpiredSuffix
    ensures !IsExpired(u, expiry) ==> Stamped(u, expiry) == u
    ensures Stamped(u, expiry).(name := u.name) == u
  {
  }

  function StampAll(us: seq<UpdateModel>, expiry: Date): (r: seq<UpdateModel>)
    ensures |r| == |us|
  {
    seq(|us|, i requires 0 <= i < |us| => Stamped(us[i], expiry))
  }

  /** `UpdateText`: renames the expired updates in place and returns the same list. */
  method UpdateText(updates: array<UpdateModel>, licenseExpDate: Date) returns (r: array<UpdateModel>)
    modifies updates
    ensures r == updates
    ensures updates[..] == StampAll(old(updates[..]), licenseExpDate)
  {
    var i := 0;
    while i < updates.Length
      invariant 0 <= i <= updates.Length
      invariant forall k :: 0 <= k < i ==> updates[k] == Stamped(old(updates[k]), licenseExpDate)
      invariant forall k :: i <= k < updates.Length ==> updates[k] == old(updates[k])
    {
      var update := updates[i];
      var updateDate := ParseDate(update.date, '.');
      if updateDate.Some? {
        if Before(licenseExpDate, updateDate.value) {
          updates[i] := update.(name := update.name + ExpiredSuffix);
        }
      }
      i := i + 1;
    }
    r := updates;
  }

  /** A list of update models as a fresh array, for `UpdateText` to work on. */
  method ToArray(s: seq<UpdateModel>) returns (a: array<UpdateModel>)
    ensures fresh(a) && a[..] == s
  {
    a := new UpdateModel[|s|](i requires 0 <= i < |s| => s[i]);
  }

  // ---------------------------------------------------------------------------------------
  // ApplyFilter
  // ---------------------------------------------------------------------------------------

  function InCategory(c: string): UpdateModel -> bool {
    (u: UpdateModel) => u.category == c
  }

  /** The A0 or ПИР updates of the detected key type. */
  function OfKeyType(keyType: string, c: string): UpdateModel -> bool {
    (u: UpdateModel) => u.keyType == keyType && u.category == c
  }

  /** Updates of category `c` whose name is listed. */
  function NameListed(c: string, names: seq<string>): UpdateModel -> bool {
    (u: UpdateModel) => u.category == c && u.name in names
  }

  /** Updates of category `c` whose index is in the set. */
  function IndexListed(c: string, indexes: set<string>): UpdateModel -> bool {
    (u: UpdateModel) => u.category == c && u.index in indexes
  }

  function Names(us: seq<UpdateModel>): (r: seq<string>)
    ensures |r| == |us| && forall i :: 0 <= i < |us| ==> r[i] == us[i].name
  {
    seq(|us|, i requires 0 <= i < |us| => us[i].name)
  }

  function Indexes(us: seq<UpdateModel>): (r: seq<string>)
    ensures |r| == |us| && forall i :: 0 <= i < |us| ==> r[i] == us[i].index
  {
    seq(|us|, i requires 0 <= i < |us| => us[i].index)
  }

  /** `FindNsi` finds a line for the name. */
  function NsiFound(data: seq<string>): string -> bool {
    (name: string) => FindNsi(data, name) != []
  }

  /** `FindPrices` found the header for the index. */
  function PricesFound(data: seq<string>): string -> bool {
    (index: string) => PricesOf(data, index).name.Some?
  }

  /** `nisFilter`: the НСИ names that `FindNsi` finds, in catalog order. */
  function NsiFilter(models: seq<UpdateModel>, data: seq<string>): seq<string> {
    Filter(Names(Filter(models, InCategory(CategoryNsi))), NsiFound(data))
  }

  /** `pricesFilter`: the price-book indexes whose header `FindPrices` finds. */
  function PricesFilter(models: seq<UpdateModel>, data: seq<string>): set<string> {
    set index | index in Indexes(Filter(models, InCategory(CategoryPrices))) && PricesFound(data)(index)
  }

  /** What `ApplyFilter` computes, group by group as the source builds it. */
  function ApplyFilterSpec(models: seq<UpdateModel>, info: LicenseInfoModel): Result<seq<UpdateModel>> {
    var data := SplitLines(info.content);
    match FindLicenseType(data)
    case Failure(e) => Failure(e)
    case Success(keyType) =>
      Success(
        StampAll(Filter(models, OfKeyType(keyType, CategoryA0)), info.a0LicenseExpAt)
        + StampAll(Filter(models, OfKeyType(keyType, CategoryPir)), info.pirLicenseExpAt)
        + Filter(models, NameListed(CategoryNsi, NsiFilter(models, data)))
        + Filter(models, IndexListed(CategoryPrices, PricesFilter(models, data)))
        + Filter(models, InCategory(CategoryTables)))
  }

  /** The first loop of `ApplyFilter`: the names `FindNsi` finds, in order. */
  method CollectNsiFilter(data: seq<string>, nsiNames: seq<string>) returns (nisFilter: seq<string>)
    ensures nisFilter == Filter(nsiNames, NsiFound(data))
  {
    nisFilter := [];
    var k := 0;
    while k < |nsiNames|
      invariant 0 <= k <= |nsiNames|
      invariant nisFilter == Filter(nsiNames[..k], NsiFound(data))
    {
      var result := FindNsi(data, nsiNames[k]);
      if result != [] {
        nisFilter := nisFilter + [nsiNames[k]];
      }
      assert nsiNames[..k + 1][..k] == nsiNames[..k];
      k := k + 1;
    }
    assert nsiNames[..k] == nsiNames;
  }

  /** The second loop of `ApplyFilter`: the set of indexes whose header `FindPrices` finds. */
  method CollectPricesFilter(data: seq<string>, pricesNames: seq<string>) returns (pricesFilter: set<string>)
    ensures pricesFilter == set index | index in pricesNames && PricesFound(data)(index)
  {
    pricesFilter := {};
    var k := 0;
    while k < |pricesNames|
      invariant 0 <= k <= |pricesNames|
      invariant pricesFilter == set index | index in pricesNames[..k] && PricesFound(data)(index)
    {
      var result := FindPrices(data, pricesNames[k]);
      if result.name.Some? {
        pricesFilter := pricesFilter + {pricesNames[k]};
      }
      assert pricesNames[..k + 1] == pricesNames[..k] + [pricesNames[k]];
      k := k + 1;
    }
    assert pricesNames[..k] == pricesNames;
  }

  /** `ApplyFilter`, with its two loops that fill the НСИ and price filters. */
  method ApplyFilter(models: seq<UpdateModel>, licenseInfo: LicenseInfoModel) returns (r: Result<seq<UpdateModel>>)
    ensures r == ApplyFilterSpec(models, licenseInfo)
  {
    var data := SplitLines(licenseInfo.content);

    var nsiNames := Names(Filter(models, InCategory(CategoryNsi)));
    var nisFilter := CollectNsiFilter(data, nsiNames);

    var licenseTypeResult := FindLicenseType(data);
    if licenseTypeResult.Failure? {
      return Failure(licenseTypeResult.error);
    }
    var keyType := licenseTypeResult.value;

    var pricesNames := Indexes(Filter(models, InCategory(CategoryPrices)));
    var pricesFilter := CollectPricesFilter(data, pricesNames);

    var a0 := ToArray(Filter(models, OfKeyType(keyType, CategoryA0)));
    var pir := ToArray(Filter(models, OfKeyType(keyType, CategoryPir)));
    var nsi := Filter(models, NameListed(CategoryNsi, nisFilter));
    var prices := Filter(models, IndexListed(CategoryPrices, pricesFilter));
    var tables := Filter(models, InCategory(CategoryTables));

    var stampedA0 := UpdateText(a0, licenseInfo.a0LicenseExpAt);
    ghost var a0Items := stampedA0[..];
    var stampedPir := UpdateText(pir, licenseInfo.pirLicenseExpAt);
    assert stampedA0[..] == a0Items;
    var filteredCollection: seq<UpdateModel> := [];
    filteredCollection := filteredCollection + stampedA0[..];
    assert filteredCollection == a0Items;
    filteredCollection := filteredCollection + stampedPir[..];
    filteredCollection := filteredCollection + nsi;
    filteredCollection := filteredCollection + prices;
    filteredCollection := filteredCollection + tables;
    r := Success(filteredCollection);
  }

  /** The filter fails exactly when no line of the description names a key type, and then
      with `FindLicenseType`'s error. */
  lemma ApplyFilterFails(models: seq<UpdateModel>, info: LicenseInfoModel)
    ensures ApplyFilterSpec(models, info).Failure? <==>
      forall line <- SplitLines(info.content) :: !Contains(line, Sentinel)
    ensures ApplyFilterSpec(models, info).Failure? ==>
      ApplyFilterSpec(models, info).error == LicenseTypeError
  {
  }

  /** The НСИ filter lists exactly the НСИ names that `FindNsi` finds. */
  lemma NsiFilterMembers(models: seq<UpdateModel>, data: seq<string>, name: string)
    ensures name in NsiFilter(models, data) <==>
      (exists u <- models :: u.category == CategoryNsi && u.name == name) && FindNsi(data, name) != []
  {
    var nsi := Filter(models, InCategory(CategoryNsi));
    FilterMembers(Names(nsi), NsiFound(data), name);
    if name in Names(nsi) {
      var i :| 0 <= i < |nsi| && Names(nsi)[i] == name;
      FilterMembers(models, InCategory(CategoryNsi), nsi[i]);
    }
    if exists u <- models :: u.category == CategoryNsi && u.name == name {
      var u :| u in models && u.category == CategoryNsi && u.name == name;
      FilterMembers(models, InCategory(CategoryNsi), u);
      var i :| 0 <= i < |nsi| && nsi[i] == u;
      assert Names(nsi)[i] == name;
    }
  }

  /** The price filter holds exactly the price-book indexes whose header is found. */
  lemma PricesFilterMembers(models: seq<UpdateModel>, data: seq<string>, index: string)
    ensures index in PricesFilter(models, data) <==>
      (exists u <- models :: u.category == CategoryPrices && u.index == index) && PricesFound(data)(index)
  {
    var prices := Filter(models, InCategory(CategoryPrices));
    if index in Indexes(prices) {
      var i :| 0 <= i < |prices| && Indexes(prices)[i] == index;
      FilterMembers(models, InCategory(CategoryPrices), prices[i]);
    }
    if exists u <- models :: u.category == CategoryPrices && u.index == index {
      var u :| u in models && u.category == CategoryPrices && u.index == index;
      FilterMembers(models, InCategory(CategoryPrices), u);
      var i :| 0 <= i < |prices| && prices[i] == u;
      assert Indexes(prices)[i] == index;
    }
  }

  function NsiKept(data: seq<string>): UpdateModel -> bool {
    (u: UpdateModel) => u.category == CategoryNsi && FindNsi(data, u.name) != []
  }

  function PricesKept(data: seq<string>): UpdateModel -> bool {
    (u: UpdateModel) => u.category == CategoryPrices && PricesOf(data, u.index).name.Some?
  }

  /** On success the result is, in this order and each in catalog order: the A0 updates of
      the detected key type stamped against the A0 expiry, the ПИР updates of that key type
      stamped against the ПИР expiry, the НСИ updates whose name `FindNsi` finds, the price
      books whose header `FindPrices` finds, and every table. */
  lemma ApplyFilterGroups(models: seq<UpdateModel>, info: LicenseInfoModel)
    requires ApplyFilterSpec(models, info).Success?
    ensures var data := SplitLines(info.content);
      var keyType := FindLicenseType(data).value;
      ApplyFilterSpec(models, info).value ==
        StampAll(Filter(models, OfKeyType(keyType, CategoryA0)), info.a0LicenseExpAt)
        + StampAll(Filter(models, OfKeyType(keyType, CategoryPir)), info.pirLicenseExpAt)
        + Filter(models, NsiKept(data))
        + Filter(models, PricesKept(data))
        + Filter(models, InCategory(CategoryTables))
  {
    var data := SplitLines(info.content);
    forall u <- models
      ensures NameListed(CategoryNsi, NsiFilter(models, data))(u) == NsiKept(data)(u)
    {
      NsiFilterMembers(models, data, u.name);
    }
    FilterCongruent(models, NameListed(CategoryNsi, NsiFilter(models, data)), NsiKept(data));
    forall u <- models
      ensures IndexListed(CategoryPrices, PricesFilter(models, data))(u) == PricesKept(data)(u)
    {
      PricesFilterMembers(models, data, u.index);
    }
    FilterCongruent(models, IndexListed(CategoryPrices, PricesFilter(models, data)), PricesKept(data));
  }

  /** Only the five categories reach the result, and no A0 or ПИР update of another key
      type does: every update in the result comes from the catalog, at most renamed. */
  lemma ApplyFilterMembers(models: seq<UpdateModel>, info: LicenseInfoModel, v: UpdateModel)
    requires ApplyFilterSpec(models, info).Success? && v in ApplyFilterSpec(models, info).value
    ensures exists u <- models :: v.(name := u.name) == u
    ensures v.category in {CategoryA0, CategoryPir, CategoryNsi, CategoryPrices, CategoryTables}
    ensures v.category == CategoryA0 || v.category == CategoryPir ==>
      v.keyType == FindLicenseType(SplitLines(info.content)).value
  {
    var data := SplitLines(info.content);
    var keyType := FindLicenseType(data).value;
    var a0 := Filter(models, OfKeyType(keyType, CategoryA0));
    var pir := Filter(models, OfKeyType(keyType, CategoryPir));
    var nsi := Filter(models, NameListed(CategoryNsi, NsiFilter(models, data)));
    var prices := Filter(models, IndexListed(CategoryPrices, PricesFilter(models, data)));
    var tables := Filter(models, InCategory(CategoryTables));
    var sa := StampAll(a0, info.a0LicenseExpAt);
    var sp := StampAll(pir, info.pirLicenseExpAt);
    assert ApplyFilterSpec(models, info).value == sa + sp + nsi + prices + tables;
    if v in sa {
      var i :| 0 <= i < |sa| && sa[i] == v;
      FilterMembers(models, OfKeyType(keyType, CategoryA0), a0[i]);
      StampedSpec(a0[i], info.a0LicenseExpAt);
    } else if v in sp {
      var i :| 0 <= i < |sp| && sp[i] == v;
      FilterMembers(models, OfKeyType(keyType, CategoryPir), pir[i]);
      StampedSpec(pir[i], info.pirLicenseExpAt);
    } else if v in nsi {
      FilterMembers(models, NameListed(CategoryNsi, NsiFilter(models, data)), v);
      assert v.(name := v.name) == v;
    } else if v in prices {
      FilterMembers(models, IndexListed(CategoryPrices, PricesFilter(models, data)), v);
      assert v.(name := v.name) == v;
    } else {
      assert v in tables;
      FilterMembers(models, InCategory(CategoryTables), v);
      assert v.(name := v.name) == v;
    }
  }

  /** Every table of the catalog is offered whatever the license says. */
  lemma ApplyFilterKeepsTables(models: seq<UpdateModel>, info: LicenseInfoModel, u: UpdateModel)
    requires ApplyFilterSpec(models, info).Success?
    requires u in models && u.category == CategoryTables
    ensures u in ApplyFilterSpec(models, info).value
  {
    FilterMembers(models, InCategory(CategoryTables), u);
  }
}
