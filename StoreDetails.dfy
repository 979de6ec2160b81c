/**
 * The store-details step of the profile wizard: the form's initial values,
 * the currency derived from the chosen country, the general-settings payload
 * and profile update sent on continue, the step's outcome, and the usage
 * modal's two flags.
 *
 * `getCurrencyRegion` is a function argument and `getCurrencyData` a table;
 * the store calls, the currency context and the navigation are returned as
 * effects in the order `onContinue` performs them.
 */
module StoreDetails {
  import opened Wrappers

  /** The general settings as the settings store holds them. */
  type Settings = map<string, string>

  const StoreAddress: string := "woocommerce_store_address"
  const StoreAddress2: string := "woocommerce_store_address_2"
  const StoreCity: string := "woocommerce_store_city"
  const DefaultCountry: string := "woocommerce_default_country"
  const StorePostcode: string := "woocommerce_store_postcode"
  const CurrencyCode: string := "woocommerce_currency"
  const CurrencyPos: string := "woocommerce_currency_pos"
  const ThousandSep: string := "woocommerce_price_thousand_sep"
  const DecimalSep: string := "woocommerce_price_decimal_sep"
  const NumDecimals: string := "woocommerce_price_num_decimals"

  /** The ten setting names differ pairwise. */
  lemma KeysDistinct()
    ensures StoreAddress !in {StoreAddress2, StoreCity, DefaultCountry, StorePostcode} + CurrencyKeys
    ensures StoreAddress2 !in {StoreCity, DefaultCountry, StorePostcode} + CurrencyKeys
    ensures StoreCity !in {DefaultCountry, StorePostcode} + CurrencyKeys
    ensures DefaultCountry !in {StorePostcode} + CurrencyKeys
    ensures StorePostcode !in CurrencyKeys
    ensures CurrencyCode !in {CurrencyPos, ThousandSep, DecimalSep, NumDecimals}
    ensures CurrencyPos !in {ThousandSep, DecimalSep, NumDecimals}
    ensures ThousandSep !in {DecimalSep, NumDecimals}
    ensures DecimalSep != NumDecimals
  {
    assert |StoreAddress| == 25 && |StoreAddress2| == 27 && |StoreCity| == 22 && |DefaultCountry| == 27;
    assert |StorePostcode| == 26 && |CurrencyCode| == 20 && |CurrencyPos| == 24;
    assert |ThousandSep| == 30 && |DecimalSep| == 29 && |NumDecimals| == 30;
    assert StoreAddress2[12] == 's' && DefaultCountry[12] == 'd';
    assert ThousandSep[18] == 't' && NumDecimals[18] == 'n';
  }

  /** The five address settings the step writes. */
  const AddressKeys: set<string> := {StoreAddress, StoreAddress2, DefaultCountry, StoreCity, StorePostcode}

  /** The five currency settings the step writes. */
  const CurrencyKeys: set<string> := {CurrencyCode, CurrencyPos, ThousandSep, DecimalSep, NumDecimals}

  /** The industry slug that is only offered to stores in the US. */
  const CbdSlug: string := "cbd-other-hemp-derived-products"

  /** The region whose currency is the fallback. */
  const UsRegion: string := "US"

  /** An industry choice: a bare slug, or a record whose `slug` may be absent. */
  datatype Industry = Named(name: string) | Chosen(slug: Option<string>, detail: string)

  /** The onboarding profile items the step reads. */
  datatype ProfileItems = ProfileItems(setupClient: Option<bool>, industry: Option<seq<Industry>>)

  /** The form's fields. */
  datatype FormValues = FormValues(
    addressLine1: string,
    addressLine2: string,
    city: string,
    countryState: string,
    postCode: string,
    isClient: bool)

  /** One entry of the currency table. */
  datatype Currency = Currency(
    code: string,
    symbolPosition: string,
    thousandSeparator: string,
    decimalSeparator: string,
    precision: int)

  /** A value in the settings payload: the settings are strings, the precision a number. */
  datatype Setting = Text(text: string) | Number(number: int)

  /** The profile update: `setup_client`, and `industry` only when it was trimmed. */
  datatype ProfileUpdate = ProfileUpdate(setupClient: bool, industry: Option<seq<Industry>>)

  /** What `onContinue` does, in order. */
  datatype Effect =
    | SetCurrency(currency: Currency)
    | PersistSettings(group: string, general: map<string, Setting>)
    | UpdateProfileItems(update: ProfileUpdate)
    | GoToNextStep
    | CreateNotice(status: string, message: string)

  const SaveErrorMessage: string := "There was a problem saving your store details."

  /** What the usage modal's continue button does. */
  datatype ModalAction = SkipProfiler | Continued(effects: seq<Effect>)

  /** A setting is truthy when it is present and not the empty string. */
  predicate IsSet(settings: Settings, key: string) {
    key in settings && settings[key] != ""
  }

  /** `settings[key] || ''`. */
  function SettingOr(settings: Settings, key: string): (r: string)
    ensures key in settings ==> r == settings[key]
    ensures key !in settings ==> r == ""
  {
    if IsSet(settings, key) then settings[key] else ""
  }

  /** The default country counts only when a store address is set too. */
  function CountryState(settings: Settings): (r: string)
    ensures r != "" <==> IsSet(settings, StoreAddress) && IsSet(settings, DefaultCountry)
    ensures r != "" ==> r == settings[DefaultCountry]
  {
    if IsSet(settings, StoreAddress) then SettingOr(settings, DefaultCountry) else ""
  }

  /** The form's initial values. */
  function InitialValues(settings: Settings, profileItems: ProfileItems): (v: FormValues)
    ensures v.addressLine1 == SettingOr(settings, StoreAddress)
    ensures v.addressLine2 == SettingOr(settings, StoreAddress2)
    ensures v.city == SettingOr(settings, StoreCity)
    ensures v.postCode == SettingOr(settings, StorePostcode)
    ensures v.countryState == CountryState(settings)
    ensures v.isClient <==> profileItems.setupClient == Some(true)
  {
    FormValues(
      SettingOr(settings, StoreAddress),
      SettingOr(settings, StoreAddress2),
      SettingOr(settings, StoreCity),
      CountryState(settings),
      SettingOr(settings, StorePostcode),
      profileItems.setupClient.GetOr(false))
  }

  /**
   * `deriveCurrencySettings`: no currency for an empty country; otherwise
   * the region's entry, falling back to the US entry.
   */
  function DeriveCurrency(countryState: string, getRegion: string -> string,
                          currencyData: map<string, Currency>): (r: Option<Currency>)
    ensures countryState == "" ==> r.None?
    ensures r.Some? ==> r.value in currencyData.Values
    ensures countryState != "" && getRegion(countryState) in currencyData ==>
      r == Some(currencyData[getRegion(countryState)])
    ensures countryState != "" && getRegion(countryState) !in currencyData && UsRegion in currencyData ==>
      r == Some(currencyData[UsRegion])
    ensures r.None? <==>
      countryState == "" || (getRegion(countryState) !in currencyData && UsRegion !in currencyData)
  {
    if countryState == "" then None
    else if getRegion(countryState) in currencyData then Some(currencyData[getRegion(countryState)])
    else if UsRegion in currencyData then Some(currencyData[UsRegion])
    else None
  }

  /** The filter's test: the industry is the CBD slug, or a record with that slug. */
  predicate IsCbd(i: Industry) {
    match i
    case Named(name) => name == CbdSlug
    case Chosen(slug, _) => slug == Some(CbdSlug)
  }

  /** The industry list with every CBD choice removed. */
  function TrimIndustries(xs: seq<Industry>): (r: seq<Industry>)
    ensures |r| <= |xs|
    ensures forall i :: 0 <= i < |r| ==> !IsCbd(r[i])
  {
    if xs == [] then []
    else (if IsCbd(xs[0]) then [] else [xs[0]]) + TrimIndustries(xs[1..])
  }

  /** An industry survives the trim exactly when it was chosen and is not the CBD choice. */
  lemma {:induction false} TrimKeepsOthers(xs: seq<Industry>)
    ensures forall x :: x in TrimIndustries(xs) <==> x in xs && !IsCbd(x)
  {
    if xs != [] {
      TrimKeepsOthers(xs[1..]);
      assert xs == [xs[0]] + xs[1..];
    }
  }

  /** Trimming distributes over concatenation, so the kept industries stay in order. */
  lemma {:induction false} TrimAppend(a: seq<Industry>, b: seq<Industry>)
    ensures TrimIndustries(a + b) == TrimIndustries(a) + TrimIndustries(b)
  {
    if a == [] {
      assert a + b == b;
    } else {
      assert (a + b)[0] == a[0];
      assert (a + b)[1..] == a[1..] + b;
      TrimAppend(a[1..], b);
    }
  }

  /** A list without CBD choices is left as it is. */
  lemma {:induction false} TrimWithoutCbd(xs: seq<Industry>)
    requires forall i :: 0 <= i < |xs| ==> !IsCbd(xs[i])
    ensures TrimIndustries(xs) == xs
  {
    if xs != [] {
      TrimWithoutCbd(xs[1..]);
    }
  }

  /** Trimming twice is trimming once. */
  lemma TrimIdempotent(xs: seq<Industry>)
    ensures TrimIndustries(TrimIndustries(xs)) == TrimIndustries(xs)
  {
    TrimWithoutCbd(TrimIndustries(xs));
  }

  /**
   * The profile update: `setup_client` always; the trimmed industries only
   * outside the US and when an industry list with entries exists.
   */
  function ProfileItemsUpdate(values: FormValues, profileItems: ProfileItems,
                              getRegion: string -> string): (u: ProfileUpdate)
    ensures u.setupClient == values.isClient
    ensures u.industry.Some? <==>
      getRegion(values.countryState) != UsRegion && profileItems.industry.Some?
      && |profileItems.industry.value| > 0
    ensures u.industry.Some? ==> u.industry.value == TrimIndustries(profileItems.industry.value)
    ensures u.industry.Some? ==> forall i :: 0 <= i < |u.industry.value| ==> !IsCbd(u.industry.value[i])
  {
    if getRegion(values.countryState) != UsRegion && profileItems.industry.Some?
       && |profileItems.industry.value| > 0
    then ProfileUpdate(values.isClient, Some(TrimIndustries(profileItems.industry.value)))
    else ProfileUpdate(values.isClient, None)
  }

  /** The settings written by the step: every existing setting, then the form's address and the currency. */
  function SettingsPayload(settings: Settings, values: FormValues, currency: Currency): (p: map<string, Setting>)
    ensures forall k :: k in settings && k !in AddressKeys && k !in CurrencyKeys ==> k in p && p[k] == Text(settings[k])
  {
    var existing := map k | k in settings :: Text(settings[k]);
    existing + map[
      StoreAddress := Text(values.addressLine1),
      StoreAddress2 := Text(values.addressLine2),
      DefaultCountry := Text(values.countryState),
      StoreCity := Text(values.city),
      StorePostcode := Text(values.postCode),
      CurrencyCode := Text(currency.code),
      CurrencyPos := Text(currency.symbolPosition),
      ThousandSep := Text(currency.thousandSeparator),
      DecimalSep := Text(currency.decimalSeparator),
      NumDecimals := Number(currency.precision)]
  }

  /** The payload holds exactly the existing settings and the ten written ones. */
  lemma PayloadKeys(settings: Settings, values: FormValues, currency: Currency)
    ensures SettingsPayload(settings, values, currency).Keys == settings.Keys + AddressKeys + CurrencyKeys
  {
  }

  /** The five address settings take the form's values. */
  lemma PayloadAddress(settings: Settings, values: FormValues, currency: Currency)
    ensures var p := SettingsPayload(settings, values, currency);
      && AddressKeys <= p.Keys
      && p[StoreAddress] == Text(values.addressLine1) && p[StoreAddress2] == Text(values.addressLine2)
      && p[DefaultCountry] == Text(values.countryState) && p[StoreCity] == Text(values.city)
      && p[StorePostcode] == Text(values.postCode)
  {
    KeysDistinct();
  }

  /** The five currency settings take the derived currency's values; the precision is a number. */
  lemma PayloadCurrency(settings: Settings, values: FormValues, currency: Currency)
    ensures var p := SettingsPayload(settings, values, currency);
      && CurrencyKeys <= p.Keys
      && p[CurrencyCode] == Text(currency.code) && p[CurrencyPos] == Text(currency.symbolPosition)
      && p[ThousandSep] == Text(currency.thousandSeparator)
      && p[DecimalSep] == Text(currency.decimalSeparator)
      && p[NumDecimals] == Number(currency.precision)
  {
    KeysDistinct();
  }

  /** Only the ten address and currency keys can differ from the stored settings. */
  lemma PayloadChangesOnlyTenKeys(settings: Settings, values: FormValues, currency: Currency)
    ensures var p := SettingsPayload(settings, values, currency);
      forall k :: k in p && (k !in settings || p[k] != Text(settings[k])) ==>
        k in AddressKeys || k in CurrencyKeys
  {
    PayloadKeys(settings, values, currency);
  }

  /**
   * Continuing with the untouched initial values, once a store address and
   * country are set, writes every address setting back as it was stored.
   */
  lemma InitialValuesPersistUnchanged(settings: Settings, profileItems: ProfileItems, currency: Currency)
    requires IsSet(settings, StoreAddress) && IsSet(settings, DefaultCountry)
    requires StoreAddress2 in settings && StoreCity in settings && StorePostcode in settings
    ensures var p := SettingsPayload(settings, InitialValues(settings, profileItems), currency);
      forall k :: k in AddressKeys ==> k in p && p[k] == Text(settings[k])
  {
    var values := InitialValues(settings, profileItems);
    assert values.addressLine1 == settings[StoreAddress] && values.addressLine2 == settings[StoreAddress2];
    assert values.city == settings[StoreCity] && values.postCode == settings[StorePostcode];
    assert values.countryState == settings[DefaultCountry];
    PayloadAddress(settings, values, currency);
    var p := SettingsPayload(settings, values, currency);
    forall k | k in AddressKeys
      ensures k in p && p[k] == Text(settings[k])
    {
      assert k == StoreAddress || k == StoreAddress2 || k == DefaultCountry || k == StoreCity || k == StorePostcode;
    }
  }

  /** Without a store address the stored default country is not offered, and no currency can be derived from it. */
  lemma NoAddressNoCurrency(settings: Settings, profileItems: ProfileItems,
                            getRegion: string -> string, currencyData: map<string, Currency>)
    requires !IsSet(settings, StoreAddress)
    ensures DeriveCurrency(InitialValues(settings, profileItems).countryState, getRegion, currencyData).None?
  {
  }

  /** The step's outcome: the next step when no error is flagged, otherwise one error notice. */
  function Outcome(isSettingsError: bool, isProfileItemsError: bool): (e: Effect)
    ensures e == GoToNextStep <==> !isSettingsError && !isProfileItemsError
    ensures e != GoToNextStep ==> e == CreateNotice("error", SaveErrorMessage)
  {
    if !isSettingsError && !isProfileItemsError then GoToNextStep
    else CreateNotice("error", SaveErrorMessage)
  }

  /** The number of error notices among the effects. */
  function NoticeCount(effects: seq<Effect>): nat {
    if effects == [] then 0
    else (if effects[0].CreateNotice? then 1 else 0) + NoticeCount(effects[1..])
  }

  /** Among four steps of which only the last can be a notice, the notices are that last step's. */
  lemma LastStepNotices(effects: seq<Effect>)
    requires |effects| == 4
    requires forall i :: 0 <= i < 3 ==> !effects[i].CreateNotice?
    ensures NoticeCount(effects) == if effects[3].CreateNotice? then 1 else 0
  {
    assert effects[1..][1..] == effects[2..] && effects[2..][1..] == effects[3..];
    assert effects[3..][1..] == [];
    assert NoticeCount(effects[3..]) == if effects[3].CreateNotice? then 1 else 0;
    assert NoticeCount(effects[2..]) == NoticeCount(effects[3..]);
    assert NoticeCount(effects[1..]) == NoticeCount(effects[2..]);
  }

  /** The store-details step component and its modal flags. */
  class StoreDetailsStep {
    var showUsageModal: bool
    var skipping: bool
    const initialValues: FormValues

    /** The modal is open whenever a skip is pending. */
    predicate Valid()
      reads this
    {
      skipping ==> showUsageModal
    }

    constructor (settings: Settings, profileItems: ProfileItems)
      ensures Valid()
      ensures !showUsageModal && !skipping
      ensures initialValues == InitialValues(settings, profileItems)
    {
      showUsageModal := false;
      skipping := false;
      initialValues := InitialValues(settings, profileItems);
    }

    /** The form's submit callback opens the modal to continue. */
    method OnSubmit()
      modifies this
      ensures Valid() && showUsageModal && !skipping
    {
      showUsageModal := true;
      skipping := false;
    }

    /** The skip link opens the modal to skip. */
    method OnSkip()
      modifies this
      ensures Valid() && showUsageModal && skipping
    {
      showUsageModal := true;
      skipping := true;
    }

    /** Closing the modal clears both flags. */
    method OnClose()
      modifies this
      ensures Valid() && !showUsageModal && !skipping
    {
      showUsageModal := false;
      skipping := false;
    }

    /**
     * `onContinue(values)`. The error flags are the props read when the
     * handler starts. The currency must be derivable: the handler reads its
     * code unconditionally.
     */
    method OnContinue(values: FormValues, settings: Settings, profileItems: ProfileItems,
                      getRegion: string -> string, currencyData: map<string, Currency>,
                      isSettingsError: bool, isProfileItemsError: bool) returns (effects: seq<Effect>)
      requires DeriveCurrency(values.countryState, getRegion, currencyData).Some?
      ensures |effects| == 4
      ensures effects[0] == SetCurrency(DeriveCurrency(values.countryState, getRegion, currencyData).value)
      ensures effects[1] ==
        PersistSettings("general", SettingsPayload(settings, values,
                                                   DeriveCurrency(values.countryState, getRegion, currencyData).value))
      ensures effects[2] == UpdateProfileItems(ProfileItemsUpdate(values, profileItems, getRegion))
      ensures effects[3] == Outcome(isSettingsError, isProfileItemsError)
      ensures GoToNextStep in effects <==> !isSettingsError && !isProfileItemsError
      ensures NoticeCount(effects) == if GoToNextStep in effects then 0 else 1
    {
      var currency := DeriveCurrency(values.countryState, getRegion, currencyData).value;
      var general := SettingsPayload(settings, values, currency);
      var update := ProfileUpdate(values.isClient, None);
      var region := getRegion(values.countryState);
      if region != UsRegion && profileItems.industry.Some? && |profileItems.industry.value| > 0 {
        update := update.(industry := Some(TrimIndustries(profileItems.industry.value)));
      }
      var outcome := Outcome(isSettingsError, isProfileItemsError);
      effects := [SetCurrency(currency), PersistSettings("general", general), UpdateProfileItems(update), outcome];
      LastStepNotices(effects);
    }

    /**
     * The modal's continue button: skip the profiler when a skip is
     * pending, otherwise continue with the form's values.
     */
    method ModalContinue(values: FormValues, settings: Settings, profileItems: ProfileItems,
                         getRegion: string -> string, currencyData: map<string, Currency>,
                         isSettingsError: bool, isProfileItemsError: bool) returns (action: ModalAction)
      requires showUsageModal
      requires !skipping ==> DeriveCurrency(values.countryState, getRegion, currencyData).Some?
      ensures action.SkipProfiler? <==> skipping
      ensures action.Continued? ==>
        && |action.effects| == 4
        && action.effects[0] == SetCurrency(DeriveCurrency(values.countryState, getRegion, currencyData).value)
        && action.effects[1] ==
             PersistSettings("general", SettingsPayload(settings, values,
                                                        DeriveCurrency(values.countryState, getRegion, currencyData).value))
        && action.effects[2] == UpdateProfileItems(ProfileItemsUpdate(values, profileItems, getRegion))
        && action.effects[3] == Outcome(isSettingsError, isProfileItemsError)
        && (GoToNextStep in action.effects <==> !isSettingsError && !isProfileItemsError)
    {
      if skipping {
        action := SkipProfiler;
      } else {
        var effects := OnContinue(values, settings, profileItems, getRegion, currencyData,
                                  isSettingsError, isProfileItemsError);
        action := Continued(effects);
      }
    }
  }
}
