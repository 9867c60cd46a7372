/**
 * The settings page: eighteen settings with built-in defaults, saved one
 * section at a time under that section's `localStorage` key, and loaded
 * back field by field, a stored number or text replacing its default only
 * when truthy and a stored flag whenever present.
 */
module ConfiguracionPage {
  import opened Wrappers
  import opened Storage

  /** The page's state variables. */
  datatype Settings = Settings(
    tempMin: int, tempMax: int, tempCritical: int,
    humidityMin: int, humidityMax: int, humidityCritical: int,
    lightMin: int, lightMax: int, lightCritical: int,
    irrigationEnabled: bool, irrigationHumidityThreshold: int,
    irrigationTempThreshold: int, irrigationLightThreshold: int,
    notificationsEnabled: bool, emailNotifications: bool, smsNotifications: bool,
    notificationEmail: string, notificationPhone: string)

  /** The `useState` initial values. */
  const Defaults: Settings := Settings(
    17, 28, 30,
    45, 75, 30,
    350, 750, 2000,
    true, 50, 25, 1500,
    true, true, false, "admin@ejemplo.com", "+34600000000")

  // ----- sections, keys and fields -----

  datatype Section = Temperatura | Humedad | Luz | SistemaDeRiego | Notificaciones

  /** The `section` argument of `handleSaveConfig` that selects each section. */
  function SectionName(sec: Section): string {
    match sec
    case Temperatura => "temperatura"
    case Humedad => "humedad"
    case Luz => "luz"
    case SistemaDeRiego => "sistema de riego"
    case Notificaciones => "notificaciones"
  }

  /** The `switch (section)`: a known name selects its section, any other name none. */
  function SectionOf(name: string): (r: Option<Section>)
    ensures r.Some? ==> SectionName(r.value) == name
    ensures forall sec :: SectionName(sec) == name ==> r == Some(sec)
  {
    if name == "temperatura" then Some(Temperatura)
    else if name == "humedad" then Some(Humedad)
    else if name == "luz" then Some(Luz)
    else if name == "sistema de riego" then Some(SistemaDeRiego)
    else if name == "notificaciones" then Some(Notificaciones)
    else None
  }

  /** The `localStorage` key each section is saved under. */
  function StorageKey(sec: Section): StoreKey {
    match sec
    case Temperatura => TempConfig
    case Humedad => HumidityConfig
    case Luz => LightConfig
    case SistemaDeRiego => IrrigationConfig
    case Notificaciones => NotificationConfig
  }

  /** Distinct sections have distinct names, so each name selects one section. */
  lemma SectionNameInjective(a: Section, b: Section)
    ensures SectionName(a) == SectionName(b) ==> a == b
    ensures SectionOf(SectionName(a)) == Some(a)
  {
  }

  /** Distinct sections never share a storage key, so saving one cannot overwrite another. */
  lemma StorageKeyInjective(a: Section, b: Section)
    ensures StorageKey(a) == StorageKey(b) ==> a == b
  {
  }

  /** The section a setting is saved with. */
  function FieldSection(f: Field): Section {
    match f
    case TempMin | TempMax | TempCritical => Temperatura
    case HumidityMin | HumidityMax | HumidityCritical => Humedad
    case LightMin | LightMax | LightCritical => Luz
    case IrrigationEnabled | IrrigationHumidityThreshold | IrrigationTempThreshold | IrrigationLightThreshold =>
      SistemaDeRiego
    case _ => Notificaciones
  }

  /** The fields each section saves, in the order of its object literal. */
  function SectionFields(sec: Section): (fs: seq<Field>)
    ensures forall f :: f in fs <==> FieldSection(f) == sec
  {
    match sec
    case Temperatura => [TempMin, TempMax, TempCritical]
    case Humedad => [HumidityMin, HumidityMax, HumidityCritical]
    case Luz => [LightMin, LightMax, LightCritical]
    case SistemaDeRiego =>
      [IrrigationEnabled, IrrigationHumidityThreshold, IrrigationTempThreshold, IrrigationLightThreshold]
    case Notificaciones =>
      [NotificationsEnabled, EmailNotifications, SmsNotifications, NotificationEmail, NotificationPhone]
  }

  /** The boolean settings, the ones loaded with `!== undefined`. */
  predicate IsFlag(f: Field) {
    f.IrrigationEnabled? || f.NotificationsEnabled? || f.EmailNotifications? || f.SmsNotifications?
  }

  /** The text settings. */
  predicate IsText(f: Field) {
    f.NotificationEmail? || f.NotificationPhone?
  }

  /** A value has the JSON type the field is written with. */
  predicate HasType(f: Field, v: Value) {
    if IsFlag(f) then v.Flag? else if IsText(f) then v.Text? else v.Num?
  }

  /** The value of one setting, as it is written to storage. */
  function Get(s: Settings, f: Field): (v: Value)
    ensures HasType(f, v)
  {
    match f
    case TempMin => Num(s.tempMin)
    case TempMax => Num(s.tempMax)
    case TempCritical => Num(s.tempCritical)
    case HumidityMin => Num(s.humidityMin)
    case HumidityMax => Num(s.humidityMax)
    case HumidityCritical => Num(s.humidityCritical)
    case LightMin => Num(s.lightMin)
    case LightMax => Num(s.lightMax)
    case LightCritical => Num(s.lightCritical)
    case IrrigationEnabled => Flag(s.irrigationEnabled)
    case IrrigationHumidityThreshold => Num(s.irrigationHumidityThreshold)
    case IrrigationTempThreshold => Num(s.irrigationTempThreshold)
    case IrrigationLightThreshold => Num(s.irrigationLightThreshold)
    case NotificationsEnabled => Flag(s.notificationsEnabled)
    case EmailNotifications => Flag(s.emailNotifications)
    case SmsNotifications => Flag(s.smsNotifications)
    case NotificationEmail => Text(s.notificationEmail)
    case NotificationPhone => Text(s.notificationPhone)
  }

  /** Two settings records are equal when every field is. */
  lemma SettingsExtensional(s: Settings, t: Settings)
    requires forall f :: Get(s, f) == Get(t, f)
    ensures s == t
  {
    assert s.tempMin == t.tempMin by { assert Get(s, TempMin) == Get(t, TempMin); }
    assert s.tempMax == t.tempMax by { assert Get(s, TempMax) == Get(t, TempMax); }
    assert s.tempCritical == t.tempCritical by { assert Get(s, TempCritical) == Get(t, TempCritical); }
    assert s.humidityMin == t.humidityMin by { assert Get(s, HumidityMin) == Get(t, HumidityMin); }
    assert s.humidityMax == t.humidityMax by { assert Get(s, HumidityMax) == Get(t, HumidityMax); }
    assert s.humidityCritical == t.humidityCritical by { assert Get(s, HumidityCritical) == Get(t, HumidityCritical); }
    assert s.lightMin == t.lightMin by { assert Get(s, LightMin) == Get(t, LightMin); }
    assert s.lightMax == t.lightMax by { assert Get(s, LightMax) == Get(t, LightMax); }
    assert s.lightCritical == t.lightCritical by { assert Get(s, LightCritical) == Get(t, LightCritical); }
    assert s.irrigationEnabled == t.irrigationEnabled by { assert Get(s, IrrigationEnabled) == Get(t, IrrigationEnabled); }
    assert s.irrigationHumidityThreshold == t.irrigationHumidityThreshold by { assert Get(s, IrrigationHumidityThreshold) == Get(t, IrrigationHumidityThreshold); }
    assert s.irrigationTempThreshold == t.irrigationTempThreshold by { assert Get(s, IrrigationTempThreshold) == Get(t, IrrigationTempThreshold); }
    assert s.irrigationLightThreshold == t.irrigationLightThreshold by { assert Get(s, IrrigationLightThreshold) == Get(t, IrrigationLightThreshold); }
    assert s.notificationsEnabled == t.notificationsEnabled by { assert Get(s, NotificationsEnabled) == Get(t, NotificationsEnabled); }
    assert s.emailNotifications == t.emailNotifications by { assert Get(s, EmailNotifications) == Get(t, EmailNotifications); }
    assert s.smsNotifications == t.smsNotifications by { assert Get(s, SmsNotifications) == Get(t, SmsNotifications); }
    assert s.notificationEmail == t.notificationEmail by { assert Get(s, NotificationEmail) == Get(t, NotificationEmail); }
    assert s.notificationPhone == t.notificationPhone by { assert Get(s, NotificationPhone) == Get(t, NotificationPhone); }
  }

  // ----- saving -----

  /** The object `handleSaveConfig` stringifies for a section: exactly its settings, each with its value. */
  function SectionBlob(sec: Section, s: Settings): (b: Blob)
    ensures forall f :: f in b <==> FieldSection(f) == sec
    ensures forall f :: f in b ==> b[f] == Get(s, f)
  {
    match sec
    case Temperatura =>
      map[TempMin := Num(s.tempMin), TempMax := Num(s.tempMax), TempCritical := Num(s.tempCritical)]
    case Humedad =>
      map[HumidityMin := Num(s.humidityMin), HumidityMax := Num(s.humidityMax),
          HumidityCritical := Num(s.humidityCritical)]
    case Luz =>
      map[LightMin := Num(s.lightMin), LightMax := Num(s.lightMax), LightCritical := Num(s.lightCritical)]
    case SistemaDeRiego =>
      map[IrrigationEnabled := Flag(s.irrigationEnabled),
          IrrigationHumidityThreshold := Num(s.irrigationHumidityThreshold),
          IrrigationTempThreshold := Num(s.irrigationTempThreshold),
          IrrigationLightThreshold := Num(s.irrigationLightThreshold)]
    case Notificaciones =>
      map[NotificationsEnabled := Flag(s.notificationsEnabled),
          EmailNotifications := Flag(s.emailNotifications),
          SmsNotifications := Flag(s.smsNotifications),
          NotificationEmail := Text(s.notificationEmail),
          NotificationPhone := Text(s.notificationPhone)]
  }

  /**
   * The store after `handleSaveConfig(section)`: a known section writes
   * exactly its own key with exactly its own fields; every other key is
   * untouched; an unknown section name writes nothing.
   */
  function Saved(store: Store, section: string, s: Settings): (r: Store)
    ensures SectionOf(section).None? ==> r == store
    ensures SectionOf(section).Some? ==>
      var sec := SectionOf(section).value;
      r.Keys == store.Keys + {StorageKey(sec)} &&
      r[StorageKey(sec)] == SectionBlob(sec, s) &&
      forall k :: k in store && k != StorageKey(sec) ==> r[k] == store[k]
  {
    match SectionOf(section)
    case None => store
    case Some(sec) => store[StorageKey(sec) := SectionBlob(sec, s)]
  }

  /** The toast description shown after every save, whether or not the section name was known. */
  function SavedToast(section: string): (msg: string)
    ensures |msg| == |section| + 55
    ensures msg[20..20 + |section|] == section
  {
    "La configuración de " + section + " ha sido actualizada correctamente."
  }

  // ----- loading -----

  /**
   * The reference rule for one field: its stored value (if the field is in
   * the object under its section's key and has the field's type) replaces
   * the current value when it is a flag, or when it is truthy.
   */
  function LoadField(s: Settings, store: Store, f: Field): (v: Value)
    ensures HasType(f, v)
    ensures StorageKey(FieldSection(f)) !in store ==> v == Get(s, f)
    ensures v == Get(s, f) || IsFlag(f) || Truthy(v)
  {
    var blob := GetBlob(store, StorageKey(FieldSection(f)));
    if f in blob && HasType(f, blob[f]) && (IsFlag(f) || Truthy(blob[f])) then blob[f]
    else Get(s, f)
  }

  /** The temperature section of the load effect: it touches no other field, and an empty object changes nothing. */
  function LoadTemp(s: Settings, b: Blob): (r: Settings)
    ensures forall f :: FieldSection(f) != Temperatura ==> Get(r, f) == Get(s, f)
    ensures b == map[] ==> r == s
  {
    s.(tempMin := NumOr(b, TempMin, s.tempMin),
       tempMax := NumOr(b, TempMax, s.tempMax),
       tempCritical := NumOr(b, TempCritical, s.tempCritical))
  }

  /** The humidity section of the load effect: it touches no other field, and an empty object changes nothing. */
  function LoadHumidity(s: Settings, b: Blob): (r: Settings)
    ensures forall f :: FieldSection(f) != Humedad ==> Get(r, f) == Get(s, f)
    ensures b == map[] ==> r == s
  {
    s.(humidityMin := NumOr(b, HumidityMin, s.humidityMin),
       humidityMax := NumOr(b, HumidityMax, s.humidityMax),
       humidityCritical := NumOr(b, HumidityCritical, s.humidityCritical))
  }

  /** The light section of the load effect: it touches no other field, and an empty object changes nothing. */
  function LoadLight(s: Settings, b: Blob): (r: Settings)
    ensures forall f :: FieldSection(f) != Luz ==> Get(r, f) == Get(s, f)
    ensures b == map[] ==> r == s
  {
    s.(lightMin := NumOr(b, LightMin, s.lightMin),
       lightMax := NumOr(b, LightMax, s.lightMax),
       lightCritical := NumOr(b, LightCritical, s.lightCritical))
  }

  /** The irrigation section of the load effect: it touches no other field, and an empty object changes nothing. */
  function LoadIrrigation(s: Settings, b: Blob): (r: Settings)
    ensures forall f :: FieldSection(f) != SistemaDeRiego ==> Get(r, f) == Get(s, f)
    ensures b == map[] ==> r == s
  {
    s.(irrigationEnabled := FlagOr(b, IrrigationEnabled, s.irrigationEnabled),
       irrigationHumidityThreshold := NumOr(b, IrrigationHumidityThreshold, s.irrigationHumidityThreshold),
       irrigationTempThreshold := NumOr(b, IrrigationTempThreshold, s.irrigationTempThreshold),
       irrigationLightThreshold := NumOr(b, IrrigationLightThreshold, s.irrigationLightThreshold))
  }

  /** The notifications section of the load effect: its switches, then its addresses: it touches no other field, and an empty object changes nothing. */
  function LoadNotifications(s: Settings, b: Blob): (r: Settings)
    ensures forall f :: FieldSection(f) != Notificaciones ==> Get(r, f) == Get(s, f)
    ensures b == map[] ==> r == s
  {
    LoadAddresses(LoadSwitches(s, b), b)
  }

  /** The three notification switches: it touches no other field, and an empty object changes nothing. */
  function LoadSwitches(s: Settings, b: Blob): (r: Settings)
    ensures forall f :: !(FieldSection(f) == Notificaciones && IsFlag(f)) ==> Get(r, f) == Get(s, f)
    ensures b == map[] ==> r == s
  {
    s.(notificationsEnabled := FlagOr(b, NotificationsEnabled, s.notificationsEnabled),
       emailNotifications := FlagOr(b, EmailNotifications, s.emailNotifications),
       smsNotifications := FlagOr(b, SmsNotifications, s.smsNotifications))
  }

  /** The two notification addresses: it touches no other field, and an empty object changes nothing. */
  function LoadAddresses(s: Settings, b: Blob): (r: Settings)
    ensures forall f :: !IsText(f) ==> Get(r, f) == Get(s, f)
    ensures b == map[] ==> r == s
  {
    s.(notificationEmail := TextOr(b, NotificationEmail, s.notificationEmail),
       notificationPhone := TextOr(b, NotificationPhone, s.notificationPhone))
  }

  /** The settings after the load effect has run over `s` against `store`, section by section. */
  function Loaded(s: Settings, store: Store): (r: Settings)
    ensures store == map[] ==> r == s
  {
    var s1 := LoadTemp(s, GetBlob(store, StorageKey(Temperatura)));
    var s2 := LoadHumidity(s1, GetBlob(store, StorageKey(Humedad)));
    var s3 := LoadLight(s2, GetBlob(store, StorageKey(Luz)));
    var s4 := LoadIrrigation(s3, GetBlob(store, StorageKey(SistemaDeRiego)));
    LoadNotifications(s4, GetBlob(store, StorageKey(Notificaciones)))
  }

  /** The load effect follows the per-field rule for every field. */
  lemma LoadedField(s: Settings, store: Store, f: Field)
    ensures Get(Loaded(s, store), f) == LoadField(s, store, f)
  {
  }

  /** Loading twice is loading once. */
  lemma LoadIdempotent(s: Settings, store: Store)
    ensures Loaded(Loaded(s, store), store) == Loaded(s, store)
  {
    var l := Loaded(s, store);
    forall f ensures Get(Loaded(l, store), f) == Get(l, f) {
      LoadedField(l, store, f);
      LoadedField(s, store, f);
    }
    SettingsExtensional(Loaded(l, store), l);
  }

  /**
   * Save then load: a field of the saved section comes back as saved when it
   * is a flag or truthy, and as the loader's own value (a saved 0 or "" gives
   * the default) otherwise; every other field loads as it did before.
   */
  lemma SaveThenLoad(store: Store, sec: Section, s: Settings, s0: Settings, f: Field)
    ensures var l := Loaded(s0, Saved(store, SectionName(sec), s));
      if FieldSection(f) == sec then
        Get(l, f) == (if IsFlag(f) || Truthy(Get(s, f)) then Get(s, f) else Get(s0, f))
      else
        Get(l, f) == Get(Loaded(s0, store), f)
  {
    var saved := Saved(store, SectionName(sec), s);
    LoadedField(s0, saved, f);
    LoadedField(s0, store, f);
    SaveThenLoadField(store, sec, s, s0, f);
  }

  /** The same, for the per-field rule. */
  lemma SaveThenLoadField(store: Store, sec: Section, s: Settings, s0: Settings, f: Field)
    ensures var l := LoadField(s0, Saved(store, SectionName(sec), s), f);
      if FieldSection(f) == sec then
        l == (if IsFlag(f) || Truthy(Get(s, f)) then Get(s, f) else Get(s0, f))
      else
        l == LoadField(s0, store, f)
  {
    var saved := Saved(store, SectionName(sec), s);
    assert SectionOf(SectionName(sec)) == Some(sec);
    var key := StorageKey(FieldSection(f));
    if FieldSection(f) == sec {
      assert GetBlob(saved, key) == SectionBlob(sec, s);
    } else {
      StorageKeyInjective(FieldSection(f), sec);
      assert GetBlob(saved, key) == GetBlob(store, key);
    }
  }

  /** Every number is non-zero and every text non-empty: the values that survive a round trip. */
  predicate AllTruthy(s: Settings) {
    forall f :: !IsFlag(f) ==> Truthy(Get(s, f))
  }

  /** The store after pressing the save button of each section in `secs`, in order. */
  function SavedAll(store: Store, secs: seq<Section>, s: Settings): Store
    decreases |secs|
  {
    if secs == [] then store
    else Saved(SavedAll(store, secs[..|secs| - 1], s), SectionName(secs[|secs| - 1]), s)
  }

  /** After saving a list of sections, each of them is stored with exactly its saved fields. */
  lemma {:induction false} SavedAllHolds(store: Store, secs: seq<Section>, s: Settings, sec: Section)
    requires sec in secs
    ensures StorageKey(sec) in SavedAll(store, secs, s)
    ensures SavedAll(store, secs, s)[StorageKey(sec)] == SectionBlob(sec, s)
    decreases |secs|
  {
    var last := secs[|secs| - 1];
    var prev := SavedAll(store, secs[..|secs| - 1], s);
    assert SectionOf(SectionName(last)) == Some(last);
    if last != sec {
      assert sec in secs[..|secs| - 1];
      SavedAllHolds(store, secs[..|secs| - 1], s, sec);
      StorageKeyInjective(sec, last);
    }
  }

  const AllSections: seq<Section> := [Temperatura, Humedad, Luz, SistemaDeRiego, Notificaciones]

  /** After saving all five sections, a flag or a truthy setting loads back exactly as saved. */
  lemma SaveAllThenLoadField(store: Store, s: Settings, s0: Settings, f: Field)
    requires IsFlag(f) || Truthy(Get(s, f))
    ensures Get(Loaded(s0, SavedAll(store, AllSections, s)), f) == Get(s, f)
  {
    var st := SavedAll(store, AllSections, s);
    LoadedField(s0, st, f);
    var sec := FieldSection(f);
    assert sec in AllSections by {
      assert sec == AllSections[0] || sec == AllSections[1] || sec == AllSections[2]
        || sec == AllSections[3] || sec == AllSections[4];
    }
    SavedAllHolds(store, AllSections, s, sec);
  }

  /** Saving all five sections and loading on a fresh page restores every truthy setting exactly. */
  lemma SaveAllThenLoad(store: Store, s: Settings, s0: Settings)
    requires AllTruthy(s)
    ensures Loaded(s0, SavedAll(store, AllSections, s)) == s
  {
    var st := SavedAll(store, AllSections, s);
    forall f ensures Get(Loaded(s0, st), f) == Get(s, f) {
      SaveAllThenLoadField(store, s, s0, f);
    }
    SettingsExtensional(Loaded(s0, st), s);
  }

  /** The built-in defaults are all truthy, so saving them everywhere and reloading gives them back. */
  lemma DefaultsSurviveSaveAll(store: Store, s0: Settings)
    ensures AllTruthy(Defaults)
    ensures Loaded(s0, SavedAll(store, AllSections, Defaults)) == Defaults
  {
    forall f | !IsFlag(f) ensures Truthy(Get(Defaults, f)) {
    }
    SaveAllThenLoad(store, Defaults, s0);
  }

  /** The settings page's state and its two storage operations. */
  class Page {
    var settings: Settings
    const storage: LocalStorage

    /** The first render: every setting at its default. */
    constructor (storage: LocalStorage)
      ensures this.storage == storage && settings == Defaults
    {
      this.storage := storage;
      settings := Defaults;
    }

    /** The load effect: the five stored objects, one after the other. */
    method Load()
      modifies this`settings
      ensures settings == Loaded(old(settings), storage.items)
    {
      LoadTempSection();
      LoadHumiditySection();
      LoadLightSection();
      LoadIrrigationSection();
      LoadNotificationSection();
    }

    /** Each stored temperature threshold replaces the current one when truthy. */
    method LoadTempSection()
      modifies this`settings
      ensures settings == LoadTemp(old(settings), GetBlob(storage.items, TempConfig))
    {
      var tempConfig := GetBlob(storage.items, TempConfig);
      var next := settings;
      if HasTruthyNum(tempConfig, TempMin) { next := next.(tempMin := tempConfig[TempMin].n); }
      if HasTruthyNum(tempConfig, TempMax) { next := next.(tempMax := tempConfig[TempMax].n); }
      if HasTruthyNum(tempConfig, TempCritical) {
        next := next.(tempCritical := tempConfig[TempCritical].n);
      }
      settings := next;
    }

    /** Each stored humidity threshold replaces the current one when truthy. */
    method LoadHumiditySection()
      modifies this`settings
      ensures settings == LoadHumidity(old(settings), GetBlob(storage.items, HumidityConfig))
    {
      var humidityConfig := GetBlob(storage.items, HumidityConfig);
      var next := settings;
      if HasTruthyNum(humidityConfig, HumidityMin) {
        next := next.(humidityMin := humidityConfig[HumidityMin].n);
      }
      if HasTruthyNum(humidityConfig, HumidityMax) {
        next := next.(humidityMax := humidityConfig[HumidityMax].n);
      }
      if HasTruthyNum(humidityConfig, HumidityCritical) {
        next := next.(humidityCritical := humidityConfig[HumidityCritical].n);
      }
      settings := next;
    }

    /** Each stored light threshold replaces the current one when truthy. */
    method LoadLightSection()
      modifies this`settings
      ensures settings == LoadLight(old(settings), GetBlob(storage.items, LightConfig))
    {
      var lightConfig := GetBlob(storage.items, LightConfig);
      var next := settings;
      if HasTruthyNum(lightConfig, LightMin) { next := next.(lightMin := lightConfig[LightMin].n); }
      if HasTruthyNum(lightConfig, LightMax) { next := next.(lightMax := lightConfig[LightMax].n); }
      if HasTruthyNum(lightConfig, LightCritical) {
        next := next.(lightCritical := lightConfig[LightCritical].n);
      }
      settings := next;
    }

    /** The stored irrigation switch replaces the current one when present; each threshold when truthy. */
    method LoadIrrigationSection()
      modifies this`settings
      ensures settings == LoadIrrigation(old(settings), GetBlob(storage.items, IrrigationConfig))
    {
      var irrigationConfig := GetBlob(storage.items, IrrigationConfig);
      var next := settings;
      if HasFlag(irrigationConfig, IrrigationEnabled) {
        next := next.(irrigationEnabled := irrigationConfig[IrrigationEnabled].b);
      }
      if HasTruthyNum(irrigationConfig, IrrigationHumidityThreshold) {
        next := next.(irrigationHumidityThreshold := irrigationConfig[IrrigationHumidityThreshold].n);
      }
      if HasTruthyNum(irrigationConfig, IrrigationTempThreshold) {
        next := next.(irrigationTempThreshold := irrigationConfig[IrrigationTempThreshold].n);
      }
      if HasTruthyNum(irrigationConfig, IrrigationLightThreshold) {
        next := next.(irrigationLightThreshold := irrigationConfig[IrrigationLightThreshold].n);
      }
      settings := next;
    }

    /** The stored notification switches, then the stored addresses. */
    method LoadNotificationSection()
      modifies this`settings
      ensures settings == LoadNotifications(old(settings), GetBlob(storage.items, NotificationConfig))
    {
      LoadSwitchesSection();
      LoadAddressesSection();
    }

    /** Each stored notification switch replaces the current one when present. */
    method LoadSwitchesSection()
      modifies this`settings
      ensures settings == LoadSwitches(old(settings), GetBlob(storage.items, NotificationConfig))
    {
      var notificationConfig := GetBlob(storage.items, NotificationConfig);
      var next := settings;
      if HasFlag(notificationConfig, NotificationsEnabled) {
        next := next.(notificationsEnabled := notificationConfig[NotificationsEnabled].b);
      }
      if HasFlag(notificationConfig, EmailNotifications) {
        next := next.(emailNotifications := notificationConfig[EmailNotifications].b);
      }
      if HasFlag(notificationConfig, SmsNotifications) {
        next := next.(smsNotifications := notificationConfig[SmsNotifications].b);
      }
      settings := next;
    }

    /** Each stored notification address replaces the current one when non-empty. */
    method LoadAddressesSection()
      modifies this`settings
      ensures settings == LoadAddresses(old(settings), GetBlob(storage.items, NotificationConfig))
    {
      var notificationConfig := GetBlob(storage.items, NotificationConfig);
      var next := settings;
      if HasTruthyText(notificationConfig, NotificationEmail) {
        next := next.(notificationEmail := notificationConfig[NotificationEmail].s);
      }
      if HasTruthyText(notificationConfig, NotificationPhone) {
        next := next.(notificationPhone := notificationConfig[NotificationPhone].s);
      }
      settings := next;
    }

    /** `handleSaveConfig(section)`: the store write, then the toast it always shows. */
    method SaveConfig(section: string) returns (toast: string)
      modifies storage
      ensures storage.items == Saved(old(storage.items), section, settings)
      ensures toast == SavedToast(section)
    {
      match SectionOf(section) {
        case Some(Temperatura) =>
          storage.SetItem(TempConfig, map[
            TempMin := Num(settings.tempMin),
            TempMax := Num(settings.tempMax),
            TempCritical := Num(settings.tempCritical)]);
        case Some(Humedad) =>
          storage.SetItem(HumidityConfig, map[
            HumidityMin := Num(settings.humidityMin),
            HumidityMax := Num(settings.humidityMax),
            HumidityCritical := Num(settings.humidityCritical)]);
        case Some(Luz) =>
          storage.SetItem(LightConfig, map[
            LightMin := Num(settings.lightMin),
            LightMax := Num(settings.lightMax),
            LightCritical := Num(settings.lightCritical)]);
        case Some(SistemaDeRiego) =>
          storage.SetItem(IrrigationConfig, map[
            IrrigationEnabled := Flag(settings.irrigationEnabled),
            IrrigationHumidityThreshold := Num(settings.irrigationHumidityThreshold),
            IrrigationTempThreshold := Num(settings.irrigationTempThreshold),
            IrrigationLightThreshold := Num(settings.irrigationLightThreshold)]);
        case Some(Notificaciones) =>
          storage.SetItem(NotificationConfig, map[
            NotificationsEnabled := Flag(settings.notificationsEnabled),
            EmailNotifications := Flag(settings.emailNotifications),
            SmsNotifications := Flag(settings.smsNotifications),
            NotificationEmail := Text(settings.notificationEmail),
            NotificationPhone := Text(settings.notificationPhone)]);
        case None =>
      }
      toast := SavedToast(section);
    }
  }
}
