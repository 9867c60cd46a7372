/**
 * The browser's `localStorage` as the settings pages use it: the five keys
 * they write, each mapped to a JSON object of settings properties (the
 * `JSON.stringify`/`JSON.parse` text layer is taken to be exact), and the
 * three ways a page reads a property back (`x || d`, `x ?? d` and
 * `if (x !== undefined)`).
 */
module Storage {
  import opened Wrappers

  /** A JSON value of one of the three types the pages write. */
  datatype Value = Num(n: int) | Flag(b: bool) | Text(s: string)

  /** The `localStorage` keys the pages use. */
  datatype StoreKey = TempConfig | HumidityConfig | LightConfig | IrrigationConfig | NotificationConfig {
    /** The key string passed to `getItem`/`setItem`. */
    function Name(): string {
      match this
      case TempConfig => "tempConfig"
      case HumidityConfig => "humidityConfig"
      case LightConfig => "lightConfig"
      case IrrigationConfig => "irrigationConfig"
      case NotificationConfig => "notificationConfig"
    }
  }

  /** The properties the settings objects hold, one per setting. */
  datatype Field =
    | TempMin | TempMax | TempCritical
    | HumidityMin | HumidityMax | HumidityCritical
    | LightMin | LightMax | LightCritical
    | IrrigationEnabled | IrrigationHumidityThreshold | IrrigationTempThreshold | IrrigationLightThreshold
    | NotificationsEnabled | EmailNotifications | SmsNotifications | NotificationEmail | NotificationPhone
  {
    /** The property name in the stored JSON text (the shorthand name of the state variable). */
    function Name(): string {
      match this
      case TempMin => "tempMin"
      case TempMax => "tempMax"
      case TempCritical => "tempCritical"
      case HumidityMin => "humidityMin"
      case HumidityMax => "humidityMax"
      case HumidityCritical => "humidityCritical"
      case LightMin => "lightMin"
      case LightMax => "lightMax"
      case LightCritical => "lightCritical"
      case IrrigationEnabled => "irrigationEnabled"
      case IrrigationHumidityThreshold => "irrigationHumidityThreshold"
      case IrrigationTempThreshold => "irrigationTempThreshold"
      case IrrigationLightThreshold => "irrigationLightThreshold"
      case NotificationsEnabled => "notificationsEnabled"
      case EmailNotifications => "emailNotifications"
      case SmsNotifications => "smsNotifications"
      case NotificationEmail => "notificationEmail"
      case NotificationPhone => "notificationPhone"
    }
  }

  /** The key a key string stands for, if any: the inverse of `StoreKey.Name`. */
  function StoreKeyNamed(name: string): (r: Option<StoreKey>)
    ensures r.Some? ==> r.value.Name() == name
  {
    if name == "tempConfig" then Some(TempConfig)
    else if name == "humidityConfig" then Some(HumidityConfig)
    else if name == "lightConfig" then Some(LightConfig)
    else if name == "irrigationConfig" then Some(IrrigationConfig)
    else if name == "notificationConfig" then Some(NotificationConfig)
    else None
  }

  /** Distinct keys have distinct key strings, so the enumeration loses nothing. */
  lemma StoreKeyNameInjective(k: StoreKey)
    ensures StoreKeyNamed(k.Name()) == Some(k)
  {
  }

  /** A parsed JSON object. */
  type Blob = map<Field, Value>

  /** The whole store: `localStorage` key -> parsed object. */
  type Store = map<StoreKey, Blob>

  /** JavaScript truthiness of a stored value. */
  predicate Truthy(v: Value) {
    match v
    case Num(n) => n != 0
    case Flag(b) => b
    case Text(s) => |s| > 0
  }

  /** `JSON.parse(localStorage.getItem(key) || "{}")`: a missing key reads as the empty object. */
  function GetBlob(store: Store, key: StoreKey): (b: Blob)
    ensures key !in store ==> b == map[]
    ensures key in store ==> b == store[key]
  {
    if key in store then store[key] else map[]
  }

  /** The property is present, a number, and not 0. */
  predicate HasTruthyNum(blob: Blob, f: Field) {
    f in blob && blob[f].Num? && blob[f].n != 0
  }

  /**
   * The property is present and a boolean. Over the stored values modelled
   * here (no `null`) this is both `!== undefined` and "not nullish".
   */
  predicate HasFlag(blob: Blob, f: Field) {
    f in blob && blob[f].Flag?
  }

  /** The property is present, a string, and not empty. */
  predicate HasTruthyText(blob: Blob, f: Field) {
    f in blob && blob[f].Text? && |blob[f].s| > 0
  }

  /** `blob.f || d` for a numeric property: a stored 0 or a missing property gives the default. */
  function NumOr(blob: Blob, f: Field, d: int): (r: int)
    ensures HasTruthyNum(blob, f) ==> r == blob[f].n && r != 0
    ensures !HasTruthyNum(blob, f) ==> r == d
  {
    if HasTruthyNum(blob, f) then blob[f].n else d
  }

  /**
   * `blob.f ?? d` on the dashboard and `if (blob.f !== undefined)` on the
   * settings page, which coincide because the model has no stored `null`:
   * a stored `false` is kept.
   */
  function FlagOr(blob: Blob, f: Field, d: bool): (r: bool)
    ensures HasFlag(blob, f) ==> r == blob[f].b
    ensures !HasFlag(blob, f) ==> r == d
  {
    if HasFlag(blob, f) then blob[f].b else d
  }

  /** `if (blob.f) x = blob.f` for a text property: the empty string gives the default. */
  function TextOr(blob: Blob, f: Field, d: string): (r: string)
    ensures HasTruthyText(blob, f) ==> r == blob[f].s && |r| > 0
    ensures !HasTruthyText(blob, f) ==> r == d
  {
    if HasTruthyText(blob, f) then blob[f].s else d
  }

  /** The one `localStorage` of the page, shared by every component that reads or writes settings. */
  class LocalStorage {
    var items: Store

    constructor (initial: Store)
      ensures items == initial
    {
      items := initial;
    }

    /** `localStorage.setItem(key, JSON.stringify(blob))`. */
    method SetItem(key: StoreKey, blob: Blob)
      modifies this
      ensures items == old(items)[key := blob]
    {
      items := items[key := blob];
    }
  }
}
