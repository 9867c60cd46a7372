/**
 * The dashboard: threshold configuration merged from stored settings over
 * the built-in defaults, simulated readings, the three-level status
 * classifier, the automatic-irrigation condition and the AUTO_ON/AUTO_OFF
 * commands it sends when that condition changes, and the feeding of the
 * rolling chart history.
 */
module DashboardPage {
  import opened Wrappers
  import opened Storage
  import opened Channel
  import opened OverviewChart
  import CP = ConfiguracionPage

  datatype Range = Range(min: int, max: int, critical: int)

  datatype IrrigationSettings =
    IrrigationSettings(enabled: bool, humidityThreshold: int, tempThreshold: int, lightThreshold: int)

  datatype Config = Config(temp: Range, humidity: Range, light: Range, irrigation: IrrigationSettings)

  /** `defaultConfig` */
  const DefaultConfig: Config :=
    Config(Range(17, 28, 30), Range(45, 75, 30), Range(350, 750, 2000),
           IrrigationSettings(true, 50, 25, 1500))

  /** One simulated reading of the whole system. */
  datatype SystemData = SystemData(temperature: int, humidity: int, light: int, irrigationActive: bool)

  /** The automatic-irrigation condition: enabled, and dry, hot and dark enough. */
  predicate IrrigationActive(irr: IrrigationSettings, temperature: int, humidity: int, light: int)
    ensures IrrigationActive(irr, temperature, humidity, light) ==> irr.enabled
  {
    irr.enabled &&
    humidity < irr.humidityThreshold &&
    temperature > irr.tempThreshold &&
    light < irr.lightThreshold
  }

  /** Hotter, drier or darker readings keep an active irrigation active. */
  lemma IrrigationActiveMonotone(irr: IrrigationSettings, t1: int, h1: int, l1: int, t2: int, h2: int, l2: int)
    requires IrrigationActive(irr, t1, h1, l1)
    requires t2 >= t1 && h2 <= h1 && l2 <= l1
    ensures IrrigationActive(irr, t2, h2, l2)
  {
  }

  /** `Math.floor(r * span) + base` for a draw `r` of `Math.random()`. */
  function Draw(r: real, span: nat, base: int): (v: int)
    requires 0.0 <= r < 1.0 && span > 0
    ensures base <= v < base + span
  {
    var x := r * span as real;
    ScaleBelow(r, span as real);
    x.Floor + base
  }

  /** A draw in [0, 1) scaled by k lies in [0, k). */
  lemma ScaleBelow(r: real, k: real)
    requires 0.0 <= r < 1.0 && k > 0.0
    ensures 0.0 <= r * k < k
  {
    assert k - r * k == (1.0 - r) * k;
    assert (1.0 - r) * k > 0.0;
  }

  /** `generateData(config)`, with the three `Math.random()` draws as parameters. */
  function GenerateData(config: Config, rt: real, rh: real, rl: real): (d: SystemData)
    requires 0.0 <= rt < 1.0 && 0.0 <= rh < 1.0 && 0.0 <= rl < 1.0
    ensures 15 <= d.temperature <= 29
    ensures 20 <= d.humidity <= 79
    ensures 500 <= d.light <= 2499
    ensures d.irrigationActive == IrrigationActive(config.irrigation, d.temperature, d.humidity, d.light)
  {
    var temperature := Draw(rt, 15, 15);
    var humidity := Draw(rh, 60, 20);
    var light := Draw(rl, 2000, 500);
    SystemData(temperature, humidity, light,
               IrrigationActive(config.irrigation, temperature, humidity, light))
  }

  /** With automatic irrigation disabled no reading is ever irrigation-active. */
  lemma DisabledNeverIrrigates(config: Config, rt: real, rh: real, rl: real)
    requires 0.0 <= rt < 1.0 && 0.0 <= rh < 1.0 && 0.0 <= rl < 1.0
    requires !config.irrigation.enabled
    ensures !GenerateData(config, rt, rh, rl).irrigationActive
  {
  }

  /** The part of a reading that `updateHistoricalData` records. */
  function SampleOf(d: SystemData): Sample {
    Sample(d.temperature, d.humidity, d.light)
  }

  // ----- configuration merge -----

  /**
   * The configuration loaded at mount: every field taken from storage, with
   * `||` for the numbers (a stored 0 or a missing field gives the default)
   * and `??` for the flag (a stored `false` is kept).
   */
  function MergeConfig(store: Store): (c: Config)
    ensures store == map[] ==> c == DefaultConfig
    ensures NoZeroThreshold(c)
  {
    var t := GetBlob(store, TempConfig);
    var h := GetBlob(store, HumidityConfig);
    var l := GetBlob(store, LightConfig);
    var i := GetBlob(store, IrrigationConfig);
    var d := DefaultConfig;
    Config(
      Range(NumOr(t, TempMin, d.temp.min), NumOr(t, TempMax, d.temp.max),
            NumOr(t, TempCritical, d.temp.critical)),
      Range(NumOr(h, HumidityMin, d.humidity.min), NumOr(h, HumidityMax, d.humidity.max),
            NumOr(h, HumidityCritical, d.humidity.critical)),
      Range(NumOr(l, LightMin, d.light.min), NumOr(l, LightMax, d.light.max),
            NumOr(l, LightCritical, d.light.critical)),
      IrrigationSettings(
        FlagOr(i, IrrigationEnabled, d.irrigation.enabled),
        NumOr(i, IrrigationHumidityThreshold, d.irrigation.humidityThreshold),
        NumOr(i, IrrigationTempThreshold, d.irrigation.tempThreshold),
        NumOr(i, IrrigationLightThreshold, d.irrigation.lightThreshold)))
  }

  /** Every numeric threshold is non-zero (what `||` over non-zero defaults guarantees). */
  predicate NoZeroThreshold(c: Config) {
    c.temp.min != 0 && c.temp.max != 0 && c.temp.critical != 0 &&
    c.humidity.min != 0 && c.humidity.max != 0 && c.humidity.critical != 0 &&
    c.light.min != 0 && c.light.max != 0 && c.light.critical != 0 &&
    c.irrigation.humidityThreshold != 0 && c.irrigation.tempThreshold != 0 &&
    c.irrigation.lightThreshold != 0
  }

  /** The part of the settings page's state the dashboard reads: its thresholds. */
  function Thresholds(s: CP.Settings): Config {
    Config(
      Range(s.tempMin, s.tempMax, s.tempCritical),
      Range(s.humidityMin, s.humidityMax, s.humidityCritical),
      Range(s.lightMin, s.lightMax, s.lightCritical),
      IrrigationSettings(s.irrigationEnabled, s.irrigationHumidityThreshold,
                       s.irrigationTempThreshold, s.irrigationLightThreshold))
  }

  /** The dashboard's defaults are the settings page's initial values. */
  lemma DefaultsAgree()
    ensures Thresholds(CP.Defaults) == DefaultConfig
  {
  }

  /**
   * The dashboard and the settings page read the same keys with the same
   * tests: whatever is stored, the dashboard's configuration is the
   * thresholds the settings page shows after its own load.
   */
  lemma MergeAgreesWithSettingsPage(store: Store)
    ensures MergeConfig(store) == Thresholds(CP.Loaded(CP.Defaults, store))
  {
  }

  /** Every numeric threshold of the settings page is non-zero; the texts may be anything. */
  predicate NonZeroThresholds(s: CP.Settings) {
    forall f :: !CP.IsFlag(f) && !CP.IsText(f) ==> Truthy(CP.Get(s, f))
  }

  /** Two settings records that agree on every numeric and flag setting have the same thresholds. */
  lemma ThresholdsOfAgreeing(l: CP.Settings, s: CP.Settings)
    requires forall f :: !CP.IsText(f) ==> CP.Get(l, f) == CP.Get(s, f)
    ensures Thresholds(l) == Thresholds(s)
  {
    assert l.tempMin == s.tempMin by {
      assert CP.Get(l, TempMin) == CP.Get(s, TempMin);
    }
    assert l.tempMax == s.tempMax by {
      assert CP.Get(l, TempMax) == CP.Get(s, TempMax);
    }
    assert l.tempCritical == s.tempCritical by {
      assert CP.Get(l, TempCritical) == CP.Get(s, TempCritical);
    }
    assert l.humidityMin == s.humidityMin by {
      assert CP.Get(l, HumidityMin) == CP.Get(s, HumidityMin);
    }
    assert l.humidityMax == s.humidityMax by {
      assert CP.Get(l, HumidityMax) == CP.Get(s, HumidityMax);
    }
    assert l.humidityCritical == s.humidityCritical by {
      assert CP.Get(l, HumidityCritical) == CP.Get(s, HumidityCritical);
    }
    assert l.lightMin == s.lightMin by {
      assert CP.Get(l, LightMin) == CP.Get(s, LightMin);
    }
    assert l.lightMax == s.lightMax by {
      assert CP.Get(l, LightMax) == CP.Get(s, LightMax);
    }
    assert l.lightCritical == s.lightCritical by {
      assert CP.Get(l, LightCritical) == CP.Get(s, LightCritical);
    }
    assert l.irrigationEnabled == s.irrigationEnabled by {
      assert CP.Get(l, IrrigationEnabled) == CP.Get(s, IrrigationEnabled);
    }
    assert l.irrigationHumidityThreshold == s.irrigationHumidityThreshold by {
      assert CP.Get(l, IrrigationHumidityThreshold) == CP.Get(s, IrrigationHumidityThreshold);
    }
    assert l.irrigationTempThreshold == s.irrigationTempThreshold by {
      assert CP.Get(l, IrrigationTempThreshold) == CP.Get(s, IrrigationTempThreshold);
    }
    assert l.irrigationLightThreshold == s.irrigationLightThreshold by {
      assert CP.Get(l, IrrigationLightThreshold) == CP.Get(s, IrrigationLightThreshold);
    }
  }

  /** After saving every section with non-zero thresholds, the settings page loads those thresholds back. */
  lemma SavedThresholdsLoad(store: Store, s: CP.Settings)
    requires NonZeroThresholds(s)
    ensures Thresholds(CP.Loaded(CP.Defaults, CP.SavedAll(store, CP.AllSections, s))) == Thresholds(s)
  {
    var l := CP.Loaded(CP.Defaults, CP.SavedAll(store, CP.AllSections, s));
    forall f | !CP.IsText(f) ensures CP.Get(l, f) == CP.Get(s, f) {
      CP.SaveAllThenLoadField(store, s, CP.Defaults, f);
    }
    ThresholdsOfAgreeing(l, s);
  }

  /** Saving every section with non-zero thresholds and opening the dashboard gives exactly those thresholds. */
  lemma SavedSettingsReachDashboard(store: Store, s: CP.Settings)
    requires NonZeroThresholds(s)
    ensures MergeConfig(CP.SavedAll(store, CP.AllSections, s)) == Thresholds(s)
  {
    MergeAgreesWithSettingsPage(CP.SavedAll(store, CP.AllSections, s));
    SavedThresholdsLoad(store, s);
  }

  /** A stored 0 threshold falls back to the default, while a stored `false` switch is kept. */
  lemma MergeZeroAndFalse(store: Store)
    requires TempConfig in store && TempMin in store[TempConfig] && store[TempConfig][TempMin] == Num(0)
    requires IrrigationConfig in store && IrrigationEnabled in store[IrrigationConfig]
    requires store[IrrigationConfig][IrrigationEnabled] == Flag(false)
    ensures MergeConfig(store).temp.min == DefaultConfig.temp.min
    ensures !MergeConfig(store).irrigation.enabled
  {
  }

  // ----- status -----

  datatype Status = Normal | Advertencia | Critico {
    /** The badge text. */
    function Label(): string {
      match this
      case Normal => "Normal"
      case Advertencia => "Advertencia"
      case Critico => "Crítico"
    }

    /** How severe the status is: 0, 1 or 2. */
    function Rank(): nat {
      match this
      case Normal => 0
      case Advertencia => 1
      case Critico => 2
    }
  }

  predicate CriticalCondition(c: Config, d: SystemData) {
    d.temperature > c.temp.critical || d.humidity < c.humidity.critical || d.light > c.light.critical
  }

  predicate WarningCondition(c: Config, d: SystemData) {
    d.temperature > c.temp.max || d.humidity < c.humidity.min || d.light > c.light.max
  }

  /**
   * The status effect: critical beats warning beats normal. The result is
   * the most severe level whose condition holds.
   */
  function Classify(c: Config, d: SystemData): (s: Status)
    ensures s == Critico <==> CriticalCondition(c, d)
    ensures s == Advertencia <==> !CriticalCondition(c, d) && WarningCondition(c, d)
    ensures s == Normal <==> !CriticalCondition(c, d) && !WarningCondition(c, d)
    ensures s.Rank() == if CriticalCondition(c, d) then 2 else if WarningCondition(c, d) then 1 else 0
  {
    if d.temperature > c.temp.critical || d.humidity < c.humidity.critical || d.light > c.light.critical then
      Critico
    else if d.temperature > c.temp.max || d.humidity < c.humidity.min || d.light > c.light.max then
      Advertencia
    else
      Normal
  }

  /** The three badge texts are distinct, so the badge tells the levels apart. */
  lemma StatusLabelsDistinct(a: Status, b: Status)
    ensures a.Label() == b.Label() ==> a == b
  {
  }

  /** Hotter, drier or brighter never makes the status less severe. */
  lemma ClassifyMonotone(c: Config, d1: SystemData, d2: SystemData)
    requires d1.temperature <= d2.temperature
    requires d1.humidity >= d2.humidity
    requires d1.light <= d2.light
    ensures Classify(c, d1).Rank() <= Classify(c, d2).Rank()
  {
  }

  // ----- commands -----

  /** The command the irrigation effect sends for a value of `irrigationActive`. */
  function AutoCommand(active: bool): (c: Command)
    ensures c == AutoOnCommand || c == AutoOffCommand
    ensures (c == AutoOnCommand) == active
  {
    if active then AutoOnCommand else AutoOffCommand
  }

  /**
   * The commands the irrigation effect emits when `irrigationActive` takes the
   * values `vs` one after another, `last` being the value the effect last ran
   * for (`None` before its first run, at mount, when it always runs).
   */
  function IrrigationCommands(last: Option<bool>, vs: seq<bool>): (r: seq<Command>)
    ensures |r| <= |vs|
    ensures forall k :: 0 <= k < |r| ==> r[k] == AutoOnCommand || r[k] == AutoOffCommand
    decreases |vs|
  {
    if vs == [] then []
    else (if last == Some(vs[0]) then [] else [AutoCommand(vs[0])]) + IrrigationCommands(Some(vs[0]), vs[1..])
  }

  /** The value the effect last ran for before position `i` of `vs`. */
  function Before(last: Option<bool>, vs: seq<bool>, i: nat): Option<bool>
    requires i <= |vs|
  {
    if i == 0 then last else Some(vs[i - 1])
  }

  /** The number of positions of `vs` whose value differs from the one the effect last ran for. */
  function Changes(last: Option<bool>, vs: seq<bool>): nat
    decreases |vs|
  {
    if vs == [] then 0
    else Changes(last, vs[..|vs| - 1]) + (if Before(last, vs, |vs| - 1) == Some(vs[|vs| - 1]) then 0 else 1)
  }

  /** One more value appends exactly the commands that value alone would have produced. */
  lemma {:induction false} IrrigationCommandsSnoc(last: Option<bool>, vs: seq<bool>, v: bool)
    ensures IrrigationCommands(last, vs + [v]) ==
      IrrigationCommands(last, vs) + IrrigationCommands(Before(last, vs, |vs|), [v])
    decreases |vs|
  {
    if vs != [] {
      assert (vs + [v])[1..] == vs[1..] + [v];
      IrrigationCommandsSnoc(Some(vs[0]), vs[1..], v);
      assert Before(Some(vs[0]), vs[1..], |vs[1..]|) == Before(last, vs, |vs|);
    }
  }

  /** Exactly one command per change of value: the number of commands is the number of changes. */
  lemma {:induction false} IrrigationCommandsCount(last: Option<bool>, vs: seq<bool>)
    ensures |IrrigationCommands(last, vs)| == Changes(last, vs)
    decreases |vs|
  {
    if vs != [] {
      var init := vs[..|vs| - 1];
      assert vs == init + [vs[|vs| - 1]];
      IrrigationCommandsSnoc(last, init, vs[|vs| - 1]);
      IrrigationCommandsCount(last, init);
      assert Before(last, init, |init|) == Before(last, vs, |vs| - 1);
    }
  }

  /** The command last sent for `last`, if the effect has run. */
  predicate LastSentFor(last: Option<bool>, c: Command) {
    last.Some? ==> c != AutoCommand(last.value)
  }

  /**
   * The commands are edge-triggered: no command repeats the one before it,
   * and the first one differs from the one the previous value produced.
   */
  lemma {:induction false} IrrigationCommandsAlternate(last: Option<bool>, vs: seq<bool>)
    ensures var r := IrrigationCommands(last, vs);
      (r != [] ==> LastSentFor(last, r[0])) &&
      forall k :: 0 <= k < |r| - 1 ==> r[k] != r[k + 1]
    decreases |vs|
  {
    if vs != [] {
      IrrigationCommandsAlternate(Some(vs[0]), vs[1..]);
    }
  }

  /**
   * After any run of values the device has last been told the mode that
   * matches the latest value: either the final command is for it, or no
   * command was needed because the effect had already run for it.
   */
  lemma {:induction false} IrrigationCommandsTrackLatest(last: Option<bool>, vs: seq<bool>)
    requires vs != []
    ensures var r := IrrigationCommands(last, vs);
      if r == [] then last == Some(vs[|vs| - 1]) && forall k :: 0 <= k < |vs| ==> vs[k] == last.value
      else r[|r| - 1] == AutoCommand(vs[|vs| - 1])
    decreases |vs|
  {
    var head := if last == Some(vs[0]) then [] else [AutoCommand(vs[0])];
    var rest := IrrigationCommands(Some(vs[0]), vs[1..]);
    assert IrrigationCommands(last, vs) == head + rest;
    if |vs| > 1 {
      IrrigationCommandsTrackLatest(Some(vs[0]), vs[1..]);
      assert vs[1..][|vs| - 2] == vs[|vs| - 1];
      if rest == [] {
        forall k | 0 <= k < |vs|
          ensures vs[k] == vs[0]
        {
          if k > 0 {
            assert vs[k] == vs[1..][k - 1];
          }
        }
      }
    } else {
      assert rest == [];
    }
  }

  /** The sequence false, false, true, true, false after a first run for false: two commands. */
  lemma EdgeExampleAfterFirstRun()
    ensures IrrigationCommands(Some(false), [false, false, true, true, false]) == [AutoOnCommand, AutoOffCommand]
  {
  }

  /** The same sequence from mount: the first run also issues a command, so three are issued. */
  lemma EdgeExampleFromMount()
    ensures IrrigationCommands(None, [false, false, true, true, false]) ==
      [AutoOffCommand, AutoOnCommand, AutoOffCommand]
  {
  }

  /** The commands of a run grow by those of the next value alone. */
  lemma RunStepCommands(last: bool, vs: seq<bool>, i: nat)
    requires i < |vs|
    ensures Serialized(IrrigationCommands(Some(last), vs[..i + 1])) ==
      Serialized(IrrigationCommands(Some(last), vs[..i])) + Serialized(IrrigationCommands(Before(Some(last), vs, i), [vs[i]]))
  {
    assert vs[..i + 1] == vs[..i] + [vs[i]];
    IrrigationCommandsSnoc(Some(last), vs[..i], vs[i]);
    assert Before(Some(last), vs[..i], i) == Before(Some(last), vs, i);
    SerializedAppend(IrrigationCommands(Some(last), vs[..i]), IrrigationCommands(Before(Some(last), vs, i), [vs[i]]));
  }

  lemma Regroup<T>(a: seq<T>, b: seq<T>, c: seq<T>, d: seq<T>, e: seq<T>)
    requires d == b + c && e == (a + b) + c
    ensures e == a + d
  {
  }

  /**
   * The payloads of a run grow by those of the next value alone: after the
   * payloads for `vs[..i]`, the ones the next run adds make those for `vs[..i + 1]`.
   */
  lemma RunStep(sent0: seq<string>, before: seq<string>, after: seq<string>, last: bool, vs: seq<bool>, i: nat)
    requires i < |vs|
    requires before == sent0 + Serialized(IrrigationCommands(Some(last), vs[..i]))
    requires after == before + Serialized(IrrigationCommands(Before(Some(last), vs, i), [vs[i]]))
    ensures after == sent0 + Serialized(IrrigationCommands(Some(last), vs[..i + 1]))
  {
    RunStepCommands(last, vs, i);
    Regroup(sent0, Serialized(IrrigationCommands(Some(last), vs[..i])),
      Serialized(IrrigationCommands(Before(Some(last), vs, i), [vs[i]])),
      Serialized(IrrigationCommands(Some(last), vs[..i + 1])), after);
  }

  /** The dashboard component's state and effects. */
  class Page {
    var config: Config
    var systemData: SystemData
    var systemStatus: Status
    /** The `irrigationActive` value the irrigation effect last ran for. */
    var lastIrrigation: Option<bool>
    /** `ws.current` */
    var ws: Socket?
    const history: HistoricalData
    const storage: LocalStorage

    /** The initial state: default configuration and one simulated reading for it. */
    constructor (storage: LocalStorage, history: HistoricalData, ws: Socket?, rt: real, rh: real, rl: real)
      requires 0.0 <= rt < 1.0 && 0.0 <= rh < 1.0 && 0.0 <= rl < 1.0
      ensures this.storage == storage && this.history == history && this.ws == ws
      ensures config == DefaultConfig
      ensures systemData == GenerateData(DefaultConfig, rt, rh, rl)
      ensures systemStatus == Normal && lastIrrigation == None
    {
      this.storage := storage;
      this.history := history;
      this.ws := ws;
      config := DefaultConfig;
      systemData := GenerateData(DefaultConfig, rt, rh, rl);
      systemStatus := Normal;
      lastIrrigation := None;
    }

    /** `sendCommand(data)`: one serialised payload when the socket is open, nothing otherwise. */
    method SendCommand(data: Command)
      modifies ws
      ensures ws != null ==> ws.open == old(ws.open)
      ensures ws != null ==> ws.sent == old(ws.sent) + (if old(ws.open) then [Serialize(data)] else [])
    {
      if ws != null && ws.open {
        ws.Send(Serialize(data));
      }
    }

    method AutoOn()
      modifies ws
      ensures ws != null ==> ws.open == old(ws.open)
      ensures ws != null ==> ws.sent == old(ws.sent) + (if old(ws.open) then [Serialize(AutoOnCommand)] else [])
    {
      SendCommand(AutoOnCommand);
    }

    method AutoOff()
      modifies ws
      ensures ws != null ==> ws.open == old(ws.open)
      ensures ws != null ==> ws.sent == old(ws.sent) + (if old(ws.open) then [Serialize(AutoOffCommand)] else [])
    {
      SendCommand(AutoOffCommand);
    }

    /**
     * The irrigation effect, run whenever React sees `irrigationActive` differ
     * from the value it last ran for (and once at mount).
     */
    method IrrigationEffect()
      modifies this`lastIrrigation, ws
      ensures lastIrrigation == Some(systemData.irrigationActive)
      ensures ws != null ==> ws.open == old(ws.open)
      ensures ws != null ==>
        ws.sent == old(ws.sent) + (if old(ws.open) then Serialized(IrrigationCommands(old(lastIrrigation), [systemData.irrigationActive])) else [])
    {
      if lastIrrigation != Some(systemData.irrigationActive) {
        if systemData.irrigationActive {
          AutoOn();
        } else {
          AutoOff();
        }
        lastIrrigation := Some(systemData.irrigationActive);
      }
    }

    /**
     * The irrigation effect from mount over the values `vs` of `irrigationActive`,
     * one effect run per value: at the first run the socket is still connecting
     * (the socket effect has only constructed it), and from the second run on it
     * is open. The device receives exactly the commands issued after the first run.
     */
    method RunFromMount(vs: seq<bool>)
      requires vs != [] && ws != null && !ws.open && lastIrrigation == None
      modifies this`systemData, this`lastIrrigation, ws
      ensures ws.open
      ensures ws.sent == old(ws.sent) + Serialized(IrrigationCommands(Some(vs[0]), vs[1..]))
      ensures lastIrrigation == Some(vs[|vs| - 1])
    {
      ghost var sent0 := ws.sent;
      systemData := systemData.(irrigationActive := vs[0]);
      IrrigationEffect();
      assert ws.sent == sent0;
      ws.open := true;
      RunOpen(vs[0], vs[1..]);
      assert vs[1..] == [] ==> vs[0] == vs[|vs| - 1];
      assert vs[1..] != [] ==> vs[1..][|vs[1..]| - 1] == vs[|vs| - 1];
    }

    /** Effect runs over `vs` on an open socket, after a run for `last`: every issued command is sent. */
    method RunOpen(last: bool, vs: seq<bool>)
      requires ws != null && ws.open && lastIrrigation == Some(last)
      modifies this`systemData, this`lastIrrigation, ws
      ensures ws.open
      ensures ws.sent == old(ws.sent) + Serialized(IrrigationCommands(Some(last), vs))
      ensures lastIrrigation == Some(if vs == [] then last else vs[|vs| - 1])
    {
      ghost var sent0 := ws.sent;
      for i := 0 to |vs|
        invariant ws.open
        invariant lastIrrigation == Before(Some(last), vs, i)
        invariant ws.sent == sent0 + Serialized(IrrigationCommands(Some(last), vs[..i]))
      {
        ghost var before := ws.sent;
        systemData := systemData.(irrigationActive := vs[i]);
        IrrigationEffect();
        assert ws.sent == before + Serialized(IrrigationCommands(Before(Some(last), vs, i), [vs[i]]));
        RunStep(sent0, before, ws.sent, last, vs, i);
      }
      assert vs[..|vs|] == vs;
    }

    /**
     * The readings false, false, true, true, false from mount: three commands
     * are issued, the first is dropped while the socket connects, and the device
     * receives AUTO_ON then AUTO_OFF.
     */
    method EdgeExampleDeliveredFromMount()
      requires ws != null && !ws.open && lastIrrigation == None
      modifies this`systemData, this`lastIrrigation, ws
      ensures ws.sent == old(ws.sent) + [Serialize(AutoOnCommand), Serialize(AutoOffCommand)]
    {
      var vs := [false, false, true, true, false];
      RunFromMount(vs);
      assert vs[1..] == [false, true, true, false];
      assert IrrigationCommands(Some(false), [false, true, true, false]) == [AutoOnCommand, AutoOffCommand];
    }

    /** The settings effect: read the four stored blobs and merge them over the defaults. */
    method LoadConfig()
      modifies this`config
      ensures config == MergeConfig(storage.items)
    {
      config := MergeConfig(storage.items);
    }

    /** The status effect. */
    method UpdateStatus()
      modifies this`systemStatus
      ensures systemStatus == Classify(config, systemData)
    {
      if systemData.temperature > config.temp.critical ||
         systemData.humidity < config.humidity.critical ||
         systemData.light > config.light.critical {
        systemStatus := Critico;
      } else if systemData.temperature > config.temp.max ||
                systemData.humidity < config.humidity.min ||
                systemData.light > config.light.max {
        systemStatus := Advertencia;
      } else {
        systemStatus := Normal;
      }
    }

    /**
     * The history initialisation effect: one fresh reading, pushed seven
     * times, so every buffer holds that reading in every slot; `times[i]`
     * is the clock at the i-th push.
     */
    method InitHistory(rt: real, rh: real, rl: real, times: seq<Time>)
      requires 0.0 <= rt < 1.0 && 0.0 <= rh < 1.0 && 0.0 <= rl < 1.0
      requires |times| == Capacity
      requires history.Valid()
      modifies this`systemData, history
      ensures systemData == GenerateData(config, rt, rh, rl)
      ensures history.Valid()
      ensures history.temperature == Repeat(Some(systemData.temperature), Capacity)
      ensures history.humidity == Repeat(Some(systemData.humidity), Capacity)
      ensures history.light == Repeat(Some(systemData.light), Capacity)
      ensures history.timestamps == TimeLabels(times)
    {
      var firstData := GenerateData(config, rt, rh, rl);
      systemData := firstData;
      PushRepeatedly(history, SampleOf(firstData), times);
    }

    /** One tick of the five-second interval: a new reading, also pushed into the history. */
    method Tick(rt: real, rh: real, rl: real, now: Time)
      requires 0.0 <= rt < 1.0 && 0.0 <= rh < 1.0 && 0.0 <= rl < 1.0
      modifies this`systemData, history
      ensures systemData == GenerateData(config, rt, rh, rl)
      ensures history.temperature == ShiftPush(old(history.temperature), Some(systemData.temperature))
      ensures history.humidity == ShiftPush(old(history.humidity), Some(systemData.humidity))
      ensures history.light == ShiftPush(old(history.light), Some(systemData.light))
      ensures history.timestamps == ShiftPush(old(history.timestamps), Some(TimeString(now)))
      ensures old(history.Valid()) ==> history.Valid()
    {
      var newData := GenerateData(config, rt, rh, rl);
      systemData := newData;
      history.Update(SampleOf(newData), now);
    }
  }

  /**
   * `for (let i = 0; i < 7; i++) updateHistoricalData(sample)`: afterwards
   * every slot of every buffer holds the sample.
   */
  method PushRepeatedly(history: HistoricalData, sample: Sample, times: seq<Time>)
    requires |times| == Capacity
    requires history.Valid()
    modifies history
    ensures history.Valid()
    ensures history.temperature == Repeat(Some(sample.temperature), Capacity)
    ensures history.humidity == Repeat(Some(sample.humidity), Capacity)
    ensures history.light == Repeat(Some(sample.light), Capacity)
    ensures history.timestamps == TimeLabels(times)
  {
    ghost var t0, h0, l0, s0 := history.temperature, history.humidity, history.light, history.timestamps;
    for i := 0 to Capacity
      invariant history.Valid()
      invariant history.temperature == t0[i..] + Repeat(Some(sample.temperature), i)
      invariant history.humidity == h0[i..] + Repeat(Some(sample.humidity), i)
      invariant history.light == l0[i..] + Repeat(Some(sample.light), i)
      invariant history.timestamps == s0[i..] + TimeLabels(times[..i])
    {
      ShiftPushTail(t0, Repeat(Some(sample.temperature), i), Some(sample.temperature), i);
      ShiftPushTail(h0, Repeat(Some(sample.humidity), i), Some(sample.humidity), i);
      ShiftPushTail(l0, Repeat(Some(sample.light), i), Some(sample.light), i);
      ShiftPushTail(s0, TimeLabels(times[..i]), Some(TimeString(times[i])), i);
      TimeLabelsSnoc(times, i);
      history.Update(sample, times[i]);
    }
    assert times[..Capacity] == times;
  }

  /** `n` copies of `x`. */
  function Repeat<T>(x: T, n: nat): (r: seq<T>)
    ensures |r| == n && forall k :: 0 <= k < n ==> r[k] == x
  {
    if n == 0 then [] else Repeat(x, n - 1) + [x]
  }

  /** The payloads of a run of commands. */
  function Serialized(cs: seq<Command>): (r: seq<string>)
    ensures |r| == |cs| && forall k :: 0 <= k < |cs| ==> r[k] == Serialize(cs[k])
  {
    if cs == [] then [] else [Serialize(cs[0])] + Serialized(cs[1..])
  }

  lemma SerializedAppend(a: seq<Command>, b: seq<Command>)
    ensures Serialized(a + b) == Serialized(a) + Serialized(b)
  {
    var l, r := Serialized(a + b), Serialized(a) + Serialized(b);
    assert |l| == |r|;
    forall k | 0 <= k < |l| ensures l[k] == r[k] {
      if k < |a| {
        assert (a + b)[k] == a[k];
      } else {
        assert (a + b)[k] == b[k - |a|];
      }
    }
  }
}
