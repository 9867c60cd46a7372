# Irrigation dashboard: verified model of the logic layer

This project models the browser front end of a small irrigation system.
The front end is a React application. It watches temperature, humidity and
light, decides whether irrigation should run, talks to the field device over
a WebSocket, keeps a list of plantations, and stores alert thresholds in the
browser's `localStorage`. Almost all of it is markup, rendering and
plumbing. The model keeps the part that is plain logic and proves what that
logic promises.

Modules follow the source files:

- `OverviewChart` (`overview_chart.dfy`) models the chart history. It is a
  class holding four parallel buffers of capacity 7: temperature, humidity,
  light and time label. `Update` does shift-then-push. `ChartData` is the
  null-filtering projection the chart reads.
- `DashboardPage` (`dashboard_page.dfy`) covers the dashboard:
  - the built-in defaults and the simulated readings;
  - merging stored thresholds over the defaults;
  - the three-level status (Crítico, Advertencia, Normal);
  - the automatic-irrigation condition and the AUTO_ON/AUTO_OFF commands sent when it changes;
  - the seven-fold initialisation of the history.

  The component is a class `Page`. Its effects are methods.
- `ConfiguracionPage` (`configuracion_page.dfy`) models the settings page.
  It has eighteen settings with defaults. Each section is saved under its
  own storage key. Loading has per-field rules: a stored number or text
  counts only when truthy; a stored flag counts whenever it is present.
- `Plantacion3D` (`plantacion_3d.dfy`) covers the plantation panel:
  - the two manual toggles, with the command each sends and the reading each reports;
  - the readings built from a device frame;
  - the readings built from a simulated tick.
- `PlantacionesPage` (`plantaciones_page.dfy`) covers the plantation list:
  - the initial list and selection;
  - updating one plantation's reading by id;
  - appending a plantation;
  - looking up the selected plantation.
- `Campo3D` (`campo_3d.dfy`) places n plots on a grid with `ceil(sqrt n)`
  columns.
- Shared modules:
  - `Channel` models command objects, their `JSON.stringify` text with a parser that reads them back, and the send side of the socket.
  - `Storage` models `localStorage` as a map from the five keys the pages use to parsed JSON objects, plus the `||`, `??` and `!== undefined` read rules. Keys and property names are enumerations whose `Name()` is the string the code writes.
  - `Text` models `toString` and `padStart`.
  - `Plantations` holds the plantation record.
  - `Wrappers` holds `Option`.

Random draws, the clock and new ids are parameters.

The irrigation effect issues one command per change of `irrigationActive`,
and it also runs once at mount, before any value has changed. An edge-only
reading of the rule would count two commands for the readings false, false,
true, true, false. From mount the effect issues three: AUTO_OFF, AUTO_ON,
AUTO_OFF (`EdgeExampleFromMount`). It issues two only once it has already
run for `false` (`EdgeExampleAfterFirstRun`). At mount the socket is still
connecting, so the first of the three is dropped by the open-socket check.
Provided the socket has opened before the effect's next run, only AUTO_ON
and AUTO_OFF are sent on it (`Page.RunFromMount`,
`Page.EdgeExampleDeliveredFromMount`).

## Model

| member | source | states |
|---|---|---|
| `Text.NatToString` | FrontEnd/components/overview-chart.tsx:35 | `toString` of a non-negative integer is a non-empty digit string; it has one digit exactly when the number is below 10, and a leading '0' only for 0 |
| `Text.DigitsValueOfNatToString` | FrontEnd/components/overview-chart.tsx:35 | reading the decimal text back gives the number |
| `Text.NatToStringInjective` | FrontEnd/components/overview-chart.tsx:35 | distinct numbers render differently |
| `Text.NatToStringBelow100` | FrontEnd/components/overview-chart.tsx:35 | minutes (below 100) render in at most two digits |
| `Text.PadStart` | FrontEnd/components/overview-chart.tsx:35 | `padStart(len, c)` keeps the string as the suffix, fills the front with `c`, and the length is the larger of the two |
| `OverviewChart.TimeLabelsSnoc` | FrontEnd/components/overview-chart.tsx:34-40 | one more clock reading adds its time label at the end of the labels of the earlier ones |
| `OverviewChart.JoinAtColonInjective` | FrontEnd/components/overview-chart.tsx:35 | joining a text, a colon and a two-character text can be undone: equal results have equal parts |
| `OverviewChart.PaddedMinutes` | FrontEnd/components/overview-chart.tsx:35 | minutes below 60, padded to two places, are exactly two digits that read back as the minutes |
| `OverviewChart.MinutesText` | FrontEnd/components/overview-chart.tsx:35 | the minute part of a label is two digits that read back as the minutes |
| `OverviewChart.TimeString` | FrontEnd/components/overview-chart.tsx:35 | for minutes below 60 a label is the hour text followed by three characters: the colon and two minute digits |
| `OverviewChart.TimeStringShape` | FrontEnd/components/overview-chart.tsx:35 | a time label splits back into the hour text, a colon three places from the end, and the two-digit minute text |
| `OverviewChart.TimeStringInjective` | FrontEnd/components/overview-chart.tsx:35 | distinct clock readings (minutes below 60) give distinct labels |
| `OverviewChart.Nulls` | FrontEnd/components/overview-chart.tsx:21-24 | `Array(n).fill(null)` has length n and every slot null |
| `OverviewChart.Shift` | FrontEnd/components/overview-chart.tsx:29-32 | `shift` drops the first element and moves every other one place left; an empty array stays empty |
| `OverviewChart.ShiftPush` | FrontEnd/components/overview-chart.tsx:29-40 | shift-then-push keeps a non-empty buffer's length, puts the new value last and moves every other element one place left |
| `OverviewChart.ShiftPushFills` | FrontEnd/components/overview-chart.tsx:29-40 | in a full-length buffer whose null slots are the first ones, pushing a real value leaves one null fewer and keeps them at the front |
| `OverviewChart.ShiftPushAll` | FrontEnd/components/overview-chart.tsx:28-41 | repeated shift-then-push keeps a non-empty buffer's length and leaves the last pushed value last |
| `OverviewChart.ShiftPushAllWindow` | FrontEnd/components/overview-chart.tsx:28-41 | after any run of pushes a buffer is the sliding window over its old contents followed by the pushed values, as long as the buffer |
| `OverviewChart.NoNullAfterCapacity` | FrontEnd/components/overview-chart.tsx:20-41 | after 7 or more real pushes into a 7-slot buffer no slot is null |
| `OverviewChart.Labels` | FrontEnd/components/overview-chart.tsx:48 | the filtered labels are no more than the labels, and each is one of them |
| `OverviewChart.Values` | FrontEnd/components/overview-chart.tsx:49 | the filtered points are no more than the slots, and each is the value of a non-null slot |
| `OverviewChart.PresentIndices` | FrontEnd/components/overview-chart.tsx:48-49 | the non-null positions, in increasing order, each in range and non-null, covering every non-null slot |
| `OverviewChart.PresentIndicesOfFull` | FrontEnd/components/overview-chart.tsx:49 | a buffer without nulls keeps all its points |
| `OverviewChart.ChartAlignment` | FrontEnd/components/overview-chart.tsx:48-49 | the filtered labels and points have equal length, and the k-th of each comes from the same original slot |
| `OverviewChart.ChartOf` | FrontEnd/components/overview-chart.tsx:46-49 | the chart series pairs the label and the value of each non-null slot, in order |
| `OverviewChart.HistoricalData.constructor` | FrontEnd/components/overview-chart.tsx:20-25 | all four buffers start as seven nulls |
| `OverviewChart.HistoricalData.Update` | FrontEnd/components/overview-chart.tsx:28-41 | each buffer becomes its shift-then-push with the new reading (or the label of the clock reading), one more update is counted, and the invariant holds: all lengths stay 7 and the null slots are the same leading slots in all four buffers, one fewer after each update |
| `OverviewChart.HistoricalData.PushSample` | FrontEnd/components/overview-chart.tsx:29-40 | the four shifts and pushes for a given label, keeping the invariant |
| `OverviewChart.HistoricalData.ChartData` | FrontEnd/components/overview-chart.tsx:46-49 | a chart has as many labels as points, at most 7, and no null label |
| `OverviewChart.FullAfterCapacityUpdates` | FrontEnd/components/overview-chart.tsx:20-49 | after 7 updates no buffer holds a null and every chart shows 7 points |
| `DashboardPage.Draw` | FrontEnd/components/dashboard-page.tsx:25-27 | `Math.floor(r*span)+base` for r in [0,1) lies in [base, base+span) |
| `DashboardPage.GenerateData` | FrontEnd/components/dashboard-page.tsx:24-35 | temperature is in 15..29, humidity in 20..79 and light in 500..2499; `irrigationActive` is the irrigation condition of those readings |
| `DashboardPage.IrrigationActive` | FrontEnd/components/dashboard-page.tsx:29-32 | irrigation is only ever active with the automatic switch on |
| `DashboardPage.IrrigationActiveMonotone` | FrontEnd/components/dashboard-page.tsx:29-32 | a hotter, drier or darker reading keeps an active irrigation active |
| `DashboardPage.DisabledNeverIrrigates` | FrontEnd/components/dashboard-page.tsx:29-32 | with automatic irrigation disabled no reading is irrigation-active |
| `DashboardPage.DefaultsAgree` | FrontEnd/components/dashboard-page.tsx:11-21 | the dashboard's `defaultConfig` is exactly the settings page's initial thresholds |
| `DashboardPage.MergeConfig` | FrontEnd/components/dashboard-page.tsx:95-117 | an empty store gives `defaultConfig`, and no merged threshold is ever 0 |
| `DashboardPage.MergeAgreesWithSettingsPage` | FrontEnd/components/dashboard-page.tsx:89-118 | for any store, the merged configuration equals the thresholds the settings page shows after its own load, i.e. each number is the stored one when truthy else the default, and the flag is the stored one whenever present |
| `DashboardPage.SavedThresholdsLoad` | FrontEnd/components/configuracion-page.tsx:45-120 | after every settings section is saved with non-zero thresholds, whatever the texts, the settings page loads exactly those thresholds back |
| `DashboardPage.SavedSettingsReachDashboard` | FrontEnd/components/dashboard-page.tsx:89-118 | after every settings section is saved with non-zero thresholds, whatever the notification texts, the dashboard loads exactly those thresholds |
| `DashboardPage.MergeZeroAndFalse` | FrontEnd/components/dashboard-page.tsx:97-112 | a stored 0 threshold yields the default, while a stored `false` irrigation switch is kept |
| `DashboardPage.Classify` | FrontEnd/components/dashboard-page.tsx:121-133 | Crítico exactly when a critical condition holds; Advertencia exactly when none does and a warning condition holds; Normal otherwise; the rank is the most severe level that holds |
| `DashboardPage.StatusLabelsDistinct` | FrontEnd/components/dashboard-page.tsx:125-131 | the badge texts "Crítico", "Advertencia" and "Normal" tell the three levels apart |
| `DashboardPage.ClassifyMonotone` | FrontEnd/components/dashboard-page.tsx:121-133 | hotter, drier or brighter never lowers the status |
| `DashboardPage.AutoCommand` | FrontEnd/components/dashboard-page.tsx:81-87 | the effect issues AUTO_ON exactly when irrigation is active, otherwise AUTO_OFF |
| `DashboardPage.IrrigationCommands` | FrontEnd/components/dashboard-page.tsx:81-87 | a run of values issues at most one command per value, each AUTO_ON or AUTO_OFF |
| `DashboardPage.IrrigationCommandsSnoc` | FrontEnd/components/dashboard-page.tsx:81-87 | one more value appends exactly the commands that value alone issues after the previous one |
| `DashboardPage.IrrigationCommandsCount` | FrontEnd/components/dashboard-page.tsx:81-87 | the number of commands is exactly the number of positions whose value differs from the value before it: one command per change |
| `DashboardPage.IrrigationCommandsAlternate` | FrontEnd/components/dashboard-page.tsx:81-87 | over any run of values, consecutive commands differ and the first differs from the one the previous value gave |
| `DashboardPage.IrrigationCommandsTrackLatest` | FrontEnd/components/dashboard-page.tsx:81-87 | after any run of values the last command issued matches the latest value, or no command was needed because the effect had already run for it |
| `DashboardPage.EdgeExampleAfterFirstRun` | FrontEnd/components/dashboard-page.tsx:81-87 | false, false, true, true, false after a first run for false issues AUTO_ON then AUTO_OFF |
| `DashboardPage.EdgeExampleFromMount` | FrontEnd/components/dashboard-page.tsx:81-87 | the same values from mount issue AUTO_OFF, AUTO_ON, AUTO_OFF |
| `DashboardPage.Page.RunFromMount` | FrontEnd/components/dashboard-page.tsx:47-87 | effect runs from mount, with the socket connecting at the first and open afterwards: the socket receives exactly the payloads of the commands issued after the first run |
| `DashboardPage.Page.RunOpen` | FrontEnd/components/dashboard-page.tsx:70-87 | effect runs on an open socket send exactly the payloads of the commands they issue, in order |
| `DashboardPage.Page.EdgeExampleDeliveredFromMount` | FrontEnd/components/dashboard-page.tsx:47-87 | for false, false, true, true, false from mount, the socket's sent payloads grow by exactly `{"AUTO_ON":true}` then `{"AUTO_OFF":true}` |
| `DashboardPage.Page.constructor` | FrontEnd/components/dashboard-page.tsx:38-40 | the component starts with the defaults, one reading for them and status Normal |
| `DashboardPage.Page.SendCommand` | FrontEnd/components/dashboard-page.tsx:70-74 | exactly one serialised payload is sent when the socket is open, nothing otherwise |
| `DashboardPage.Page.AutoOn` | FrontEnd/components/dashboard-page.tsx:76 | sends `{"AUTO_ON":true}` on an open socket only |
| `DashboardPage.Page.AutoOff` | FrontEnd/components/dashboard-page.tsx:77 | sends `{"AUTO_OFF":true}` on an open socket only |
| `DashboardPage.Page.IrrigationEffect` | FrontEnd/components/dashboard-page.tsx:81-87 | a run of the effect issues the command for the current value when it differs from the value it last ran for, and it reaches the socket only when the socket is open |
| `DashboardPage.Page.LoadConfig` | FrontEnd/components/dashboard-page.tsx:89-118 | the configuration becomes the merge of the stored blobs over the defaults |
| `DashboardPage.Page.UpdateStatus` | FrontEnd/components/dashboard-page.tsx:121-133 | the status becomes the classification of the current reading |
| `DashboardPage.Page.InitHistory` | FrontEnd/components/dashboard-page.tsx:136-142 | one fresh reading is pushed seven times; afterwards every slot of every buffer holds it and the labels are the seven clock readings |
| `DashboardPage.Page.Tick` | FrontEnd/components/dashboard-page.tsx:145-150 | a new reading replaces the current one and is pushed into the history, keeping its invariant |
| `DashboardPage.PushRepeatedly` | FrontEnd/components/dashboard-page.tsx:139-141 | the loop of seven pushes leaves each buffer holding seven copies of the sample and keeps the invariant |
| `ConfiguracionPage.SectionOf` | FrontEnd/components/configuracion-page.tsx:81-119 | the five section names select their section, and every other name selects none |
| `ConfiguracionPage.SectionNameInjective` | FrontEnd/components/configuracion-page.tsx:81-119 | distinct sections have distinct names, and each name selects its own section |
| `ConfiguracionPage.StorageKeyInjective` | FrontEnd/components/configuracion-page.tsx:83-112 | distinct sections are saved under distinct keys |
| `ConfiguracionPage.SectionFields` | FrontEnd/components/configuracion-page.tsx:83-117 | every setting belongs to exactly one section's saved object |
| `ConfiguracionPage.SectionBlob` | FrontEnd/components/configuracion-page.tsx:83-117 | a section's saved object holds exactly that section's settings, each under its property with its current value, and no other section's property |
| `ConfiguracionPage.Saved` | FrontEnd/components/configuracion-page.tsx:80-120 | saving a known section writes exactly its key with exactly its fields and leaves every other key unchanged; an unknown name writes nothing |
| `ConfiguracionPage.SavedToast` | FrontEnd/components/configuracion-page.tsx:124 | the toast description names the section, whether or not it was known |
| `ConfiguracionPage.LoadField` | FrontEnd/components/configuracion-page.tsx:47-77 | a loaded setting has its own type, stays as it was when its section is not stored, and changes only to a flag or a truthy value |
| `ConfiguracionPage.LoadTemp` | FrontEnd/components/configuracion-page.tsx:47-50 | the temperature section touches no other setting, and an empty object changes nothing |
| `ConfiguracionPage.LoadHumidity` | FrontEnd/components/configuracion-page.tsx:53-56 | the humidity section touches no other setting, and an empty object changes nothing |
| `ConfiguracionPage.LoadLight` | FrontEnd/components/configuracion-page.tsx:59-62 | the light section touches no other setting, and an empty object changes nothing |
| `ConfiguracionPage.LoadIrrigation` | FrontEnd/components/configuracion-page.tsx:65-69 | the irrigation section touches no other setting, and an empty object changes nothing |
| `ConfiguracionPage.LoadNotifications` | FrontEnd/components/configuracion-page.tsx:72-77 | the notifications section touches no other setting, and an empty object changes nothing |
| `ConfiguracionPage.LoadSwitches` | FrontEnd/components/configuracion-page.tsx:73-75 | the switches step touches only the three notification switches |
| `ConfiguracionPage.LoadAddresses` | FrontEnd/components/configuracion-page.tsx:76-77 | the addresses step touches only the e-mail and phone texts |
| `ConfiguracionPage.Loaded` | FrontEnd/components/configuracion-page.tsx:45-78 | with nothing stored, the load effect leaves every setting as it was |
| `ConfiguracionPage.LoadedField` | FrontEnd/components/configuracion-page.tsx:47-77 | loading gives every setting by the per-field rule: a stored number or text of the right type when truthy, a stored flag whenever present, otherwise the current value |
| `ConfiguracionPage.LoadIdempotent` | FrontEnd/components/configuracion-page.tsx:47-77 | loading twice is the same as loading once |
| `ConfiguracionPage.SaveThenLoad` | FrontEnd/components/configuracion-page.tsx:47-120 | after saving a section, each of its settings loads back as saved when it is a flag or truthy, and as the loader's own value when it is 0 or empty; other settings load as before |
| `ConfiguracionPage.SavedAllHolds` | FrontEnd/components/configuracion-page.tsx:80-120 | after saving a list of sections, each of them holds exactly its saved object, whatever was saved after it |
| `ConfiguracionPage.SaveAllThenLoadField` | FrontEnd/components/configuracion-page.tsx:47-120 | after saving all five sections, a flag or a truthy setting loads back exactly as saved |
| `ConfiguracionPage.SaveAllThenLoad` | FrontEnd/components/configuracion-page.tsx:47-120 | saving all five sections and loading on a fresh page restores every setting exactly, when no number is 0 and no text is empty |
| `ConfiguracionPage.DefaultsSurviveSaveAll` | FrontEnd/components/configuracion-page.tsx:18-43 | every initial value is truthy, so saving all sections with the defaults and reloading gives back exactly the defaults |
| `ConfiguracionPage.Page.constructor` | FrontEnd/components/configuracion-page.tsx:18-43 | the page starts with the eighteen defaults |
| `ConfiguracionPage.Page.Load` | FrontEnd/components/configuracion-page.tsx:45-78 | the load effect gives the settings `Loaded` computes from the store |
| `ConfiguracionPage.Page.LoadTempSection` | FrontEnd/components/configuracion-page.tsx:47-50 | each truthy stored temperature threshold replaces the current one |
| `ConfiguracionPage.Page.LoadHumiditySection` | FrontEnd/components/configuracion-page.tsx:53-56 | each truthy stored humidity threshold replaces the current one |
| `ConfiguracionPage.Page.LoadLightSection` | FrontEnd/components/configuracion-page.tsx:59-62 | each truthy stored light threshold replaces the current one |
| `ConfiguracionPage.Page.LoadIrrigationSection` | FrontEnd/components/configuracion-page.tsx:65-69 | a present stored irrigation switch, including `false`, and each truthy threshold replace the current ones |
| `ConfiguracionPage.Page.LoadNotificationSection` | FrontEnd/components/configuracion-page.tsx:72-77 | the notification switches, then the addresses |
| `ConfiguracionPage.Page.LoadSwitchesSection` | FrontEnd/components/configuracion-page.tsx:73-75 | each present stored notification switch, including `false`, replaces the current one |
| `ConfiguracionPage.Page.LoadAddressesSection` | FrontEnd/components/configuracion-page.tsx:76-77 | each non-empty stored address replaces the current one |
| `ConfiguracionPage.Page.SaveConfig` | FrontEnd/components/configuracion-page.tsx:80-127 | the store becomes `Saved` of the section, and the toast is shown for any section name |
| `Storage.StoreKeyNamed` | FrontEnd/components/configuracion-page.tsx:47-72 | a key string read back names a key whose string it is |
| `Storage.StoreKeyNameInjective` | FrontEnd/components/configuracion-page.tsx:47-72 | each of the five keys is recovered from its string, so distinct keys never share an entry |
| `Storage.GetBlob` | FrontEnd/components/configuracion-page.tsx:47 | a missing key reads as the empty object |
| `Storage.NumOr` | FrontEnd/components/dashboard-page.tsx:97-115 | reading with a logical-or default gives the stored number when it is present and non-zero, else the default |
| `Storage.FlagOr` | FrontEnd/components/dashboard-page.tsx:112 | reading with a nullish default gives the stored flag whenever present, so `false` is kept |
| `Storage.TextOr` | FrontEnd/components/configuracion-page.tsx:76-77 | a stored text replaces the current one only when non-empty |
| `Storage.LocalStorage.SetItem` | FrontEnd/components/configuracion-page.tsx:83-87 | writing a key replaces that key's object and nothing else |
| `Channel.Serialize` | FrontEnd/components/dashboard-page.tsx:72 | `JSON.stringify` of a command is an object text between braces |
| `Channel.SerializePair` | FrontEnd/components/plantacion-3d.tsx:97-100 | a two-key command is its two members between braces, separated by a comma |
| `Channel.SerializeWithAutoOff` | FrontEnd/components/plantacion-3d.tsx:97-100 | a manual command is its own key, then AUTO_OFF, both true, between braces |
| `Channel.KeyNamedName` | FrontEnd/components/dashboard-page.tsx:72 | every command key is recovered from its member name |
| `Channel.ParseEntryRoundTrip` | FrontEnd/components/dashboard-page.tsx:72 | one member reads back as itself and leaves whatever followed it |
| `Channel.AutoCommandsOnTheWire` | FrontEnd/components/dashboard-page.tsx:76-77 | the exact payloads of AUTO_ON and AUTO_OFF |
| `Channel.ParseSerialize` | FrontEnd/components/dashboard-page.tsx:72 | every command payload parses back to the command |
| `Channel.SerializeInjective` | FrontEnd/components/dashboard-page.tsx:72 | distinct commands have distinct payloads |
| `Channel.Socket.Send` | FrontEnd/components/dashboard-page.tsx:72 | `send` on an open socket appends exactly that payload |
| `Plantacion3D.RiegoCommand` | FrontEnd/components/plantacion-3d.tsx:96-101 | two distinct keys: RIEGO_ON when checked else RIEGO_OFF, then AUTO_OFF, both true |
| `Plantacion3D.IluminacionCommand` | FrontEnd/components/plantacion-3d.tsx:117-122 | two distinct keys: ILUM_ON when checked else ILUM_OFF, then AUTO_OFF, both true |
| `Plantacion3D.RiegoCommandOnTheWire` | FrontEnd/components/plantacion-3d.tsx:96-101 | the exact payload of an irrigation command |
| `Plantacion3D.IluminacionCommandOnTheWire` | FrontEnd/components/plantacion-3d.tsx:117-122 | the exact payload of an illumination command |
| `Plantacion3D.RiegoUpdate` | FrontEnd/components/plantacion-3d.tsx:107-111 | the reported reading differs from the old one only in `riegoActivo` (now `checked`) and the timestamp |
| `Plantacion3D.IluminacionUpdate` | FrontEnd/components/plantacion-3d.tsx:128-132 | the reported reading differs from the old one only in `luzActiva` (now `checked`) and the timestamp |
| `Plantacion3D.TogglesCommute` | FrontEnd/components/plantacion-3d.tsx:107-132 | the two toggles commute, up to the later timestamp |
| `Plantacion3D.RiegoToggleUndo` | FrontEnd/components/plantacion-3d.tsx:107-111 | switching irrigation back restores the reading, apart from the timestamp |
| `Plantacion3D.LiveUpdate` | FrontEnd/components/plantacion-3d.tsx:56-69 | a frame gives humidity, irrigation flag and time from the device, light through the calibration curve, and keeps the panel's illumination flag; an unparsable frame gives no reading |
| `Plantacion3D.SimulatedTick` | FrontEnd/components/plantacion-3d.tsx:79-87 | both flags are kept, humidity is in [0,100) and light in [0,3000) |
| `Plantacion3D.View.HandleRiegoChange` | FrontEnd/components/plantacion-3d.tsx:93-112 | the irrigation command is sent only for a real plantation on an open socket; a real one on a closed socket warns; the updated reading is always reported |
| `Plantacion3D.View.HandleIluminacionChange` | FrontEnd/components/plantacion-3d.tsx:114-133 | the same for illumination |
| `PlantacionesPage.InitialSeleccionadaId` | FrontEnd/app/plantaciones/page.tsx:53 | the selection starts at the first id, and is null for an empty list or an empty id |
| `PlantacionesPage.FindIndex` | FrontEnd/app/plantaciones/page.tsx:100 | the first index whose id is the selected one, or none when no id matches |
| `PlantacionesPage.Seleccionada` | FrontEnd/app/plantaciones/page.tsx:100 | `find` gives the first plantation with the selected id, and nothing when there is none |
| `PlantacionesPage.SeleccionadaUnique` | FrontEnd/app/plantaciones/page.tsx:100 | with unique ids the plantation found is the one with that id |
| `PlantacionesPage.InitialState` | FrontEnd/app/plantaciones/page.tsx:39-53 | one real plantation "1" with zero readings and both flags off, and it is selected |
| `PlantacionesPage.ActualizarDatos` | FrontEnd/app/plantaciones/page.tsx:94-98 | the list keeps its length and order; entries with the target id get exactly the new reading, the rest are unchanged |
| `PlantacionesPage.ActualizarKeepsIdentity` | FrontEnd/app/plantaciones/page.tsx:96 | ids, names and kinds stay in place, and unique ids stay unique |
| `PlantacionesPage.ActualizarIdempotent` | FrontEnd/app/plantaciones/page.tsx:94-98 | delivering the same reading twice is delivering it once |
| `PlantacionesPage.FindIndexAfterActualizar` | FrontEnd/app/plantaciones/page.tsx:94-100 | an update by id does not move which index the selection finds |
| `PlantacionesPage.SeleccionadaAfterActualizar` | FrontEnd/app/plantaciones/page.tsx:94-100 | the selected plantation after an update is the same one, carrying the new reading when its id is the target |
| `PlantacionesPage.AgregarPlantacion` | FrontEnd/app/plantaciones/page.tsx:77-91 | the list grows by one with the old entries as a prefix; the new entry is "Plantación {n+1}", simulated, with both flags off and readings in range |
| `PlantacionesPage.AgregarWithFreshId` | FrontEnd/app/plantaciones/page.tsx:77-91 | a fresh id keeps ids unique and selecting it finds the new plantation |
| `PlantacionesPage.AgregarKeepsSelection` | FrontEnd/app/plantaciones/page.tsx:77-100 | adding does not change which plantation is selected |
| `Campo3D.CeilSqrtFrom` | FrontEnd/components/campo-3d.tsx:86 | the search finds a c whose square covers n and whose predecessor's does not |
| `Campo3D.Cols` | FrontEnd/components/campo-3d.tsx:86 | `cols * cols >= n` and `(cols-1)^2 < n` |
| `Campo3D.ColsIsLeast` | FrontEnd/components/campo-3d.tsx:86 | `cols` is the least c with `c*c >= n`, and it is 0 exactly for no plots |
| `Campo3D.Rows` | FrontEnd/components/campo-3d.tsx:87 | `rows` is undefined (NaN) exactly when there are no plots |
| `Campo3D.RowsIsCeiling` | FrontEnd/components/campo-3d.tsx:87 | for n >= 1, `rows = ceil(n/cols)`: rows of `cols` hold n and one row fewer does not |
| `Campo3D.GridHoldsAll` | FrontEnd/components/campo-3d.tsx:86-87 | for n >= 1, `cols * rows >= n` |
| `Campo3D.PlotInGrid` | FrontEnd/components/campo-3d.tsx:86-96 | every plot's column is below `cols` and its row below `rows` |
| `Campo3D.Column` | FrontEnd/components/campo-3d.tsx:95 | a plot's column is below `cols`, and the first `cols` plots fill the first row in order |
| `Campo3D.Row` | FrontEnd/components/campo-3d.tsx:96 | plot i lies in row r when `r*cols <= i < (r+1)*cols`, at column `i - r*cols` |
| `Campo3D.Position` | FrontEnd/components/campo-3d.tsx:95-96 | x is a multiple of 10 below `10*cols`, y a non-negative multiple of 6 |
| `Campo3D.PositionsDistinct` | FrontEnd/components/campo-3d.tsx:95-96 | distinct indices get distinct (x, y) positions |
| `Campo3D.Layout` | FrontEnd/components/campo-3d.tsx:40-107 | one plot per plantation, in order, at `((i % cols)*10, (i / cols)*6)`, selected exactly when its id is the selected id, and green when selected, brown otherwise |
| `Campo3D.LayoutProperties` | FrontEnd/components/campo-3d.tsx:40-107 | with unique ids at most one plot is selected and at most one is green, and no two plots overlap |

## Left out

- `estimateLuxFromADC` (light from the raw sensor value) uses floating-point `Math.pow` and divides by zero at the top of the sensor range. It is not modelled. `LiveUpdate` takes the curve as a function parameter `estimate`.
- `completarFecha`, `Date` and `toISOString`/`toLocaleString` depend on the clock and the locale. Timestamps are opaque string parameters. The chart clock is a `Time(hours, minutes)` parameter. New plantation ids (`Date.now()`) are parameters.
- `Math.random` is not modelled. It is replaced by real parameters in [0, 1).
- DashboardPage.Page.IrrigationEffect: taken alone, the method lets the socket already be open at the effect's first run. In the code the socket effect only constructs the socket at mount (dashboard-page.tsx:47-48), so it is still connecting when the irrigation effect first runs and the mount command is dropped. Provided the socket has opened before the effect's next run, `Page.RunFromMount` states what then reaches the socket: the commands issued after the first run.
- DashboardPage.Page.RunFromMount: the model opens the socket right after the first effect run. In the code, mount always re-renders at once. `setConfig` (dashboard-page.tsx:95) and `setSystemData` (dashboard-page.tsx:138) both trigger a re-render, so the irrigation effect can run again while the socket is still connecting. The open-socket check (dashboard-page.tsx:71) then drops those commands too. The model does not cover how many runs happen before the socket opens.
- The WebSocket lifecycle (construction, `onopen`, `onmessage`, `onerror`, `onclose`, closing on teardown) is I/O. Only the send side is modelled: an `open` flag and the list of payloads sent.
- `setInterval`/`clearInterval` and React's state and effect scheduling are not modelled. Each effect is a method. `Page.Tick` is one interval tick. The caller decides when effects run; the model does not order the mount effects.
- Authentication, route guards, the layout and the login/register pages are wrappers over an external identity service and the router. They are not part of this model.
- Rendering is presentation and is not modelled: charts (`getOptions`, colours, scales), the 3D scenes, the JSX markup, the status colours, the slider and input setters, and toasts. The exceptions are the description of the settings toast (not its title "Configuración guardada") and the colour of each field plot.
- Storage.NumOr: stored values have three types: integer, boolean and string. A stored value of any other type (null, a non-integer number, an object), or a value of the wrong one of these types, is treated as absent. The source reads each property by one of three rules. `||` and `if (x)` copy any truthy value. `!== undefined` copies every defined value, `null`, `0` and `""` included. `??` copies every value that is neither `null` nor `undefined`. The pages only ever write the expected types.
- DashboardPage.MergeAgreesWithSettingsPage: the agreement holds over the modelled value types only. For a stored `null` switch the two pages disagree. The settings page (configuracion-page.tsx:66) copies the `null` into `irrigationEnabled`. The dashboard's `??` (dashboard-page.tsx:112) falls back to the default.
- ConfiguracionPage.LoadedField: the same restriction. A field holding a value of a type other than its own loads as absent.
- `JSON.stringify`/`JSON.parse` of stored objects is taken to be exact. The store maps keys to parsed objects rather than to text.
- The store holds only the five keys the pages use, and an object only the eighteen settings properties. Both are enumerations, and their `Name()` functions give the strings the code writes. Other keys and properties in `localStorage` are not looked at by the code and are not modelled.
- Sensor readings on the plantation pages are reals. Dashboard readings and thresholds are integers, because `Math.floor` makes them so and the settings sliders produce integers. Floating-point rounding of `Math.random() * k` is not modelled.
- Campo3D.Cols: `Math.ceil(Math.sqrt(n))` is taken to be exact, so it is the least c with c*c >= n. Floating-point square roots of perfect squares are exact for the list sizes involved.
- Plantacion3D.LiveUpdate: a frame is modelled with all of its fields present. A frame with a missing field would put `undefined` into the reading; that case is not modelled. A frame that fails to parse is `None` and gives no reading.
- The `generateData` of the plantation list page (a constant `irrigationActive: false` and a timestamp) is not used by the logic above and is not modelled.
