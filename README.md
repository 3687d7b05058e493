# Pump control and glucose-profile rig: a Dafny model

This project models the control path of a laboratory rig that drives two peristaltic pumps and
writes glucose-concentration profiles to a CGM test fixture:

- the React page keeps a map of pump states. WebSocket status messages replace entries, and
  commands merge into an entry once the API accepts them. An output-profile scheduler on the
  page cycles both pumps through the phases of a profile on a timer;
- the FastAPI service validates a command and publishes it on MQTT (`pump/{id}/command`), and
  forwards `pump/+/status` messages to the page;
- the serial bridge reads the id back from the topic, validates again, writes the Arduino's
  JSON command line, and echoes the command as a status when the Arduino answers `"ok"`;
- the profile uploader renders 13 `[time, concentration]` pairs as the Arduino line
  `t:c,t:c,...\n`;
- the browser pages build and validate 13-point glucose profiles: a ratio blend, a square wave,
  or CSV upload. The older pages simulate a write process and a rolling glucose monitor.

One Dafny module stands for each source file:

| module | source |
|---|---|
| `Types` | frontend/src/types.ts |
| `ProfileControl` | frontend/src/components/OutputProfileControl.tsx |
| `App` | frontend/src/App.tsx |
| `Api` | api/main.py |
| `Bridge` | bridge/main.py |
| `Backend` | backend/main.py |
| `WritePage` | frontend/js/write.js |
| `WritingProcess` | js/write.js |
| `Monitor` | js/main.js |

Helper modules:

- `Common` holds `Option`.
- `Strings` splits, joins and writes decimals.
- `Numbers` covers truncation, rounding, `toFixed`, clamping and the Euclidean remainder.
- `JsText` models `parseInt`, `Number` and `trim`.
- `PyText` models Python's `int()`.
- `Payload` covers JSON objects, the pydantic `PumpCommand` fields and `json.dumps`.
- `Topics` covers MQTT topics and the `+` wildcard.
- `Pipeline` holds the end-to-end lemmas across services.

State that the source updates in place is modelled as a class with fields:

- the scheduler's `selectedProfile`, `isRunning`, `currentPhase` and timer;
- the page's `pumpStates` and `error`;
- the bridge's serial line and MQTT publications, as output traces;
- the write page's preview and CSV data;
- the writing process with its colour array;
- the monitor's label and value series.

Timer firings, fetch outcomes, Arduino replies, `Math.random` draws and the clock are parameters
or method calls. Every `onCommand` call the scheduler makes is appended to the trace `sent` as
a `(pumpId, command)` pair.

The model follows what the code does, including where it behaves in ways one might not expect:

- `handleCommand` merges the command into the entry only after `response.ok`, not before the
  request. A failed request leaves the map unchanged and sets the error.
- `stopProfile` sends `{enable: false}` to both pumps even when no profile runs. It clears the
  timer but does not reset `currentPhase`.
- `startProfile` does not check `isRunning`; only the disabled button prevents a second start.
- A status message is not validated. The entry keyed by `parseInt` of the topic's second
  level, possibly `NaN`, is replaced by the payload as it is. After an echo from the bridge
  that payload is the partial command, so the entry loses `pump_id` and every field the
  command left out (`App.StatusEchoDropsPumpId`, `Pipeline.StatusEchoReachesApp`).
- No file contains a flow-rate calibration, so none is modelled. The only blend is the ratio
  blend, and it returns 0 for a ratio outside [0, 1] instead of rejecting it.

## Model

| member | source | states |
|---|---|---|
| `Types.DefaultProfilesShape` | frontend/src/types.ts:43-62 | There is one built-in profile: interval 5 s, two phases, each speed within 0..200. In each phase exactly one pump runs at 100 rpm and the other is off at 0, and the phases alternate which pump runs. |
| `ProfileControl.FindProfile` | frontend/src/components/OutputProfileControl.tsx:29 | `find` gives the first profile with the id, or none exactly when no profile has that id. |
| `ProfileControl.PhaseDispatches` | frontend/src/components/OutputProfileControl.tsx:34-38 | Applying a phase sends two commands, to pump 1 then pump 2, and neither sets a microstep. |
| `ProfileControl.NextPhase` | frontend/src/components/OutputProfileControl.tsx:52 | The next phase index always lies within the profile's phases. |
| `ProfileControl.PhaseAfter` | frontend/src/components/OutputProfileControl.tsx:50-56 | The index after any number of ticks lies in [0, number of phases). |
| `ProfileControl.PhaseAfterIsMod` | frontend/src/components/OutputProfileControl.tsx:44-55 | After n ticks from a start, the phase index is n mod the number of phases. |
| `ProfileControl.DefaultProfileAlternates` | frontend/src/components/OutputProfileControl.tsx:47-53 | Running the built-in profile enables pump 1 and disables pump 2 on even ticks, and the reverse on odd ticks. |
| `ProfileControl.ProfileScheduler.constructor` | frontend/src/components/OutputProfileControl.tsx:23-26 | Starts with no selection, not running, phase 0, no timer and nothing sent. |
| `ProfileControl.ProfileScheduler.SelectProfile` | frontend/src/components/OutputProfileControl.tsx:28-32 | Stores the profile with the id, or none. Then it stops: the timer is cleared, the page is not running, both pumps get `{enable:false}`, and the phase index is kept. Selection never starts a profile. |
| `ProfileControl.ProfileScheduler.Start` | frontend/src/components/OutputProfileControl.tsx:40-59 | With no selection nothing changes and nothing is sent. Otherwise it runs at phase 0, sends phase 0 to pump 1 then pump 2, and arms the timer for the selected profile. |
| `ProfileControl.ProfileScheduler.Tick` | frontend/src/components/OutputProfileControl.tsx:50-56 | A live timer advances the index to (prev+1) mod the number of phases and sends exactly that phase to pump 1 then pump 2. With no live timer (after a stop) it sends nothing. |
| `ProfileControl.ProfileScheduler.Stop` | frontend/src/components/OutputProfileControl.tsx:61-71 | Clears the timer and sets running to false. It appends `{enable:false}` for pump 1 then pump 2 whether or not a profile was running, and keeps the phase index and selection. |
| `ProfileControl.ProfileScheduler.Unmount` | frontend/src/components/OutputProfileControl.tsx:74-80 | Unmounting clears a live timer and sends nothing. |
| `ProfileControl.ControlsExclusive` | frontend/src/components/OutputProfileControl.tsx:92-140 | Start and stop are never both enabled. The menu is enabled exactly while nothing runs: with start, never with stop. |
| `ProfileControl.ScenarioAlternatingSquare` | frontend/src/components/OutputProfileControl.tsx:28-71 | Select, start, three ticks and stop send: the selection's disables, phases 0,1,0,1, then two disables. The index stays at 1. |
| `ProfileControl.ScenarioStartWithoutProfile` | frontend/src/components/OutputProfileControl.tsx:41 | Start without a selection sends nothing and does not run. |
| `App.ObjectOf` | frontend/src/App.tsx:59 | A parsed JSON object binds exactly the keys of the text, each to its last value. |
| `App.PumpApp.constructor` | frontend/src/App.tsx:42-47 | The initial map, no error and no request. |
| `App.InitialStatesShape` | frontend/src/App.tsx:42-45 | The initial map holds exactly pumps 1 and 2, each with its own `pump_id`, disabled, direction true, rpm 0 and microstep 0. |
| `App.PumpApp.OnMessage` | frontend/src/App.tsx:56-69 | A parsed message with a topic replaces the entry its topic names with the payload. A message that fails to parse, or has no topic, changes nothing. |
| `App.ApplyStatusReplaces` | frontend/src/App.tsx:59-64 | A status replaces the topic's entry with exactly the payload's keys and values, with no field merge, and leaves every other entry unchanged. |
| `App.TopicKeyOfStatusTopic` | frontend/src/App.tsx:60 | `parseInt` of the second level reads the id of `pump/{id}/status`. It also reads the id when non-digits follow it, because a prefix-numeric level is not rejected. |
| `App.TopicKeyNaN` | frontend/src/App.tsx:60 | A topic with no second level, or one that does not start with a number, is keyed `NaN`. |
| `App.PumpApp.HandleCommand` | frontend/src/App.tsx:71-94 | Every call posts the command's present fields. An ok response merges the command into the entry and keeps the error. A non-ok response or a rejection keeps the map and sets `Failed to send command: ...`. |
| `App.MergeCommandOverlays` | frontend/src/App.tsx:86-89 | A merge overwrites exactly the fields present in the command and keeps the entry's other fields. The set of pumps and every other pump are unchanged. |
| `App.MergeCommandIdempotent` | frontend/src/App.tsx:86-89 | Merging the same command twice equals merging it once. |
| `App.SettingEntry` | frontend/src/types.ts:29-38 | A phase setting as a command object has exactly enable, direction and rpm. |
| `App.PhaseMergeKeepsMicrostep` | frontend/src/App.tsx:86-89 | Merging a profile phase sets enable, direction and rpm, and leaves `microstep` and `pump_id` as they were. |
| `App.StatusEchoDropsPumpId` | frontend/src/App.tsx:61-64 | A command echoed as a status leaves an entry without `pump_id`, without rpm when the command had none, and without microstep when the command had none. |
| `App.PumpApp.OnSocketError` | frontend/src/App.tsx:51 | A WebSocket error sets the banner to `WebSocket connection error` and changes nothing else. |
| `App.PumpApp.OnSocketOpen` | frontend/src/App.tsx:52 | A WebSocket open clears the banner. |
| `App.SocketErrorThenOpen` | frontend/src/App.tsx:51-52 | An error followed by an open leaves no error and the same map. |
| `Payload.CommandJsonFields` | api/main.py:89 | `exclude_none` binds exactly the present fields to their values, and no other key. |
| `Payload.CommandJsonNoNulls` | api/main.py:89 | The published payload holds no null. |
| `Payload.IntField` | api/main.py:75-76 | An integer field is accepted only within its bounds. An absent or null field is accepted as absent, and only then. |
| `Payload.BoolField` | api/main.py:73-74 | A boolean field is absent exactly when its key is missing or null. |
| `Payload.ParseCommandFields` | api/main.py:72-76 | An accepted command has rpm in 0..200 and microstep in 0..4. |
| `Payload.ParseCommandJson` | api/main.py:72-76 | A command within bounds, written as its present fields, validates back to itself. |
| `Payload.ParseCommandRejectsOutOfBounds` | bridge/main.py:27-28 | A command with rpm outside 0..200 or microstep outside 0..4 is refused. |
| `Payload.DumpsOneLine` | bridge/main.py:77 | `json.dumps` of a flat object is one line, starting with `{` and ending with `}`. |
| `Topics.CommandTopicLevels` | api/main.py:88 | `pump/{id}/command` has the levels `pump`, the decimal id and `command`. |
| `Topics.StatusFilterMatches` | api/main.py:56 | The subscription `pump/+/status` receives exactly the topics `pump/x/status` with x a single level. |
| `Topics.CommandFilterMatches` | bridge/main.py:20 | The subscription `pump/+/command` receives exactly the topics `pump/x/command`. |
| `Topics.SubscriptionsSeparate` | bridge/main.py:20-21 | Status topics reach the API and not the bridge. Command topics reach the bridge and not the API. |
| `Api.ControlPump` | api/main.py:82-92 | A publication happens exactly when the reply is the 200 "Command sent". |
| `Api.ControlPumpRejectsUnknownPump` | api/main.py:84-85 | A valid body for a pump other than 1 or 2 is refused with 400 and nothing is published. |
| `Api.ControlPumpRejectsInvalidBody` | api/main.py:72-76 | A body that fails field validation is a 422, whatever the pump id, and nothing is published. |
| `Api.ControlPumpPublishes` | api/main.py:84-92 | For pump 1 or 2 the reply is 200 `{"status":"ok"}`. It publishes on `pump/{id}/command` a payload with exactly the non-null command fields, within bounds, that validates to the same command. |
| `Api.OnStatusMessage` | api/main.py:58-63 | The API builds a message for the page only for a topic of the form `pump/x/status`. |
| `Api.ForwardsStatus` | api/main.py:58-63 | For every status the API builds the message `{topic, payload}` for the page, with the topic and payload unchanged. |
| `Api.CommandsNotForwarded` | api/main.py:56 | The API builds no message for the page from a command topic. |
| `PyText.ParseIntOfDecimal` | bridge/main.py:56 | `int(str(i)) == i` for every integer. |
| `JsText.ParseIntOfDecimal` | frontend/src/App.tsx:60 | `parseInt` reads an integer's decimal text back and ignores a non-digit suffix. |
| `JsText.ParseIntNaN` | frontend/src/App.tsx:60 | `parseInt` of text not starting with a sign, digit or space is NaN. |
| `Bridge.TopicPumpIdOfCommandTopic` | bridge/main.py:56 | The id parsed from the topic's second level is the id that built `pump/{id}/command`. |
| `Bridge.ValidateCommand` | bridge/main.py:23-28 | Accepts exactly when the payload has no `pump_id` key, the id is 1..2 and the fields validate. The result carries that id and in-bounds fields. |
| `Bridge.BuildArduinoCommand` | bridge/main.py:63-74 | The dictionary filled key by key is `pump` followed by the present fields, in insertion order. |
| `Bridge.ArduinoCommandFields` | bridge/main.py:63-74 | The Arduino command binds `pump` to the id and every other key as the present fields do. It holds no null and reads back as the validated command. |
| `Bridge.SerialLineOneLine` | bridge/main.py:77 | The serial line is the JSON text followed by one `\n`, its only line feed. |
| `Bridge.Handle` | bridge/main.py:53-91 | A status is published only after a line was written and the ack says `"ok"`. |
| `Bridge.HandleIgnores` | bridge/main.py:54-60 | A topic without a numeric id, a payload that is not an object, a bad id or field, or a repeated `pump_id` writes nothing and publishes nothing. The error is only logged (lines 90-91). |
| `Bridge.HandleAccepts` | bridge/main.py:77-88 | An accepted command writes its serial line. A status on `pump/{id}/status` is published exactly when the ack's status is `"ok"`, and it carries the received payload, not the ack. |
| `Bridge.SerialBridge.OnMessage` | bridge/main.py:53-91 | Appends to the serial and MQTT traces exactly what `Handle` determines. |
| `Pipeline.BridgeValidates` | bridge/main.py:56-60 | The bridge reads the API's topic back as the id, and the API's payload back as the same command. |
| `Pipeline.CommandReachesArduino` | api/main.py:88-91 | A command the API accepts reaches the Arduino as one line. Its command names the pump and holds the validated command. |
| `Pipeline.StatusEchoReachesApp` | bridge/main.py:84-86 | On `"ok"` the bridge publishes the echo and the API builds the page's message from it. Handling that message puts it on the pump's own key and replaces the entry with the command's fields only. The entry has no `pump_id`. |
| `Pipeline.EchoAfterMerge` | frontend/src/App.tsx:59-64 | An echo after a merge agrees with the merged entry on the command's fields. It drops every field the merge kept from before. |
| `Pipeline.DefaultPhasesAccepted` | frontend/src/types.ts:53-58 | The API accepts every command the built-in profile sends. |
| `Pipeline.PreviewPassesBackend` | frontend/js/write.js:332-339 | The page's 13-point preview always passes the backend's checks. The reply depends only on the serial exchange, and the line reads back as the points. |
| `Pipeline.DefaultPreviewLine` | frontend/js/write.js:13 | The initial preview reaches the Arduino as 13 readings of 15.0 at minutes 0, 5, ..., 60. |
| `Backend.Tenths` | backend/main.py:54 | The concentration printed with one decimal is within 0.05 of the value. |
| `Backend.FormatPairs` | backend/main.py:54 | Formatting succeeds exactly when every item is a pair. It then gives each pair's `time:conc` text, one per pair, in order. |
| `Backend.FormatDataRoundTrip` | backend/main.py:49-55 | Splitting the line at `,` and then `:` gives each pair's truncated time and one-decimal concentration, in order. |
| `Backend.FormatDataShape` | backend/main.py:54-55 | n pairs give n-1 commas and exactly one `\n`, at the end. |
| `Backend.ParsePair` | backend/main.py:54 | One pair's text `int(time):conc` splits at `:` and reads back as the truncated time and the concentration in tenths. |
| `Backend.SendDataRejectsLength` | backend/main.py:113-117 | A payload of any length other than 13 is refused before serial I/O. The 400 is caught and reported as 500. |
| `Backend.SendDataAccepts` | backend/main.py:122-128 | Thirteen pairs hand the formatted line to the serial port. The reply is `"success"` when the serial exchange succeeds and 500 otherwise. |
| `Backend.SendDataRejectsPair` | backend/main.py:54 | A non-pair among thirteen is a 500 and nothing is sent. |
| `WritePage.TimeStepsGrid` | frontend/js/write.js:10 | The grid is 0, 5, ..., 60: 13 entries 5 apart. |
| `WritePage.CombinedGlucose` | frontend/js/write.js:19-27 | A ratio outside [0,1] gives 0. Otherwise the result is g1·r + g2·(1−r) to within the 0.005 of two-decimal rounding. |
| `WritePage.CombinedGlucoseEnds` | frontend/js/write.js:24-26 | For two-decimal inputs, r = 1 gives g1 and r = 0 gives g2. |
| `WritePage.CombinedGlucoseWithin` | frontend/js/write.js:24-26 | A blend of two concentrations between bounds stays between them. |
| `WritePage.ManualUpdate` | frontend/js/write.js:103-118 | A profile results exactly when the ratio is in [0,1]. It has one point per grid step, each with the blend of the two concentrations. |
| `WritePage.ManualBlankFields` | frontend/js/write.js:105-106 | Blank or zero concentration fields mean 15 mM, so the default 15 mM profile comes back. |
| `WritePage.WritePage.ManualControl` | frontend/js/write.js:103-119 | A ratio outside [0,1] sets the error status and leaves the chart. Otherwise the preview becomes the constant blend. |
| `WritePage.SimulatedProfile` | frontend/js/write.js:135-160 | The simulated profile has one point per grid step, each clamped into [10, 20]. |
| `WritePage.SquareAlternates` | frontend/js/write.js:139-142 | The square wave is base−amplitude when floor(t/10) is even and base+amplitude otherwise, after clamping. On the 5-minute grid each level holds for two points. |
| `WritePage.SquareUnclamped` | frontend/js/write.js:141-142 | A square wave that stays inside [10, 20] has exactly the levels base ∓ amplitude. |
| `WritePage.WritePage.ApplySimulation` | frontend/js/write.js:128-162 | The preview becomes the simulated profile. |
| `WritePage.ParseRow` | frontend/js/write.js:188-197 | An accepted row has a concentration in [10, 20]. |
| `WritePage.ParseRows` | frontend/js/write.js:188-197 | `rows.map(parse)` succeeds exactly when every row parses, with each row's value at its own index. |
| `WritePage.ParseRowsFirstError` | frontend/js/write.js:188-197 | A rejection carries the error of the first failing row: every earlier row parses. |
| `WritePage.ParseCsv` | frontend/js/write.js:182-197 | An accepted file has 13 points, each in [10, 20]. A file that is not 13 lines is refused with the row-count message. |
| `WritePage.CsvRoundTrip` | frontend/js/write.js:182-197 | A file of 13 whole-number rows with concentrations in [10, 20] is read back as those points. |
| `WritePage.WritePage.LoadCsv` | frontend/js/write.js:179-215 | On success the points are kept and apply is enabled. On any failure `csvData` is null and apply is disabled. |
| `WritePage.WritePage.ApplyCsv` | frontend/js/write.js:222-227 | Apply copies stored CSV points into the preview, or does nothing. |
| `WritePage.WritePage.SimulateOnly` | frontend/js/write.js:320-327 | Simulation needs a 13-point preview. Otherwise it sets the error status. |
| `WritePage.WritePage.StartProcess` | frontend/js/write.js:330-347 | Sending needs a 13-point preview. The status reports success, the HTTP status of a non-ok reply, or the fetch error. |
| `WritePage.WritePage.constructor` | frontend/js/write.js:13 | The preview starts as 15 mM at every grid step, with no CSV data. |
| `WritingProcess.PreviewValueInBand` | js/write.js:24-52 | Each hour's value lies in its band, hence within [90, 180]. |
| `WritingProcess.InitializePreviewData` | js/write.js:19-54 | The preview series has 24 rounded values, one per hour, in order. |
| `WritingProcess.WritingProcess.Start` | js/write.js:132-151 | Start while writing is a no-op. Otherwise writing starts with the index at 0 and the timer armed, keeping the marks. |
| `WritingProcess.WritingProcess.Tick` | js/write.js:151-180 | With the index below the length, the tick marks that point and increments the index. At or past the length it stops. The mark array is created once and only ever gains marks. |
| `WritingProcess.WritingProcess.Stop` | js/write.js:184-193 | Stop when not writing is a no-op. Otherwise it clears the timer and sets writing to false. |
| `WritingProcess.ScenarioRestartKeepsMarks` | js/write.js:163-172 | A restart begins at point 0 while the previous run's marks remain. |
| `Monitor.ClockLabel` | js/main.js:25-26 | A label is five characters with `:` at index 2. |
| `Monitor.Pad2IsPadStart` | js/main.js:25-26 | The two-digit field is `padStart(2, '0')` of the number's text: a leading `0` below 10, the number itself from 10 to 99. |
| `Monitor.ClockLabelRoundTrip` | js/main.js:108-109 | A label reads back as the minute of the day, with hours below 24 and minutes below 60. |
| `Monitor.ClockLabelsSuccessive` | js/main.js:22-26 | Labels a minute apart read as successive minutes, wrapping at midnight. |
| `Monitor.SampleValueRange` | js/main.js:29-31 | An initial sample lies in [80, 160]. |
| `Monitor.GlucoseMonitor.InitializeData` | js/main.js:13-36 | Makes 61 labels and 61 values, oldest first, for minutes now−60 to now. |
| `Monitor.NextValue` | js/main.js:112-116 | The new value is round(clamp(last + delta, 40, 240)), within [40, 240]. |
| `Monitor.NextValueStep` | js/main.js:113 | From a value in range, one update moves it by at most 5. |
| `Monitor.GlucoseMonitor.UpdateChart` | js/main.js:98-120 | Drops the oldest label and value and appends the new pair, so both series keep their length. |
| `Monitor.UpdateKeepsRange` | js/main.js:112-116 | Once every value is in [40, 240], updates keep it so. |

## Left out

- Timers, the WebSocket, MQTT, HTTP and the serial port are not modelled as I/O.
  - A timer firing is a `Tick` call.
  - A fetch outcome, the Arduino's reply and the serial exchange's success are parameters.
  - Publications and serial writes are appended to traces.
- These run in the background or only log, so they are left out:
  - the `setInterval` periods (profile interval × 1000 ms, 500 ms, 30 s);
  - `send_to_arduino`'s sleep and polling loop (backend/main.py:57-104);
  - the bridge's serial open and readline, and the MQTT connect and loop;
  - the API's WebSocket connection list.
- The API's `on_message` calls `connection.send_text` without awaiting or scheduling it
  (api/main.py:64-68). The coroutine is only created, so the code as written sends nothing to
  the page, and the bare `except` never fires. The model stops at the `{topic, payload}`
  message the API builds for the page (`Api.OnStatusMessage`), and the page's handlers are
  stated for that message as if it were delivered.
- Asynchronous interleaving is not modelled: for example, a fetch that completes after a later
  status message. React StrictMode double invocation is not modelled either. Each event is one
  call, in arrival order.
- Floating point is modelled as exact reals. `toFixed(2)` rounds the exact value half up, and
  Python's `.1f` rounds it half to even. Binary representation error is not modelled.
- The sine, random and meal simulator patterns (`Math.sin`, `Math.exp`, `Math.random`) are not
  modelled. A NaN base or amplitude in the simulator is not modelled either.
- `Math.random` and `Math.sin(i / 10)` in the older pages are given as parameters.
- The monitor's clock is whole minutes of local time. Seconds, time zones and daylight-saving
  jumps are not modelled.
- `PyText.ParseInt` skips only ASCII white space and reads only ASCII digits. Python's `int()`
  also strips Unicode white space (U+00A0, U+2003, …) and accepts other Unicode decimal digits.
- `App.Key` keeps every integer id apart. JavaScript property keys are number strings, so ids
  above 2^53 that round to the same double share one entry on the page.
- `JsText.ToNumber` reads signed decimals without an exponent. Text that JavaScript's `Number`
  also accepts, such as `1e3`, `0x10` or `Infinity`, is NaN in this model.
- Pydantic's lax coercion is not modelled: integral floats, numeric strings, and 0/1 for
  booleans. Only JSON booleans and integers validate. JSON floats are not representable
  (`JVal` has no float), so pydantic's acceptance of `100.0` and truncation of `100.5` are
  not modelled.
- Status payloads that are JSON but not an object (`5`, `[1]`, `null`) are not represented.
  The API's `json.loads` accepts them and puts them in the message (api/main.py:60-63), and
  the page stores `message.payload` as it is, or `undefined` when the key is missing
  (frontend/src/App.tsx:59-64). Here `None` stands only for text that is not JSON, and
  `App.Inbound` carries an object payload.
- The bridge republishes the raw bytes of the message. Here the parsed object is published,
  which the page parses to the same object.
- Bodies that FastAPI refuses with 422 before `send_data` runs are not modelled, such as
  non-numeric pair elements: `Backend.SendData` takes numbers.
- `sendDataToBackend`'s `window.open` and `response.json()` are not modelled.
- Chart.js rendering, DOM status text, alerts and the CSV preview table are not modelled.
- frontend/src/components/PumpControl.tsx is not part of this model. Each of its handlers sends
  a one-field `PumpCommand`, which `App.PumpApp.HandleCommand` accepts.
- These showcase and tooling files are not part of this model: docs/js/app.js,
  docs/js/content.js, docs/js/stl-viewer.js, src/scripts/app.js and
  scripts/convert-svg-to-png.js.
