# Water widget state synchronisation, in Dafny

A model of the engine of the glasslabs `water` dashboard module. The module shows two Home
Assistant sensors, a geyser (water-heater) charge level and a tank fill level, as gauges.
The model covers:

- **Reading classification** (`Readings`). A reading at or below the low threshold is `low`.
  Otherwise, at or below the warning threshold it is `warning`; otherwise it gets no class.
  The geyser reading is capped at 100 first; the tank reading is not.
- **`updateState`** (`Projector.Apply`, `Water.Module.UpdateState`). It dispatches on the
  configured sensor ids, with the geyser id compared first. It parses the state text, sets the
  gauge's `--percentage` style and swaps its severity class. For the geyser it also writes the
  truncated integer into `#geyserText .super`. A selector that finds nothing is skipped.
- **The event filter** (`Entity`). Only `state_changed` events of entities whose domain
  (the id up to its first `.`) is `sensor` are forwarded.
- **`syncStates`, `listenStates` and the retry loop of `main`** (`Water.Module`). The baseline
  applies the fetched states in order. The stream applies forwarded events in delivery order
  until its read error, and closes its listener on the way out. The supervisor runs cycles
  for ever, sleeping 10 seconds before every cycle but the first.

The UI sink (`Dom.Document`) is a map from selector to element, where an element is a style
string, a class set and a text. The hub is a script. `syncStates` receives the outcome of the
fetch. `listenStates` receives the outcome of opening the stream: the events it delivers, then
the read error that ends it. `main`'s loop receives a finite sequence of such cycles. Sleeps,
log lines and the deferred listener close are recorded as `Water.Step`s in `Module.steps`.
`strconv.ParseFloat` and `strconv.FormatFloat` are the two abstract functions of a
`Projector.Codec`. `strconv.Itoa` and Go's truncating `int(float64)` are modelled exactly
(`Decimal`).

The heater's
gauge style uses `FormatFloat(per, 'f', 0, 64)`, which rounds. Only its text element uses the
truncating `int(per)`. So the two can differ for a fractional reading.

Files: `wrappers.dfy`, `decimal.dfy`, `readings.dfy`, `entity.dfy`, `dom.dfy`,
`projector.dfy`, `water.dfy`.

## Model

| member | source | states |
|---|---|---|
| `Readings.BandClass` | main.go:169-174 | the class is "low" iff per <= low; "warning" iff low < per <= warning; empty iff per is above both, so a tie with low is "low" |
| `Readings.ClampHeater` | main.go:164-166 | the result never exceeds 100, equals the reading up to 100, and is 100 above it |
| `Readings.EditClasses` | main.go:178-182 | the new class set never holds both "low" and "warning"; it holds "low" (or "warning") iff that is the computed class; every other class is kept, and the computed class is added when not empty |
| `Readings.EditClassesLastWins` | main.go:178-182 | a second band edit undoes the first one's severity class: two edits equal the second alone |
| `Decimal.Truncate` | main.go:185 | `int(per)` rounds toward zero: for non-negative x the result is the floor, for non-positive x the ceiling |
| `Decimal.Itoa` | main.go:185 | `strconv.Itoa`: non-empty text, '-' first iff the number is negative, decimal digits after it; `Decimal.ItoaRoundTrip` shows it is canonical and invertible |
| `Decimal.ItoaRoundTrip` | main.go:185 | `strconv.Itoa` text is non-empty, starts with '-' iff negative, has no leading zero, and reads back to the same integer |
| `Entity.FirstSplitAfterDot` | main.go:147 | `SplitAfter(id, ".")[0]` is a prefix of id that ends in its first '.', or all of id when it has no '.' |
| `Entity.TrimSuffix` | main.go:147 | `TrimSuffix` drops the suffix exactly when the string ends with it, else returns the string |
| `Entity.Domain` | main.go:147 | the domain is a prefix of the id without '.'; `Entity.DomainIsPrefixBeforeFirstDot` shows it is exactly the part before the first '.' |
| `Entity.DomainIsPrefixBeforeFirstDot` | main.go:147 | the computed domain is the unique prefix of the id without '.' that is followed by '.' or the end of the id |
| `Entity.IsSensorDomain` | main.go:147-149 | the domain test passes exactly for the id "sensor" and for ids starting with "sensor." |
| `Entity.IsSensorStateChange` | main.go:144-149 | an event passes the stream filter iff its type is "state_changed" and its id is "sensor" or starts with "sensor." (via `Entity.IsSensorDomain`) |
| `Dom.Document.QuerySelector` | main.go:176 | the lookup finds an element iff the selector has one |
| `Dom.Document.SetStyle` | main.go:177 | only the style of that element changes |
| `Dom.Document.RemoveClass` | main.go:178-179 | only that class leaves that element's class set |
| `Dom.Document.AddClass` | main.go:180-182 | only that class joins that element's class set |
| `Dom.Document.SetTextContent` | main.go:184-186 | only the text of that element changes |
| `Projector.Apply` | main.go:157-210 | `updateState` on the sink never adds or removes an element; what it does to each element is `Projector.ApplyAt` |
| `Projector.ApplyAt` | main.go:157-210 | an update keeps the set of found elements; a found element is re-rendered from the parsed value iff the reading's sensor owns it and the state parses, and is otherwise unchanged |
| `Projector.UnknownIdUnchanged` | main.go:158-209 | an id that matches neither configured sensor leaves the whole sink unchanged |
| `Projector.UnparsableUnchanged` | main.go:160-163 | a state that does not parse leaves the whole sink unchanged, for either sensor |
| `Projector.HeatClassEdit` | main.go:164-183 | a geyser update of a found #heat sets the clamped style; it leaves "low" iff the clamped value <= low and "warning" iff low < it <= warning, never both; it keeps every other class and the text |
| `Projector.WaterClassEdit` | main.go:187-208 | a tank update of a found #water does the same class edit on the unclamped value and sets the two-decimal style |
| `Projector.MissingHeatSkippedAlone` | main.go:176-186 | with #heat missing, the geyser text still gets the truncated integer, #heat stays missing, and no other element changes |
| `Projector.TankTouchesOnlyWater` | main.go:187-208 | a tank update changes no element other than #water |
| `Projector.HeaterClampedTankNot` | main.go:164-167 | a geyser reading above 100 renders exactly like 100 and shows "100"; a tank reading above 100 keeps its raw value for style and class |
| `Projector.RenderLastWins` | main.go:177-185 | rendering a second reading over a first equals rendering the second alone |
| `Projector.WorkedReadings` | main.go:164-208 | with thresholds 30/15 and 40/20: geyser "12" is low and shows "12"; geyser "150" is normal and shows "100"; tank "20" is low at the boundary |
| `Projector.ApplyStates` | main.go:125-127 | the baseline fold keeps the set of found elements; `Projector.LastWriteWins` and `Projector.ApplyStatesAppend` say what it leaves on each element |
| `Projector.ApplyStatesStep` | main.go:125-127 | the baseline applies one more state after all earlier ones |
| `Projector.ApplyStatesAppend` | main.go:125-127 | applying two runs of readings in turn equals applying their concatenation |
| `Projector.LastWriteWins` | main.go:125-127 | after readings in order, each found element renders the last parsed reading of its own sensor, or is unchanged if there is none; no element appears or disappears |
| `Projector.Forwarded` | main.go:138-151 | the stream forwards at most one reading per event, each of a sensor entity; `Projector.ForwardedExactly` and `Projector.ForwardedStep` characterise it fully |
| `Projector.ForwardedStep` | main.go:138-151 | each delivered event is forwarded after the earlier ones exactly when it passes the filter |
| `Projector.ForwardedExactly` | main.go:144-151 | every state_changed event of a sensor entity is forwarded, and every forwarded reading comes from such an event |
| `Projector.StreamWinsOverBaseline` | main.go:81-86 | a parsed reading forwarded by the stream wins over whatever the same cycle's baseline set |
| `Water.Listener.NextStateChanged` | main.go:139-142 | the listener hands out events in delivery order, then fails with its read error |
| `Water.Module.UpdateState` | main.go:157-210 | the sink after the call is `Apply` of the sink before it |
| `Water.Module.SetGauge` | main.go:177-182 | the found gauge gets the new style and the edited class set; nothing else changes |
| `Water.Module.SyncStates` | main.go:119-129 | a failed fetch returns "getting states" and changes nothing; otherwise no error, and the sink is the in-order fold of the fetched states |
| `Water.Module.ListenStates` | main.go:131-153 | a failed open returns "calling listen" and closes nothing; otherwise the sink is the fold of the forwarded events, the listener is closed once, and the read error is returned |
| `Water.Module.RunCycle` | main.go:81-89 | one pass after its sleep: the steps are `CycleSteps` and the sink is `CycleElems` of the cycle |
| `Water.Module.Serve` | main.go:69-90 | a setup error is logged once and ends the run; otherwise the logged steps and the sink are those of the cycles run in order |
| `Water.CycleSteps` | main.go:81-89 | a cycle produces two steps iff it opened a listener, else one; `Water.CycleLifecycle` says which |
| `Water.RunSteps` | main.go:74-90 | no steps iff no cycles; `Water.RunSchedule` and `Water.LaterCycleSleepsFirst` give the schedule |
| `Water.ServeSteps` | main.go:69-90 | on a setup error no cycle runs: one logged line, no sleep, no listener closed; otherwise one logged error per cycle and as many closes as listeners opened |
| `Water.CycleElems` | main.go:81-89 | a cycle keeps the set of found elements, and a failed fetch leaves the sink as it was; `Water.RunIsOneFold` gives its content |
| `Water.RunElems` | main.go:74-90 | the loop keeps the set of found elements; `Water.RunIsOneFold` and `Water.RunLastWriteWins` give its content |
| `Water.RunStep` | main.go:75-90 | one more cycle adds its sleep (unless it is the first) and its own steps, and folds its own readings into the sink |
| `Water.LaterCycleSleepsFirst` | main.go:76-78 | every cycle after the first is entered through a 10-second sleep |
| `Water.CycleLifecycle` | main.go:81-89 | the stream runs only after a successful baseline; a listener is closed iff one was opened, before the error is logged; each cycle logs exactly one error and does not sleep |
| `Water.RunSchedule` | main.go:74-90 | the first cycle starts without sleeping; there are one fewer sleeps than cycles; one logged error per cycle; as many closes as opened listeners |
| `Water.RunIsOneFold` | main.go:75-90 | the sink after all cycles is one in-order fold of every baseline and forwarded reading, each stream after its own baseline |
| `Water.RunLastWriteWins` | main.go:75-90 | across the whole run, each found element renders the last parsed reading of its sensor that any cycle applied |

## Left out

- `setup` (loading CSS, injecting the HTML, building the hass client and `CheckAPI`): foreign library calls and network I/O. Only its outcome is modelled, as the `setupErr` input of `Serve`. The sink `Serve` starts from stands for the DOM after the HTML injection; the markup left in the DOM by a setup that fails at `CheckAPI` is not modelled.
- `client.NewModule`, `ParseConfig`, the YAML `Config` struct and the logger: configuration and logging plumbing. The config is an immutable `Projector.Config`, and the log line is a recorded `Step`.
- `strconv.ParseFloat` and `strconv.FormatFloat`: floating-point text conversion. They are the abstract `Codec` functions, so the exact text ("20.00", "12") of the gauge style is not derived.
- Projector.Apply: readings are unbounded reals, not float64. So NaN, infinities and rounding are not modelled, nor Go's implementation-defined `int(per)` outside the int range.
- `Water.Module.Serve`: the loop of `main` is unbounded; the model runs a finite sequence of cycles, and a run that never ends is any prefix of it.
- `time.Sleep`: recorded as a `Slept(10)` step.
- The live socket: modelled as a finite list of events ending in a read error. A stream that blocks for ever is a prefix of that.
- The error returned by `Close` is discarded by the source; the model records only that the close happened.
- `Dom.Document`: a map from selector to element value. Two selectors that match the same DOM node, and elements other than the three the module uses, are not modelled.
- Goroutines, wasm and JS specifics: none affect the logic.
