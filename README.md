# Job/interlock control core in Dafny

This project models the decision logic of a small machine-control demo. A job
is `Idle`, `Running` or `Error` and has a speed. An interlock flag forbids
starting it. The job is reached through two access surfaces:

- the UI view-model `MainViewModel`, with its `StartCmd`/`StopCmd`/`EStopCmd`
  commands and its two-way `Speed`/`SpeedText` binding;
- the HTTP routes `POST /api/jobs/start`, `POST /api/jobs/stop` and
  `GET /api/status` over the in-memory job and interlock services.

Files and modules, one per source component:

- `primitives.dfy`, module `Primitives`: C#'s 32-bit `int`, `Option`, the three state names, and models of
  `Int32.ToString()` and `int.TryParse`. The round trip between the two is proved.
- `configuration.dfy`, module `Configuration`: the `ControlSettings` record and its defaults.
- `commands.dfy`, module `Commands`: `RelayCommand.CanExecute` and the `AsyncRelayCommand` class. Its `isRunning`
  flag is a re-entrancy guard around an opaque body.
- `view_model.dfy`, module `ViewModel`: the `MainViewModel` class, plus the unit-test scenarios replayed on the model.
- `api.dfy`, module `Api`: the `InMemoryJobs` and `InMemoryInterlocks` classes, the three route handlers, and the
  component-test scenarios.

Modelling choices:

- Both surfaces keep the job state as a string, as the code does. `MainViewModel.Valid()` proves that the status is
  always one of the three names.
- The view-model's job service (`IJobService`) is represented by one parameter per call: whether the awaited call
  throws. The ghost field `jobCalls` records every call that reached the service, with the speed it was given.
- The view-model's interlock service is represented by the value `IsAnyActive` returns when it is read: at
  construction and in `NotifyInterlocksChanged`.
- A command's guard delegate is represented by the value it returns (`None` when no guard was given). The command's
  awaited body is represented by whether it throws.
- `int.TryParse` (default `NumberStyles.Integer`) is modelled as a simplified parser. It skips leading and trailing
  white space (space and U+0009 to U+000D), reads an optional `+` or `-` and then one or more ASCII digits, and fails
  outside the 32-bit range.
- The view-model keeps two invariants. Whenever `SpeedText` parses to a speed within the bounds, `Speed` is that
  speed. `Speed` stays within `[MinSpeed, MaxSpeed]` under every operation once it is there, which the default
  settings guarantee at construction.
- The HTTP job state keeps its own invariant: idle at speed 0, or running at a speed in `[1, 1000]`. It holds only
  because the start route checks the range; `InMemoryJobs.StartAsync` alone accepts any speed.

Behaviour of the code that the model follows deliberately:

- A failing `StopAsync` in the view-model sets `Error`, as a failing `StartAsync` does.
- The HTTP job starts at speed 0.
- `ControlSettings.DefaultState` is never read: the view-model's status starts as `"Idle"` from its field
  initialiser.
- The HTTP stop route has no fault path, because `InMemoryJobs` never throws.

## Model

| member | source | states |
|---|---|---|
| `Primitives.TrimStartDropsWhite` | src/Control.Core/Abstractions.cs:160 | trimming the start keeps a suffix of the text; everything dropped is white space; what is kept does not start with white space |
| `Primitives.TrimEndDropsWhite` | src/Control.Core/Abstractions.cs:160 | trimming the end keeps a prefix of the text; everything dropped is white space; what is kept does not end with white space |
| `Primitives.NatToStringDigits` | src/Control.Core/Abstractions.cs:145 | the decimal rendering of a natural number is a non-empty run of digits whose value is that number |
| `Primitives.DecimalUnpadded` | src/Control.Core/Abstractions.cs:145 | `ToString()` output is non-empty and neither starts nor ends with white space |
| `Primitives.TrimUnpadded` | src/Control.Core/Abstractions.cs:160 | text that neither starts nor ends with white space is not changed by trimming |
| `Primitives.ParseSignedDigitsOfDecimal` | src/Control.Core/Abstractions.cs:145 | the sign-and-digits reading of `ToString()`'s output is the number itself, negative numbers included |
| `Primitives.ParseFormatRoundTrip` | src/Control.Core/Abstractions.cs:142-165 | for every 32-bit integer, `int.TryParse(n.ToString())` succeeds and gives `n` |
| `Primitives.ParseRejectsForeignChar` | src/Control.Core/Abstractions.cs:160 | the modelled `int.TryParse` fails on any text that holds a character other than white space, a digit or a sign |
| `Configuration.Defaults` | src/Control.Core/Configuration.cs:3-11 | `new ControlSettings()` has `MinSpeed <= DefaultSpeed <= MaxSpeed`, and its `DefaultState` is `"Idle"` |
| `Commands.RelayCanExecute` | src/Control.Core/Abstractions.cs:45 | a `RelayCommand` can execute unless its guard exists and returns false |
| `Commands.AsyncRelayCommand.constructor` | src/Control.Core/Abstractions.cs:55-61 | a new command is not running and has run no body |
| `Commands.AsyncRelayCommand.CanExecute` | src/Control.Core/Abstractions.cs:64 | can execute iff the guard is absent or true, and no body is in flight |
| `Commands.AsyncRelayCommand.Begin` | src/Control.Core/Abstractions.cs:73-76 | enters iff `CanExecute` held; entering sets the running flag and counts one body run; otherwise nothing changes |
| `Commands.AsyncRelayCommand.Finish` | src/Control.Core/Abstractions.cs:82-86 | the `finally` block clears the running flag |
| `Commands.AsyncRelayCommand.ExecuteAsync` | src/Control.Core/Abstractions.cs:71-87 | skipped iff `CanExecute` was false, so always skipped while a body is in flight, and then nothing changes; otherwise the body runs once, the flag is clear afterwards, and it faults iff the body threw |
| `ViewModel.MainViewModel.constructor` | src/Control.Core/Abstractions.cs:101-123 | status `Idle`; the interlock flag is the service's reading; speed and text are the default speed; missing settings mean the defaults, and then the speed is in range; the invariant holds |
| `ViewModel.MainViewModel.SetSpeed` | src/Control.Core/Abstractions.cs:137-150 | an in-range write sets the speed and its decimal text; an out-of-range write leaves both unchanged; nothing else changes; the invariant and the speed range are kept |
| `ViewModel.MainViewModel.SetSpeedText` | src/Control.Core/Abstractions.cs:152-166 | the text is always stored; the speed becomes the parsed value iff the text parses to an in-range integer, and is unchanged otherwise; the invariant and the speed range are kept |
| `ViewModel.MainViewModel.StartAsync` | src/Control.Core/Abstractions.cs:174-194 | with the interlock active, no service call and no status change; otherwise exactly one start call with the current speed, then `Running`, or `Error` if the service threw; never throws |
| `ViewModel.MainViewModel.StopAsync` | src/Control.Core/Abstractions.cs:196-210 | exactly one stop call, then `Idle`, or `Error` if the service threw |
| `ViewModel.MainViewModel.EStop` | src/Control.Core/Abstractions.cs:212-216 | status becomes `Idle` unconditionally, with no service call |
| `ViewModel.MainViewModel.NotifyInterlocksChanged` | src/Control.Core/Abstractions.cs:218-221 | the cached interlock flag becomes the service's current reading; nothing else changes |
| `ViewModel.MainViewModel.StartCanExecute` | src/Control.Core/Abstractions.cs:117 | `StartCmd` can execute iff the interlock is inactive and the command is not running |
| `ViewModel.MainViewModel.StopCanExecute` | src/Control.Core/Abstractions.cs:118 | `StopCmd` can execute iff the status is `Running` and the command is not running |
| `ViewModel.MainViewModel.EStopCanExecute` | src/Control.Core/Abstractions.cs:119 | `EStopCmd` is always enabled |
| `ViewModel.MainViewModel.ExecuteStartCmd` | src/Control.Core/Abstractions.cs:64-87 | `StartCmd` skips iff it could not execute, changing nothing; otherwise it completes (never faults), has the effect of `StartAsync`, and is not running afterwards |
| `ViewModel.MainViewModel.ExecuteStopCmd` | src/Control.Core/Abstractions.cs:64-87 | `StopCmd` skips iff it could not execute, changing nothing; otherwise it completes, has the effect of `StopAsync`, and is not running afterwards |
| `ViewModel.TestTexts` | tests/Control.UnitTests/ViewModelTests.cs:61-71 | `"250"` parses to 250 and `"invalid"` does not parse |
| `ViewModel.InterlockRefreshScenario` | tests/Control.UnitTests/ViewModelTests.cs:29-41 | start is disabled while the interlock is active and enabled after a refresh reads it clear |
| `ViewModel.SpeedValidationScenario` | tests/Control.UnitTests/ViewModelTests.cs:43-59 | after writing 500, writing 0 or 1001 leaves the speed at 500 |
| `ViewModel.SpeedTextScenario` | tests/Control.UnitTests/ViewModelTests.cs:61-71 | text `"250"` sets speed 250 and text `"invalid"` leaves it at 250 |
| `ViewModel.StartScenario` | tests/Control.UnitTests/ViewModelTests.cs:73-92 | under any settings, setting an allowed speed and starting with the interlock clear calls the service exactly once, with that speed, and gives `Running` (the test uses 300 under the defaults) |
| `ViewModel.BlockedStartScenario` | tests/Control.UnitTests/ViewModelTests.cs:94-104 | start with the interlock active makes no call and stays `Idle` |
| `ViewModel.FaultedStartScenario` | tests/Control.UnitTests/ViewModelTests.cs:106-124 | a throwing service on start gives `Error` |
| `ViewModel.StopScenario` | tests/Control.UnitTests/ViewModelTests.cs:126-171 | stop is disabled while `Idle` and enabled while `Running`; the service sees one start call and then exactly one stop call; stopping gives `Idle` |
| `ViewModel.EStopScenario` | tests/Control.UnitTests/ViewModelTests.cs:139-157 | emergency stop of a running job gives `Idle` |
| `Api.InMemoryInterlocks.constructor` | src/Control.Api/Program.cs:51-53 | the interlock starts inactive |
| `Api.InMemoryInterlocks.SetActive` | src/Control.Api/Program.cs:54 | the flag becomes exactly the given value |
| `Api.InMemoryJobs.constructor` | src/Control.Api/Program.cs:57-60 | the job starts `Idle` at speed 0, which satisfies the route invariant |
| `Api.InMemoryJobs.StartAsync` | src/Control.Api/Program.cs:62 | state `Running` at the given speed, whatever it is |
| `Api.InMemoryJobs.StopAsync` | src/Control.Api/Program.cs:63 | state `Idle` at speed 0, which satisfies the route invariant |
| `Api.StartGuard` | src/Control.Api/Program.cs:25-29 | the request passes iff the speed is in `[1, 1000]` and the interlock is clear; an out-of-range speed gives `invalid_speed` whatever the interlock; an in-range speed with the interlock active gives `interlock_active`; every rejection is a 400 |
| `Api.DefaultBoundsMatchRoute` | src/Control.Core/Configuration.cs:6-7 | with default settings, the view-model accepts exactly the speeds the start route accepts when the interlock is clear |
| `Api.PostStart` | src/Control.Api/Program.cs:23-33 | a rejected request returns the guard's 400 and leaves the job unchanged; an accepted one leaves the job `Running` at that speed and answers 200 with `{Running, speed}`; the route invariant is kept |
| `Api.PostStop` | src/Control.Api/Program.cs:35-39 | always answers 200 `{Idle}` and leaves the job `Idle` at speed 0, so a second stop changes nothing |
| `Api.GetStatus` | src/Control.Api/Program.cs:41 | answers 200 with exactly the current state and speed, changing nothing; under the route invariant the state is a known state name |
| `Api.StartScenario` | tests/Control.ComponentTests/ApiTests.cs:12-20 | start at 120 answers `{Running, 120}` and status then reports `{Running, 120}` |
| `Api.RejectedStartScenario` | tests/Control.ComponentTests/ApiTests.cs:22-36 | speeds 0 and 1001 answer `invalid_speed`, 1001 even with the interlock active, and the job stays `Idle` at 0 |
| `Api.InterlockScenario` | src/Control.Api/Program.cs:28-29 | start at 50 with the interlock active answers `interlock_active` and status then reports `Idle` at 0 |
| `Api.StopScenario` | tests/Control.ComponentTests/ApiTests.cs:38-46 | stop after a run answers `{Idle}` twice in a row and status then reports `Idle` at 0 |
| `Api.UnguardedStartScenario` | src/Control.Api/Program.cs:62 | calling `InMemoryJobs.StartAsync(0)` directly breaks the route invariant, so the invariant rests on the route's range check |

## Left out

- Asynchrony: `async`/`await` and the `async void Execute` wrapper are modelled as sequential calls. Re-entrancy is
  modelled only through the `isRunning` flag, with `Begin` and `Finish` as separate steps; real interleavings are not
  modelled.
- Concurrency: the HTTP routes mutate shared singletons without locks. The model is sequential, so torn reads under
  concurrent requests are not captured.
- `PropertyChanged`, `CanExecuteChanged` and `RaiseCanExecuteChanged`: these are event notifications for the UI
  binding layer and carry no decision.
- Logging (`ILogger`, Serilog) and `LogFilePath`/`EnableConsoleLogging`: side-channel output.
- `IClock`/`SystemClock`: never consulted by any decision.
- `SpeedError`: it is declared but never assigned.
- `ApiSettings`: client configuration that the core never reads.
- Health checks (src/Control.Api/Program.cs:66-112): each wraps a read in a try/catch and reports healthy.
- Hosting and dependency injection. The status route asks for `InMemoryJobs`, but only `IJobService` is registered
  (src/Control.Api/Program.cs:14 and 41). The model has the status route read the same job object the other routes
  change.
- Query-string binding: a `speed` that is not an integer is rejected by the framework before the handler runs.
- `ControlSettings` is a mutable object in the source; the model treats the settings as fixed once the view-model
  is built.
- `Primitives.TryParseInt`: culture-specific sign symbols and the trailing NUL characters that .NET's parser
  tolerates are not modelled.
- `Primitives.ToDecimalString`: it writes the invariant culture's `-`, whereas `Int32.ToString()` writes the current
  culture's `NegativeSign`. Only the text of a negative number differs; the round trip holds under any one culture.
- `Commands.AsyncRelayCommand.ExecuteAsync`: the body's own effects are not modelled there. The view-model's two
  commands are modelled with their real bodies in `ExecuteStartCmd` and `ExecuteStopCmd`.
- The WPF application, window and converters, and the `DemoJobs` stub: presentation and hosting.
