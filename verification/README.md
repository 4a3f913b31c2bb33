# Audioslave: a verified model

Audioslave is a Windows service that keeps the audio endpoints of a machine the
way the user wants them: names restored, exclusive mode switched off, default
formats at one rate and depth, and, with the user's consent, devices that cannot
do that disabled. This project models the parts of it that are hard to get
right and proves what they promise. `dafny verify dfyconfig.toml` checks it all.

## How it is organised

- **The device policy.** `EndpointPolicy.dfy` says what one endpoint's step of a
  scan does, as a function of what is remembered about the endpoint (a *slice*)
  and of the answers the audio stack gives. There is one answer for every call
  the code makes and nothing relates the answers, so a driver may refuse, lie or
  change its mind between two calls. `EngineModel.dfy` lifts that to the engine's
  whole memory, passes and previews. `WatchdogEngine.dfy`, with
  `DeviceStateStore.dfy`, `EndpointMemory.dfy` and `FormatPolicy.dfy`, is the code
  itself: classes with mutable fields and loops, each method proved to do what
  the specification says.
- **What that comes to.** `FormatMeaning.dfy`, `StepMeaning.dfy`, `PassMeaning.dfy`
  and `EventMeaning.dfy` say, for any answers and with no reference to the phases,
  exactly which writes, reports, events and memory follow from which configuration
  fields, records and answers, on literal layouts, rates, windows and counts.
  `PolicyChange.dfy` and `ConfigurationMeaning.dfy` do the same for new settings and
  for a line of the configuration file.
- **Whole runs.** `EngineRuns.dfy` runs any sequence of endpoint steps, previews,
  settings, user commands and device changes. On it rest the ownership of
  disabled devices, the sliding-window guard (`LoopGuard.dfy`), the failure
  backoff (`Backoff.dfy`) and the format cache (`CapabilityCache.dfy`,
  `StaleCache.dfy`).
- **Well-behaved devices.** `World.dfy` adds devices whose calls succeed and whose
  writes stick; `Convergence.dfy`, `ConvergenceRuns.dfy`, `Preview.dfy` and `PreviewOff.dfy` prove
  that scanning reaches a fixed point and that the preview is what happens.
- **Consent.** `ServiceHost.dfy`, on the configuration file (`Configuration.dfy`,
  `ConfigurationFile.dfy`).
- **Threads.** `EngineThreads.dfy` and `ScanRequests.dfy` (pause, resume, requests and
  the worker as interleaved steps), `ControlClient.dfy` and `ControlProtocol.dfy`.
- **Texts and buffers.** `Capabilities.dfy`, `Quoting.dfy`, `Framing.dfy`,
  `TrayEvents.dfy`, `LogRotation.dfy`.

## What was found

- `handleIncompatible` decides from the cached formats without asking whether the
  verdict it gets is "compatible". It disables a device on that verdict exactly
  when the formats cached before the step say so (`CompatibleDisableIff`), which
  needs a stale entry (`CacheStaysFresh`). One preview before the driver changes is
  enough: from then on every second full scan disables the device and the next one
  enables it, and since the enable drops the record, the loop guard never sees it
  (`StaleRun`). A device-change notification ends it after two more scans
  (`NotificationEndsIt`).
- A `resume` that overlaps the end of `pause` can lose the full scan it asks for
  (`OverlapLosesRequest`). The service's control lock rules it out
  (`SerialisedIsSeparate`), and without such an overlap nothing is lost
  (`NoRequestIsLost`, `ForgottenIff`).
- The tray keeps its cursor when the service restarts, while the service numbers
  its events from 1 again: the first events of the new lifetime are not announced
  (`TwoLifetimes` says exactly which).
- A success does not always clear a failure of the same step: a verified enable does
  not forget that restoring the name failed just before, and triggered passes then
  leave the device that was just enabled alone for the backoff. It is the only such
  case (`LaterSuccessClearsIff`, `EnableKeepsFailure`). A device-change notification
  drops the failure (`ChangeForgets`).
- A configuration survives its file exactly when it is valid (`RoundTripIffValid`);
  a confirmation key with blanks at its ends or a `;`, or an id that starts like a
  comment or a section, would not. No text can produce such a configuration
  (`ParseIsValid`).
- When every call works, the preview differs from the next scan in exactly four
  cases (`WordHolds`, `PreviewIsWhatHappens`): a device announced to be disabled is
  left enabled by the user, or held back by the loop guard, and the policy did not
  change; a device is announced to be disabled or kept disabled and the policy was
  not confirmed; or an active device already is at the target and its driver does
  not report the target. In the last case the preview says "disable" (or "ignore",
  or "unknown") and the scan "compliant" (`PreviewWrongAtTarget`).
- A copy of the log can be larger than the threshold: a live file that could not be
  renamed grows, and the next `configure` resets the threshold
  (`FailedRenameStartsLarge`, `LargeStart`); `CopiesAreBounded` is exact.
- When the user enables a device of which Audioslave has no record, nothing is
  remembered, although the log line says that the device is left enabled
  (`UserEnableDecides`).
- A comment in the source says a looping device waits "until the window passes",
  and the tray tells the user "until the configuration changes"; the code does the
  former (`GuardIsExact`).

## Model

| member | source | states |
|---|---|---|
| WatchdogEngines.WatchdogEngine.ScanOnce | src/core/WatchdogEngine.cpp:360-587 | a pass captures the configuration once, visits the enumerated endpoints in order, ends at the first one that finds the engine paused, and leaves the memory, writes and device list of the pass specification; a pass that may not start changes nothing |
| WatchdogEngines.WatchdogEngine.ProcessEndpoint | src/core/WatchdogEngine.cpp:389-587 | one endpoint's step: filters, record, live state, pause check, backoff, then the modifying part |
| WatchdogEngines.WatchdogEngine.ModifyEndpoint | src/core/WatchdogEngine.cpp:409-587 | the modifying part of a step for every combination of driver answers: name, disabled earlier by Audioslave, exclusive mode, format, in that order |
| WatchdogEngines.WatchdogEngine.RestoreName | src/core/WatchdogEngine.cpp:620-645 | when the user's name is written, and what is remembered when Windows rejects it |
| WatchdogEngines.WatchdogEngine.ProtectExclusive | src/core/WatchdogEngine.cpp:459-496 | exclusive mode is read, switched off, verified; failures are remembered, a fix clears them |
| WatchdogEngines.WatchdogEngine.HandleIncompatible | src/core/WatchdogEngine.cpp:647-680 | unknown formats, policy off, unconfirmed and report-only each leave the device alone; otherwise the loop guard decides |
| WatchdogEngines.WatchdogEngine.GuardAndDisable | src/core/WatchdogEngine.cpp:682-718 | history pruned to a day, 'disabled' withdrawn from a device that came back, left-enabled and looping devices left enabled, with one event per new notice |
| WatchdogEngines.WatchdogEngine.Disable | src/core/WatchdogEngine.cpp:720-764 | only an active device is disabled, the result is read back, and only a verified disable becomes a record |
| WatchdogEngines.WatchdogEngine.HandleDisabledByAudioslave | src/core/WatchdogEngine.cpp:766-818 | a device stays disabled only under a confirmed policy that still finds it incompatible; a verified enable drops its record |
| WatchdogEngines.WatchdogEngine.StandardizeFormat | src/core/WatchdogEngine.cpp:500-572 | each format outcome: what is reported, remembered and dropped |
| WatchdogEngines.WatchdogEngine.CachedCapabilities | src/core/WatchdogEngine.cpp:213-228 | a driver is asked once; only known formats are cached |
| WatchdogEngines.WatchdogEngine.Analyze | src/core/WatchdogEngine.cpp:820-879 | the preview lists what a candidate would do, writes nothing, and changes nothing but the cache; nothing is listed when the enumeration fails |
| WatchdogEngines.WatchdogEngine.SetConfig | src/core/WatchdogEngine.cpp:190-205 | failures and notices are forgotten; when standardization, rate, depth, the disable option or the confirmation differs, exactly the records of disabled devices stay, without mark and history; otherwise every record stays as it is |
| WatchdogEngines.WatchdogEngine.EnableDevice | src/core/WatchdogEngine.cpp:901-923 | a verified enable by the user marks the record left-enabled, anything else keeps it |
| WatchdogEngines.WatchdogEngine.OnDeviceChange | src/core/WatchdogEngine.cpp:297-304 | a changed device loses its failure, its cached formats and every notice whose key holds its id |
| WatchdogEngines.WatchdogEngine.ForgetCapabilities | src/core/WatchdogEngine.cpp:207-211 | every cached format is dropped, nothing else changes |
| WatchdogEngines.WatchdogEngine.ForgetFailures | src/core/WatchdogEngine.cpp:161-169 | leaving the pause forgets every failure and notice, and nothing else |
| WatchdogEngines.WatchdogEngine.PushEvent | src/core/WatchdogEngine.cpp:238-243 | the event queue keeps the newest 32 |
| EngineModel.LiftElsewhere | src/core/WatchdogEngine.cpp:389-587 | a step for one endpoint leaves what is remembered about every other endpoint as it was |
| EngineModel.SettingsMean | src/core/WatchdogEngine.cpp:190-205 | the same of any run's state, with the cached formats and the events kept |
| PolicyChanges.NewPolicyNewChance | src/core/WatchdogEngine.cpp:696-764 | over runs: after new settings and anything elsewhere, a full scan that finds an active device which they want disabled disables it, verified, if and only if the policy differs from the one before, or the device was neither left enabled by the user nor held back by the guard |
| EndpointFacts.VisitFacts | src/core/WatchdogEngine.cpp:389-818 | whatever the audio stack answers: a verified disable needs the confirmed policy, admin rights, enforcement, a device not left enabled by the user and a guard below its limit, and extends the pruned history by its time; a verified enable needs a record marked disabled; any other step keeps, drops or only withdraws the record; reports say 'disabled' and 're-enabled' exactly when that was verified |
| StepMeaning.VisitedIff | src/core/WatchdogEngine.cpp:389-424 | an endpoint is skipped if and only if its flow is switched off, or it is absent now, or it is disabled now and its record does not say that Audioslave disabled it; of the others the engine stops at one exactly when it is paused, and visits it otherwise |
| StepMeaning.LiveStateDecides | src/core/WatchdogEngine.cpp:397-406 | when the record says disabled and the enumeration does not, the whole step is that of the state Windows answers now, so a stale enumeration makes no difference |
| StepMeaning.WritesMean | src/core/WatchdogEngine.cpp:389-818 | for any answers, the writes of a visit are exactly these, in this order: the kept name, when Windows shows another; exclusive mode off, when it is allowed; and the first accepted layout of the target, or the disable, or the enable, each if and only if its condition on configuration fields, record, cached formats, guard, live state and answers holds; and none but in a pass that enforces and is not a triggered one within thirty seconds of a failure |
| StepMeaning.StepMeans | src/core/WatchdogEngine.cpp:409-818 | for any answers, the report of a visit, its event, and the record, guard notice and cached formats it leaves, from the same conditions: in particular the record goes when the device is at the target, brought there or enabled again, is the device's own after a verified disable, and is withdrawn when the device is left enabled or waits |
| StepMeaning.CountMeans | src/core/WatchdogEngine.cpp:682-706 | what the guard counts in the pruned history is the number of disables of the whole one that are less than ten minutes old |
| StepMeaning.PruneMeans | src/core/WatchdogEngine.cpp:682-686 | pruning keeps each disable of the last day as often as it was there, and no other; with PruneSplit, in order |
| PassMeaning.PassWrites | src/core/WatchdogEngine.cpp:360-587 | with pauses at any point: a pass over distinct endpoints is paused if and only if some endpoint finds the engine paused, and writes exactly what the endpoints before that one ask for, each judged by what was remembered of it when the pass began |
| PassMeaning.NthWants | src/core/WatchdogEngine.cpp:389-818 | what each endpoint of a pass asks for, on configuration fields, memory and answers |
| PassMeaning.PassSparesFlow | src/core/WatchdogEngine.cpp:391-393 | no pass writes or reports a device of a flow that is switched off, or changes what is remembered of it |
| PassMeaning.PreviewSparesFlow | src/core/WatchdogEngine.cpp:828-830 | no preview lists such a device, or asks its driver |
| PassMeaning.ReportOnly | src/core/WatchdogEngine.cpp:418-419 | with enforcement off no pass writes anything |
| DeviceStateStores.DeviceStateStore.Get | src/core/DeviceStateStore.cpp:29-36 | the record vector read as a map keyed by case-insensitive id |
| DeviceStateStores.DeviceStateStore.Put | src/core/DeviceStateStore.cpp:44-59 | replaces or appends, keeps ids distinct, saves what changed: a map update |
| DeviceStateStores.DeviceStateStore.Remove | src/core/DeviceStateStore.cpp:61-69 | removes the id under any spelling: a map removal, saved |
| DeviceStateStores.DeviceStateStore.ResetHistory | src/core/DeviceStateStore.cpp:71-89 | clears histories and left-enabled marks, forgets devices no longer disabled, saves exactly when something changed |
| EndpointMemories.EndpointMemory.Notice | src/core/EndpointMemory.cpp:30-40 | a message is new exactly when it differs from the one remembered under its key |
| EndpointMemories.EndpointMemory.ForgetEndpoint | src/core/EndpointMemory.cpp:48-54 | the erase-while-iterating loop removes exactly the notices whose key contains the id, for every prefix |
| Policies.JudgeFormat | src/core/FormatPolicy.cpp:99-161 | the loop over the layouts and what follows it compute the judging specification, for any driver answers; what that says is JudgeMeans |
| FormatMeaning.JudgeMeans | src/core/FormatPolicy.cpp:24-48 | for any driver, on literal layouts (16 bits; 24 in 24 or in 32; 32 as integers or floats; two channels when none are reported): a device off target is unsupported if and only if each layout is refused; otherwise the first that is not refused is the format written or announced, or fails and makes the outcome unknown; applied, rejected and not sticking from the write and the read-back; a format is written if and only if enforcing and it is that one |
| Policies.OnlySupportedWritten | src/core/FormatPolicy.cpp:115-146 | a format is written only when enforcing, once, and only one that realises the target, that the driver said it supports, and that was not already set |
| Policies.ChooseMeans | src/core/FormatPolicy.cpp:115-137 | the chosen candidate is the first supported one, with no failed question before it |
| Policies.ProbeDevice | src/core/FormatPolicy.cpp:51-85 | the probing loops compute the probe specification; what that says is ProbeMeans |
| FormatMeaning.ProbeMeans | src/core/FormatPolicy.cpp:24-85 | the probe knows the device if and only if every question about a layout of the fifteen rates and three depths is answered, and then holds a rate and a depth if and only if they are among those and one of their layouts is accepted |
| FormatMeaning.ProbeSorted | src/core/FormatPolicy.cpp:75-84 | of each rate it holds at least one depth, each once, ascending |
| Policies.ProbeFormats | src/audio/AudioInterfaces.h:63-75 | one answer per format in order; the first failure ends the questions |
| Policies.ProbeSupports | src/core/FormatPolicy.cpp:24-85 | with a driver that answers, the capabilities hold a rate and depth exactly when some candidate layout is supported |
| Policies.UnsupportedIff | src/core/FormatPolicy.cpp:99-137 | a device is judged unsupported exactly when it is not at the target and the probe lacks the target |
| Policies.UnsupportedIsNotCompatible | src/core/WatchdogEngine.cpp:654-659 | from the same answers, the verdict on an unsupported device is never 'compatible' |
| Capabilities.SerialiseText | src/core/FormatCompatibility.cpp:69-83 | the printing loops compute the text specification |
| Capabilities.SerialisedForms | src/core/FormatCompatibility.cpp:69-83 | the text itself: empty for an unknown device, '-' for one that supports nothing, 'rate:depth/depth;rate:depth' by ascending rate |
| Capabilities.DeserialiseText | src/core/FormatCompatibility.cpp:85-108 | the reading loops compute the parsing specification, for any text |
| Capabilities.DeserialiseSerialise | src/core/FormatCompatibility.cpp:69-108 | reading back what was printed gives the same capabilities, for every well-formed value; known-but-empty stays distinct from unknown |
| Capabilities.NormalForm | src/core/FormatCompatibility.cpp:85-108 | any text whose numbers fit their types reads as a well-formed value, and printing it is stable from then on |
| EngineRuns.OpMoves | src/core/WatchdogEngine.cpp:389-818 | how any operation changes the record of any device, matched to what was verified at the device |
| EngineRuns.RecordsAreOwned | src/core/WatchdogEngine.cpp:397-407 | in every run from an empty store, a record marked disabled has a verified disable as the last change of that device by Audioslave |
| EngineRuns.ReenablesAreOwned | src/core/WatchdogEngine.cpp:445-457 | in every run from an empty store, every verified re-enable by a pass follows a verified disable of that device with no Audioslave enable in between |
| EngineRuns.ReenablesAreDistinct | src/core/WatchdogEngine.cpp:797-814 | two re-enables of a device never go back to the same disable |
| EngineRuns.UserDecisionHolds | src/core/WatchdogEngine.cpp:696-704 | in every run, a device the user enabled again is left enabled, and not taken for one to re-enable, until the policy changes or it is back at the target |
| EngineRuns.UserEnableDecides | src/core/WatchdogEngine.cpp:901-923 | a verified enable by the user starts that decision exactly when there is a record of the device; without one, or when it fails, nothing changes |
| LoopGuard.CountThroughPruning | src/core/WatchdogEngine.cpp:682-689 | forgetting disables older than a day never changes how many lie in the window |
| LoopGuard.AtMostFivePerWindow | src/core/WatchdogEngine.cpp:682-718 | with a wall clock that does not go back, between two resets of its record every half-open ten-minute window holds at most five verified disables of a device, in every run |
| LoopGuard.GuardIsExact | src/core/WatchdogEngine.cpp:703-718 | the guard makes a device wait only when five or more real disables lie in the last window, and lets it be disabled only when fewer do |
| LoopGuard.GuardWaitsIff | src/core/WatchdogEngine.cpp:703-718 | a device that comes to the guard and was not left enabled waits if and only if five or more real disables lie in the last window, and otherwise, being active, is asked to be disabled |
| Backoff.NoWritesInBackoff | src/core/WatchdogEngine.cpp:418-419 | in every run, after a remembered failure no triggered pass writes that endpoint in any way for the backoff, unless a full pass visits it, the memory is cleared or the device changes |
| Backoff.RetriedOutsideBackoff | src/core/WatchdogEngine.cpp:418-419 | full passes and passes after the backoff write and report as if no failure were remembered |
| Backoff.StepRemembers | src/core/WatchdogEngine.cpp:409-587 | the failure memory after a step is exactly what the results of all its writes make of it, in their order: a failed write is remembered, a verified fix of exclusive mode or format and a verified disable clear it, a restored name and a verified enable leave it |
| Backoff.LastWriteDecides | src/core/WatchdogEngine.cpp:459-564 | a step without a write keeps the failure memory; a last write that fails sets it; one that works clears it, or, for a name and an enable, leaves what the writes before made of it |
| Backoff.LaterSuccessClearsIff | src/core/WatchdogEngine.cpp:620-645 | a later success of the same step clears an earlier failure if and only if the step did not begin with a device disabled by Audioslave; there the failed name stays remembered |
| Backoff.EnableKeepsFailure | src/core/WatchdogEngine.cpp:790-817 | the failing case: a rejected name and then a verified enable leave the failure of the name remembered, and triggered passes write nothing to the device for the backoff |
| Backoff.FailureKeptExample | src/core/WatchdogEngine.cpp:790-817 | one such step under the default configuration, whatever else the audio stack answers |
| Convergence.FirstScan | src/core/WatchdogEngine.cpp:389-587 | one full scan of a well-behaved device from any state settles it, or has just enabled it |
| Convergence.SettledStays | src/core/WatchdogEngine.cpp:389-587 | a settled device is not written and stays settled |
| ConvergenceRuns.PassPointwise | src/core/WatchdogEngine.cpp:389-587 | in a pass over distinct devices each is visited as if it were alone |
| ConvergenceRuns.TwoScansSettle | src/core/WatchdogEngine.cpp:389-587 | with an enforcing configuration, admin rights, writes that stick, fixed driver answers and no device waiting on the loop guard: after two full scans from any state every device is settled, and every later scan writes nothing |
| ConvergenceRuns.ReenabledNeedsAnother | src/core/WatchdogEngine.cpp:445-572 | a scan that re-enables a device writes nothing but its name and its state; the next one switches its exclusive mode off, and gives it a format at the target, exactly when it needs that |
| Previews.PreviewIsWhatHappens | src/core/WatchdogEngine.cpp:820-879 | the preview and the next full scan list the same number of devices, and agree on all of them, in order, on id, verdict and action (apply becomes applied, disable disabled, reenable re-enabled, the rest is unchanged), if and only if the word holds for each device: an active device at the target reports it as supported, and one that is to be disabled is so under a confirmed policy and, unless the policy changed, neither left enabled nor held back; one that is to be kept disabled is so under a confirmed policy |
| PreviewsOff.PreviewWhenOff | src/core/WatchdogEngine.cpp:863-864 | with settings that switch format standardization off, the next full scan reports exactly the devices of which the preview announced something, in order, and enables each of them |
| PreviewsOff.OffWrites | src/core/WatchdogEngine.cpp:863-864 | such a scan writes no format and disables nothing, and enables exactly the devices the preview announces |
| Previews.DeviceFulfilsIff | src/core/WatchdogEngine.cpp:820-879 | the same for one device, with what is remembered at the preview and at the scan |
| Previews.ActiveScan | src/core/WatchdogEngine.cpp:500-572 | what a full scan reports of an active device, in terms of the preview's action, for every device, confirmed or not |
| Previews.PreviewWrongAtTarget | src/core/WatchdogEngine.cpp:848-867 | an active device at the target whose driver does not report the target: the preview says it will be disabled, the scan finds it compliant |
| Previews.OffTargetExists | src/core/WatchdogEngine.cpp:848-867 | there is such a device for every target and every other rate |
| CapabilityCache.CacheStaysFresh | src/core/WatchdogEngine.cpp:213-228 | in every run, since the last invalidation of a device (its change, or all forgotten, or the start), while its driver keeps its answers and its channel layout, its cached formats equal a fresh probe, whatever happens to other devices |
| CapabilityCache.FreshStep | src/core/WatchdogEngine.cpp:213-228 | no operation on this or another device makes a fresh entry stale |
| CapabilityCache.InvalidatedIsFresh | src/core/WatchdogEngine.cpp:297-304 | a device change and forgetting all formats leave no stale entry |
| CapabilityCache.CompatibleDisableIff | src/core/WatchdogEngine.cpp:654-680 | of a device whose driver answers every question the same way each time, a verified disable rests on the verdict 'compatible' exactly when the formats cached before the step say so |
| CapabilityCache.NoCompatibleDeviceDisabled | src/core/WatchdogEngine.cpp:654-680 | since the last invalidation of a device with such a driver, it is not disabled on the verdict 'compatible' or 'unknown' |
| StaleCache.StaleCacheOscillates | src/core/WatchdogEngine.cpp:654-764 | with stale cached formats, one full scan disables the device, the next enables it, and device and memory are what they were |
| StaleCache.StaleRun | src/core/WatchdogEngine.cpp:654-818 | a run from the start of the engine: one preview while the driver supports the target, then any number of rounds of two scans, each disabling the device and enabling it again |
| StaleCache.RoundsDisable | src/core/WatchdogEngine.cpp:703-718 | the disables of such a run may all lie in one window, and no number bounds them |
| StaleCache.StaleRunIsPossible | src/core/WatchdogEngine.cpp:654-764 | devices, drivers and answers as StaleRun asks for exist for every confirmed target |
| StaleCache.NotificationEndsIt | src/core/WatchdogEngine.cpp:297-304 | after a device-change notification the next full scan still enables the device, the one after judges it afresh and settles it, so that no later scan writes it |
| ServiceHosts.ServiceHost.Configure | src/service/ServiceHost.cpp:302-335 | unsupported settings or a failed save change nothing; otherwise host and engine hold the same configuration, and so does the file when it is loaded: target and switches as given, the confirmation none with disabling off, the target's key when confirmed and else the file's, every other field the file's; and a full interactive pass ran with it |
| ServiceHosts.ServiceHost.Rename | src/service/ServiceHost.cpp:337-366 | the name kept for the id, under any spelling, is the new one or none, that of every other endpoint and every other field is the file's, and the saved file loads as that; a refused rename or save leaves the engine as it was |
| ServiceHosts.NoFile | src/config/Configuration.h:32-64 | without a file passes look at everything and switch exclusive mode off, and neither formats nor incompatible devices are touched |
| ServiceHosts.ServiceHost.ReloadConfiguration | src/service/ServiceHost.cpp:368-387 | host and engine take what the file says |
| ServiceHosts.DisablingNeedsConsent | src/service/ServiceHost.cpp:277-335 | in every interleaving of settings, renames, reloads and passes without hand edits, a pass disables a device for a rate and depth only if settings applied before it began confirmed exactly that pair, and none applied since switched the option off or confirmed another |
| Configurations.ParseConfiguration | src/config/Configuration.cpp:86-186 | the line loop computes the parsing specification, for any text |
| ConfigurationMeaning.LastSettingWins | src/config/Configuration.cpp:86-186 | whatever the text, a section and a setting put at its end decide, in any spelling of both: each switch takes true, 1, yes, on and false, 0, no, off and keeps its value otherwise, the interval is clamped, rate and depth only take the selectable ones, an unknown log level means INFO; and no other field changes |
| Configurations.FormatKeyInjective | src/config/Configuration.cpp:67-76 | a confirmation key belongs to one rate and depth only |
| Configurations.ParseIsValid | src/config/Configuration.cpp:86-186 | any text at all parses to a configuration within its ranges, with well-formed names and confirmation key |
| ConfigurationFile.SaveConfiguration | src/config/Configuration.cpp:203-255 | what is printed reads back as the same configuration exactly when the configuration is valid, and then without warnings |
| ConfigurationFile.RoundTrip | src/config/Configuration.cpp:86-255 | reading back what was printed gives the same configuration and no warnings, names with ';' and '=' included |
| ConfigurationFile.RoundTripIffValid | src/config/Configuration.cpp:86-255 | validity is exactly what survives printing and reading |
| Quoting.QuoteArgument | src/platform/windows/Elevation.cpp:22-44 | the loop with its pending backslashes computes the quoting specification |
| Quoting.Parameters | src/platform/windows/Elevation.cpp:46-52 | the joined parameters parse back to exactly the arguments |
| Quoting.ParseQuoted | src/platform/windows/Elevation.cpp:22-52 | by the documented CommandLineToArgvW rules every list of arguments comes back: empty ones, quotes, runs of backslashes before a quote or at the end |
| Framing.PipeReader.ReadExact | src/ipc/PipeServer.cpp:55-75 | however a read splits the bytes, exactly the bytes asked for are handed over, or the stream ended before |
| Framing.PipeReader.Run | src/ipc/PipeServer.cpp:103-117 | the loop hands over the payloads of the frames in the stream up to the first that is not the protocol's |
| Framing.DeframeFrames | src/ipc/Protocol.cpp:427-434 | taking concatenated frames apart gives exactly the payloads framed, whatever follows |
| Framing.FrameBytes | src/ipc/Protocol.cpp:427-434 | a frame byte by byte: the four bytes of the magic number and the size, low byte first, then the payload |
| Framing.HeaderDecides | src/ipc/PipeServer.cpp:103-117 | a stream holds a message if and only if it begins with those four bytes and a size of 1 to 262144, and that many bytes follow; they are the message |
| Framing.Exchange | src/ipc/PipeServer.cpp:55-117 | end to end: for every sequence of payloads and every splitting of the bytes, the server is handed exactly that sequence |
| EngineThreads.PauseIsSafe | src/core/WatchdogEngine.cpp:144-159 | in every interleaving: while paused no scan is past its check under the lock; at most one thread changes a device and at most one pass is on |
| EngineThreads.NothingWrittenWhilePaused | src/core/WatchdogEngine.cpp:144-170 | in every schedule, from a pause that took effect until a resume takes effect, no scan is past its check, with or without a stop in between |
| EngineThreads.PauseLasts | src/core/WatchdogEngine.cpp:121-170 | only resume and stop end a pause, and only resume makes the engine run again |
| EngineThreads.PauseIsPrompt | src/core/WatchdogEngine.cpp:144-159 | with pauses one at a time: once the flag is raised no endpoint begins, and at most the one in flight finishes |
| ScanRequests.NoRequestIsLost | src/core/WatchdogEngine.cpp:161-182 | in every interleaving in which no resume takes effect while a pause has taken effect and not lowered its flag, a request owed is pending with its wake-up set or about to be set, or its pass is on the way, unless the engine is not running or just about to pause or to request the full scan of a resume; the same for full requests and full passes |
| ScanRequests.SerialisedIsSeparate | src/service/ServiceHost.cpp:233-251 | the service's control lock keeps pauses and resumes apart in that sense |
| ScanRequests.WaitingMeansWoken | src/core/WatchdogEngine.cpp:307-358 | a worker that waits while the engine runs undisturbed has been, or is about to be, woken for every request it owes |
| ScanRequests.AnsweredInBetween | src/core/WatchdogEngine.cpp:307-358 | in every schedule, a request owed before and not after was answered by an enumeration of the worker in between, and a full request by one of a full pass: triggered passes alone never answer it |
| ScanRequests.OverlapLosesRequest | src/core/WatchdogEngine.cpp:144-170 | when a resume overlaps the end of a pause, the full scan it asked for can be forgotten: a schedule that does it |
| ScanRequests.ForgottenIff | src/core/WatchdogEngine.cpp:144-182 | a request can be forgotten, with the engine running and everything idle, if and only if pauses and resumes are not done under one lock; and every run in which one is has a resume that took effect inside a pause |
| ControlClients.ControlClient.Send | src/ipc/ControlClient.cpp:55-78 | a request is registered under a fresh id; one that cannot be sent is answered at once and leaves no trace |
| ControlClients.ControlClient.MessageReceived | src/ipc/ControlClient.cpp:135-160 | a response answers the request with its id; unknown and repeated ids answer nothing |
| ControlClients.ControlClient.FailAllPending | src/ipc/ControlClient.cpp:119-129 | every waiting request is answered, by ascending id, and none waits any more |
| ControlClients.AllOwingMeans | src/ipc/ControlClient.cpp:119-129 | failing everything answers each waiting request once and nothing else |
| ControlProtocol.ExactlyOnePlace | src/ipc/ControlClient.cpp:55-160 | in every interleaving of senders, failed sends, responses to any ids and lost connections, an issued callback is in exactly one of: waiting, held by one thread, called; so at most one call, and no call of anything else |
| ControlProtocol.ResponsesFit | src/ipc/ControlClient.cpp:142-160 | a callback told of a response got the one that carries the id it was registered under |
| ControlProtocol.DestructorSettlesAll | src/ipc/ControlClient.cpp:18-23 | once nobody is inside the client, the destructor leaves every issued callback called exactly once, the waiting ones with 'client destroyed' |
| TrayEvents.QueueIsTheEnd | src/core/WatchdogEngine.cpp:230-244 | within one engine lifetime events are numbered 1, 2, 3, ... and the queue is the last 32 of them |
| TrayEvents.EventsAreAnnounceable | src/core/WatchdogEngine.cpp:712-815 | a step only adds events the tray knows how to announce |
| EventMeaning.EventIff | src/core/WatchdogEngine.cpp:712-815 | a visit adds an event if and only if it made a verified disable or a verified enable, asked for a disable that failed, or reports a wait that its notice did not already hold; the event is of that kind, with the device's id and name |
| EventMeaning.EventsTellDeeds | src/core/WatchdogEngine.cpp:230-244 | in every run the disabled and re-enabled events, from the first on, are the verified disables and re-enables of the run: each once, in order, with id, name and whether the user was waiting |
| TrayEvents.Tray.NotifyDeviceEvents | src/app/AudioslaveApplication.cpp:215-236 | the loop collects the announced events by kind and moves the cursor |
| TrayEvents.AnnouncedOnce | src/app/AudioslaveApplication.cpp:215-236 | for any order of snapshots the announced events have strictly rising numbers: none twice |
| TrayEvents.AnnouncedExactly | src/app/AudioslaveApplication.cpp:215-236 | with at most 32 events between receipts, exactly the events after the first snapshot that the user did not cause are announced, once each, in order |
| TrayEvents.AnnouncedIff | src/app/AudioslaveApplication.cpp:215-236 | exactly which events a snapshot announces; with it, which are missed when the queue overflows |
| TrayEvents.TwoLifetimes | src/app/AudioslaveApplication.cpp:215-236 | over two lifetimes of the service: each event of the first after the first snapshot, and of the second exactly those numbered past all that was seen of the first; the others are silenced |
| LogRotation.Logger.RotateIfNeeded | src/logging/Logger.cpp:99-120 | the renaming loop, the rename of the live file and the new threshold, whether or not renaming and opening succeed |
| LogRotation.NextRotation | src/logging/Logger.cpp:99-120 | the threshold after a rotation: the configured size when the live file was renamed, a megabyte beyond its size when it could not be |
| LogRotation.Logger.Write | src/logging/Logger.cpp:131-151 | filtering by level, appending, rotating |
| LogRotation.FilesHoldTheEnd | src/logging/Logger.cpp:99-151 | after any run copies 5 down to 1 followed by the live file are the end of everything written, with at most five copies, even when renaming the live file or opening it again fails |
| LogRotation.Logger.Configure | src/logging/Logger.cpp:52-63 | the file is opened again as it is, with the threshold at its first value |
| LogRotation.CopiesAreBounded | src/logging/Logger.cpp:99-120 | from the moment the log is opened, in every run, each copy is shorter than the threshold in force when it was rotated plus its last line, if and only if the live file is below the threshold when it is opened |
| LogRotation.LargeStart | src/logging/Logger.cpp:99-120 | the failing start: a live file at or above the threshold becomes, with the first line, a copy that is not bounded |
| LogRotation.FailedRenameStartsLarge | src/logging/Logger.cpp:99-120 | how such a start comes about: a rename that fails, and then configure |

## Left out

- WatchdogEngines.WatchdogEngine.ScanOnce: log texts, the counters of the scan report, the status snapshot and the list of pending devices are not modelled; the report-only reads of exclusive mode and format when a feature is off are omitted, since they change nothing modelled.
- WatchdogEngines.WatchdogEngine.ProcessEndpoint: the step of one endpoint is atomic. In the source the record and the live state are read before the lock is taken, so a user command may come between; this is not captured.
- WatchdogEngines.WatchdogEngine.RestoreName: the log-only read of the old name is omitted.
- WatchdogEngines.WatchdogEngine.ProtectExclusive: the "priority" flag of exclusive mode, which is never decided upon, is omitted.
- WatchdogEngines.WatchdogEngine.GuardAndDisable: of the notices only the one for the loop guard is modelled; the others only choose a log level.
- WatchdogEngines.WatchdogEngine.PushEvent: time stamps of events are omitted.
- WatchdogEngines.WatchdogEngine.Analyze: the status window's other fields are omitted.
- WatchdogEngines.WatchdogEngine.EnableDevice: like the source, it does not ask whether the engine is paused; the pause properties are about scans only. The user's renameDevice, which writes a name at once, is an answer of ServiceHost.Rename.
- DeviceStateStores.DeviceStateStore.Put: devices.json is the sequence of records itself; its JSON form and a failing write are not part of this model.
- Capabilities.DeserialiseText: numbers too large for the 32 or 64 bits they are read into are not modelled; those that fit there are cut to 32 and 16 bits as the source's casts do, and NormalForm asks that nothing is cut. JUCE is not part of this model: its integer reading is taken to be that of C's atoi, a leading '+' included, which no printed text has.
- Configurations.ParseConfiguration: a key is compared as section and name, which is the same as the source's comparison of "section.name" because each known name has no dot. Trimming and case folding are those of ASCII.
- ConfigurationFile.SaveConfiguration: the wording of the comment lines is a parameter (any one-line remarks).
- ServiceHosts.DisablingNeedsConsent: assumes that nobody edits the file by hand and that the first file holds no confirmation, and that ids given to rename are those Windows reports (no '=' or line break, not starting like a comment or section).
- LoopGuard.AtMostFivePerWindow: between two resets of the record; a re-enable by a pass and a return to the target drop the record, and a changed policy clears its history, as in the source.
- Previews.PreviewIsWhatHappens: settings with format standardization off are the subject of PreviewsOff.PreviewWhenOff. With enforcement off the preview announces what the scan then only reports: nothing is written (PassMeaning.ReportOnly), and the reports are those of StepMeaning.StepMeans.
- LogRotation.CopiesAreBounded: the threshold given to the logger does not change during a run.
- ScanRequests.NoRequestIsLost: an exception that ends a pass is not modelled (the next periodic pass makes up for it), nor is starting the engine again after it stopped.
- EngineThreads.PauseIsSafe: a mutual-exclusion lock has one owner and is not re-entered; the memory is sequentially consistent, as the source's atomics are.
- ControlProtocol.ExactlyOnePlace: a callback handed to the message thread counts as called; an empty callback is not a callback; ids are unbounded, so fewer than 2^31 requests per client; a callback that sends again acts as another thread.
- Quoting.Parameters: the launch itself and the parsing of the program name are not modelled.
- LogRotation.FilesHoldTheEnd: renames between numbered copies succeed, and no other process writes the log.
- The COM, WASAPI and driver code behind the interfaces: their answers are parameters.
- Pipe I/O, time-outs, access control and the JUCE framing on the client's side; a write that times out in the middle of a frame.
- The service control manager layer, the installer, command line, user interface, themes and menus.
- JSON encoding of statuses and requests.
- Messages about state changes to listeners, and the summary line of a scan.
