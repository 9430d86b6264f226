# Bottle filler controller, modelled in Dafny

The firmware drives up to six bottle-filling stations. Each station has a pump on a
pulse-width output channel and may have two push buttons: an auto button and a manual
button. This project models the `BottleFiller` component's core:

- the station registry: the boot sequence, the bulk replace and the partial update;
- the per-station status machine `Idle` / `Filling` / `Aborting`;
- the auto-fill task, split into the steps the scheduler can interleave;
- the manual fill, both button-held and timed;
- one wake of the button-polling loop;
- the JSON form of a station;
- the command dispatcher and the reply it builds.

Modules:

- `Wrappers`, `FixedWidth` and `Payload` are support code.
  - `Option`.
  - The C++ integer conversions: `uint8_t` and `uint32_t` narrowing, and the two's-complement reinterpretation to `int`.
  - The JSON value tree, with the member-access and number-access rules of the JSON library (which members throw, and when).
- `Config` holds a station record and its `to_json` / `from_json`.
- `Input` holds a button binding and the edge detection of the polling loop.
- `Registry` holds the pure rules behind the registry:
  - channel assignment;
  - building the bindings;
  - the default stations;
  - keying by id;
  - the bulk replace's walk over the submitted list with its 8-bit running id.
- `BottleFiller` is the controller state `Engine` and every operation on it.
  - Station records live in a heap (`objects`), addressed by handle, and `fillers` maps an id to a handle.
  - An auto-fill task holds a handle and never goes through the registry. This is how the source's raw pointers behave.
  - A blocked command handler is a pending continuation. This covers the timed manual fill's delay and the bulk replace's one-second settle.
  - `Valid` is the invariant every operation keeps. `CallerOnly` is the status rule: a caller never sets a station Idle, and never moves one from Aborting back to Filling.
- `Dispatch` is `processCommand`: command selection, the engine operation, and the reply with its deferred effects.
- `Scheduler` interleaves the tasks as atomic steps. Its lemmas hold for every interleaving of these steps and every wake-up time. How large a step is, and what that leaves out, is under "Left out".

## Model

| member | source | states |
|---|---|---|
| Config.StatusOfCode | components/bottle-filler/filler-config.h:9-14 | exactly the codes 0, 1 and 2 name a status, and each names the status with that code |
| Config.ToJson | components/bottle-filler/filler-config.h:30-43 | the serialised form has exactly the eight keys id, name, pumpPin, autoPin, manualPin, autoFillSpeed, manualFillSpeed and fillTime (no channel, no status), and it is always accepted by `FromJson` |
| Config.FromJson | components/bottle-filler/filler-config.h:45-56 | succeeds exactly when all eight members are present with the right kind (numbers, or booleans read as 0/1, and a string name); the status becomes Idle and the channel is kept; the id and speeds are the numbers narrowed to 8 bits, the fill time narrowed to 32 bits, and each pin carries the number's 32-bit pattern |
| Config.RoundTrip | components/bottle-filler/filler-config.h:30-56 | decoding a station's serialised form restores all eight serialised fields, with the channel of the record decoded into and status Idle |
| Config.SpeedIsNotRangeChecked | components/bottle-filler/filler-config.h:52-53 | any number is accepted as an auto or manual speed and kept modulo 256 (300 becomes 44): the documented 0..100 range is never checked |
| Input.FunctionOfCode | components/bottle-filler/input.h:15-19 | exactly the codes 0 and 1 name a button function, and each names the function with that code |
| Input.Reaction | components/bottle-filler/bottle-filler.cpp:526-551 | an auto button toggles exactly on a release (a change to a level above 0) and does nothing on a press; a manual button starts a manual fill exactly on a press and stops it exactly on a release; an unchanged level does nothing; every action names the binding's station |
| Input.EdgeStep | components/bottle-filler/bottle-filler.cpp:521-554 | the level is unchanged exactly when there is no action and the binding stays as it was; otherwise the binding records the new level; a press (new level 0) records the timestamp, and nothing else changes it; the action is the `Reaction` to the function, the old level and the new level |
| Input.EdgeSettles | components/bottle-filler/bottle-filler.cpp:524-554 | reading the same level again right after an edge gives no action and leaves the binding as it was |
| Input.EdgeTraceIsPairwise | components/bottle-filler/bottle-filler.cpp:519-556 | over a run of samples, each action depends only on that sample and the one before it |
| Input.ManualPressRelease | components/bottle-filler/bottle-filler.cpp:537-550 | a press and release of a manual button asks for manual start, then manual stop |
| Input.AutoPressRelease | components/bottle-filler/bottle-filler.cpp:526-535 | a press of an auto button does nothing; its release toggles the station |
| Registry.ChannelFor | components/bottle-filler/bottle-filler.cpp:445-446 | the channel is the id minus one in 8 bits, so adding one gives the id back |
| Registry.ChannelsDistinct | components/bottle-filler/bottle-filler.cpp:445-446 | different ids get different channels, and ids 1..6 get channels below 6 |
| Registry.AscendingIds | components/bottle-filler/bottle-filler.h:82 | the registry's keys are visited exactly once each, in ascending order |
| Registry.BindingsNumbered | components/bottle-filler/bottle-filler.cpp:461-483 | binding i gets number lastId + i + 1 in 8 bits, starts released (level 1), and has a pin above 0 |
| Registry.BindingsPlaced | components/bottle-filler/bottle-filler.cpp:443-484 | each station with a button pin has one binding per pin, starting where the earlier stations' bindings end, the auto binding before the manual one, each carrying the station's id and its function |
| Registry.BindingsOwned | components/bottle-filler/bottle-filler.cpp:467 | every binding names a station it was built from |
| Registry.Bindings | components/bottle-filler/bottle-filler.cpp:461-484 | the bindings built number exactly one per button pin above 0 of the stations walked (their placement, numbering and owners are the three lemmas above) |
| Registry.DefaultFillers | components/bottle-filler/bottle-filler.cpp:282-305 | two stations, ids 1 and 2, on the two configured pump pins; no buttons; auto speed 100, manual speed 50, fill time 20000 ms; Idle |
| Registry.KeyById | components/bottle-filler/bottle-filler.cpp:322-334 | every entry is keyed by its own id |
| Registry.KeyByIdKeys | components/bottle-filler/bottle-filler.cpp:333 | the keys are exactly the ids of the loaded records |
| Registry.KeyByIdLastWins | components/bottle-filler/bottle-filler.cpp:333 | of two records with the same id, the later one is kept |
| Registry.DecodeWithId | components/bottle-filler/bottle-filler.cpp:414-420 | an element installs exactly when it is an object that decodes once its id member is overwritten; the result carries the new id and is Idle on channel 0 |
| Registry.KeepPastCap | components/bottle-filler/bottle-filler.cpp:406-412 | past the sixth element of a list of at most 255, nothing more is read or kept |
| Registry.SaveEntriesSucceed | components/bottle-filler/bottle-filler.cpp:401-423 | for lists of at most 255 elements, the bulk replace fails exactly when one of the first min(n, 6) elements does not decode; later elements are never looked at |
| Registry.SaveEntriesKeepPrefix | components/bottle-filler/bottle-filler.cpp:401-423 | a successful bulk replace installs the first min(n, 6) elements in order, element k with id k + 1 |
| Registry.SaveEntriesIds | components/bottle-filler/bottle-filler.cpp:400-421 | for lists of at most 255 elements, a successful bulk replace keys exactly the ids 1 to min(n, 6) |
| Registry.SaveEntriesIdsCapped | components/bottle-filler/bottle-filler.cpp:400-421 | for lists of any length, every installed record has an id of at most 6 and is Idle |
| Registry.KeepWraps | components/bottle-filler/bottle-filler.cpp:403-421 | on lists of 256 elements or more, the walk keeps the first six decoded elements and then, once the running id has wrapped to 0, element 255 |
| Registry.SaveEntriesWrap | components/bottle-filler/bottle-filler.cpp:400-421 | on lists of 256 elements or more, element 255 is installed as a seventh record, with id 0 |
| Registry.LoadEntries | components/bottle-filler/bottle-filler.cpp:322-334 | the stored list loads exactly when every element decodes; element i becomes the record decoded from it, with its stored id kept |
| BottleFiller.DutyFor | components/bottle-filler/bottle-filler.cpp:110 | the duty is 81 times the speed (integer division of 8192 by 100 first), so 100 % gives 8100, below the 8192 maximum |
| BottleFiller.MsToTicks | components/bottle-filler/bottle-filler.cpp:395 | at 100 ticks per second, a delay in ms is ms / 10 ticks when ms * 100 fits in 32 bits |
| BottleFiller.View | components/bottle-filler/bottle-filler.h:82 | the registry's keys are exactly the mapped ids, and each station is registered under its own id |
| BottleFiller.Stations | components/bottle-filler/bottle-filler.cpp:628-632 | the registered stations in strictly ascending id order, each the object registered under its id |
| BottleFiller.StationsCover | components/bottle-filler/bottle-filler.cpp:628 | every registered id appears in the walk |
| BottleFiller.Start | components/bottle-filler/bottle-filler.cpp:141-175 | an unknown id changes nothing; an Idle station becomes Filling and exactly one new task is created on it, with the duty untouched; a Filling or Aborting station becomes Aborting and its channel's duty drops to 0 at once, with no task created; nothing else changes; validity and the status rule are kept |
| BottleFiller.TaskSpawn | components/bottle-filler/bottle-filler.cpp:87-113 | a task's first run ends at once for a station with id 0 (status untouched); otherwise it drives the station's channel at the auto duty and fixes its deadline fillTime / 10 ticks ahead; it never reads the status |
| BottleFiller.TaskWake | components/bottle-filler/bottle-filler.cpp:115-138 | while the station is Filling and the deadline is ahead, nothing changes; otherwise the station becomes Idle and the task ends, and the channel is switched off only if the station was still Filling |
| BottleFiller.ManualStart | components/bottle-filler/bottle-filler.cpp:211-235 | only an Idle registered station is driven, at the manual duty; only the duty changes; the status is not touched |
| BottleFiller.ManualTimedStart | components/bottle-filler/bottle-filler.cpp:178-203 | like ManualStart, and the command handler then blocks until now + the delay in ticks |
| BottleFiller.ManualStop | components/bottle-filler/bottle-filler.cpp:237-254 | the channel of a registered station is switched off whatever its status; only the duty changes |
| BottleFiller.ManualStopIdempotent | components/bottle-filler/bottle-filler.cpp:251-253 | stopping twice is the same as stopping once |
| BottleFiller.Install | components/bottle-filler/bottle-filler.cpp:398-422 | fresh objects are appended for the new records, the old ones are left in the heap, and the registry becomes the new records keyed by id, last one winning |
| BottleFiller.AssignChannels | components/bottle-filler/bottle-filler.cpp:443-446 | each registered station's channel becomes its id minus one; nothing else of any object changes; unregistered objects are untouched |
| BottleFiller.ZeroChannels | components/bottle-filler/bottle-filler.cpp:456 | the configured channels' duty is 0; every other channel keeps its duty |
| BottleFiller.InitFillers | components/bottle-filler/bottle-filler.cpp:438-485 | only channels, bindings and duty change; only registered objects' channels change; validity and the status rule are kept |
| BottleFiller.InitFillersRegistry | components/bottle-filler/bottle-filler.cpp:441-483 | the registry afterwards is the old one with channels reassigned, and the bindings list gains exactly the bindings of the stations walked in id order, numbered from 1 |
| BottleFiller.InitFillersDuty | components/bottle-filler/bottle-filler.cpp:450-459 | every registered station's channel is at duty 0 and every other channel keeps its duty |
| BottleFiller.SaveStart | components/bottle-filler/bottle-filler.cpp:380-395 | a non-array payload changes nothing; otherwise run and interruptRun drop and the handler blocks for 1000 ms |
| BottleFiller.SaveFinish | components/bottle-filler/bottle-filler.cpp:396-433 | the replace fails exactly when an element it reads throws; otherwise the list is stored as submitted, run is set, polling restarts exactly when there are bindings, running tasks are untouched and every old object keeps its contents |
| BottleFiller.SaveFinishRegistry | components/bottle-filler/bottle-filler.cpp:397-433 | after a replace, the registry is the decoded entries keyed by id, with channels id - 1, the bindings are rebuilt from scratch, every station is a fresh object, and its channel is at duty 0 |
| BottleFiller.ReloadRegistry | components/bottle-filler/bottle-filler.cpp:398-430 | clearing and reinstalling gives the new records keyed by id, freshly built bindings, and channels at duty 0 |
| BottleFiller.SaveFinishIds | components/bottle-filler/bottle-filler.cpp:396-433 | for a list of at most 255 elements whose kept elements decode, the replace succeeds and registers exactly the ids 1 to min(n, 6) |
| BottleFiller.SettleRegisters | components/bottle-filler/bottle-filler.cpp:393-433 | once the settle interval of a bulk replace has passed, the handler's return registers exactly the ids 1 to min(n, 6) |
| BottleFiller.SetFillerSettings | components/bottle-filler/bottle-filler.cpp:338-378 | a non-object payload is ignored; a missing or non-numeric id throws; an unknown id is ignored; otherwise only the speeds and fill time of that one station change, each only when its member is a number, narrowed to the field's width |
| BottleFiller.NarrowNumber | components/bottle-filler/bottle-filler.cpp:364-374 | going through a 32-bit signed int before narrowing to a field changes nothing |
| BottleFiller.SetFillerSettingsIdempotent | components/bottle-filler/bottle-filler.cpp:360-375 | applying the same partial update twice is the same as applying it once |
| BottleFiller.SaveSystemSettings | components/bottle-filler/bottle-filler.cpp:74-85 | a boolean invertOutputs is stored and applied; any other value changes nothing; a payload that is neither an object nor null throws |
| BottleFiller.BootEntries | components/bottle-filler/bottle-filler.cpp:307-336 | a missing or empty stored list gives the two default stations; otherwise the stored elements are decoded |
| BottleFiller.Boot | components/bottle-filler/bottle-filler.cpp:22-58 | boot fails exactly when a stored element does not decode; otherwise the state is valid, run is set, polling runs exactly when there are bindings, the output inversion is the stored one (or the build default), and no task runs |
| BottleFiller.BootRegistry | components/bottle-filler/bottle-filler.cpp:25-31 | after boot, the registry is the loaded entries keyed by id with channels id - 1, the bindings are built in id order, and all channels are at duty 0 |
| BottleFiller.Perform | components/bottle-filler/bottle-filler.cpp:532-550 | no action changes nothing; a toggle is `Start` on the station, a manual start is `ManualStart` and a manual stop is `ManualStop`; bindings, registry, flags, clock and the command handler's state never change |
| BottleFiller.PerformIgnoresBindings | components/bottle-filler/bottle-filler.cpp:532-550 | what an action does does not depend on the bindings: performing it and then replacing the bindings is the same as replacing them first |
| BottleFiller.PerformAll | components/bottle-filler/bottle-filler.cpp:519-556 | performing a sequence of actions keeps validity and the status rule, and leaves the bindings, registry, flags, clock and handler state alone |
| BottleFiller.PerformAllSingle | components/bottle-filler/bottle-filler.cpp:519-556 | when all actions but one are no action, performing them all is performing that one |
| BottleFiller.PollOne | components/bottle-filler/bottle-filler.cpp:519-555 | one binding is sampled at timestamp ticks / 100; only that binding changes, as the edge step says; and the result is the edge's action performed on the engine with the updated binding |
| BottleFiller.PollFrom | components/bottle-filler/bottle-filler.cpp:519-556 | sampling the bindings from position i on, each acting at once, is the same as first giving each of them its own new sample and then performing their actions in order |
| BottleFiller.Poll | components/bottle-filler/bottle-filler.cpp:515-557 | a finished loop does nothing; one wake gives every binding its edge step and performs all their actions in binding order, and the loop goes on exactly when run and interruptRun are both still set |
| BottleFiller.PollSingleEdge | components/bottle-filler/bottle-filler.cpp:515-557 | when only one binding sees a change of level, a wake performs exactly that binding's action |
| BottleFiller.PollRecordsLevels | components/bottle-filler/bottle-filler.cpp:524-554 | after a wake each binding holds the level read on its pin, so a second wake reading the same levels triggers nothing |
| BottleFiller.Resume | components/bottle-filler/bottle-filler.cpp:203-207 | before its time, the blocked handler does nothing, for both holds; at the end of a timed manual fill the channel is switched off and the handler is free again; at the end of the settle the bulk replace finishes with the list that was submitted, and only that can throw |
| Dispatch.CommandOf | components/bottle-filler/bottle-filler.cpp:577-654 | a known name maps to the command of that name; any other name is kept as unknown |
| Dispatch.CommandNamesRoundTrip | components/bottle-filler/bottle-filler.cpp:577-654 | each of the thirteen command names selects its own command |
| Dispatch.ReplyJson | components/bottle-filler/bottle-filler.cpp:668-675 | the reply always has data and success, and has message exactly when the message is not empty |
| Dispatch.ReplyRoundTrip | components/bottle-filler/bottle-filler.cpp:668-677 | every reply reads back as itself |
| Dispatch.ReadNumber | components/bottle-filler/bottle-filler.cpp:579 | reading a number member succeeds exactly when the payload is an object or null and the member is a number or a boolean |
| Dispatch.Listing | components/bottle-filler/bottle-filler.cpp:623-634 | one item per registered station, in ascending id order, each the station's serialised form |
| Dispatch.ListingReadsBack | components/bottle-filler/bottle-filler.cpp:623-634 | each listed item decodes back to the station at its place in ascending id order (channel and status are not included, so they come back as a fresh record's) |
| Dispatch.StartCommand | components/bottle-filler/bottle-filler.cpp:577-581 | Start throws exactly when the id cannot be read; otherwise it toggles the station whose id is the number narrowed to 8 bits |
| Dispatch.StartManualCommand | components/bottle-filler/bottle-filler.cpp:582-587 | StartManual throws exactly when the id or the time cannot be read; otherwise it runs a timed manual fill |
| Dispatch.Apply | components/bottle-filler/bottle-filler.cpp:577-666 | only the four payload-reading commands can throw before the handler could block; only StartManual and SaveFillerSettings can leave the handler blocked; read-only commands, and unknown ones, leave the state as it was; Start toggles, StartManual runs a timed manual fill, SaveSystemSettings applies the setting, SaveFillerSettings starts the settle, SetFillerSettings applies the partial update, and FactoryReset erases the two stored keys |
| Dispatch.Answer | components/bottle-filler/bottle-filler.cpp:573-666 | success is false only for a recovery switch whose message contains "Error"; a restart is scheduled exactly for Reboot, FactoryReset and a successful recovery switch; commands that return nothing reply null; the two settings saves reply with the restart notice, FactoryReset with its notice, BootIntoRecovery with the partition's message, every other command with none; GetFillerSettings replies with the listing, GetSystemSettings with the output inversion, the two network reads with what the network component returns; the network save is handed over exactly when a saver is registered |
| Dispatch.Run | components/bottle-filler/bottle-filler.cpp:577-680 | a command throws exactly when its engine operation does; otherwise the engine is what the operation made of it; a handler that blocked (a timed manual fill of an Idle station, or a bulk replace with a list) sends no reply yet; any other command replies at once with the answer for it and its effects; an unknown command replies null with success and changes nothing; validity and the status rule are kept |
| Dispatch.Return | components/bottle-filler/bottle-filler.cpp:380-433 | the return of a blocked handler: before its deadline it stays blocked and unchanged; at the end of a timed manual fill it replies with success; at the end of the settle it throws exactly when the bulk replace cannot decode a kept element, and otherwise replies with success and nothing deferred |
| Dispatch.ProcessCommand | components/bottle-filler/bottle-filler.cpp:566-568 | a request that is not an object with a string command throws; otherwise the named command runs on the request's data member (null when absent) |
| Scheduler.Next | components/bottle-filler/bottle-filler.cpp:87-139 | every step keeps validity and never moves the clock back; every step except a task's wake keeps the status rule; a request waits while the handler is blocked and otherwise is the command's processing, a task step is its first run or a wake, a poll tick is one wake of the polling loop, a continuation resumes the blocked handler; only a request or a finishing bulk replace can throw |
| Scheduler.ExecuteKeepsStatusRule | components/bottle-filler/bottle-filler.cpp:136-173 | over any run of steps without a task wake, no station becomes Idle and none goes from Aborting back to Filling |
| Scheduler.AutoFillStarts | components/bottle-filler/bottle-filler.cpp:94-163 | a toggle on an Idle station makes it Filling with one new task; the task's first run drives the pump at the auto duty with its deadline fillTime / 10 ticks ahead |
| Scheduler.AutoFillWaits | components/bottle-filler/bottle-filler.cpp:115-131 | before its deadline, a filling station's task wakes and changes nothing, whenever it wakes |
| Scheduler.AutoFillEnds | components/bottle-filler/bottle-filler.cpp:115-138 | at or after its deadline, a filling station's task switches the pump off, makes the station Idle and ends |
| Scheduler.AbortSettles | components/bottle-filler/bottle-filler.cpp:115-174 | a second toggle during a fill switches the pump off at once and marks the station Aborting; the task's next wake makes it Idle and ends the task, keeping the duty at 0 |
| Scheduler.AbortBeforeFirstRun | components/bottle-filler/bottle-filler.cpp:87-174 | a toggle pressed twice before the task's first run leaves the station Idle with no task on it and its pump running at the auto duty |
| Scheduler.IdZeroStaysFilling | components/bottle-filler/bottle-filler.cpp:94-101 | a station registered under id 0 is left Filling with no task that will ever make it Idle |
| Scheduler.TimedManualFill | components/bottle-filler/bottle-filler.cpp:178-208 | the pump runs at the manual duty until the delay ends, then it is switched off; no station's status changes |
| Scheduler.OrphanSurvivesSave | components/bottle-filler/bottle-filler.cpp:397-423 | a task running during a bulk replace keeps its old object, which is no longer registered |
| Scheduler.OrphanSwitchesOffChannel | components/bottle-filler/bottle-filler.cpp:121-136 | at its deadline, such an orphaned task switches off its old channel, whichever new station is now on it, and leaves the registry unchanged |
| Scheduler.StartRequestToggles | components/bottle-filler/bottle-filler.cpp:566-581 | a "Start" request with a numeric id, handled while the handler is free, is exactly a toggle of that station |
| Scheduler.ButtonReleaseStartsFill | components/bottle-filler/bottle-filler.cpp:141-175 | releasing the auto button of an Idle station, with no other button changing, makes it Filling with one new task on it and the duty untouched |
| Scheduler.BulkReplaceRegisters | components/bottle-filler/bottle-filler.cpp:380-433 | a "SaveFillerSettings" request with a list of at most 255 elements whose kept elements decode blocks the handler for one second without replying; its return then replies with success and leaves exactly the ids 1 to min(n, 6) registered |
| Scheduler.BulkReplaceThrows | components/bottle-filler/bottle-filler.cpp:380-423 | a "SaveFillerSettings" request whose list has a kept element that does not decode blocks the handler like any list, and its return at the end of the settle throws, so no reply is ever sent |
| Scheduler.NumberListThrows | components/bottle-filler/bottle-filler.cpp:400-423 | the list `[5]` is such a list: the request blocks and then throws |
| Scheduler.ManualRequestHolds | components/bottle-filler/bottle-filler.cpp:178-208 | a "StartManual" request for an Idle station drives its channel at the manual duty and blocks the handler without replying; its return at the deadline switches the channel off, frees the handler and only then replies with success |
| Scheduler.SaveRequestHolds | components/bottle-filler/bottle-filler.cpp:636-639 | a "SaveFillerSettings" request, handled while the handler is free, blocks the handler without replying and leaves the engine as the first half of the bulk replace makes it |
| Scheduler.SaveSystemRequest | components/bottle-filler/bottle-filler.cpp:74-85 | a "SaveSystemSettings" request with a boolean applies and stores it |
| Scheduler.GetSystemRequest | components/bottle-filler/bottle-filler.cpp:613-617 | a "GetSystemSettings" request reports the output inversion in force |
| Scheduler.SystemSettingsReadBack | components/bottle-filler/bottle-filler.cpp:74-85 | the output inversion saved by "SaveSystemSettings" is stored, and a "GetSystemSettings" afterwards reports it |

## Behaviour worth knowing

The model follows the code in each case.

- Full speed is duty 8100, not 8192. The duty is `(8192 / 100) * speed` with integer division.
- An unknown command, and any command that leaves `resultData` untouched, replies with `data` null. The result starts out value-initialised, which is JSON null, not an empty object.
- A "SaveFillerSettings" request is answered only after the one-second settle, and a timed "StartManual" only after its time is up: both handlers block inside the command. A list whose kept element does not decode, such as `[5]`, makes the handler throw once the settle is over, and the request is never answered (`Scheduler.NumberListThrows`).
- A bulk replace does not stop auto fills already running. Their tasks hold pointers to the old station records, which are left allocated, and they never look at `run`. Such a task goes on to the end of its fill and then writes duty 0 to its old channel (`Scheduler.OrphanSwitchesOffChannel`).

## Left out

- JSON text and MessagePack encoding, parsing and dumping. The model works on the value tree. Floating-point JSON numbers are not modelled; numbers are integers.
- The webserver: the static-file handlers, reading the request body, the response headers, and the CORS pre-flight handler.
- Logging.
- The LEDC timer and channel configuration calls, and their error checks. Only the duty each channel is set to is modelled. The `output_invert` flag is always 0, and `gpioHigh` / `gpioLow` are never read, so output inversion only changes the stored setting and the flag.
- GPIO input configuration, and the wiring of pins to levels. A poll wake receives the levels read, as a map; an absent pin reads 1.
- The settings store's persistence. It is a value holding the two keys the controller writes. A factory reset erases those two keys; what else the settings component erases is not part of this model.
- The restart itself. `reboot`'s two-second delay and `esp_restart` are an effect `Restart` returned to the caller. `Scheduler.Next` and `Scheduler.Execute` drop each request's reply and effects, so a run of steps goes on past a Reboot or a FactoryReset as if the device had not restarted; `Dispatch.Run` and `Dispatch.Return` are where the restart is stated.
- The network component. Its callbacks are the inputs of `Dispatch.Platform`. `SaveWifiSettings` hands its data over as an effect.
- Switching to the recovery partition. Its message is an input. The reply rules built on it are modelled.
- The tick rate is taken as 100 Hz. That is what `fillTime / 10` and a timestamp of ticks / 100 being whole seconds both assume.
- The wake time of a task is chosen by the scheduler, not by the 100 ms delay. A task may be woken at any tick. This over-approximates the real timing, so every property holds for the real timing too.
- A request arriving while the command handler is blocked waits and is not lost. This is modelled as a step that changes nothing.
- Scheduler.Next: the steps are coarse. A request up to its reply or its first block, one wake of the polling loop, and a task's run up to its next delay are each one atomic step. In the source these tasks share the station records without locks, and races inside a step are not modelled. One is a lost update: a "Start" request reads a station as Filling (bottle-filler.cpp:158), the station's task then sets it Idle and ends (136), and `start` writes Aborting (171), so the station is left Aborting with no task to reset it. In the same way, two `start` calls that both read Idle create two tasks for one station.
- The exact state after an exception escapes the command handler. That ends the handler, and the model reports `None` or `Threw`.
- BottleFiller.TaskSpawn: does not model the 32-bit wrap-around of the deadline `ticks + fillTime / 10` or of the tick counter. The clock is unbounded.
- Input.EdgeStep: a binding's `LastChange` before its first press is indeterminate in the source. The model starts it at 0. The elapsed time computed on release is only logged, so nothing depends on it.
- Registry.SaveEntriesSucceed: stated for lists of at most 255 elements. On longer lists the 8-bit running id wraps: element 255 gets id 0 and is installed as a seventh record (on channel 255 once channels are assigned), and elements 256 to 261 are installed again under ids 1 to 6, replacing the first six. `Registry.SaveEntriesWrap` and `Registry.SaveEntriesIdsCapped` state what holds on such lists.
- Registry.SaveEntriesKeepPrefix: stated for lists of at most 255 elements, for the same reason.
- Registry.SaveEntriesIds: stated for lists of at most 255 elements, for the same reason.
- BottleFiller.SaveFinish: the model keeps one `polling` flag. In the source a bulk replace clears `run` and `interruptRun`, so the old polling loop exits on its next wake, and `initInputs` starts a new loop when there are bindings. The model lets the single flag stand for whichever loop is alive, so the old loop's last wake and the new loop's first wake are not told apart.
- `controlRun`, `pumpOn`, `savePIDSettings`, `factoryReset` (the task) and `Hostname` are declared in the header but not used by the core.
