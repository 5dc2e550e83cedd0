# Truck weighing station, modelled in Dafny

This project models the core of a truck weighing station client. The station
works like this:

- A camera reads the QR code printed on a weighing order. The code is
  `order_driver_plate`.
- A first scan starts a weighing.
- After a settling delay, the stable reading of the scale (sent over a serial
  line in `STX weight ETX` frames) becomes the first or the second weight of
  the ticket (phiếu cân), depending on the configured mode.
- A second scan of the same order confirms the weighing. The ticket is then
  kept locally (as pending, or moved to the history) and sent to a NocoDB
  record store.
- A background thread refreshes the local caches of orders, vehicles and staff
  from that store on a schedule.

The model is split into modules:

- `Json`, `Text`, `Seqs` and `Wrappers` hold the values and the Python string
  and list operations the core relies on.
- `Config` is the nested configuration read by dotted paths.
- `Tickets` is the ticket record.
- `Repository` holds the caches and the pending and history lists.
- `Api` holds URL preparation, the paginated read of a view, and the result
  shapes of POST and PATCH.
- `Scale` is the frame extractor of the serial reader, plus the parity setting.
- `Camera` holds the QR de-duplication.
- `Sync` is one cycle of the synchronisation thread.
- `Controller` is the main controller's state machine.

The code that changes state is written imperatively:

- Stateful objects are classes whose methods change their fields: the
  controller, the repository, the configuration, the sync thread and the QR
  de-duplicator.
- The frame loop, the pagination loop and the table loop are `while` loops.
  Each is proved against a specification function.

How the model stands in for the outside world:

- The outside world enters as parameters:
  - the record store's answers (`fetch` for page reads, `Transport` for POST
    and PATCH);
  - the clock text and clock readings;
  - the bytes read from the serial port;
  - the decoded QR objects of a frame;
  - the parsed contents of the JSON files.
- The single-shot timers the controller starts are recorded as `Shot` values.
  Their callbacks are the methods `ExecuteWeighing` and `ResetProcess`.
- The status lines the controller emits are recorded as `Notice` values.
- Requests sent to the history table are recorded as `Request` values.

A JSON dictionary is an association list in document order. The source
iterates `dict.items()`, so the order matters.

In the source, the ticket the controller holds may be the same dictionary as
an entry of the pending list. The model records that aliasing as the index of
the entry (`linked`) and writes every change through it (`Mirror`). The
aliasing with the history list that completing a ticket creates is not
recorded (see "Left out").

## Model

| member | source | states |
|---|---|---|
| Text.TrimStart | src/app/main_controller.py:39 | `lstrip()` removes exactly a leading run of whitespace: the result is a suffix that does not start with whitespace, and every character removed is whitespace |
| Text.TrimEnd | src/app/main_controller.py:39 | `rstrip()` removes exactly a trailing whitespace run; the result is a prefix not ending in whitespace |
| Text.Strip | src/app/main_controller.py:39 | the stripped text neither starts nor ends with whitespace |
| Text.StripUnchanged | src/app/main_controller.py:39 | `strip()` leaves a text unchanged if and only if it has no whitespace at either end |
| Text.StripIdempotent | src/app/main_controller.py:39 | stripping twice is stripping once |
| Text.SplitProperties | src/app/main_controller.py:39-40 | `split(sep)` gives one more piece than there are separators, no piece holds the separator, and joining the pieces with the separator gives the input back |
| Text.SplitJoin | src/config/config_manager.py:32 | splitting a join of separator-free pieces gives the pieces back |
| Text.NatToString | src/data/api_client.py:23 | `str(n)` of a natural number is a non-empty string of decimal digits |
| Text.PyIntRoundTrip | src/hardware/weight_thread.py:70 | `int()` reads the decimal rendering of any integer back as that integer |
| Seqs.FirstIndex | src/data/repository.py:86 | the index found holds the first element that passes, and nothing is found exactly when no element passes |
| Seqs.First | src/data/repository.py:74 | `next(...)` gives the first element that passes, or nothing exactly when none passes |
| Seqs.Filter | src/data/repository.py:98 | a comprehension's result is no longer than its input, and every element in it passes |
| Seqs.FilterAppend | src/data/repository.py:98 | filtering keeps relative order: it distributes over concatenation |
| Seqs.FilterMultiset | src/data/repository.py:98 | filtering keeps every occurrence of a passing element and drops every other element |
| Seqs.FilterPairwise | src/data/repository.py:98 | a relation that holds between every earlier and later element still holds after filtering |
| Json.MemberFirst | src/config/config_manager.py:34 | `d[key]` is absent exactly when no member has that key, and is otherwise the value of the first member with it |
| Config.Walk | src/config/config_manager.py:32-36 | the empty path gives the value itself; a non-dictionary or a missing key along the path gives no value (the caught KeyError/TypeError) |
| Config.WalkAppend | src/config/config_manager.py:34 | reducing over a concatenated key list is reducing over the first list and then over the second |
| Config.GetPathOfKeys | src/config/config_manager.py:28-36 | a dotted path made of dot-free keys reaches exactly what the keys reach one after another, and gives the default when they do not |
| Config.GetTwoLevels | src/config/config_manager.py:28-36 | `get("a.b")` is `config["a"]["b"]` when both exist |
| Config.FindNamed | src/config/config_manager.py:60-63 | a value found carries the target name |
| Config.FindNamedNoMatch | src/config/config_manager.py:60-63 | nothing is found exactly when every value is a dictionary without the target name |
| Config.FindNamedMatch | src/config/config_manager.py:60-63 | the value found is the first with that name in document order; every value before it is a dictionary without the name |
| Config.FindNamedRaises | src/config/config_manager.py:60-61 | the search raises AttributeError only on reaching a value that is not a dictionary before any value with the name |
| Config.ConfigManager.constructor | src/config/config_manager.py:11-26 | the configuration is the parsed file, or `{}` when the file is missing or is not valid JSON |
| Config.ConfigManager.Get | src/config/config_manager.py:28-36 | `get(path, default)` gives the value the dotted path reaches, and the default when the walk fails |
| Config.ConfigManager.GetByKeys | src/config/config_manager.py:28-36 | reading a dotted path is looking its keys up one after another |
| Config.ConfigManager.SetAll | src/config/config_manager.py:38-40 | after `set_all(c)`, every `get` reads from `c` |
| Config.ConfigManager.Reload | src/config/config_manager.py:53-55 | `reload()` replaces the configuration with the file's content, or `{}` when the file is missing or is not valid JSON |
| Config.ConfigManager.TableByName | src/config/config_manager.py:57-63 | a table found carries the target name; a `nocodb.tables` that is not a dictionary raises; when it is one, the outcome is that of searching its tables in order (`FindNamed`, so a table found is the first one with that name), nothing is found exactly when every table is a dictionary without that name, and a raise means some table is not a dictionary |
| Config.ConfigManager.ViewByName | src/config/config_manager.py:65-73 | an empty table info gives nothing; a table info that is not a dictionary raises; otherwise the outcome is that of searching its `views` (which raises when `views` is not a dictionary); a view found carries the target name |
| Repository.WithoutCodeSpec | src/data/repository.py:98 | after removing an order code no ticket has that code, and every ticket with another code keeps its count of occurrences |
| Repository.WithoutCodeKeepsOrder | src/data/repository.py:98 | removing an order code keeps the remaining tickets in their order |
| Repository.WithoutCodeUnique | src/data/repository.py:106 | removing an order code keeps "at most one pending ticket per order code" |
| Repository.AfterSaveSpec | src/data/repository.py:95-99 | after a save the list holds exactly one ticket with the saved ticket's code, namely the saved ticket at the end, after the other tickets in their old order; uniqueness of codes is preserved |
| Repository.FindAfterSave | src/data/repository.py:95-99 | after saving, `find_phieu_can_dang_cho` on the code finds the ticket just saved |
| Repository.FindAfterComplete | src/data/repository.py:102-106 | after completion, no pending ticket has that order code |
| Repository.SyncTableAsWritten | src/data/repository.py:52-69 | as written, `sync_table` never reports success |
| Repository.SyncOutcome | src/data/repository.py:52-69 | as intended: success exactly when the fetch gave a non-empty list, with the success message; otherwise the error text, or the "no data" message when there is none |
| Repository.SyncTableAsWrittenDropsRows | src/data/repository.py:55 | given a non-empty, error-free fetch, the code as written reports "no data" while the intended code reports success |
| Repository.Repository.constructor | src/data/repository.py:42-48 | the five caches are the five files' contents |
| Repository.Repository.OrderByCode | src/data/repository.py:72-74 | the first order row whose "Mã lệnh" is the code; nothing exactly when no row has it |
| Repository.Repository.VehicleByPlate | src/data/repository.py:76-78 | the first vehicle row whose "Biển số" is the plate; nothing exactly when no row has it |
| Repository.Repository.StaffByCode | src/data/repository.py:80-82 | the first staff row whose "Mã lái xe" is the code; nothing exactly when no row has it |
| Repository.Repository.FindPending | src/data/repository.py:84-86 | the first pending ticket of the order code; nothing exactly when no pending ticket has it |
| Repository.Repository.SavePending | src/data/repository.py:95-100 | the pending list drops the ticket's order code and then appends the ticket; exactly one entry with that code remains, and it is last; uniqueness is preserved; no other list changes |
| Repository.Repository.Complete | src/data/repository.py:102-109 | the pending list drops the order code and the ticket is appended to the history; no entry with that code remains; nothing else changes |
| Repository.Repository.SyncTable | src/data/repository.py:52-69 | the intended outcome; on success exactly the named cache becomes the fetched rows, and every other list is kept |
| Api.PrepareUrlShape | src/data/api_client.py:12-23 | a string host gives a URL that has a scheme, is the host plus `:port/endpoint` when the host already had `http://` or `https://`, and is `http://` plus the host plus that tail otherwise; any other host raises |
| Api.NormalizeHostIdempotent | src/data/api_client.py:20-21 | normalising a host twice is normalising it once |
| Api.CollectedLength | src/data/api_client.py:39-53 | n pages that did not end the loop collect at least 100·n records |
| Api.FetchPages | src/data/api_client.py:39-63 | pages of 100 are requested at offsets 0, 100, 200, ... and every page before the last is full and succeeded; the last request fails or returns a short page; a short last page gives all records of the pages in order, at least 100 for each page before it plus the last page's; a request failure or unreadable body gives no records and its error text |
| Api.GetData | src/data/api_client.py:25-63 | a host that is not a string ends the call before any request with the unexpected-error text; otherwise the URL is the prepared one and the pages are read from it exactly as `FetchPages` states (offsets, full pages before the last, records or error); records come back exactly when no error does |
| Api.CallResult | src/data/api_client.py:65-95 | `create_record`/`update_record` return the response body and no error on success, and `None` with the prefixed error text on a request failure |
| Scale.Find | src/hardware/weight_thread.py:63-64 | `find` gives -1 or an index holding the byte |
| Scale.FindFirst | src/hardware/weight_thread.py:63-64 | the index found is the first occurrence, and -1 exactly when the byte is absent |
| Scale.FindAt | src/hardware/weight_thread.py:63-64 | the first occurrence is what `find` gives |
| Scale.DecodeAscii | src/hardware/weight_thread.py:69 | ASCII decoding succeeds exactly when every byte is below 128, and gives the characters of those codes |
| Scale.StripBeforeInt | src/hardware/weight_thread.py:69-70 | the explicit `strip()` before `int()` changes no result |
| Scale.ExtractStep | src/hardware/weight_thread.py:62-76 | cutting one frame out reports its weight, if it parses, and leaves the rest after its ETX |
| Scale.ExtractNone | src/hardware/weight_thread.py:75-76 | a buffer without a frame to cut reports nothing and is kept |
| Scale.TakeFrame | src/hardware/weight_thread.py:66-74 | one turn of the inner loop keeps the loop's specification and shortens the buffer |
| Scale.CutFrames | src/hardware/weight_thread.py:62-76 | the inner `while True` loop reports exactly the weights the specification of cutting gives, and leaves the buffer it gives |
| Scale.ReadIteration | src/hardware/weight_thread.py:58-79 | non-empty data is appended and every frame cut out; the buffer is cleared when it grows over 256 bytes, so it never ends longer than 256 |
| Scale.CutLeavesSuffix | src/hardware/weight_thread.py:62-76 | the buffer left is a suffix of the input, and it holds no frame the reader would cut |
| Scale.ReadingBytes | src/hardware/weight_thread.py:69 | a padded reading is ASCII and decodes to its text, and holds neither STX nor ETX |
| Scale.PaddedWeight | src/hardware/weight_thread.py:69-70 | a padded clean text parses as its unpadded part does |
| Scale.FrameWeightOfReading | src/hardware/weight_thread.py:67-70 | the payload of a padded reading parses back to its weight |
| Scale.CutAfterJunk | src/hardware/weight_thread.py:63-74 | a frame after junk without STX or ETX is cut out whole, and the reader continues with what follows |
| Scale.FrameRoundTrip | src/hardware/weight_thread.py:62-76 | a scale's frame after such junk is reported with its weight |
| Scale.CutFramed | src/hardware/weight_thread.py:62-76 | frames around payloads free of STX and ETX are cut back into exactly those payloads, leaving an empty buffer |
| Scale.ParsedPayloads | src/hardware/weight_thread.py:68-73 | the payloads of a sequence of weights parse back to those weights |
| Scale.StreamRoundTrip | src/hardware/weight_thread.py:58-76 | every weight of a stream of frames is reported, in order, and nothing is left in the buffer |
| Scale.StrayEtxHidesFrame | src/hardware/weight_thread.py:63-79 | an ETX in front of the first STX stalls the reader: nothing is reported and the buffer is kept whole until it passes 256 bytes |
| Scale.ParityFromSetting | src/hardware/weight_thread.py:23-26 | `N`, `E`, `O` in either case select that parity, any other text selects none, and a non-string setting raises |
| Camera.Step | src/hardware/camera_thread.py:70-76 | a frame emits a code only when its first object decodes to a code that differs from the last one or comes after the cooldown; an emission remembers that code and time; anything else leaves the memory alone |
| Camera.RunRemembersLast | src/hardware/camera_thread.py:73-75 | after any run of frames, the memory is the last emission, or the starting memory when nothing was emitted |
| Camera.RepeatsAreSpaced | src/hardware/camera_thread.py:73-76 | over any run of frames, an emission that repeats the previous emission's code comes more than 3 seconds after it; a first emission that repeats the remembered code does too |
| Camera.FirstCodeEmitted | src/hardware/camera_thread.py:19-21 | a new reader emits the first code it decodes |
| Camera.NewCodeEmitted | src/hardware/camera_thread.py:73-76 | a code other than the last one emitted is emitted at any time |
| Camera.RepeatSuppressed | src/hardware/camera_thread.py:73 | the last code seen again within the cooldown is suppressed and the memory is kept |
| Camera.OnlyFirstObject | src/hardware/camera_thread.py:71 | only the first decoded object counts |
| Camera.QrDebouncer.constructor | src/hardware/camera_thread.py:19-21 | no code is remembered yet, and the time is 0 |
| Camera.QrDebouncer.OnFrame | src/hardware/camera_thread.py:68-78 | the emitted code and the new memory are those of the frame step |
| Sync.TableFor | src/data/sync_thread.py:20-24 | exactly the three reference table names map to their caches |
| Sync.Decide | src/data/sync_thread.py:38-60 | an entry raises unless it is a dictionary; a list or dictionary as its name raises (unhashable); otherwise it is ignored exactly when its name is not a reference table; a reference table raises exactly when searching its views raises; it is refreshed exactly when its id is truthy and a view named for the table is found with a truthy id, with those two ids; otherwise it is reported as missing its ids |
| Sync.CacheStep | src/data/sync_thread.py:50-53 | a successful refresh of a table makes its cache the (non-empty) rows fetched; any other decision keeps the cache |
| Sync.CacheAfterKept | src/data/sync_thread.py:38-60 | a reference table never refreshed successfully keeps its cache through the cycle |
| Sync.CacheAfterLast | src/data/sync_thread.py:38-60 | after the cycle, a reference table's cache holds the rows of its last successful refresh |
| Sync.Decisions | src/data/sync_thread.py:38-60 | the entries all decided give one decision each |
| Sync.SummaryIffNoFailure | src/data/sync_thread.py:35-65 | the summary is success exactly when no `sync_table` that was called failed |
| Sync.ReportCount | src/data/sync_thread.py:38-60 | exactly the refreshed and the misconfigured reference tables are reported, one report each |
| Sync.SyncThread.constructor | src/data/sync_thread.py:10-14 | not running yet, and nothing reported |
| Sync.SyncThread.HandleEntry | src/data/sync_thread.py:50-60 | one decided entry adds its report and tells whether its `sync_table` succeeded; a successful refresh replaces the cache of that table by the rows fetched and no other cache changes |
| Sync.SyncThread.Visit | src/data/sync_thread.py:41-60 | the entry at `i` is decided; a decided entry extends the decisions, the reports, the success flag and the caches by one step; an entry that raises changes nothing |
| Sync.SyncThread.SyncTables | src/data/sync_thread.py:38-60 | the tables handled are decided in order, and the reports and each cache are those of their decisions; when none raises they are all the tables before the stop, the success flag is that of their decisions, and the flag is still up only if the loop went through every table; a raise comes from the entry right after those handled |
| Sync.SyncThread.Finish | src/data/sync_thread.py:62-70 | the summary line says success exactly when every `sync_table` called succeeded; an interval that is not an integer raises; otherwise the sleep as in `Sleep` |
| Sync.SyncThread.Sleep | src/data/sync_thread.py:67-70 | sleeps one second per flag check until the interval ends or a stop is seen |
| Sync.SyncThread.RunCycle | src/data/sync_thread.py:32-70 | a `nocodb.tables` that is not a dictionary raises with nothing changed; otherwise the tables handled are decided, with their reports and caches; an entry raising ends the pass right after its predecessors' reports; a pass through every table before the stop adds one summary line, then raises if the interval is not an integer and otherwise sleeps it, all cut short by a stop |
| Controller.ParseScanShape | src/app/main_controller.py:39-44 | a scan is accepted exactly when its stripped text holds two underscores; the three parts hold none, and joined with underscores they give the stripped text |
| Controller.ScanRoundTrip | src/app/main_controller.py:39-44 | a printed `order_driver_plate` code reads back as those three codes |
| Controller.InfosCarryCodes | src/app/main_controller.py:61-63 | whether or not a row was found, the shown record carries the scanned code, and a placeholder holds nothing else (the driver's is named with the code) |
| Controller.ReuseKeepsProgress | src/app/main_controller.py:136-143 | a reused pending ticket keeps its weights, times, derived values, id and codes, and each refreshed field takes the row's value when the row has the key |
| Controller.FreshTicketEmpty | src/app/main_controller.py:145-153 | a new ticket has no weights, times, derived values or id, and "N/A" for a missing cargo or short name |
| Controller.TicketForCodes | src/app/main_controller.py:57-69 | the ticket of a scan belongs to the scanned order; a new one carries the scanned plate and driver code |
| Controller.FinalWeightSpec | src/app/main_controller.py:155-166 | without both weights nothing changes; with both, the cargo is the heavier weighing less the lighter; with a numeric tare, cargo, deviation and tare add up to the heavier weighing; only those two fields change; only a non-numeric tare raises |
| Controller.FinalWeightSymmetric | src/app/main_controller.py:162-166 | swapping the two weighings gives the same cargo and deviation |
| Controller.TakeReadingSpec | src/app/main_controller.py:79-94 | first weight exactly when none is held and the mode is `auto` or `in`; second exactly when one is held and the mode is `auto` or `out`; what each changes in the ticket |
| Controller.TwoWeighings | src/app/main_controller.py:82-89 | in `auto` mode, two weighings of a new ticket hold both readings and the net cargo |
| Controller.AdoptedId | src/app/main_controller.py:124-125 | a dictionary answer with an `Id` hands that id to the ticket; a dictionary never raises; a falsy answer keeps the ticket's id |
| Controller.UpdateAsWritten | src/data/repository.py:92-93 | as written, every update raises before a request is made |
| Controller.UpdateArityMismatch | src/data/repository.py:93 | the update as written always raises, while the intended PATCH gives no error exactly when the store answered, and the error text otherwise |
| Controller.ResaveAfterAdopt | src/app/main_controller.py:122-126 | saving, adopting the returned id through the alias and saving again is the same as saving the adopted ticket once |
| Controller.WithoutCodeIdempotent | src/data/repository.py:106 | removing an order code twice is removing it once |
| Controller.ScaleModeIsGet | src/app/main_controller.py:80 | the mode is `config.get('scale_mode.type', 'auto')` |
| Controller.StableTimeIsGet | src/app/main_controller.py:76 | the settling time is `config.get('app.stable_time', 3)` |
| Controller.ResetTimeIsGet | src/app/main_controller.py:180 | the inactivity time is `config.get('reset_time', 15)` |
| Controller.StationNameIsGet | src/app/main_controller.py:108 | the station is `config.get('location_label.name', 'N/A')` |
| Controller.HistoryTableInfoIsLookup | src/app/main_controller.py:112 | the history table is the table named "Lịch sử cân" |
| Controller.MainController.constructor | src/app/main_controller.py:20-31 | idle, weight 0, an empty ticket, the inactivity timer stopped, and nothing emitted |
| Controller.MainController.SetCurrentWeight | src/app/main_controller.py:33-34 | only the current weight changes |
| Controller.MainController.RestartInactivityTimer | src/app/main_controller.py:179-181 | the timer restarts with the configured time; a time that cannot be multiplied into an integer raises and leaves it alone |
| Controller.MainController.ResetProcess | src/app/main_controller.py:168-177 | idle, with an empty ticket, no alias, the timer stopped and the ready notice |
| Controller.MainController.Start | src/app/main_controller.py:54-67 | processing, with the received notice and the new ticket held; a reused pending ticket is that same entry |
| Controller.MainController.Build | src/app/main_controller.py:57-69 | the ticket built from the caches, and where the order's pending ticket sits |
| Controller.MainController.ScheduleExecute | src/app/main_controller.py:76-77 | the capture is scheduled after the settling time in ms; a non-numeric time raises |
| Controller.MainController.NewWeighingRequest | src/app/main_controller.py:53-77 | processing, with the ticket built from the caches held; a reused pending entry is refreshed in place, and the capture is scheduled |
| Controller.MainController.ExecuteWeighing | src/app/main_controller.py:79-98 | the reading becomes the first or second weight as the mode allows, then the controller waits for confirmation with its timer restarted; a mode that allows neither resets with the refusal notice; a net-weight TypeError stops the step |
| Controller.MainController.SaveUpdate | src/app/main_controller.py:118-120 | the order's pending tickets move to the history, and the ticket is PATCHed; the error reported is the PATCH's error |
| Controller.MainController.SaveCreate | src/app/main_controller.py:121-126 | the ticket is saved as pending and POSTed; an id in the answer is adopted and the ticket saved again; a raise comes only from adopting the id |
| Controller.MainController.SaveHeld | src/app/main_controller.py:110-133 | a malformed `nocodb.tables` raises with nothing changed; without a history table it stops with the configuration notice; a ticket with an id is completed and PATCHed; one without is saved and POSTed; the result notice and a 3-second reset follow unless adopting the id raised |
| Controller.MainController.SaveConfirmation | src/app/main_controller.py:100-133 | a code other than the held ticket's resets with the mismatch notice and sends nothing; otherwise the ticket is confirmed as in `Confirm` |
| Controller.MainController.Confirm | src/app/main_controller.py:105-133 | the saving notice, then the station is written into the held ticket (and its pending entry), and the ticket is saved as in `SaveHeld`, with the requests, notices, timers, pending list and history that gives |
| Controller.MainController.HandleQrScan | src/app/main_controller.py:36-51 | the inactivity timer restarts first; a malformed scan gives the bad-QR notice; a well-formed one starts a weighing when idle, confirms when waiting, and is refused while processing; the timer raising, a malformed scan and a refusal leave the aliasing, the timers started, the requests and the history as they were |

## Left out

- Files:
  - Reading and writing the JSON files (`_load_json`, `_save_json`, `save_config`) are not modelled.
  - File contents enter as parameters.
  - The writes that mirror each cache to its file are not modelled.
- User interface:
  - The step signals (`update_step1_signal` to `update_step4_signal`, `reset_all_steps_signal`) are not modelled.
  - The mode description signal, which reads `scale_mode.description`, is not modelled.
  - The settings dialog and `save_config`'s call from it are not modelled: they belong to the user interface.
- Logging: console logging (`print`) is not modelled.
- Hardware and clocks:
  - Opening, reconnection and closing of the serial port and the camera are not modelled.
  - Frame capture and image conversion are not modelled.
  - The outer loops of the scale and camera threads are modelled one pass at a time (`Scale.ReadIteration`, `Camera.QrDebouncer.OnFrame`).
  - Sleeps are reduced to the flag checks they contain.
  - `datetime.now()` and `time.time()` are parameters.
- Timers: the single-shot timers are recorded and never fire by themselves. Their firing is a later call of the callback method. As in the source, a single-shot timer already started is never cancelled. The inactivity timer is a field that is restarted or stopped.
- Threads: the threads are concurrent and deliver through Qt signals. The model treats each delivery as a sequential call.
- The HTTP exchange is an oracle:
  - the `xc-token` header, the `viewId`/`limit` query parameters and the timeouts are not modelled;
  - `Api.CreateRecord` and `Api.UpdateRecord` do not prepare their URL, so a non-string host raising AttributeError out of them is not modelled.
- Raises: a raise ends the controller's slot, and Qt reports it. The model returns `raised` and states the state reached at that point. It does not model what Qt does next.
- JSON values:
  - Numbers are integers. Floating-point weights, tares, intervals and timer values are not modelled.
  - A JSON object with a duplicated key is read by its first member; Python keeps the last one.
  - `str()` of a list or dictionary in a URL is a placeholder text.
  - The rows of the caches, the fetched pages and the pending list are dictionaries. A file or page whose list holds another value, on which `.get` would raise AttributeError, is not modelled.
  - A ticket is a record with the fixed keys the controller writes. Its weights and times are integers and texts. Extra keys in a stored pending ticket, and weights of another type in one, are not modelled.
  - A QTimer interval outside the 32-bit range, which makes PyQt raise OverflowError, is not modelled.
  - `Scale.Extract` reports any integer weight. The source's `weight_update` signal is declared with a C `int` (src/hardware/weight_thread.py:9), so emitting a weight outside the 32-bit range likely raises OverflowError at line 71; that escapes the reader's `except` and ends the thread. This is not modelled.
- Configuration file: a file that exists but cannot be opened or decoded (PermissionError, UnicodeDecodeError) makes `_load_config` raise out of `__init__` and `reload()`. Only a missing file or invalid JSON gives `{}` (src/config/config_manager.py:17-26). The model's `file` parameter is the parsed content or nothing, so that raise is not modelled.
- History aliasing: `complete_phieu_can_local` appends the held dictionary itself to the history (src/data/repository.py:107), so the held ticket is then also the history's last entry. `SaveUpdate` clears `linked`, and later writes to the held ticket are not mirrored into the history. A second confirming scan during the 3-second hold re-stamps that same object and appends it again in the source. The model appends a copy, and the earlier entry keeps its old value if the station changed in between.
- Api.FetchPages and Api.GetData require that some page at an offset 0, 100, 200, ... ends the loop. A store that answers full pages forever, on which `while True` never ends, is outside their contract.
- Controller.MainController.HandleQrScan: for an idle or waiting scan it states the new control state, ticket, timer and first notice. The rest of the new state is stated by `NewWeighingRequest` and `SaveConfirmation`, which it calls.
- Sync.Decisions: its contract states only the number of decisions; what each decision is, is stated by `Sync.Decide`.

## Findings

| source | as written | input that shows it | evidently intended | confidence | as-written member | corrected member |
|---|---|---|---|---|---|---|
| src/data/repository.py:55 | `if data and 'list' in data` asks whether the string 'list' is an element of the list of rows `get_data` returns, which it never is | a fetch returning `[{"Mã lệnh": "A"}]` with no error reports "Không có dữ liệu lenh_can." and leaves the cache stale (`Repository.SyncTableAsWrittenDropsRows`) | a non-empty list of rows replaces the cache, and the sync reports success | high; not executed | Repository.SyncTableAsWritten | Repository.SyncOutcome |
| src/data/repository.py:93 | `update_record(table_id, data['Id'], data)` passes three arguments to `update_record(self, table_id, data)` (src/data/api_client.py:81), which takes two | confirming any ticket that already has an `Id` raises TypeError after the local completion (`Controller.UpdateArityMismatch`) | the ticket is PATCHed, and the PATCH's error, if any, is reported | high; not executed | Controller.UpdateAsWritten | Controller.MainController.SaveUpdate |
