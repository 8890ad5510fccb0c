# pi-miner-scanner, modelled in Dafny

pi-miner-scanner finds ASIC mining devices on a local network and shows their
telemetry on a small 480×320 touch screen. It also serves the latest scan over
HTTP. This project models the logic behind that:

- the scanner turns each device's telemetry object into a flat record with a
  fixed set of eighteen keys, extracting the `(url, user)` pair of every mining
  pool, and keeps the records of the devices that answered, in discovery order;
- the configuration derives the `/24` subnet to scan from the host's own
  address, unless the environment overrides it;
- the shared state holds the records, the last-scan time, the scanning flag
  and a single pending scan request; the web layer serialises records with
  their workers rewritten as `{url, user}` dicts, and its scan trigger always
  redirects;
- the touch-screen widgets are buttons with a hover flag and a scrollable list
  with arrow hit-testing and clamped scrolling;
- there are three screens: home (scan and view buttons), the miner list, and
  the detail view of one record with its scrollable text;
- the application loop routes events to the shown screen, handles the
  Escape key and the close event, and starts at most one background scan at a
  time.

Modules follow the program's files:

| module | file |
|---|---|
| `Wrappers` | `Option` |
| `Values` | Python values: truthiness, `str()`, slicing, tuple unpacking |
| `Config` | `config.py` |
| `Scanner` | `scanner.py` |
| `Server` | `web/server.py` |
| `Components` | `gui/components.py` |
| `Screens` | `gui/screens.py` |
| `App` | `main.py` |

A Python value is the `Values.Value` datatype and a record is a
`map<string, Value>`. Code that only computes a value is a function with lemmas
about it. Each `for ... append` loop of the source is a method whose `while`
loop is proved to yield that function. Objects whose fields the program updates
(`SharedState`, `Button`, `ScrollableList`, the three screens, and the
application's own state in `main`) are classes.

A screen's callbacks (`on_scan`, `on_select`, `on_back`) are not called.
Instead, `HandleEvent` returns a flag or the selected record, and
`App.App.HomeEvent` and `App.App.ListEvent` act on it as the callbacks do.

Two facts about the code shape the model:

- `scan_network` walks the discovered devices one after another, so its
  records keep discovery order.
- `main.py` keeps its own record list and scanning flag. It does not use
  `SharedState`, so the two are modelled separately.

## Model

| member | source | states |
|---|---|---|
| Values.DecimalRoundTrip | gui/screens.py:171 | `str()` of an int (the pool and board numbers) reads back as the same int: the decimal text is exact |
| Values.Prefix | gui/screens.py:173 | `s[:n]` is a prefix of `s` whose length is the smaller of `n` and the length of `s`; it is `s` itself when `s` is short |
| Values.Unpack2 | web/server.py:69 | `a, b = v` succeeds exactly when `v` iterates to two elements, and yields those two in order |
| Config.LastDot | config.py:13 | finds the position of the last '.' or reports that there is none |
| Config.RSplitLastDot | config.py:13 | `rsplit(".", 1)` gives `[s]` exactly when `s` has no dot; otherwise two parts that rejoin around the dot into `s`, the second holding no dot |
| Config.DefaultSubnet | config.py:7-18 | the result always ends in ".0/24"; a failed lookup, an empty address, the loopback address and an address without a dot all give "192.168.1.0/24" |
| Config.DottedAddressSubnet | config.py:12-15 | a non-loopback address with a dot gives everything before its last dot followed by ".0/24" |
| Config.Subnet | config.py:22 | the environment value wins whenever it is set, even when empty; otherwise the derived default |
| Config.WhatsminerPassword | config.py:25 | the environment value wins whenever it is set; otherwise "admin" |
| Scanner.DecodeUtf8 | scanner.py:37-40 | empty bytes decode to the empty string; other bytes decode to at least one and at most as many characters as bytes, as the real decoder does (see Left out) |
| Scanner.PoolField | scanner.py:35-42 | the first truthy of the two attributes is chosen and rendered as text; "" when neither is truthy |
| Scanner.PoolsOf | scanner.py:20-34 | a missing or falsy configuration or pools object gives no pools |
| Scanner.WorkersOf | scanner.py:17-44 | one `(url, user)` pair per pool, in pool order |
| Scanner.ExtractWorkers | scanner.py:17-44 | the loop yields exactly one pair per pool of the chosen list, in order, through every early return |
| Scanner.PoolEntryChoice | scanner.py:35-42 | `url` is `url`, else `stratum`, else ""; `user` is `user`, else `username`, else ""; non-empty bytes give a non-empty text no longer than the bytes |
| Scanner.PoolListFallback | scanner.py:26-33 | `pools.pools` wins when not `None`, then `pool_list`, then iterating the pools object, else nothing; an empty `pools.pools` gives no workers even when `pool_list` has pools |
| Scanner.PoolOrderPreserved | scanner.py:34-43 | three pools give three workers in the same order, and the record's `workers` lists the same pairs as tuples |
| Scanner.Fmt | scanner.py:74-79 | `None` becomes "", any other value its `str()` |
| Scanner.RecordKeys | scanner.py:101-120 | every record has exactly the eighteen keys, whatever the telemetry lacks |
| Scanner.RecordIdentityFields | scanner.py:103-106 | hostname, model, make and firmware hold `_fmt` of their attribute |
| Scanner.RecordMeasurementFields | scanner.py:107-112 | the six measurement fields hold `_fmt` of their attribute |
| Scanner.RecordPassThrough | scanner.py:102-115 | `ip`, `uptime`, `is_mining` and `fault_light` pass through unformatted; a missing `ip` is "" and only a missing `is_mining` defaults to `True` |
| Scanner.RecordLists | scanner.py:81-119 | the hashboard, fan, error and worker lists keep the source's length and order, and are empty when the source list is missing, `None` or empty |
| Scanner.MinerDataToDict | scanner.py:72-120 | the three loops and the dict literal build exactly the normalised record `RecordOf`, whose fields the `Record*` lemmas describe |
| Scanner.NoPoolsKeepsBoards | scanner.py:81-90 | telemetry without a configuration has no workers, and its boards are kept one for one |
| Scanner.CollectConcat | scanner.py:57-69 | the results of two device lists joined are the two results joined: one device's failure never removes another's record |
| Scanner.CollectIsFetched | scanner.py:57-69 | the results are exactly the records of the devices that returned telemetry, in order, and never outnumber the devices |
| Scanner.ScanResultsAreFetched | scanner.py:57-69 | the scan's records are the normalised telemetry of the answering devices, in device order |
| Scanner.FailingDeviceIsDropped | scanner.py:58-68 | an absent device, one returning `None` and one that raises contribute nothing, wherever they sit |
| Scanner.NoTelemetryNoResults | scanner.py:57-69 | with no device returning telemetry the result is empty, not an error |
| Scanner.OneAnswersOneRaises | scanner.py:61-68 | a device that answers followed by one that raises yields the first device's record only |
| Scanner.ScanNetwork | scanner.py:57-69 | the filtering loop returns exactly `ScanResults` of the device outcomes, which the lemmas above characterise |
| Server.SharedState.constructor | web/server.py:12-17 | a new state holds no records and no scan time, and is neither scanning nor asked to scan |
| Server.SharedState.GetSnapshot | web/server.py:19-21 | the snapshot is the records, the time and the flag, and the state is unchanged |
| Server.SharedState.SetMiners | web/server.py:23-25 | replaces the records only |
| Server.SharedState.SetLastScan | web/server.py:27-29 | replaces the scan time only |
| Server.SharedState.SetScanning | web/server.py:31-33 | replaces the scanning flag only |
| Server.SharedState.RequestScan | web/server.py:35-40 | accepted exactly when no scan runs; an accepted request leaves one pending; a rejected one changes nothing |
| Server.SharedState.ConsumeScanRequest | web/server.py:42-47 | reports whether a request was pending and leaves none pending |
| Server.SharedState.ClearScanRequest | web/server.py:49-51 | leaves no request pending and changes nothing else |
| Server.RequestsCoalesce | web/server.py:35-47 | on any state that is not scanning, two requests are both accepted but owe a single scan: the first consume reports it, the second finds nothing |
| Server.RequestWhileScanning | web/server.py:35-47 | on any state that is scanning, a request is rejected and adds nothing: what is pending afterwards is what was pending before |
| Server.SerializeWorkers | web/server.py:69 | succeeds exactly when every entry unpacks into two values; yields one `{url, user}` dict per entry, in order |
| Server.Serialize | web/server.py:66-70 | keeps every key other than `workers`, adds `workers`, turns a missing or falsy `workers` into `[]`, and keeps the number of worker entries; it succeeds exactly when the workers iterate and every entry unpacks into two values, and the new `workers` is then the `{url, user}` dicts of `SerializeWorkers`, one per entry, in order |
| Server.SerializePairs | web/server.py:66-70 | a record whose workers are string pairs always serialises, with the pairs rewritten in order |
| Server.SerializeNormalised | web/server.py:66-70 | every normalised record serialises and keeps its eighteen keys |
| Server.SerializeAll | web/server.py:73 | succeeds exactly when every record serialises; yields one serialised record per record, in order |
| Server.TriggerScan | web/server.py:78-82 | always the same 302 redirect to the index page; the scan is requested exactly when none is running |
| Components.Button.constructor | gui/components.py:40-52 | a button has the given rectangle and text and is not hovered |
| Components.Button.HandleEvent | gui/components.py:64-73 | pressed exactly on a left-button press inside the rectangle (`Button.Contains`, which is `Rect.Contains`: the half-open test of `collidepoint`, right and bottom edges excluded); motion sets `hover` to whether the pointer is inside; other events keep it |
| Components.ScrollableList.constructor | gui/components.py:104-113 | an empty list at offset 0, with the arrows placed at the right edge as the source computes them |
| Components.ScrollableList.MaxScroll | gui/components.py:119-122 | the overflow of the rows past the list's height, never negative |
| Components.ScrollableList.HitTest | gui/components.py:150-163 | the up arrow only when the list can scroll up, then the down arrow only when it can scroll down, then, for a point inside the rows' area, the row under it (the offset-adjusted height divided by the row height) when that index is within the items; nothing in every other case, and only then |
| Components.ScrollableList.HitAt | gui/components.py:150-163 | `hit_test` for a given row count and offset, on this list's geometry: a row it returns lies within the rows |
| Components.ScrollableList.SetItems | gui/components.py:115-117 | new items, scrolled back to the top |
| Components.ScrollableList.ScrollUp | gui/components.py:165-166 | one row up, never above the top |
| Components.ScrollableList.ScrollDown | gui/components.py:168-169 | one row down, never past the maximum scroll |
| Screens.HomeScreen.constructor | gui/screens.py:36-60 | no scan time, not scanning, no records; the two buttons are centred and placed as the source computes |
| Screens.HomeScreen.SetLastScan | gui/screens.py:62-63 | records the scan time |
| Screens.HomeScreen.SetScanning | gui/screens.py:65-66 | records the scanning flag |
| Screens.HomeScreen.SetMiners | gui/screens.py:68-69 | records the records |
| Screens.HomeScreen.HandleEvent | gui/screens.py:71-78 | a scan press asks for a scan only when none is running and never changes screen; the view press opens the list only when there are records; hover flags follow the pointer |
| Screens.MinerListScreen.constructor | gui/screens.py:101-108 | the list shows the given records from the top, with the source's geometry |
| Screens.MinerListScreen.SetMiners | gui/screens.py:110-112 | the screen and its list both take the new records, scrolled to the top |
| Screens.MinerListScreen.HandleEvent | gui/screens.py:114-129 | the back button wins and leads home; otherwise the up arrow moves the offset back one row height, clamped at 0, and the down arrow forward one row height, clamped at `MaxScroll()`, each only when live; a row selects its own record and leads to the detail view |
| Screens.WorkerPairs | gui/screens.py:169-170 | the `(url, user)` pairs the pool loop unpacks, one per worker |
| Screens.PoolLineText | gui/screens.py:171 | pools are numbered from 1, and show the worker name or "(no worker)" when it is empty |
| Screens.UrlLineText | gui/screens.py:173 | the URL line shows at most the first 50 characters of the url, between "  URL: " and "..." |
| Screens.PoolLines | gui/screens.py:170-173 | each pool has its heading line, plus a URL line exactly when the url is non-empty |
| Screens.PoolSection | gui/screens.py:170-173 | `n` pools give between `n` and `2n` lines |
| Screens.BoardSection | gui/screens.py:176-179 | one line per shown board, in board order |
| Screens.FanSection | gui/screens.py:180-183 | a single fan line exactly when there are fans |
| Screens.ErrorLine | gui/screens.py:188 | an error line is at most 62 characters |
| Screens.ErrorLines | gui/screens.py:187-188 | one line per shown error, in order |
| Screens.ErrorSection | gui/screens.py:184-188 | nothing without errors; otherwise an "Errors:" heading and at most five error lines |
| Screens.DetailLinesStart | gui/screens.py:156-168 | every detail text starts with the thirteen fixed lines, in order |
| Screens.DetailLineCount | gui/screens.py:153-189 | the number of detail lines: thirteen, one or two per pool, at most four boards, one fan line, and at most six error lines |
| Screens.DetailLinesLength | gui/screens.py:153-189 | the detail text has exactly `LineTotal` lines: thirteen, the pool lines, at most four boards, one fan line when there are fans, and the error block when there are errors |
| Screens.NormalisedRenderable | gui/screens.py:169-188 | every record the normaliser builds can be shown in the detail view |
| Screens.ScanResultsRenderable | main.py:44-51 | every record a scan hands to the screens can be shown in the detail view |
| Screens.AppendPools | gui/screens.py:169-173 | the pool loop appends exactly the pool section |
| Screens.AppendBoards | gui/screens.py:174-179 | the board loop appends exactly the lines of the first four boards |
| Screens.AppendErrors | gui/screens.py:184-188 | the error block appends the heading and the first five error lines |
| Screens.BuildLines | gui/screens.py:153-189 | the step-by-step construction yields exactly the detail text `DetailLines`, whose shape `DetailLinesStart` and `DetailLineCount` state |
| Screens.DetailScreen.MaxScroll | gui/screens.py:191-195 | the smallest offset, never negative, at which the last line fits in the visible height |
| Screens.DetailScreen.constructor | gui/screens.py:142-151 | a new detail view of the record, at the top, with the back button placed as in the source |
| Screens.DetailScreen.HandleEvent | gui/screens.py:197-208 | the back button leads to the list; the arrows move the text by at most 40 pixels and keep it within `[0, max_scroll]`; the new offset after a left click off the back button is `DetailScrolled` of the old one (up arrow first, then down), and any other event leaves it where it was |
| App.App.constructor | main.py:37-79 | the program starts on the home screen, running, with no records and no scan thread |
| App.App.OnScanClick | main.py:57-62 | a scan thread starts only when none is alive; afterwards one is alive |
| App.App.ScanBegins | main.py:42 | the home screen shows a scan running |
| App.App.ScanFinishes | main.py:43-51 | the home and list screens get the scan's records (none when the scan raised), the list scrolls to the top, the scan time is kept and the thread ends |
| App.App.HandleEvent | main.py:82-107 | the state after the event (`Ui()`: shown screen, loop flag, scan thread, hovers, list offset, detail screen) is `Step` of the state before; and, spelled out: close stops the loop; Escape goes detail to list, list to home, and on home stops; any other event reaches the shown screen: on home the list opens exactly on a view press with records present; on the list, back leads home exactly on a back press and the detail view opens exactly on a tap the list's hit test maps to a row, showing that row's record; on the detail view the list returns exactly on a back press, else the same detail screen stays; a scan starts exactly from a scan press on home while none is running; records are never changed by an event |
| App.App.Step | main.py:82-107 | the loop body on values, with each screen's `handle_event` (gui/screens.py:71-78, 114-129, 197-208) written out: the reference `HandleEvent` is proved against; an event never changes the records |
| App.App.HomeStep | gui/screens.py:71-78 | the home screen on values: hovers on motion, a scan press starts the thread unless one is alive or a scan shows as running, a view press with records opens the list; the loop flag, the records and the scanning flag are kept |
| App.App.ListStep | gui/screens.py:114-129 | the list screen on values: back leads home, the arrows scroll one row clamped to `[0, max_scroll]`, a row opens a new detail screen for its record at the top; the loop flag, the records and the scanning flag are kept |
| App.App.DetailStep | gui/screens.py:197-208 | the detail screen on values: back returns to the list and drops the detail screen, other left presses go to the arrows; the loop flag, the records and the scanning flag are kept |
| App.App.StepKeepsRunning | main.py:82-107 | an event other than close or Escape leaves the loop flag as it was |
| App.App.Escape | main.py:86-94 | detail goes to list, list goes to home, and home stops the loop |
| App.App.SwitchTo | main.py:104-107 | a named screen becomes the shown one; entering the list drops the detail screen |
| App.App.HomeEvent | main.py:97-98 | the home screen's answer: the list opens exactly on a view press with records present; a scan thread starts exactly on a scan press while no scan runs |
| App.App.ListEvent | main.py:99-100 | the list screen's answer: back leads home exactly on a back press; the detail view opens exactly on a tap the hit test maps to row `i`, with a new detail screen for `miners[i]` |
| App.App.Select | main.py:64-66 | `on_select` then the switch to "detail": the shown screen becomes a new detail screen for the record, at the top and not hovered; nothing else changes |
| App.App.OpenDetail | main.py:64-66 | selecting a record makes a new detail screen for that record, at the top, its back button not hovered, with `LineTotal` lines |
| App.App.DetailEvent | main.py:101-102 | the detail screen's answer: back returns to the list, otherwise the same detail screen stays |
| App.FirstQuit | main.py:82-85 | the position of the first close event in a frame, or the frame's length when it has none: every earlier event is not a close |
| App.App.ProcessEvents | main.py:82-107 | the state after a frame is `Frame` of the state before: `Step` applied to each event in order up to and including the first close event, and to none after it; the records are unchanged |
| App.App.Steps | main.py:82 | `Step` applied to each event in order; the records are unchanged |
| App.App.Frame | main.py:82-85 | `Steps` over the events up to and including the first close event; the records are unchanged |
| App.App.StepsKeepRunning | main.py:82-107 | events with neither close nor Escape leave the loop flag as it was |
| App.App.FrameKeepsRunning | main.py:82-107 | a frame with neither close nor Escape leaves the loop flag as it was |
| App.App.FrameStopsAtClose | main.py:83-85 | a close event anywhere in a frame stops the loop |
| App.App.FrameIgnoresAfterClose | main.py:83-85 | the loop breaks at the first close event: events after it in the same frame change nothing |
| App.App.Run | main.py:81-118 | the state after the loop is `RunFrom` of the state before (frames are handled by `Frame` one after another while the loop flag is set), and `handled` is `FramesRun`, the number of frames it handled; none, with nothing changed, when it is not running at the start; fewer than given only when the loop stopped |
| App.App.StoppedRunsNothing | main.py:81 | a stopped loop handles no frame and changes nothing |
| App.App.RunBounds | main.py:81 | the loop handles at most the frames given, and fewer only when it has stopped |

## Left out

- Drawing, fonts, colours, `MinerListItem`, the frame clock and the display set-up are not modelled. Neither is `content_height`, nor the button-text changes `draw` makes while it runs.
- The `pyasic` library is not modelled. The network scan and `get_data` are an input, one `Scanner.DeviceOutcome` per discovered device. `_configure_pyasic`, `MinerNetwork` and the choice `net = subnet or SUBNET` are left out.
- `asyncio`, threads and locks are not modelled. Each `SharedState` method is one atomic step. The scan thread is a flag, and its work is two atomic steps, `App.App.ScanBegins` and `App.App.ScanFinishes`, which may run between any two events. In the program the finishing step is itself four calls (`main.py` lines 48-51), and the list screen's `set_miners` makes two assignments. The event loop may run between them. A tap can then compute a row index on the old item list and use it on a new, shorter record list, which raises. Because the model takes the finishing step as atomic, `App.App.Valid` can keep the home screen, the list screen and the application on the same records, and this race is not captured.
- Flask routes, `jsonify`, `render_template`, `url_for` and `run_server` are not modelled. `Server.TriggerScan` answers with a redirect value whose location is "/".
- `socket`, `os.environ` and `datetime.now()` are inputs: the resolved address (`None` when the lookup raises), the environment values (`None` when unset), and the scan time as a string. `WEB_PORT` is not modelled.
- Floats, hash-rate objects and error objects are `VObj` values that carry their `str()` text and truth value; no float arithmetic is modelled.
- Values.Show: `str()` of bytes, lists, tuples and dicts is Python's `repr`, which the model does not reproduce: it shows a fixed placeholder instead. A telemetry attribute holding such a value is formatted by `Scanner.Fmt` to that placeholder, where Python would store its `repr`.
- Values.Elements: iterating a dict (its keys in insertion order) is not modelled and counts as not iterable.
- Scanner.DecodeUtf8: a stand-in for `decode("utf-8", errors="replace")`. An ASCII byte becomes its character and any other byte the replacement character. Multi-byte sequences are not decoded.
- Scanner.PoolsOf: a pools object that Python could not iterate, or whose iteration raises, gives no pools as in the source. Pool entries whose attributes are not plain values are not modelled.
- Server.Serialize: `None` stands for the cases where Python raises while iterating or unpacking the workers; the exception itself is not modelled.
- Components.ScrollableList.constructor requires a positive item height. The source never checks it: `hit_test` divides by zero for a zero height, and negative heights, which the source would accept, are excluded as well; the only caller passes 36.
- Screens.DetailScreen.constructor requires a record of the shapes `Screens.Renderable` admits: list entries that are lists or falsy, workers that unpack into a string url and a user, and dict boards and fans. Some other shapes, such as a tuple of workers or a bytes url, Python would display; others would raise when the text is built. The model covers neither. Every record a scan produces meets this requirement (`Screens.ScanResultsRenderable`).
- Screens.DetailScreen.constructor builds the detail text once and keeps it. The source rebuilds it on every `_max_scroll` and `draw`, but the record never changes, so the text is the same each time.
- App.App.OpenDetail requires a renderable record, for the same reason as the detail screen's constructor. The records it is given come from the list and are renderable (`App.App.Valid`).
- App.App.HandleEvent: `Ui()` leaves out what no event reads or changes: the home screen's scan time and the detail text itself (only its line count, which bounds the scroll).
- App.App.ProcessEvents: the events of a frame are a finite sequence given as input; `pygame.event.get` is not modelled.
- App.App.Run takes a finite sequence of frames, each a sequence of events; the endless `while running` loop over live input is not modelled, nor the drawing and the frame clock between frames.
