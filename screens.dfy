/** The three screens of the display: home (scan and view buttons), the miner
    list, and the detail view of one record. The callbacks a screen is built
    with (`on_scan`, `on_select`, `on_back`) are reported to the caller as
    results of `HandleEvent` instead of being called. */
module Screens {
  import opened Wrappers
  import opened Values
  import opened Components
  import Config
  import Scanner

  /** The names `handle_event` returns: "home", "list", "detail". */
  datatype ScreenName = Home | List | Detail

  const BUTTON_WIDTH := 120
  const BUTTON_HEIGHT := if Config.MIN_TOUCH_TARGET > 50 then Config.MIN_TOUCH_TARGET else 50
  const BACK_HEIGHT := if Config.MIN_TOUCH_TARGET > 30 then Config.MIN_TOUCH_TARGET else 30

  // ================================================================ home

  class HomeScreen {
    var lastScan: Option<string>
    var scanning: bool
    var miners: seq<Record>
    const scanBtn: Button
    const viewBtn: Button

    ghost predicate Valid() {
      scanBtn != viewBtn
    }

    constructor ()
      ensures Valid() && fresh(scanBtn) && fresh(viewBtn)
      ensures lastScan == None && !scanning && miners == []
      ensures scanBtn.rect == Rect((Config.SCREEN_WIDTH - BUTTON_WIDTH) / 2,
                                   Config.SCREEN_HEIGHT / 2 - BUTTON_HEIGHT - 30, BUTTON_WIDTH, BUTTON_HEIGHT)
      ensures viewBtn.rect == Rect((Config.SCREEN_WIDTH - BUTTON_WIDTH) / 2,
                                   Config.SCREEN_HEIGHT / 2 + 10, BUTTON_WIDTH, BUTTON_HEIGHT)
    {
      lastScan := None;
      scanning := false;
      miners := [];
      scanBtn := new Button((Config.SCREEN_WIDTH - BUTTON_WIDTH) / 2,
                            Config.SCREEN_HEIGHT / 2 - BUTTON_HEIGHT - 30, BUTTON_WIDTH, BUTTON_HEIGHT, "Scan");
      viewBtn := new Button((Config.SCREEN_WIDTH - BUTTON_WIDTH) / 2,
                            Config.SCREEN_HEIGHT / 2 + 10, BUTTON_WIDTH, BUTTON_HEIGHT, "View Miners");
    }

    method SetLastScan(when: Option<string>)
      modifies this`lastScan
      ensures lastScan == when
    {
      lastScan := when;
    }

    method SetScanning(busy: bool)
      modifies this`scanning
      ensures scanning == busy
    {
      scanning := busy;
    }

    method SetMiners(records: seq<Record>)
      modifies this`miners
      ensures miners == records
    {
      miners := records;
    }

    /** `HomeScreen.handle_event`. A press on the scan button asks for a scan
        (`scanClicked`, the `on_scan` callback) only when no scan is running, and
        never changes screen; the view button leads to the list only when there
        are miners. The view button is not consulted at all (its hover state
        stays) when there are no miners or the scan button was pressed. */
    method HandleEvent(e: Event) returns (next: Option<ScreenName>, scanClicked: bool)
      requires Valid()
      modifies scanBtn`hover, viewBtn`hover
      ensures scanClicked <==> IsLeftClick(e) && scanBtn.Contains(e.pos) && !scanning
      ensures next == Some(List) <==>
                (IsLeftClick(e) && !scanBtn.Contains(e.pos) && miners != [] && viewBtn.Contains(e.pos))
      ensures next.None? || next == Some(List)
      ensures scanBtn.hover == if e.MouseMotion? then scanBtn.Contains(e.pos) else old(scanBtn.hover)
      ensures viewBtn.hover == if e.MouseMotion? && miners != [] then viewBtn.Contains(e.pos) else old(viewBtn.hover)
    {
      next, scanClicked := None, false;
      var scanPressed := scanBtn.HandleEvent(e);
      if scanPressed {
        if !scanning {
          scanClicked := true;
        }
        return;
      }
      if miners != [] {
        var viewPressed := viewBtn.HandleEvent(e);
        if viewPressed {
          next := Some(List);
        }
      }
    }
  }

  // ================================================================ list

  const LIST_TOP := 40
  const LIST_ITEM_HEIGHT := 36

  class MinerListScreen {
    var miners: seq<Record>
    const list: ScrollableList
    const backBtn: Button

    /** The scrollable list shows exactly this screen's miners. */
    ghost predicate Valid()
      reads this, list
    {
      list.Valid() && list.items == miners
    }

    constructor (records: seq<Record>)
      ensures Valid() && fresh(list) && fresh(backBtn)
      ensures miners == records && list.scrollOffset == 0
      ensures list.rect == Rect(0, LIST_TOP, Config.SCREEN_WIDTH, Config.SCREEN_HEIGHT - 90)
      ensures list.itemHeight == LIST_ITEM_HEIGHT
      ensures backBtn.rect == Rect(10, 5, 80, BACK_HEIGHT)
    {
      miners := records;
      list := new ScrollableList(0, LIST_TOP, Config.SCREEN_WIDTH, Config.SCREEN_HEIGHT - 90, LIST_ITEM_HEIGHT);
      backBtn := new Button(10, 5, 80, BACK_HEIGHT, "Back");
      new;
      list.SetItems(records);
    }

    /** `set_miners`: both this screen's list and the scrollable list change,
        and the list scrolls back to the top. */
    method SetMiners(records: seq<Record>)
      requires Valid()
      modifies this`miners, list`items, list`scrollOffset
      ensures Valid() && miners == records && list.scrollOffset == 0
    {
      miners := records;
      list.SetItems(records);
    }

    /** `MinerListScreen.handle_event`. A left click goes to the back button
        first (`backPressed`, the `on_back` callback, then "home"); otherwise the
        list's hit test decides: an arrow scrolls, a row selects its record
        (`selected`, the `on_select` callback) and leads to "detail". */
    method HandleEvent(e: Event) returns (next: Option<ScreenName>, selected: Option<Record>, backPressed: bool)
      requires Valid()
      modifies list`scrollOffset, backBtn`hover
      ensures Valid()
      ensures backPressed <==> IsLeftClick(e) && backBtn.Contains(e.pos)
      ensures next == Some(Home) <==> backPressed
      ensures next == Some(Detail) <==> selected.Some?
      ensures next.None? || next == Some(Home) || next == Some(Detail)
      ensures selected.Some? ==> selected.value in miners
      ensures IsLeftClick(e) && !backPressed ==>
                match old(list.HitTest(e.pos))
                case Up => next.None? && list.scrollOffset < old(list.scrollOffset) &&
                           list.scrollOffset == (if old(list.scrollOffset) >= list.itemHeight
                                                 then old(list.scrollOffset) - list.itemHeight else 0)
                case Down => next.None? && list.scrollOffset > old(list.scrollOffset) &&
                             list.scrollOffset == (if old(list.scrollOffset) + list.itemHeight <= list.MaxScroll()
                                                   then old(list.scrollOffset) + list.itemHeight else list.MaxScroll())
                case Item(index) => selected == Some(miners[index]) &&
                                    list.scrollOffset == old(list.scrollOffset)
                case NoHit => next.None? && list.scrollOffset == old(list.scrollOffset)
      ensures !IsLeftClick(e) ==> next.None? && list.scrollOffset == old(list.scrollOffset)
      ensures backPressed ==> selected.None? && list.scrollOffset == old(list.scrollOffset)
      ensures backBtn.hover == if e.MouseMotion? then backBtn.Contains(e.pos) else old(backBtn.hover)
    {
      next, selected, backPressed := None, None, false;
      if e.MouseButtonDown? && e.button == LEFT_BUTTON {
        if backBtn.Contains(e.pos) {
          backPressed := true;
          next := Some(Home);
          return;
        }
        var hit := list.HitTest(e.pos);
        match hit {
          case Up => list.ScrollUp();
          case Down => list.ScrollDown();
          case Item(index) =>
            selected := Some(miners[index]);
            next := Some(Detail);
          case NoHit =>
        }
      }
      if e.MouseMotion? {
        backBtn.hover := backBtn.Contains(e.pos);
      }
    }
  }

  // ================================================================ detail text

  const LINE_HEIGHT := 16
  const VISIBLE_HEIGHT := Config.SCREEN_HEIGHT - 50
  const SCROLL_STEP := 40
  const URL_SHOWN := 50
  const ERROR_SHOWN := 60
  const BOARDS_SHOWN := 4
  const ERRORS_SHOWN := 5

  function Min(a: int, b: int): int {
    if a <= b then a else b
  }

  /** `d.get(key, "")` as shown in an f-string. */
  function Field(d: Record, key: string): string {
    Show(Get(d, key, VStr("")))
  }

  /** The thirteen lines every detail view starts with, in this order. */
  function FixedLines(d: Record): seq<string> {
    [ "IP: " + Field(d, "ip"),
      "Hostname: " + Field(d, "hostname"),
      "Model: " + Field(d, "model") + " (" + Field(d, "make") + ")",
      "Firmware: " + Field(d, "firmware"),
      "Hashrate: " + Field(d, "hashrate"),
      "Expected: " + Field(d, "expected_hashrate"),
      "Wattage: " + Field(d, "wattage") + "W",
      "Efficiency: " + Field(d, "efficiency") + " J/TH",
      "Temp avg: " + Field(d, "temperature_avg") + "C",
      "Env temp: " + Field(d, "env_temp") + "C",
      "Uptime: " + Field(d, "uptime") + "s",
      "Mining: " + Field(d, "is_mining"),
      "Fault light: " + Field(d, "fault_light") ]
  }

  /** `d.get(key, []) or []` for a list entry of the record. */
  function ListEntry(d: Record, key: string): Value {
    Get(d, key, VList([]))
  }

  /** A worker entry the detail view can show: it unpacks into `(url, user)`
      and its url, when truthy, is a string (it is sliced). */
  predicate WorkerShowable(w: Value) {
    Unpack2(w).Some? && UrlShowable(Unpack2(w).value.0)
  }

  /** A url `_build_lines` can show: empty (not shown) or a string. */
  predicate UrlShowable(url: Value) {
    !Truthy(url) || url.VStr?
  }

  /** The `(url, user)` pairs the pool loop unpacks. */
  function WorkerPairs(workers: seq<Value>): (pairs: seq<(Value, Value)>)
    requires forall i :: 0 <= i < |workers| ==> WorkerShowable(workers[i])
    ensures |pairs| == |workers|
    ensures forall i :: 0 <= i < |workers| ==> Unpack2(workers[i]) == Some(pairs[i]) && UrlShowable(pairs[i].0)
  {
    seq(|workers|, i requires 0 <= i < |workers| && WorkerShowable(workers[i]) => Unpack2(workers[i]).value)
  }

  /** The record shapes `_build_lines` handles without raising: the list
      entries are lists (or falsy), workers unpack into a string url and a
      user, and hashboards and fans are dicts. */
  predicate Renderable(d: Record) {
    && IsListOrFalsy(ListEntry(d, "workers"))
    && (forall i :: 0 <= i < |ListItems(ListEntry(d, "workers"))| ==>
          WorkerShowable(ListItems(ListEntry(d, "workers"))[i]))
    && IsListOrFalsy(ListEntry(d, "hashboards"))
    && (forall i :: 0 <= i < |ListItems(ListEntry(d, "hashboards"))| ==>
          ListItems(ListEntry(d, "hashboards"))[i].VDict?)
    && IsListOrFalsy(ListEntry(d, "fans"))
    && (forall i :: 0 <= i < |ListItems(ListEntry(d, "fans"))| ==>
          ListItems(ListEntry(d, "fans"))[i].VDict?)
    && IsListOrFalsy(ListEntry(d, "errors"))
  }

  /** The heading line of pool `i` (counting from 0). */
  function PoolLine(i: nat, user: Value): string {
    "Pool " + Decimal(i + 1) + ": " + Show(Or(user, VStr("(no worker)")))
  }

  /** A pool is numbered from 1 and shows its worker name, or "(no worker)"
      when the name is empty. */
  lemma PoolLineText(i: nat, user: Value)
    ensures PoolLine(i, user) == "Pool " + Decimal(i + 1) + ": " + (if Truthy(user) then Show(user) else "(no worker)")
  {
  }

  /** The line showing a pool's url. */
  function UrlLine(url: string): string {
    "  URL: " + Prefix(url, URL_SHOWN) + "..."
  }

  /** The url line holds at most the first 50 characters of the url, between
      "  URL: " and "...". */
  lemma UrlLineText(url: string)
    ensures 10 <= |UrlLine(url)| <= 7 + URL_SHOWN + 3
    ensures UrlLine(url)[..7] == "  URL: " && UrlLine(url)[|UrlLine(url)| - 3..] == "..."
    ensures UrlLine(url)[7..|UrlLine(url)| - 3] == Prefix(url, URL_SHOWN) <= url
    ensures |url| <= URL_SHOWN ==> UrlLine(url)[7..|UrlLine(url)| - 3] == url
  {
    var p := Prefix(url, URL_SHOWN);
    var line := UrlLine(url);
    assert line == "  URL: " + p + "...";
    assert line[7..|line| - 3] == p;
  }

  /** The lines of pool `i` (counting from 0): the pool line, and a URL line
      only when the url is non-empty. */
  function PoolLines(i: nat, url: Value, user: Value): (lines: seq<string>)
    requires UrlShowable(url)
    ensures |lines| == (if Truthy(url) then 2 else 1)
    ensures lines[0] == PoolLine(i, user)
    ensures Truthy(url) ==> lines[1] == UrlLine(url.s)
  {
    [PoolLine(i, user)] + (if Truthy(url) then [UrlLine(url.s)] else [])
  }

  /** The pool lines of the first `n` workers. */
  function PoolSection(pairs: seq<(Value, Value)>, n: nat): (lines: seq<string>)
    requires n <= |pairs|
    requires forall i :: 0 <= i < |pairs| ==> UrlShowable(pairs[i].0)
    ensures n <= |lines| <= 2 * n
  {
    if n == 0 then [] else PoolSection(pairs, n - 1) + PoolLines(n - 1, pairs[n - 1].0, pairs[n - 1].1)
  }

  function BoardLine(i: nat, hb: Value): string
    requires hb.VDict?
  {
    "Board " + Decimal(i + 1) + ": " + Show(Get(hb.entries, "hashrate", VStr("?"))) + " " +
    Show(Get(hb.entries, "temp", VStr("?"))) + "C"
  }

  /** One line for each of the first `n` hashboards. */
  function BoardSection(boards: seq<Value>, n: nat): (lines: seq<string>)
    requires n <= |boards|
    requires forall i :: 0 <= i < |boards| ==> boards[i].VDict?
    ensures |lines| == n
    ensures forall i :: 0 <= i < n ==> lines[i] == BoardLine(i, boards[i])
  {
    if n == 0 then [] else BoardSection(boards, n - 1) + [BoardLine(n - 1, boards[n - 1])]
  }

  function FanSpeeds(fans: seq<Value>): seq<string>
    requires forall i :: 0 <= i < |fans| ==> fans[i].VDict?
  {
    seq(|fans|, i requires 0 <= i < |fans| && fans[i].VDict? => Show(Get(fans[i].entries, "speed", VStr("?"))))
  }

  /** One "Fans:" line when there are fans, none otherwise. */
  function FanSection(fans: seq<Value>): (lines: seq<string>)
    requires forall i :: 0 <= i < |fans| ==> fans[i].VDict?
    ensures |lines| == (if fans == [] then 0 else 1)
  {
    if fans == [] then [] else ["Fans: " + Join(", ", FanSpeeds(fans))]
  }

  function ErrorLine(e: Value): (line: string)
    ensures |line| <= 2 + ERROR_SHOWN
  {
    "  " + Prefix(Show(e), ERROR_SHOWN)
  }

  /** One line for each of the first `n` errors, each cut to 60 characters. */
  function ErrorLines(errors: seq<Value>, n: nat): (lines: seq<string>)
    requires n <= |errors|
    ensures |lines| == n
    ensures forall i :: 0 <= i < n ==> lines[i] == ErrorLine(errors[i])
  {
    if n == 0 then [] else ErrorLines(errors, n - 1) + [ErrorLine(errors[n - 1])]
  }

  /** "Errors:" followed by at most five error lines, or nothing. */
  function ErrorSection(errors: seq<Value>): (lines: seq<string>)
    ensures errors == [] ==> lines == []
    ensures errors != [] ==> |lines| == 1 + Min(|errors|, ERRORS_SHOWN) && lines[0] == "Errors:"
    ensures |lines| <= 1 + ERRORS_SHOWN
  {
    if errors == [] then [] else ["Errors:"] + ErrorLines(errors, Min(|errors|, ERRORS_SHOWN))
  }

  /** `_build_lines` as a value: the fixed lines, the pools, at most four
      boards, the fans and the errors. */
  function DetailLines(d: Record): seq<string>
    requires Renderable(d)
  {
    var pairs := WorkerPairs(ListItems(ListEntry(d, "workers")));
    var boards := ListItems(ListEntry(d, "hashboards"));
    var fans := ListItems(ListEntry(d, "fans"));
    var errors := ListItems(ListEntry(d, "errors"));
    FixedLines(d) + PoolSection(pairs, |pairs|) + BoardSection(boards, Min(|boards|, BOARDS_SHOWN)) +
    FanSection(fans) + ErrorSection(errors)
  }

  /** Every detail view starts with the thirteen fixed lines. */
  lemma DetailLinesStart(d: Record)
    requires Renderable(d)
    ensures |DetailLines(d)| >= 13 && DetailLines(d)[..13] == FixedLines(d)
  {
    var pairs := WorkerPairs(ListItems(ListEntry(d, "workers")));
    var boards := ListItems(ListEntry(d, "hashboards"));
    var fixed := FixedLines(d);
    var pools := PoolSection(pairs, |pairs|);
    var shown := BoardSection(boards, Min(|boards|, BOARDS_SHOWN));
    var fans := FanSection(ListItems(ListEntry(d, "fans")));
    var errors := ErrorSection(ListItems(ListEntry(d, "errors")));
    ConcatAssoc(fixed, pools, shown);
    ConcatAssoc(fixed, pools + shown, fans);
    ConcatAssoc(fixed, pools + shown + fans, errors);
    var rest := pools + shown + fans + errors;
    assert DetailLines(d) == fixed + rest;
    assert |fixed| == 13;
    PrefixOfConcat(fixed, rest);
  }

  /** How many lines the detail view has, section by section: the thirteen
      fixed lines, the pool lines, at most four boards, the fan line when
      there are fans, and the error block when there are errors. */
  function LineTotal(d: Record): nat
    requires Renderable(d)
  {
    var pairs := WorkerPairs(ListItems(ListEntry(d, "workers")));
    var boards := ListItems(ListEntry(d, "hashboards"));
    var fans := ListItems(ListEntry(d, "fans"));
    var errors := ListItems(ListEntry(d, "errors"));
    13 + |PoolSection(pairs, |pairs|)| + Min(|boards|, BOARDS_SHOWN) + (if fans == [] then 0 else 1) +
      (if errors == [] then 0 else 1 + Min(|errors|, ERRORS_SHOWN))
  }

  /** The detail text has exactly `LineTotal` lines. */
  lemma DetailLinesLength(d: Record)
    requires Renderable(d)
    ensures |DetailLines(d)| == LineTotal(d)
  {
  }

  lemma PrefixOfConcat<T>(a: seq<T>, b: seq<T>)
    ensures (a + b)[..|a|] == a
  {
  }

  /** How many lines the detail view has: thirteen, then one or two per pool,
      at most four boards, one fan line exactly when there are fans, and the
      error block only when there are errors. */
  lemma DetailLineCount(d: Record)
    requires Renderable(d)
    ensures var workers := ListItems(ListEntry(d, "workers"));
            var boards := ListItems(ListEntry(d, "hashboards"));
            var fans := ListItems(ListEntry(d, "fans"));
            var errors := ListItems(ListEntry(d, "errors"));
            13 + |workers| + Min(|boards|, BOARDS_SHOWN) + (if fans == [] then 0 else 1) +
              (if errors == [] then 0 else 1 + Min(|errors|, ERRORS_SHOWN))
            <= |DetailLines(d)| <=
            13 + 2 * |workers| + Min(|boards|, BOARDS_SHOWN) + (if fans == [] then 0 else 1) +
              (if errors == [] then 0 else 1 + Min(|errors|, ERRORS_SHOWN))
  {
  }

  /** The records the normaliser builds can always be shown. */
  lemma NormalisedRenderable(data: Scanner.MinerData, workers: seq<(string, string)>)
    ensures Renderable(Scanner.RecordOf(data, workers))
  {
    Scanner.RecordKeys(data, workers);
    Scanner.RecordLists(data, workers);
    ListsRenderable(Scanner.RecordOf(data, workers), workers, Scanner.OrEmpty(data.hashboards),
                    Scanner.OrEmpty(data.fans), Scanner.OrEmpty(data.errors));
  }

  /** A record whose list entries are built the normaliser's way can be shown. */
  lemma ListsRenderable(d: Record, workers: seq<(string, string)>, boards: seq<Scanner.Board>,
                        fans: seq<Scanner.Fan>, errors: seq<Value>)
    requires "workers" in d && d["workers"] == VList(Scanner.WorkerTuples(workers))
    requires "hashboards" in d && d["hashboards"] == VList(Scanner.BoardInfos(boards))
    requires "fans" in d && d["fans"] == VList(Scanner.FanInfos(fans))
    requires "errors" in d && d["errors"] == VList(Scanner.ErrorTexts(errors))
    ensures Renderable(d)
  {
    var tuples := Scanner.WorkerTuples(workers);
    assert ListEntry(d, "workers") == VList(tuples);
    forall i | 0 <= i < |ListItems(ListEntry(d, "workers"))|
      ensures WorkerShowable(ListItems(ListEntry(d, "workers"))[i])
    {
      assert ListItems(ListEntry(d, "workers"))[i] == tuples[i];
      assert Unpack2(tuples[i]) == Some((VStr(workers[i].0), VStr(workers[i].1)));
    }
    assert ListEntry(d, "hashboards") == VList(Scanner.BoardInfos(boards));
    assert ListEntry(d, "fans") == VList(Scanner.FanInfos(fans));
  }

  /** Every record a scan yields can be shown. */
  lemma ScanResultsRenderable(devices: seq<Scanner.DeviceOutcome>)
    ensures forall r :: r in Scanner.ScanResults(devices) ==> Renderable(r)
  {
    var results := Scanner.ScanResults(devices);
    var fetched := Scanner.FetchedData(devices);
    Scanner.ScanResultsAreFetched(devices);
    forall r | r in results
      ensures Renderable(r)
    {
      var i :| 0 <= i < |results| && results[i] == r;
      NormalisedRenderable(fetched[i], Scanner.WorkersOf(fetched[i]));
    }
  }

  /** The pool loop of `_build_lines`: one or two lines per worker. */
  method AppendPools(start: seq<string>, pairs: seq<(Value, Value)>) returns (lines: seq<string>)
    requires forall i :: 0 <= i < |pairs| ==> UrlShowable(pairs[i].0)
    ensures lines == start + PoolSection(pairs, |pairs|)
  {
    lines := start;
    var i := 0;
    while i < |pairs|
      invariant 0 <= i <= |pairs|
      invariant lines == start + PoolSection(pairs, i)
    {
      var (url, user) := pairs[i];
      ghost var before := lines;
      lines := lines + [PoolLine(i, user)];
      if Truthy(url) {
        lines := lines + [UrlLine(url.s)];
        ConcatAssoc(before, [PoolLine(i, user)], [UrlLine(url.s)]);
      } else {
        assert PoolLines(i, url, user) == [PoolLine(i, user)];
      }
      ConcatAssoc(start, PoolSection(pairs, i), PoolLines(i, url, user));
      i := i + 1;
    }
  }

  /** The hashboard loop of `_build_lines`: a line for each of the first four
      boards. */
  method AppendBoards(start: seq<string>, boards: seq<Value>) returns (lines: seq<string>)
    requires forall i :: 0 <= i < |boards| ==> boards[i].VDict?
    ensures lines == start + BoardSection(boards, Min(|boards|, BOARDS_SHOWN))
  {
    lines := start;
    if boards != [] {
      var shown := Min(|boards|, BOARDS_SHOWN);
      var i := 0;
      while i < shown
        invariant 0 <= i <= shown
        invariant lines == start + BoardSection(boards, i)
      {
        var hb := boards[i];
        lines := lines + ["Board " + Decimal(i + 1) + ": " + Show(Get(hb.entries, "hashrate", VStr("?"))) + " " +
                          Show(Get(hb.entries, "temp", VStr("?"))) + "C"];
        i := i + 1;
      }
    }
  }

  lemma ConcatAssoc<T>(a: seq<T>, b: seq<T>, c: seq<T>)
    ensures a + b + c == a + (b + c)
  {
  }

  /** The error block of `_build_lines`: a heading and the first five errors. */
  method AppendErrors(start: seq<string>, errors: seq<Value>) returns (lines: seq<string>)
    ensures lines == start + ErrorSection(errors)
  {
    lines := start;
    if errors != [] {
      lines := lines + ["Errors:"];
      ghost var heading := lines;
      var shown := Min(|errors|, ERRORS_SHOWN);
      var i := 0;
      while i < shown
        invariant 0 <= i <= shown
        invariant lines == heading + ErrorLines(errors, i)
      {
        ConcatAssoc(heading, ErrorLines(errors, i), [ErrorLine(errors[i])]);
        lines := lines + [ErrorLine(errors[i])];
        i := i + 1;
      }
      ConcatAssoc(start, ["Errors:"], ErrorLines(errors, shown));
    }
  }

  // ================================================================ detail

  /** `_build_lines`: accumulates the detail text line by line. */
  method BuildLines(data: Record) returns (lines: seq<string>)
    requires Renderable(data)
    ensures lines == DetailLines(data)
  {
    var workers := ListItems(ListEntry(data, "workers"));
    var boards := ListItems(ListEntry(data, "hashboards"));
    var fans := ListItems(ListEntry(data, "fans"));
    var errors := ListItems(ListEntry(data, "errors"));
    lines := FixedLines(data);
    lines := AppendPools(lines, WorkerPairs(workers));
    lines := AppendBoards(lines, boards);
    ghost var beforeFans := lines;
    if fans != [] {
      lines := lines + ["Fans: " + Join(", ", FanSpeeds(fans))];
    } else {
      assert lines == beforeFans + FanSection(fans);
    }
    lines := AppendErrors(lines, errors);
  }

  /** The back button's place on the list and detail screens. */
  const BACK_RECT := Rect(10, 5, 80, BACK_HEIGHT)
  /** The detail screen's scroll arrows. */
  const DETAIL_UP := Rect(Config.SCREEN_WIDTH - 52, 45, 44, 44)
  const DETAIL_DOWN := Rect(Config.SCREEN_WIDTH - 52, Config.SCREEN_HEIGHT - 90, 44, 44)

  /** `_max_scroll` for a text of `lineCount` lines. */
  function DetailMaxScroll(lineCount: int): int {
    var totalHeight := lineCount * LINE_HEIGHT;
    if totalHeight - VISIBLE_HEIGHT > 0 then totalHeight - VISIBLE_HEIGHT else 0
  }

  /** The detail screen's arrows pressed at `p` on a text of `lineCount` lines
      scrolled to `scroll`: the up arrow first, by 40 and not below 0, when the
      text can scroll up; then the down arrow, by 40 and not past
      `_max_scroll()`, when it can scroll down. */
  function DetailScrolled(lineCount: int, scroll: int, p: Point): int {
    var limit := DetailMaxScroll(lineCount);
    var afterUp := if DETAIL_UP.Contains(p) && scroll > 0 then
                     (if scroll - SCROLL_STEP > 0 then scroll - SCROLL_STEP else 0)
                   else scroll;
    if DETAIL_DOWN.Contains(p) && afterUp < limit then
      (if afterUp + SCROLL_STEP < limit then afterUp + SCROLL_STEP else limit)
    else afterUp
  }

  /** The detail view of one record. Its record never changes, so the text
      `_build_lines` gives is the same at every call: the model builds it once,
      when the screen is made, and keeps it in `lines`. */
  class DetailScreen {
    const data: Record
    const lines: seq<string>
    const backBtn: Button
    var scroll: int
    const upRect: Rect := DETAIL_UP
    const downRect: Rect := DETAIL_DOWN

    /** `_max_scroll`: the smallest offset, never negative, at which the last
        line is within the visible height. */
    function MaxScroll(): (m: int)
      ensures m >= 0 && m + VISIBLE_HEIGHT >= |lines| * LINE_HEIGHT
      ensures m == 0 || m + VISIBLE_HEIGHT == |lines| * LINE_HEIGHT
    {
      DetailMaxScroll(|lines|)
    }

    /** The scroll position stays between 0 and `_max_scroll()`. */
    ghost predicate Valid()
      reads this
    {
      0 <= scroll <= MaxScroll()
    }

    constructor (record: Record)
      requires Renderable(record)
      ensures Valid() && data == record && lines == DetailLines(record) && scroll == 0 && fresh(backBtn)
      ensures backBtn.rect == BACK_RECT && !backBtn.hover
    {
      var built := BuildLines(record);
      data := record;
      lines := built;
      backBtn := new Button(10, 5, 80, BACK_HEIGHT, "Back");
      scroll := 0;
    }

    /** `DetailScreen.handle_event`. The back button (`backPressed`, the
        `on_back` callback) leads to "list"; the arrows move the text by at most
        40 pixels and keep it within `[0, _max_scroll()]`. */
    method HandleEvent(e: Event) returns (next: Option<ScreenName>, backPressed: bool)
      requires Valid()
      modifies this`scroll, backBtn`hover
      ensures Valid()
      ensures backPressed <==> IsLeftClick(e) && backBtn.Contains(e.pos)
      ensures next == (if backPressed then Some(List) else None)
      ensures -SCROLL_STEP <= scroll - old(scroll) <= SCROLL_STEP
      ensures backPressed || !IsLeftClick(e) ==> scroll == old(scroll)
      ensures IsLeftClick(e) && !backPressed && upRect.Contains(e.pos) && old(scroll) > 0 ==>
                scroll == (if old(scroll) >= SCROLL_STEP then old(scroll) - SCROLL_STEP else 0)
      ensures IsLeftClick(e) && !backPressed && downRect.Contains(e.pos) && old(scroll) < MaxScroll() ==>
                scroll == (if old(scroll) + SCROLL_STEP <= MaxScroll() then old(scroll) + SCROLL_STEP else MaxScroll())
      ensures IsLeftClick(e) && !backPressed && !(upRect.Contains(e.pos) && old(scroll) > 0) &&
              !(downRect.Contains(e.pos) && old(scroll) < MaxScroll()) ==>
                scroll == old(scroll)
      ensures scroll == if IsLeftClick(e) && !backPressed then DetailScrolled(|lines|, old(scroll), e.pos) else old(scroll)
      ensures backBtn.hover == if e.MouseMotion? then backBtn.Contains(e.pos) else old(backBtn.hover)
    {
      next, backPressed := None, false;
      if e.MouseButtonDown? && e.button == LEFT_BUTTON {
        if backBtn.Contains(e.pos) {
          backPressed := true;
          next := Some(List);
          return;
        }
        if upRect.Contains(e.pos) && scroll > 0 {
          scroll := if scroll - SCROLL_STEP > 0 then scroll - SCROLL_STEP else 0;
        }
        if downRect.Contains(e.pos) && scroll < MaxScroll() {
          var limit := MaxScroll();
          scroll := if scroll + SCROLL_STEP < limit then scroll + SCROLL_STEP else limit;
        }
      }
      if e.MouseMotion? {
        backBtn.hover := backBtn.Contains(e.pos);
      }
    }
  }
}
