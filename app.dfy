/** The application loop: which screen is shown, how events are routed to it,
    how the Escape key and the window's close event act, and how a background
    scan hands its records to the screens. Drawing, the frame clock and the
    display set-up are not modelled. The scan thread's two steps (`ScanBegins`,
    `ScanFinishes`) are separate atomic methods; in the program they may run
    between any two events. */
module App {
  import opened Wrappers
  import opened Values
  import opened Components
  import opened Screens
  import Scanner

  /** How `run_scan` ends: it raises, or returns the records of the devices
      the scan found. */
  datatype ScanOutcome = ScanRaised | ScanCompleted(devices: seq<Scanner.DeviceOutcome>)

  /** The records a finished scan leaves: none when the scan raised. */
  function ScanRecords(outcome: ScanOutcome): seq<Record> {
    match outcome
    case ScanRaised => []
    case ScanCompleted(devices) => Scanner.ScanResults(devices)
  }

  /** Whether an event is the Escape key. */
  predicate IsEscape(e: Event) {
    e.KeyDown? && e.key == K_ESCAPE
  }

  /** The position of the first close event, or the length when there is none. */
  function FirstQuit(events: seq<Event>): (q: nat)
    ensures q <= |events|
    ensures q < |events| ==> events[q].Quit?
    ensures forall k :: 0 <= k < q ==> !events[k].Quit?
  {
    if events == [] then 0
    else if events[0].Quit? then 0
    else 1 + FirstQuit(events[1..])
  }

  /** What a detail screen holds: its record, the number of its text lines,
      the scroll offset and whether the back button is hovered. */
  datatype DetailState = DetailState(data: Record, lineCount: int, scroll: int, backHover: bool)

  /** Everything an event reads or changes: the shown screen, the loop flag,
      whether the scan thread is alive, the records and the home screen's
      scanning flag (read, never changed by an event), the hover state of each
      button, the list's scroll offset, and the detail screen when there is one. */
  datatype UiState = UiState(
    screen: ScreenName, running: bool, scanAlive: bool,
    miners: seq<Record>, scanning: bool,
    scanHover: bool, viewHover: bool,
    listOffset: int, listBackHover: bool,
    detail: Option<DetailState>)

  /** Every record the list holds can be shown in detail. */
  ghost predicate Showable(u: UiState) {
    forall m :: m in u.miners ==> Renderable(m)
  }

  /** How many events of a frame the loop handles: up to and including the
      first close event (after which it breaks), or all of them. */
  function FrameEnd(events: seq<Event>): (n: nat)
    ensures n <= |events|
  {
    if FirstQuit(events) < |events| then FirstQuit(events) + 1 else |events|
  }

  class App {
    const home: HomeScreen
    const listScreen: MinerListScreen
    var detailScreen: DetailScreen?
    var currentScreen: ScreenName
    var running: bool
    var miners: seq<Record>
    /** Whether the scan thread is alive. */
    var scanAlive: bool

    /** A detail screen exists exactly while it is shown; the home and list
        screens hold the records of the last scan; every listed record can be
        shown in detail; the scanning flag is only set by a live scan. */
    ghost predicate Valid()
      reads this, home, listScreen, listScreen.list, detailScreen
    {
      && home.Valid() && listScreen.Valid()
      && home.scanBtn != listScreen.backBtn && home.viewBtn != listScreen.backBtn
      && (detailScreen != null ==>
            && detailScreen.backBtn.rect == BACK_RECT
            && detailScreen.backBtn != home.scanBtn && detailScreen.backBtn != home.viewBtn
            && detailScreen.backBtn != listScreen.backBtn)
      && (detailScreen != null <==> currentScreen == Detail)
      && (detailScreen != null ==> detailScreen.Valid())
      && home.miners == miners && listScreen.miners == miners
      && (forall m :: m in miners ==> Renderable(m))
      && (home.scanning ==> scanAlive)
    }

    /** The state events act on. */
    ghost function Ui(): UiState
      reads this, home, home.scanBtn, home.viewBtn, listScreen, listScreen.list, listScreen.backBtn
      reads if detailScreen == null then {} else {detailScreen, detailScreen.backBtn}
    {
      UiState(currentScreen, running, scanAlive, miners, home.scanning,
              home.scanBtn.hover, home.viewBtn.hover,
              listScreen.list.scrollOffset, listScreen.backBtn.hover,
              if detailScreen == null then None
              else Some(DetailState(detailScreen.data, |detailScreen.lines|, detailScreen.scroll,
                                    detailScreen.backBtn.hover)))
    }

    /** One pass of the event loop's body (main.py:82-107), with each screen's
        `handle_event` and the callbacks written out on values: a close event
        stops the loop, Escape steps back, any other event goes to the shown
        screen. This is the reference `HandleEvent` is proved against. */
    ghost function Step(u: UiState, e: Event): (r: UiState)
      requires listScreen.list.itemHeight > 0 && Showable(u)
      ensures r.miners == u.miners
    {
      if e.Quit? then u.(running := false)
      else if IsEscape(e) then
        match u.screen
        case Detail => u.(screen := List, detail := None)
        case List => u.(screen := Home)
        case Home => u.(running := false)
      else
        match u.screen
        case Home => HomeStep(u, e)
        case List => ListStep(u, e)
        case Detail => if u.detail.Some? then DetailStep(u, e) else u
    }

    /** The home screen: motion moves the scan button's hover; a scan press
        starts the thread unless one is alive or a scan shows as running; with
        records, motion moves the view button's hover and a view press opens
        the list. */
    ghost function HomeStep(u: UiState, e: Event): (r: UiState)
      ensures r.running == u.running && r.miners == u.miners && r.scanning == u.scanning
    {
      var hovered := u.(scanHover := if e.MouseMotion? then home.scanBtn.Contains(e.pos) else u.scanHover);
      if IsLeftClick(e) && home.scanBtn.Contains(e.pos) then
        hovered.(scanAlive := u.scanAlive || !u.scanning)
      else if u.miners == [] then hovered
      else if IsLeftClick(e) && home.viewBtn.Contains(e.pos) then hovered.(screen := List, detail := None)
      else hovered.(viewHover := if e.MouseMotion? then home.viewBtn.Contains(e.pos) else u.viewHover)
    }

    /** The list screen: a left press on back returns home; otherwise the hit
        test decides: the arrows scroll one row (`max(0, off - h)`,
        `min(max_scroll, off + h)`), a row opens a new detail screen for its
        record at the top. Motion moves the back button's hover. */
    ghost function ListStep(u: UiState, e: Event): (r: UiState)
      requires listScreen.list.itemHeight > 0 && Showable(u)
      ensures r.running == u.running && r.miners == u.miners && r.scanning == u.scanning
    {
      var list := listScreen.list;
      if IsLeftClick(e) then
        if listScreen.backBtn.Contains(e.pos) then u.(screen := Home)
        else
          match list.HitAt(|u.miners|, u.listOffset, e.pos)
          case Up =>
            u.(listOffset := if u.listOffset - list.itemHeight > 0 then u.listOffset - list.itemHeight else 0)
          case Down =>
            var limit := list.MaxScrollFor(|u.miners|);
            u.(listOffset := if u.listOffset + list.itemHeight < limit then u.listOffset + list.itemHeight else limit)
          case Item(i) =>
            u.(screen := Detail,
               detail := Some(DetailState(u.miners[i], LineTotal(u.miners[i]), 0, false)))
          case NoHit => u
      else if e.MouseMotion? then u.(listBackHover := listScreen.backBtn.Contains(e.pos))
      else u
    }

    /** The detail screen: a left press on back returns to the list and drops
        the detail screen; any other left press goes to the arrows. Motion moves
        the back button's hover. */
    ghost function DetailStep(u: UiState, e: Event): (r: UiState)
      requires u.detail.Some?
      ensures r.running == u.running && r.miners == u.miners && r.scanning == u.scanning
    {
      var d := u.detail.value;
      if IsLeftClick(e) then
        if BACK_RECT.Contains(e.pos) then u.(screen := List, detail := None)
        else u.(detail := Some(d.(scroll := DetailScrolled(d.lineCount, d.scroll, e.pos))))
      else if e.MouseMotion? then u.(detail := Some(d.(backHover := BACK_RECT.Contains(e.pos))))
      else u
    }

    /** The events handed to `Step` one after another. */
    ghost function Steps(u: UiState, events: seq<Event>): (r: UiState)
      requires listScreen.list.itemHeight > 0 && Showable(u)
      ensures r.miners == u.miners
      decreases |events|
    {
      if events == [] then u
      else Step(Steps(u, events[..|events| - 1]), events[|events| - 1])
    }

    /** One frame: its events up to and including the first close event. */
    ghost function Frame(u: UiState, events: seq<Event>): (r: UiState)
      requires listScreen.list.itemHeight > 0 && Showable(u)
      ensures r.miners == u.miners
    {
      Steps(u, events[..FrameEnd(events)])
    }

    /** `while running`: frames are handled one after another until a frame
        leaves the loop stopped. */
    ghost function RunFrom(u: UiState, frames: seq<seq<Event>>): UiState
      requires listScreen.list.itemHeight > 0 && Showable(u)
      decreases |frames|
    {
      if !u.running || frames == [] then u
      else RunFrom(Frame(u, frames[0]), frames[1..])
    }

    /** How many of the given frames `while running` handles. */
    ghost function FramesRun(u: UiState, frames: seq<seq<Event>>): nat
      requires listScreen.list.itemHeight > 0 && Showable(u)
      decreases |frames|
    {
      if !u.running || frames == [] then 0
      else 1 + FramesRun(Frame(u, frames[0]), frames[1..])
    }

    /** An event other than a close event or Escape leaves the loop flag as it was. */
    lemma StepKeepsRunning(u: UiState, e: Event)
      requires listScreen.list.itemHeight > 0 && Showable(u)
      requires !e.Quit? && !IsEscape(e)
      ensures Step(u, e).running == u.running
    {
    }

    /** Events other than a close event or Escape leave the loop flag as it was. */
    lemma {:induction false} StepsKeepRunning(u: UiState, events: seq<Event>)
      requires listScreen.list.itemHeight > 0 && Showable(u)
      requires forall i :: 0 <= i < |events| ==> !events[i].Quit? && !IsEscape(events[i])
      ensures Steps(u, events).running == u.running
      decreases |events|
    {
      if events != [] {
        var init := events[..|events| - 1];
        StepsKeepRunning(u, init);
        StepKeepsRunning(Steps(u, init), events[|events| - 1]);
      }
    }

    /** A frame with neither a close event nor Escape leaves the loop running
        as it was. */
    lemma FrameKeepsRunning(u: UiState, events: seq<Event>)
      requires listScreen.list.itemHeight > 0 && Showable(u)
      requires forall i :: 0 <= i < |events| ==> !events[i].Quit? && !IsEscape(events[i])
      ensures Frame(u, events).running == u.running
    {
      StepsKeepRunning(u, events[..FrameEnd(events)]);
    }

    /** A close event anywhere in a frame stops the loop (main.py:83-85). */
    lemma FrameStopsAtClose(u: UiState, events: seq<Event>)
      requires listScreen.list.itemHeight > 0 && Showable(u)
      requires exists i :: 0 <= i < |events| && events[i].Quit?
      ensures !Frame(u, events).running
    {
      var i :| 0 <= i < |events| && events[i].Quit?;
      var q := FirstQuit(events);
      assert q <= i;
      var handled := events[..q + 1];
      assert handled[..|handled| - 1] == events[..q];
    }

    /** The loop breaks at the first close event: events after it in the same
        frame change nothing. */
    lemma FrameIgnoresAfterClose(u: UiState, events: seq<Event>, rest: seq<Event>)
      requires listScreen.list.itemHeight > 0 && Showable(u)
      requires exists i :: 0 <= i < |events| && events[i].Quit?
      ensures Frame(u, events + rest) == Frame(u, events)
    {
      var i :| 0 <= i < |events| && events[i].Quit?;
      var q := FirstQuit(events);
      assert q <= i;
      assert (events + rest)[q].Quit?;
      assert FirstQuit(events + rest) == q;
      assert (events + rest)[..q + 1] == events[..q + 1];
    }

    /** A stopped loop handles no frame and changes nothing (main.py:81). */
    lemma StoppedRunsNothing(u: UiState, frames: seq<seq<Event>>)
      requires listScreen.list.itemHeight > 0 && Showable(u)
      requires !u.running
      ensures RunFrom(u, frames) == u && FramesRun(u, frames) == 0
    {
    }

    /** The loop handles at most the frames given, and handles fewer only when
        it has stopped. */
    lemma {:induction false} RunBounds(u: UiState, frames: seq<seq<Event>>)
      requires listScreen.list.itemHeight > 0 && Showable(u)
      ensures FramesRun(u, frames) <= |frames|
      ensures FramesRun(u, frames) < |frames| ==> !RunFrom(u, frames).running
      decreases |frames|
    {
      if u.running && frames != [] {
        RunBounds(Frame(u, frames[0]), frames[1..]);
      }
    }

    constructor ()
      ensures Valid() && fresh(home) && fresh(listScreen)
      ensures currentScreen == Home && running && miners == [] && !scanAlive && !home.scanning
    {
      home := new HomeScreen();
      listScreen := new MinerListScreen([]);
      detailScreen := null;
      currentScreen := Home;
      running := true;
      miners := [];
      scanAlive := false;
    }

    /** `on_scan_click`: starts the scan thread unless one is still alive. */
    method OnScanClick() returns (started: bool)
      modifies this`scanAlive
      ensures started == !old(scanAlive)
      ensures scanAlive
    {
      if scanAlive {
        return false;
      }
      scanAlive := true;
      return true;
    }

    /** The first step of `do_scan`: the home screen shows that a scan runs. */
    method ScanBegins()
      requires Valid() && scanAlive
      modifies home`scanning
      ensures Valid() && home.scanning
    {
      home.SetScanning(true);
    }

    /** The rest of `do_scan`: the records (none when the scan raised) go to the
        home and list screens, the home screen stops showing a scan and
        records the time it ended, and the thread ends. The shown screen is
        left as it was. */
    method ScanFinishes(outcome: ScanOutcome, now: string)
      requires Valid() && scanAlive
      modifies this`miners, this`scanAlive, home`scanning, home`lastScan, home`miners,
               listScreen`miners, listScreen.list`items, listScreen.list`scrollOffset
      ensures Valid()
      ensures miners == ScanRecords(outcome)
      ensures !home.scanning && home.lastScan == Some(now) && home.miners == miners
      ensures listScreen.miners == miners && listScreen.list.scrollOffset == 0
      ensures !scanAlive
    {
      match outcome {
        case ScanRaised =>
          miners := [];
        case ScanCompleted(devices) =>
          ScanResultsRenderable(devices);
          miners := Scanner.ScanResults(devices);
      }
      home.SetScanning(false);
      home.SetLastScan(Some(now));
      home.SetMiners(miners);
      listScreen.SetMiners(miners);
      scanAlive := false;
    }

    /** One pass of the event loop's body. A close event stops the loop and
        ends the frame (`stop`); Escape goes from detail to list (dropping the
        detail screen), from list to home, and on home stops the loop; any
        other event goes to the shown screen, whose answer, when it names a
        screen, becomes the shown screen. */
    method HandleEvent(e: Event) returns (stop: bool)
      requires Valid()
      modifies this, home.scanBtn, home.viewBtn, listScreen.list, listScreen.backBtn
      modifies if detailScreen == null then {} else {detailScreen, detailScreen.backBtn}
      ensures Valid()
      ensures Ui() == Step(old(Ui()), e)
      ensures stop <==> e.Quit?
      ensures e.Quit? ==> !running && currentScreen == old(currentScreen)
      ensures IsEscape(e) ==>
                && (old(currentScreen) == Detail ==> currentScreen == List && running == old(running))
                && (old(currentScreen) == List ==> currentScreen == Home && running == old(running))
                && (old(currentScreen) == Home ==> currentScreen == Home && !running)
      ensures !e.Quit? && !IsEscape(e) ==> running == old(running)
      ensures !e.Quit? && !IsEscape(e) && old(currentScreen) == Home ==>
                && (currentScreen == Home || currentScreen == List)
                && (currentScreen == List <==>
                      IsLeftClick(e) && !home.scanBtn.Contains(e.pos) && miners != [] && home.viewBtn.Contains(e.pos))
      ensures !e.Quit? && !IsEscape(e) && old(currentScreen) == List ==>
                && (currentScreen == Home <==> IsLeftClick(e) && listScreen.backBtn.Contains(e.pos))
                && (currentScreen == Detail <==>
                      IsLeftClick(e) && !listScreen.backBtn.Contains(e.pos) && old(listScreen.list.HitTest(e.pos)).Item?)
                && (currentScreen == Detail ==> detailScreen.data == miners[old(listScreen.list.HitTest(e.pos)).index])
      ensures !e.Quit? && !IsEscape(e) && old(currentScreen) == Detail ==>
                && (currentScreen == Detail || currentScreen == List)
                && (currentScreen == List <==> IsLeftClick(e) && old(detailScreen).backBtn.Contains(e.pos))
                && (currentScreen == Detail ==> detailScreen == old(detailScreen))
      ensures !IsLeftClick(e) && !IsEscape(e) ==> currentScreen == old(currentScreen)
      ensures miners == old(miners) && home.scanning == old(home.scanning)
      ensures old(scanAlive) ==> scanAlive
      ensures !old(scanAlive) && scanAlive ==>
                old(currentScreen) == Home && IsLeftClick(e) && home.scanBtn.Contains(e.pos) && !home.scanning
      ensures old(currentScreen) == Home && IsLeftClick(e) && home.scanBtn.Contains(e.pos) && !home.scanning ==>
                scanAlive
      ensures detailScreen != null ==>
                detailScreen == old(detailScreen) || (fresh(detailScreen) && fresh(detailScreen.backBtn))
    {
      stop := false;
      if e.Quit? {
        running := false;
        return true;
      }
      if IsEscape(e) {
        Escape();
        return;
      }
      if currentScreen == Home {
        HomeEvent(e);
      } else if currentScreen == List {
        ListEvent(e);
      } else if detailScreen != null {
        DetailEvent(e);
      }
    }

    /** Escape: detail to list (dropping the detail screen), list to home, and
        on home the loop stops. */
    method Escape()
      requires Valid()
      modifies this`currentScreen, this`detailScreen, this`running
      ensures Valid()
      ensures old(currentScreen) == Detail ==> currentScreen == List && running == old(running)
      ensures old(currentScreen) == List ==> currentScreen == Home && running == old(running)
      ensures old(currentScreen) == Home ==> currentScreen == Home && !running
      ensures detailScreen == if old(currentScreen) == Detail then null else old(detailScreen)
    {
      if currentScreen == Detail {
        currentScreen := List;
        detailScreen := null;
      } else if currentScreen == List {
        currentScreen := Home;
      } else {
        running := false;
      }
    }

    /** A screen's answer: a named screen becomes the shown one, and entering
        the list drops the detail screen. */
    method SwitchTo(next: Option<ScreenName>)
      modifies this`currentScreen, this`detailScreen
      ensures next.None? ==> currentScreen == old(currentScreen) && detailScreen == old(detailScreen)
      ensures next.Some? ==> currentScreen == next.value
      ensures detailScreen == if next == Some(List) then null else old(detailScreen)
    {
      if next.Some? {
        currentScreen := next.value;
        if currentScreen == List {
          detailScreen := null;
        }
      }
    }

    /** An event on the home screen: a scan press starts the scan thread when
        none is alive and no scan shows as running; the view press opens the
        list when there are records. */
    method HomeEvent(e: Event)
      requires Valid() && currentScreen == Home
      modifies this`currentScreen, this`detailScreen, this`scanAlive, home.scanBtn`hover, home.viewBtn`hover
      ensures Valid()
      ensures Ui() == HomeStep(old(Ui()), e)
      ensures currentScreen == Home || currentScreen == List
      ensures currentScreen == List <==>
                IsLeftClick(e) && !home.scanBtn.Contains(e.pos) && miners != [] && home.viewBtn.Contains(e.pos)
      ensures scanAlive == (old(scanAlive) || (IsLeftClick(e) && home.scanBtn.Contains(e.pos) && !home.scanning))
    {
      var next, scanClicked := home.HandleEvent(e);
      if scanClicked {
        var _ := OnScanClick();
      } else if next.Some? {
        SwitchTo(next);
      }
    }

    /** An event on the list screen: the back press returns home; a row press
        opens a detail screen for that row's record. */
    method ListEvent(e: Event)
      requires Valid() && currentScreen == List
      modifies this`currentScreen, this`detailScreen, listScreen.list`scrollOffset, listScreen.backBtn`hover
      ensures Valid()
      ensures Ui() == ListStep(old(Ui()), e)
      ensures currentScreen == Home <==> IsLeftClick(e) && listScreen.backBtn.Contains(e.pos)
      ensures currentScreen == Detail <==>
                IsLeftClick(e) && !listScreen.backBtn.Contains(e.pos) && old(listScreen.list.HitTest(e.pos)).Item?
      ensures currentScreen == Detail ==> detailScreen.data == miners[old(listScreen.list.HitTest(e.pos)).index]
      ensures detailScreen != null ==> fresh(detailScreen) && fresh(detailScreen.backBtn)
    {
      var next, selected, backPressed := listScreen.HandleEvent(e);
      if selected.Some? {
        Select(selected.value);
      } else {
        SwitchTo(next);
      }
    }

    /** `on_select` and the switch to "detail": a new detail screen for the
        record, at the top and not hovered, becomes the shown screen. */
    method Select(record: Record)
      requires Valid() && record in miners
      modifies this`currentScreen, this`detailScreen
      ensures Valid() && currentScreen == Detail && detailScreen != null
      ensures detailScreen.data == record && fresh(detailScreen) && fresh(detailScreen.backBtn)
      ensures Ui() == old(Ui()).(screen := Detail,
                                 detail := Some(DetailState(record, LineTotal(record), 0, false)))
    {
      detailScreen := OpenDetail(record);
      currentScreen := Detail;
    }

    /** `on_select`: a new detail screen for the chosen record, scrolled to the top. */
    static method OpenDetail(record: Record) returns (d: DetailScreen)
      requires Renderable(record)
      ensures fresh(d) && fresh(d.backBtn) && d.Valid() && d.data == record && d.scroll == 0
      ensures |d.lines| == LineTotal(record) && d.backBtn.rect == BACK_RECT && !d.backBtn.hover
    {
      d := new DetailScreen(record);
      DetailLinesLength(record);
    }

    /** An event on the detail screen: the back press returns to the list;
        otherwise the same detail screen stays. */
    method DetailEvent(e: Event)
      requires Valid() && currentScreen == Detail && detailScreen != null
      modifies this`currentScreen, this`detailScreen, detailScreen`scroll, detailScreen.backBtn`hover
      ensures Valid()
      ensures Ui() == DetailStep(old(Ui()), e)
      ensures currentScreen == Detail || currentScreen == List
      ensures currentScreen == List <==> IsLeftClick(e) && old(detailScreen).backBtn.Contains(e.pos)
      ensures currentScreen == Detail ==> detailScreen == old(detailScreen)
    {
      var next, backPressed := detailScreen.HandleEvent(e);
      SwitchTo(next);
    }

    /** The events of one frame, handled in order until a close event: the
        state afterwards is `Step` applied to each event up to and including
        the first close event, and to no event after it (what that means for
        the loop flag: `FrameStopsAtClose`, `FrameKeepsRunning`). */
    method ProcessEvents(events: seq<Event>)
      requires Valid()
      modifies this, home.scanBtn, home.viewBtn, listScreen.list, listScreen.backBtn
      modifies if detailScreen == null then {} else {detailScreen, detailScreen.backBtn}
      ensures Valid()
      ensures Ui() == Frame(old(Ui()), events)
      ensures miners == old(miners)
      ensures detailScreen != null ==>
                detailScreen == old(detailScreen) || (fresh(detailScreen) && fresh(detailScreen.backBtn))
    {
      var i := 0;
      while i < |events|
        invariant 0 <= i <= |events|
        invariant Valid()
        invariant miners == old(miners)
        invariant Ui() == Steps(old(Ui()), events[..i])
        invariant detailScreen != null ==>
                    detailScreen == old(detailScreen) || (fresh(detailScreen) && fresh(detailScreen.backBtn))
        invariant forall k :: 0 <= k < i ==> !events[k].Quit?
      {
        var stop := HandleEvent(events[i]);
        assert events[..i + 1][..i] == events[..i];
        if stop {
          assert FirstQuit(events) == i;
          return;
        }
        i := i + 1;
      }
      assert events[..|events|] == events;
    }

    /** `while running`: one frame after another until the loop is stopped.
        The state afterwards is `RunFrom` of the frames, and `handled` is how
        many of them were processed: none when the loop was not running, and
        fewer than given only when it stopped. */
    method Run(frames: seq<seq<Event>>) returns (handled: nat)
      requires Valid()
      modifies this, home.scanBtn, home.viewBtn, listScreen.list, listScreen.backBtn
      modifies if detailScreen == null then {} else {detailScreen, detailScreen.backBtn}
      ensures Valid()
      ensures Ui() == RunFrom(old(Ui()), frames)
      ensures handled == FramesRun(old(Ui()), frames)
      ensures handled <= |frames|
      ensures handled < |frames| ==> !running
      ensures !old(running) ==> handled == 0 && Ui() == old(Ui())
      ensures miners == old(miners)
    {
      handled := 0;
      while running && handled < |frames|
        invariant handled <= |frames|
        invariant Valid()
        invariant miners == old(miners)
        invariant RunFrom(Ui(), frames[handled..]) == RunFrom(old(Ui()), frames)
        invariant handled + FramesRun(Ui(), frames[handled..]) == FramesRun(old(Ui()), frames)
        invariant !old(running) ==> handled == 0
        invariant detailScreen != null ==>
                    detailScreen == old(detailScreen) || (fresh(detailScreen) && fresh(detailScreen.backBtn))
      {
        ProcessEvents(frames[handled]);
        assert frames[handled..][1..] == frames[handled + 1..];
        handled := handled + 1;
      }
    }
  }
}
