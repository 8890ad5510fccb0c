/** The touch-screen widgets: integer rectangles, input events, buttons and the
    scrollable miner list. Drawing, fonts and colours are not modelled; what is
    kept is the geometry, the hit-testing and the scroll state. */
module Components {
  import opened Wrappers
  import opened Values
  import Config

  /** A screen rectangle; it holds the points with `x <= px < x + w` and
      `y <= py < y + h` (right and bottom edges excluded). */
  datatype Rect = Rect(x: int, y: int, w: int, h: int) {
    function Right(): int { x + w }
    function Bottom(): int { y + h }
    predicate Contains(p: Point) {
      x <= p.x < x + w && y <= p.y < y + h
    }
  }

  datatype Point = Point(x: int, y: int)

  const LEFT_BUTTON := 1
  const K_ESCAPE := 27

  /** The input events the screens react to; every other kind is `OtherEvent`. */
  datatype Event =
    | Quit
    | KeyDown(key: int)
    | MouseMotion(pos: Point)
    | MouseButtonDown(button: int, pos: Point)
    | OtherEvent

  predicate IsLeftClick(e: Event) {
    e.MouseButtonDown? && e.button == LEFT_BUTTON
  }

  class Button {
    const rect: Rect
    const text: string
    var hover: bool

    constructor (x: int, y: int, width: int, height: int, text: string)
      ensures rect == Rect(x, y, width, height) && this.text == text && !hover
    {
      rect := Rect(x, y, width, height);
      this.text := text;
      hover := false;
    }

    predicate Contains(p: Point) {
      rect.Contains(p)
    }

    /** `Button.handle_event`: true only for a left-button press inside the
        button; a motion event sets `hover` to whether the pointer is inside. */
    method HandleEvent(e: Event) returns (pressed: bool)
      modifies this`hover
      ensures pressed <==> IsLeftClick(e) && Contains(e.pos)
      ensures e.MouseMotion? ==> hover == Contains(e.pos)
      ensures !e.MouseMotion? ==> hover == old(hover)
    {
      if e.MouseMotion? {
        hover := Contains(e.pos);
      } else if e.MouseButtonDown? && e.button == LEFT_BUTTON {
        if Contains(e.pos) {
          return true;
        }
      }
      return false;
    }
  }

  /** What a tap on the scrollable list hits. */
  datatype Hit = Up | Down | Item(index: int) | NoHit

  /** Side of the square scroll arrows. */
  const ARROW_SIZE := if Config.MIN_TOUCH_TARGET > 48 then Config.MIN_TOUCH_TARGET else 48

  class ScrollableList {
    const rect: Rect
    const itemHeight: int
    const upRect: Rect
    const downRect: Rect
    const listWidth: int
    var items: seq<Record>
    var scrollOffset: int

    /** The scroll offset lies between 0 and the largest useful offset. */
    ghost predicate Valid()
      reads this
    {
      itemHeight > 0 && 0 <= scrollOffset <= MaxScroll()
    }

    constructor (x: int, y: int, width: int, height: int, itemHeight: int)
      requires itemHeight > 0
      ensures Valid() && items == [] && scrollOffset == 0
      ensures rect == Rect(x, y, width, height) && this.itemHeight == itemHeight
      ensures upRect == Rect(x + width - ARROW_SIZE - 4, y, ARROW_SIZE, ARROW_SIZE / 2)
      ensures downRect == Rect(x + width - ARROW_SIZE - 4, y + height - ARROW_SIZE / 2, ARROW_SIZE, ARROW_SIZE / 2)
      ensures listWidth == width - ARROW_SIZE - 8
    {
      rect := Rect(x, y, width, height);
      this.itemHeight := itemHeight;
      items := [];
      scrollOffset := 0;
      upRect := Rect(x + width - ARROW_SIZE - 4, y, ARROW_SIZE, ARROW_SIZE / 2);
      downRect := Rect(x + width - ARROW_SIZE - 4, y + height - ARROW_SIZE / 2, ARROW_SIZE, ARROW_SIZE / 2);
      listWidth := width - ARROW_SIZE - 8;
    }

    /** `max_scroll`: how far the content overflows the list's height, never
        negative. */
    function MaxScroll(): (m: int)
      reads this
      ensures m >= 0 && m >= |items| * itemHeight - rect.h
      ensures m == 0 || m == |items| * itemHeight - rect.h
    {
      MaxScrollFor(|items|)
    }

    /** `max_scroll` of this list's geometry when it holds `count` rows. */
    function MaxScrollFor(count: int): int {
      var totalHeight := count * itemHeight;
      if totalHeight - rect.h > 0 then totalHeight - rect.h else 0
    }

    /** The part of the list that shows rows (the arrows' column excluded). */
    function ListRect(): Rect {
      Rect(rect.x, rect.y, listWidth, rect.h)
    }

    /** `hit_test`: the up arrow only when the list can scroll up, then the down
        arrow only when it can scroll down, then a row index within the items,
        and nothing for a point outside the rows' area. Python's `//` is the
        floor division, which for a positive item height is Dafny's `/`. */
    function HitTest(p: Point): (r: Hit)
      reads this
      requires itemHeight > 0
      ensures r == Up <==> upRect.Contains(p) && scrollOffset > 0
      ensures r == Down <==>
                (!(upRect.Contains(p) && scrollOffset > 0) && downRect.Contains(p) && scrollOffset < MaxScroll())
      ensures r.Item? ==> ListRect().Contains(p) && 0 <= r.index < |items|
      ensures r.Item? ==> r.index * itemHeight <= p.y - rect.y + scrollOffset < (r.index + 1) * itemHeight
      ensures !ListRect().Contains(p) ==> r == Up || r == Down || r == NoHit
      ensures !(upRect.Contains(p) && scrollOffset > 0) && !(downRect.Contains(p) && scrollOffset < MaxScroll()) &&
              ListRect().Contains(p) && 0 <= (p.y - rect.y + scrollOffset) / itemHeight < |items| ==>
                r == Item((p.y - rect.y + scrollOffset) / itemHeight)
      ensures r == NoHit <==>
                !(upRect.Contains(p) && scrollOffset > 0) && !(downRect.Contains(p) && scrollOffset < MaxScroll()) &&
                (!ListRect().Contains(p) || !(0 <= (p.y - rect.y + scrollOffset) / itemHeight < |items|))
    {
      HitAt(|items|, scrollOffset, p)
    }

    /** `hit_test` of this list's geometry when it holds `count` rows scrolled
        to `offset`. */
    function HitAt(count: int, offset: int, p: Point): (r: Hit)
      requires itemHeight > 0
      ensures r.Item? ==> 0 <= r.index < count
    {
      if upRect.Contains(p) && offset > 0 then Up
      else if downRect.Contains(p) && offset < MaxScrollFor(count) then Down
      else if !ListRect().Contains(p) then NoHit
      else
        var relY := p.y - rect.y + offset;
        var index := relY / itemHeight;
        if 0 <= index < count then Item(index) else NoHit
    }

    /** `set_items`: new items, scrolled back to the top. */
    method SetItems(newItems: seq<Record>)
      requires itemHeight > 0
      modifies this`items, this`scrollOffset
      ensures Valid() && items == newItems && scrollOffset == 0
    {
      items := newItems;
      scrollOffset := 0;
    }

    /** `scroll_up`: one row up, stopping at the top. */
    method ScrollUp()
      requires Valid()
      modifies this`scrollOffset
      ensures Valid()
      ensures scrollOffset == if old(scrollOffset) >= itemHeight then old(scrollOffset) - itemHeight else 0
      ensures scrollOffset <= old(scrollOffset)
    {
      scrollOffset := if scrollOffset - itemHeight > 0 then scrollOffset - itemHeight else 0;
    }

    /** `scroll_down`: one row down, stopping at `max_scroll`. */
    method ScrollDown()
      requires Valid()
      modifies this`scrollOffset
      ensures Valid()
      ensures scrollOffset == if old(scrollOffset) + itemHeight <= MaxScroll() then old(scrollOffset) + itemHeight
                              else MaxScroll()
      ensures scrollOffset >= old(scrollOffset)
    {
      var limit := MaxScroll();
      scrollOffset := if scrollOffset + itemHeight < limit then scrollOffset + itemHeight else limit;
    }
  }
}
