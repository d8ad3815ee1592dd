/**
 * Polled UI building blocks (components.py): the non-threaded interval
 * timer, and the press and focus state of buttons and input fields.
 *
 * The clock is the parameter `now` (seconds). A callback is represented by
 * whether one was given and by a count of its invocations. Pointer events
 * carry integer coordinates; `Rect.collidepoint` is `Collides`.
 */
module Components {
  import opened Wrappers

  /** `SCREEN_SIZE[0]`, the display width in pixels. */
  const ScreenWidth: int := 480

  /** Python's `int()` on a float: truncation toward zero. */
  function Trunc(x: real): (r: int)
    ensures x >= 0.0 ==> 0 <= r && r as real <= x < r as real + 1.0
    ensures x < 0.0 ==> r <= 0 && r as real - 1.0 < x <= r as real
  {
    if x >= 0.0 then x.Floor else -((-x).Floor)
  }

  /** A `pygame.Rect`: left, top, width, height. */
  datatype Rect = Rect(x: int, y: int, w: int, h: int)

  /** `rect.collidepoint((px, py))`: the left and top edges are inside, the right and bottom edges are not. */
  predicate Collides(r: Rect, px: int, py: int)
  {
    r.x <= px < r.x + r.w && r.y <= py < r.y + r.h
  }

  /** `r` moved in by `d` pixels on every side (out, for a negative `d`). */
  function Inset(r: Rect, d: int): Rect
  {
    Rect(r.x + d, r.y + d, r.w - 2 * d, r.h - 2 * d)
  }

  /** A point inside a rectangle inset by a non-negative amount is inside the rectangle. */
  lemma InsetInside(r: Rect, d: int, px: int, py: int)
    requires d >= 0 && Collides(Inset(r, d), px, py)
    ensures Collides(r, px, py)
  {
  }

  /** A pygame event as the components see it. */
  datatype Event = MouseButtonDown(px: int, py: int) | MouseButtonUp(px: int, py: int) | OtherEvent

  predicate IsPointer(e: Event)
  {
    e.MouseButtonDown? || e.MouseButtonUp?
  }

  predicate PressInside(e: Event, r: Rect)
  {
    e.MouseButtonDown? && Collides(r, e.px, e.py)
  }

  // ---------------------------------------------------------------- button

  /** `Button.__border_width__`. */
  const BorderWidth: int := 2

  /** The three rectangles of a button: its outline, its border and its face. */
  datatype ButtonRects = ButtonRects(black: Rect, border: Rect, button: Rect)

  /**
   * The rectangles a button is built with: the outline at the truncated
   * position, the border one pixel inside it, and the face a further
   * `BorderWidth` inside the border.
   */
  function ButtonGeometry(x: real, y: real, width: int, height: int): (g: ButtonRects)
    ensures g.black == Rect(Trunc(x), Trunc(y), width, height)
    ensures g.border == Inset(g.black, 1)
    ensures g.button == Inset(g.border, BorderWidth)
  {
    var left := Trunc(x);
    var top := Trunc(y);
    ButtonRects(
      Rect(left, top, width, height),
      Rect(left + 1, top + 1, width - 2, height - 2),
      Rect(left + 1 + BorderWidth, top + 1 + BorderWidth, width - 2 - BorderWidth * 2, height - 2 - BorderWidth * 2))
  }

  /** A press on the face of a button lands on its border and on its outline too. */
  lemma FaceInsideBorder(x: real, y: real, width: int, height: int, px: int, py: int)
    requires Collides(ButtonGeometry(x, y, width, height).button, px, py)
    ensures Collides(ButtonGeometry(x, y, width, height).border, px, py)
    ensures Collides(ButtonGeometry(x, y, width, height).black, px, py)
  {
    var g := ButtonGeometry(x, y, width, height);
    InsetInside(g.border, BorderWidth, px, py);
    InsetInside(g.black, 1, px, py);
  }

  /** The pressed flag after one event: a press sets it to whether it hit the face, a release clears it. */
  function PressedAfterEvent(pressed: bool, e: Event, face: Rect): (r: bool)
    ensures r <==> PressInside(e, face) || (pressed && !IsPointer(e))
  {
    match e
    case MouseButtonDown(px, py) => Collides(face, px, py)
    case MouseButtonUp(_, _) => false
    case OtherEvent => pressed
  }

  /** The pressed flag after the events `es`, handled in order. */
  function PressedAfter(pressed: bool, es: seq<Event>, face: Rect): (r: bool)
    ensures (forall j :: 0 <= j < |es| ==> !IsPointer(es[j])) ==> r == pressed
    ensures es != [] && IsPointer(es[|es| - 1]) ==> (r <==> PressInside(es[|es| - 1], face))
    decreases |es|
  {
    if es == [] then pressed
    else PressedAfterEvent(PressedAfter(pressed, es[..|es| - 1], face), es[|es| - 1], face)
  }

  /** How many of the events `es` are presses on the face: one callback call each. */
  function Clicks(es: seq<Event>, face: Rect): (n: nat)
    ensures n <= |es|
    decreases |es|
  {
    if es == [] then 0
    else Clicks(es[..|es| - 1], face) + if PressInside(es[|es| - 1], face) then 1 else 0
  }

  /**
   * The button is pressed after `es` exactly when the last pointer event in
   * `es` is a press on its face, or when `es` holds no pointer event and it
   * was pressed before.
   */
  lemma {:induction false} PressedIffLastPointerEventHit(pressed: bool, es: seq<Event>, face: Rect)
    ensures PressedAfter(pressed, es, face) <==>
      (exists i :: 0 <= i < |es| && PressInside(es[i], face) && forall j :: i < j < |es| ==> !IsPointer(es[j]))
      || (pressed && forall j :: 0 <= j < |es| ==> !IsPointer(es[j]))
    decreases |es|
  {
    if es != [] {
      var n := |es| - 1;
      var init := es[..n];
      PressedIffLastPointerEventHit(pressed, init, face);
      assert forall j :: 0 <= j < n ==> init[j] == es[j];
      if IsPointer(es[n]) {
        if PressedAfter(pressed, es, face) {
          assert PressInside(es[n], face);
        }
      } else {
        if PressedAfter(pressed, es, face) {
          if exists i :: 0 <= i < n && PressInside(init[i], face) && forall j :: i < j < n ==> !IsPointer(init[j]) {
            var i :| 0 <= i < n && PressInside(init[i], face) && forall j :: i < j < n ==> !IsPointer(init[j]);
            assert forall j :: i < j < |es| ==> !IsPointer(es[j]);
          }
        } else {
          forall i | 0 <= i < |es| && PressInside(es[i], face)
            ensures exists j :: i < j < |es| && IsPointer(es[j])
          {
            assert i < n;
            assert !forall j :: i < j < n ==> !IsPointer(init[j]);
          }
        }
      }
    }
  }

  /** The callback is called at least once exactly when some event is a press on the face. */
  lemma {:induction false} ClicksIffSomePress(es: seq<Event>, face: Rect)
    ensures Clicks(es, face) > 0 <==> exists i :: 0 <= i < |es| && PressInside(es[i], face)
    decreases |es|
  {
    if es != [] {
      var n := |es| - 1;
      ClicksIffSomePress(es[..n], face);
      assert forall j :: 0 <= j < n ==> es[..n][j] == es[j];
    }
  }

  /** Presses are counted event by event: the count over two batches is the sum of the counts. */
  lemma {:induction false} ClicksAppend(a: seq<Event>, b: seq<Event>, face: Rect)
    ensures Clicks(a + b, face) == Clicks(a, face) + Clicks(b, face)
    decreases |b|
  {
    if b != [] {
      var n := |b| - 1;
      ClicksAppend(a, b[..n], face);
      assert (a + b)[..|a + b| - 1] == a + b[..n];
      assert (a + b)[|a + b| - 1] == b[n];
    } else {
      assert a + b == a;
    }
  }

  /** A push button that calls its callback when its face is pressed. */
  class Button {
    const x: int
    const y: int
    const width: int
    const height: int
    const text: string
    const hasCallback: bool
    const blackRect: Rect
    const borderRect: Rect
    const buttonRect: Rect
    var pressed: bool
    /** How many times the callback has been called. */
    var callbackCalls: nat

    constructor (hasCallback: bool := false, x: real := 0.0, y: real := 0.0, width: int := 120, height: int := 40, text: string := "Button")
      ensures this.x == Trunc(x) && this.y == Trunc(y) && this.width == width && this.height == height
      ensures ButtonRects(blackRect, borderRect, buttonRect) == ButtonGeometry(x, y, width, height)
      ensures this.hasCallback == hasCallback && this.text == text
      ensures !pressed && callbackCalls == 0
    {
      this.x := Trunc(x);
      this.y := Trunc(y);
      this.width := width;
      this.height := height;
      this.text := text;
      this.hasCallback := hasCallback;
      var g := ButtonGeometry(x, y, width, height);
      blackRect := g.black;
      borderRect := g.border;
      buttonRect := g.button;
      pressed := false;
      callbackCalls := 0;
    }

    /** `input(events)`: folds the events into `pressed`, calling the callback once per press on the face. */
    method Input(events: seq<Event>)
      modifies this
      ensures pressed == PressedAfter(old(pressed), events, buttonRect)
      ensures callbackCalls == old(callbackCalls) + if hasCallback then Clicks(events, buttonRect) else 0
    {
      var i := 0;
      while i < |events|
        invariant 0 <= i <= |events|
        invariant pressed == PressedAfter(old(pressed), events[..i], buttonRect)
        invariant callbackCalls == old(callbackCalls) + if hasCallback then Clicks(events[..i], buttonRect) else 0
      {
        var e := events[i];
        assert events[..i + 1][..i] == events[..i];
        match e {
          case MouseButtonDown(px, py) =>
            if Collides(buttonRect, px, py) {
              pressed := true;
              if hasCallback {
                callbackCalls := callbackCalls + 1;
              }
            } else {
              pressed := false;
            }
          case MouseButtonUp(_, _) =>
            pressed := false;
          case OtherEvent =>
        }
        i := i + 1;
      }
      assert events[..i] == events;
    }
  }

  // ---------------------------------------------------------------- input field

  /**
   * The left edge of an input field, `int(240 - width / 2)`: the field is
   * centred on the screen to within one pixel, so its left and right
   * margins differ by at most one, and not at all for an even width.
   */
  function FieldX(width: int): (x: int)
    ensures -1 <= 2 * x + width - ScreenWidth <= 1
    ensures width % 2 == 0 ==> 2 * x + width == ScreenWidth
    ensures width <= ScreenWidth ==> x == (ScreenWidth - width) / 2
    ensures width > ScreenWidth ==> x == -((width - ScreenWidth) / 2)
  {
    var v := (ScreenWidth as real / 2.0) - (width as real / 2.0);
    assert width <= ScreenWidth ==> Trunc(v) == (ScreenWidth - width) / 2 by {
      if width <= ScreenWidth {
        var n := ScreenWidth - width;
        assert v == (n / 2) as real + (n % 2) as real / 2.0;
      }
    }
    assert width > ScreenWidth ==> Trunc(v) == -((width - ScreenWidth) / 2) by {
      if width > ScreenWidth {
        var n := width - ScreenWidth;
        assert -v == (n / 2) as real + (n % 2) as real / 2.0;
      }
    }
    Trunc(v)
  }

  /** The border of an input field: its input rectangle grown by `borderWidth` on every side. */
  function FieldBorder(input: Rect, borderWidth: int): (r: Rect)
    ensures Inset(r, borderWidth) == input
  {
    Rect(input.x - borderWidth, input.y - borderWidth, input.w + borderWidth * 2, input.h + borderWidth * 2)
  }

  /** A text entry box that becomes active when pressed. */
  class InputField {
    const x: int
    const y: int
    const width: int
    const height: int
    const borderWidth: int
    const borderRect: Rect
    const inputRect: Rect
    var active: bool
    var userText: string
    var labelText: string

    constructor (width: int := 200, height: int := 32, y: int := 40, borderWidth: int := 2)
      ensures this.x == FieldX(width) && this.y == y && this.width == width && this.height == height
      ensures this.borderWidth == borderWidth
      ensures inputRect == Rect(FieldX(width), y, width, height)
      ensures borderRect == FieldBorder(inputRect, borderWidth)
      ensures active && userText == "" && labelText == ""
    {
      this.x := FieldX(width);
      this.y := y;
      this.width := width;
      this.height := height;
      this.borderWidth := borderWidth;
      borderRect := Rect(FieldX(width) - borderWidth, y - borderWidth,
                         width + borderWidth * 2, height + borderWidth * 2);
      inputRect := Rect(FieldX(width), y, width, height);
      active := true;
      userText := "";
      labelText := "";
    }

    method SetLabelText(text: string)
      modifies this
      ensures labelText == text && userText == old(userText) && active == old(active)
    {
      labelText := text;
    }

    method SetUserText(text: string)
      modifies this
      ensures userText == text && labelText == old(labelText) && active == old(active)
    {
      userText := text;
    }

    /** `input(events)`: a press on the field makes it active; nothing makes it inactive. */
    method Input(events: seq<Event>)
      modifies this
      ensures active <==> old(active) || exists i :: 0 <= i < |events| && PressInside(events[i], inputRect)
      ensures old(active) ==> active
      ensures userText == old(userText) && labelText == old(labelText)
    {
      var i := 0;
      while i < |events|
        invariant 0 <= i <= |events|
        invariant active <==> old(active) || exists j :: 0 <= j < i && PressInside(events[j], inputRect)
        invariant userText == old(userText) && labelText == old(labelText)
      {
        match events[i] {
          case MouseButtonDown(px, py) =>
            if Collides(inputRect, px, py) {
              active := true;
            }
          case MouseButtonUp(_, _) =>
          case OtherEvent =>
        }
        i := i + 1;
      }
    }
  }

  // ---------------------------------------------------------------- polled timer

  /** The bookkeeping of an `OnLoopTimer`: `started` is None until the first `loop`. */
  datatype TimerState = TimerState(interval: real, started: Option<real>, hasCallback: bool)

  /**
   * One `loop` at time `now`: the first call records `now` as the start;
   * then the callback is due when at least `interval` has passed since the
   * start and there is a callback. Returns the new state and whether it was called.
   */
  function LoopAt(t: TimerState, now: real): (r: (TimerState, bool))
    ensures t.started.Some? ==> r.0 == t
    ensures t.started.None? ==> r.0 == t.(started := Some(now))
    ensures r.1 <==> t.hasCallback && now - r.0.started.value >= t.interval
  {
    var t1 := if t.started.None? then t.(started := Some(now)) else t;
    (t1, t.hasCallback && now - t1.started.value >= t.interval)
  }

  /** `reset` at time `now`. */
  function ResetAt(t: TimerState, now: real): (r: TimerState)
    ensures r.started == Some(now) && r.interval == t.interval && r.hasCallback == t.hasCallback
    ensures LoopAt(r, now).0 == r
    ensures LoopAt(r, now).1 <==> t.hasCallback && t.interval <= 0.0
  {
    t.(started := Some(now))
  }

  /** On the first `loop` the callback is called only if the interval is not positive. */
  lemma FirstLoopStartsTimer(t: TimerState, now: real)
    requires t.started.None?
    ensures LoopAt(t, now).0.started == Some(now)
    ensures LoopAt(t, now).1 <==> t.hasCallback && t.interval <= 0.0
  {
  }

  /** After `reset` at `r`, a `loop` at `now` calls back exactly when `interval` has passed since `r`. */
  lemma ResetRestartsInterval(t: TimerState, r: real, now: real)
    ensures LoopAt(ResetAt(t, r), now).1 <==> t.hasCallback && now >= r + t.interval
  {
  }

  /** How many callbacks `loop` calls at the times `times`, in order, with no reset in between. */
  function CallbacksOver(t: TimerState, times: seq<real>): (n: nat)
    ensures n <= |times|
    decreases |times|
  {
    if times == [] then 0
    else
      var (t1, called) := LoopAt(t, times[0]);
      CallbacksOver(t1, times[1..]) + if called then 1 else 0
  }

  /**
   * Firing is not one-shot: once the interval has passed, every later
   * `loop` (at a time no earlier than the first) calls back again, until a reset.
   */
  lemma {:induction false} KeepsFiring(t: TimerState, times: seq<real>)
    requires t.started.Some? && t.hasCallback
    requires forall i :: 0 <= i < |times| ==> times[i] - t.started.value >= t.interval
    ensures CallbacksOver(t, times) == |times|
    decreases |times|
  {
    if times != [] {
      KeepsFiring(t, times[1..]);
    }
  }

  /** Without a callback, `loop` never calls anything, whatever the times. */
  lemma {:induction false} NoCallbackNoCalls(t: TimerState, times: seq<real>)
    requires !t.hasCallback
    ensures CallbacksOver(t, times) == 0
    decreases |times|
  {
    if times != [] {
      NoCallbackNoCalls(LoopAt(t, times[0]).0, times[1..]);
    }
  }

  /** A timer that is not on its own thread: each `loop` compares the clock against its start. */
  class OnLoopTimer {
    const interval: real
    const hasCallback: bool
    var started: Option<real>
    /** How many times the callback has been called. */
    var callbackCalls: nat

    function State(): TimerState
      reads this
    {
      TimerState(interval, started, hasCallback)
    }

    constructor (hasCallback: bool := false, interval: real := 10.0)
      ensures State() == TimerState(interval, None, hasCallback) && callbackCalls == 0
    {
      this.interval := interval;
      this.hasCallback := hasCallback;
      started := None;
      callbackCalls := 0;
    }

    /** `reset` at time `now`. */
    method Reset(now: real)
      modifies this
      ensures State() == ResetAt(old(State()), now) && callbackCalls == old(callbackCalls)
    {
      started := Some(now);
    }

    /** `loop` at time `now`, as specified by `LoopAt`. */
    method Loop(now: real) returns (called: bool)
      modifies this
      ensures (State(), called) == LoopAt(old(State()), now)
      ensures callbackCalls == old(callbackCalls) + if called then 1 else 0
    {
      if started.None? {
        started := Some(now);
      }
      called := false;
      if now - started.value >= interval {
        if hasCallback {
          callbackCalls := callbackCalls + 1;
          called := true;
        }
      }
    }

    /** `destroy`: rebinds a local name only, so the timer is left exactly as it was. */
    method Destroy()
      ensures unchanged(this)
    {
    }
  }
}
