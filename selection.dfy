/**
 * The capture-area selector of the setup window (renderer.js).
 *
 * Four event handlers share four pieces of module-level state: `isDrawing`,
 * `startX`, `startY` and the rectangle object `rect`. Pressing the mouse
 * starts a drag, moving it reshapes `rect` into the bounding box of the press
 * point and the pointer, releasing it either saves `rect` (both sides larger
 * than 10 px) or closes the window, and Escape always closes the window.
 *
 * The class `Selector` keeps that state and has one method per handler; each
 * method is proved against the pure transition function `Step`, and the
 * lemmas about `Run` (a whole sequence of events) state what a user can get
 * out of the selector.
 */
module Selection {
  import opened Wrappers

  /** A rectangle in logical (CSS) pixels, as the renderer builds it. */
  datatype Rect = Rect(x: int, y: int, width: int, height: int)

  /** What a handler asks the main process to do. */
  datatype Outcome =
    | Save(rect: Rect)   // window.api.saveCoords(rect)
    | Close              // window.api.closeSetup()
    | Nothing            // the handler sends no message

  /** The events the setup window listens to. */
  datatype Event =
    | Down(x: int, y: int)   // mousedown at (clientX, clientY)
    | Move(x: int, y: int)   // mousemove at (clientX, clientY)
    | Up                     // mouseup
    | Key(key: string)       // keydown with e.key

  /** The side of a selection must exceed this many pixels to be saved. */
  const MinSide := 10

  /** The closed box `r` contains the point (px, py). */
  predicate Contains(r: Rect, px: int, py: int)
  {
    r.x <= px <= r.x + r.width && r.y <= py <= r.y + r.height
  }

  /** Box `outer` encloses box `inner`. */
  predicate Encloses(outer: Rect, inner: Rect)
  {
    outer.x <= inner.x && inner.x + inner.width <= outer.x + outer.width &&
    outer.y <= inner.y && inner.y + inner.height <= outer.y + outer.height
  }

  function Min(a: int, b: int): int { if a <= b then a else b }

  function Abs(a: int): nat { if a < 0 then -a else a }

  /**
   * The axis-aligned bounding box of the drag origin (x0, y0) and the pointer
   * (x1, y1): the rectangle the mousemove handler writes into `rect`.
   */
  function BoundingBox(x0: int, y0: int, x1: int, y1: int): (r: Rect)
    ensures r.width >= 0 && r.height >= 0
    ensures Contains(r, x0, y0) && Contains(r, x1, y1)
  {
    Rect(Min(x1, x0), Min(y1, y0), Abs(x1 - x0), Abs(y1 - y0))
  }

  /** The bounding box is the smallest box holding both points. */
  lemma BoundingBoxIsSmallest(x0: int, y0: int, x1: int, y1: int, q: Rect)
    requires Contains(q, x0, y0) && Contains(q, x1, y1)
    ensures Encloses(q, BoundingBox(x0, y0, x1, y1))
  {
  }

  /** The bounding box does not depend on the direction of the drag. */
  lemma BoundingBoxSymmetric(x0: int, y0: int, x1: int, y1: int)
    ensures BoundingBox(x0, y0, x1, y1) == BoundingBox(x1, y1, x0, y0)
  {
  }

  /**
   * The decision of the mouseup handler on the current `rect`. `None` stands
   * for the empty object `{}` the renderer starts with: its `width` is
   * undefined, `undefined > 10` is false, so the window is closed.
   */
  function Finish(rect: Option<Rect>): (o: Outcome)
    ensures o.Save? <==> rect.Some? && rect.value.width > MinSide && rect.value.height > MinSide
    ensures o.Save? ==> o.rect == rect.value
    ensures o.Close? <==> !o.Save?
  {
    if rect.Some? && rect.value.width > MinSide && rect.value.height > MinSide then
      Save(rect.value)
    else
      Close
  }

  /** The state the four handlers share. */
  datatype SelectorState = SelectorState(drawing: bool, startX: int, startY: int, rect: Option<Rect>)

  /**
   * The state when the page has loaded: not drawing, `rect` the empty object.
   * `startX` and `startY` are undefined in the renderer; they are read only
   * while drawing, after a mousedown has set them, so any value does here.
   */
  const Initial := SelectorState(false, 0, 0, None)

  /** What one event does to the state, and what it asks of the main process. */
  function Step(s: SelectorState, e: Event): (r: (SelectorState, Outcome))
    ensures !r.1.Nothing? ==> e.Up? || e.Key?
    ensures r.1.Save? ==>
      (e.Up? && s.drawing && s.rect == Some(r.1.rect) &&
       r.1.rect.width > MinSide && r.1.rect.height > MinSide)
    ensures e.Key? ==> r.0 == s
    ensures !e.Down? ==> r.0.startX == s.startX && r.0.startY == s.startY
    ensures e.Up? ==> !r.0.drawing && r.0.rect == s.rect
    ensures e.Down? ==> r.0.drawing && r.0.rect == s.rect
  {
    match e
    case Down(x, y) => (s.(drawing := true, startX := x, startY := y), Nothing)
    case Move(x, y) =>
      if !s.drawing then (s, Nothing)
      else (s.(rect := Some(BoundingBox(s.startX, s.startY, x, y))), Nothing)
    case Up =>
      if !s.drawing then (s, Nothing)
      else (s.(drawing := false), Finish(s.rect))
    case Key(k) => (s, if k == "Escape" then Close else Nothing)
  }

  /** The final state and the outcome of each event, for a sequence of events. */
  function Run(s: SelectorState, events: seq<Event>): (r: (SelectorState, seq<Outcome>))
    ensures |r.1| == |events|
    decreases |events|
  {
    if events == [] then (s, [])
    else
      var (s1, o) := Step(s, events[0]);
      var (s2, os) := Run(s1, events[1..]);
      (s2, [o] + os)
  }

  /** A pointer path, as the mousemove events it produces. */
  function Moves(path: seq<(int, int)>): (es: seq<Event>)
    ensures |es| == |path|
    ensures forall i :: 0 <= i < |path| ==> es[i] == Move(path[i].0, path[i].1)
  {
    if path == [] then [] else [Move(path[0].0, path[0].1)] + Moves(path[1..])
  }

  /** Running a single event is taking one step. */
  lemma RunOne(s: SelectorState, e: Event)
    ensures Run(s, [e]) == (Step(s, e).0, [Step(s, e).1])
  {
    assert [e][1..] == [];
    assert [Step(s, e).1] + [] == [Step(s, e).1];
  }

  /** Running two event sequences one after the other is running their concatenation. */
  lemma {:induction false} RunAppend(s: SelectorState, a: seq<Event>, b: seq<Event>)
    ensures Run(s, a + b) == (Run(Run(s, a).0, b).0, Run(s, a).1 + Run(Run(s, a).0, b).1)
    decreases |a|
  {
    if a == [] {
      assert a + b == b;
      assert Run(s, a).1 + Run(s, b).1 == Run(s, b).1;
    } else {
      var (s1, o) := Step(s, a[0]);
      assert (a + b)[0] == a[0] && (a + b)[1..] == a[1..] + b;
      RunAppend(s1, a[1..], b);
      var mid := Run(s1, a[1..]);
      assert [o] + (mid.1 + Run(mid.0, b).1) == ([o] + mid.1) + Run(mid.0, b).1;
    }
  }

  /**
   * While drawing, a pointer path sends nothing, keeps the drag origin, and
   * leaves `rect` as the box of the origin and the LAST pointer position.
   */
  lemma {:induction false} MovesWhileDrawing(s: SelectorState, path: seq<(int, int)>)
    requires s.drawing
    ensures forall i :: 0 <= i < |path| ==> Run(s, Moves(path)).1[i] == Nothing
    ensures path == [] ==> Run(s, Moves(path)).0 == s
    ensures path != [] ==>
      Run(s, Moves(path)).0 ==
        s.(rect := Some(BoundingBox(s.startX, s.startY, path[|path| - 1].0, path[|path| - 1].1)))
    decreases |path|
  {
    if path != [] {
      var s1 := Step(s, Move(path[0].0, path[0].1)).0;
      assert Moves(path)[1..] == Moves(path[1..]);
      MovesWhileDrawing(s1, path[1..]);
    }
  }

  /**
   * The rectangle a drag from (x, y) along `path` leaves behind in state `s`:
   * the box of the press point and the last pointer position, or the
   * previous rectangle when the pointer never moved.
   */
  function DragRect(s: SelectorState, x: int, y: int, path: seq<(int, int)>): Option<Rect>
  {
    if path == [] then s.rect
    else Some(BoundingBox(x, y, path[|path| - 1].0, path[|path| - 1].1))
  }

  /** Pressing and then moving along `path` sends nothing and leaves `DragRect` in `rect`. */
  lemma PressAndMove(s: SelectorState, x: int, y: int, path: seq<(int, int)>)
    ensures var r := Run(s, [Down(x, y)] + Moves(path));
      r.0 == SelectorState(true, x, y, DragRect(s, x, y, path)) &&
      forall i :: 0 <= i < |path| + 1 ==> r.1[i] == Nothing
  {
    var s1 := Step(s, Down(x, y)).0;
    MovesWhileDrawing(s1, path);
    RunAppend(s, [Down(x, y)], Moves(path));
    RunOne(s, Down(x, y));
  }

  /**
   * A complete drag: press at (x, y), move along `path`, release. Only the
   * release sends a message, and it judges the box of the press point and
   * the last pointer position; when the pointer never moved, it judges the
   * rectangle left over from the previous drag, since mousedown does not
   * reset `rect`.
   */
  lemma DragOutcome(s: SelectorState, x: int, y: int, path: seq<(int, int)>)
    ensures var r := Run(s, [Down(x, y)] + Moves(path) + [Up]);
      r.0 == SelectorState(false, x, y, DragRect(s, x, y, path)) &&
      (forall i :: 0 <= i < |path| + 1 ==> r.1[i] == Nothing) &&
      r.1[|path| + 1] == Finish(DragRect(s, x, y, path))
  {
    var pressed := Run(s, [Down(x, y)] + Moves(path));
    PressAndMove(s, x, y, path);
    RunAppend(s, [Down(x, y)] + Moves(path), [Up]);
    RunOne(pressed.0, Up);
  }

  /** A click without a move is judged on the previous drag's rectangle. */
  lemma ClickReusesPreviousRect(s: SelectorState, x: int, y: int)
    ensures Run(s, [Down(x, y), Up]).1 == [Nothing, Finish(s.rect)]
  {
  }

  /**
   * After a drag that was saved, a click anywhere without moving saves the
   * same rectangle again.
   */
  lemma ClickAfterSaveSavesAgain(s: SelectorState, x: int, y: int, x1: int, y1: int, cx: int, cy: int)
    requires Abs(x1 - x) > MinSide && Abs(y1 - y) > MinSide
    ensures var os := Run(s, [Down(x, y), Move(x1, y1), Up, Down(cx, cy), Up]).1;
      os[2] == os[4] == Save(BoundingBox(x, y, x1, y1))
  {
    var first := [Down(x, y)] + Moves([(x1, y1)]) + [Up];
    var second := [Down(cx, cy)] + Moves([]) + [Up];
    assert first + second == [Down(x, y), Move(x1, y1), Up, Down(cx, cy), Up];
    DragOutcome(s, x, y, [(x1, y1)]);
    DragOutcome(Run(s, first).0, cx, cy, []);
    RunAppend(s, first, second);
  }

  /**
   * A mouse-up that never reached the canvas leaves the drag open. When the
   * pointer does not move before the next press, that press and release is
   * judged on the rectangle of the lost drag; a move in between would
   * reshape `rect` from the first press point instead.
   */
  lemma LostMouseUpSavesStaleBox(x: int, y: int, x1: int, y1: int, cx: int, cy: int)
    requires Abs(x1 - x) > MinSide && Abs(y1 - y) > MinSide
    ensures Run(Initial, [Down(x, y), Move(x1, y1), Down(cx, cy), Up]).1 ==
      [Nothing, Nothing, Nothing, Save(BoundingBox(x, y, x1, y1))]
  {
    var drag := [Down(x, y)] + Moves([(x1, y1)]);
    assert drag + [Down(cx, cy), Up] == [Down(x, y), Move(x1, y1), Down(cx, cy), Up];
    PressAndMove(Initial, x, y, [(x1, y1)]);
    RunAppend(Initial, drag, [Down(cx, cy), Up]);
  }

  /** On a fresh page a click without a move closes the window. */
  lemma FirstClickCloses(x: int, y: int)
    ensures Run(Initial, [Down(x, y), Up]).1 == [Nothing, Close]
  {
  }

  /**
   * A drag with at least one move whose horizontal or vertical extent,
   * measured at the last pointer position, is at most 10 px is never saved.
   */
  lemma SmallDragNeverSaves(s: SelectorState, x: int, y: int, path: seq<(int, int)>)
    requires path != []
    requires Abs(path[|path| - 1].0 - x) <= MinSide || Abs(path[|path| - 1].1 - y) <= MinSide
    ensures Run(s, [Down(x, y)] + Moves(path) + [Up]).1[|path| + 1] == Close
  {
    DragOutcome(s, x, y, path);
  }

  /** Whatever the events, every rectangle sent to be saved has both sides above 10 px. */
  lemma {:induction false} SavedRectsAreLarge(s: SelectorState, events: seq<Event>)
    ensures forall i :: 0 <= i < |events| && Run(s, events).1[i].Save? ==>
      Run(s, events).1[i].rect.width > MinSide && Run(s, events).1[i].rect.height > MinSide
    decreases |events|
  {
    if events != [] {
      SavedRectsAreLarge(Step(s, events[0]).0, events[1..]);
    }
  }

  /** Escape closes the window in every state and does not end a drag. */
  lemma EscapeInAnyState(s: SelectorState)
    ensures Step(s, Key("Escape")) == (s, Close)
  {
  }

  /** Dragging from (50, 50) to (250, 200) saves {x: 50, y: 50, width: 200, height: 150}. */
  lemma DragExample()
    ensures Run(Initial, [Down(50, 50), Move(250, 200), Up]).1 == [Nothing, Nothing, Save(Rect(50, 50, 200, 150))]
  {
  }

  /** The selector of the setup window, updated in place by its event handlers. */
  class Selector {
    var isDrawing: bool
    var startX: int
    var startY: int
    var rect: Option<Rect>

    function State(): SelectorState
      reads this
    {
      SelectorState(isDrawing, startX, startY, rect)
    }

    constructor ()
      ensures State() == Initial
    {
      isDrawing, startX, startY, rect := false, 0, 0, None;
    }

    /** mousedown: start a drag at the pointer; `rect` is left as it was. */
    method MouseDown(clientX: int, clientY: int)
      modifies this
      ensures isDrawing && startX == clientX && startY == clientY
      ensures rect == old(rect)
      ensures State() == Step(old(State()), Down(clientX, clientY)).0
    {
      isDrawing := true;
      startX := clientX;
      startY := clientY;
    }

    /** mousemove: while drawing, reshape `rect` into the box of start and pointer. */
    method MouseMove(clientX: int, clientY: int)
      modifies this
      ensures !old(isDrawing) ==> State() == old(State())
      ensures old(isDrawing) ==>
        isDrawing && startX == old(startX) && startY == old(startY) &&
        rect == Some(BoundingBox(startX, startY, clientX, clientY))
      ensures State() == Step(old(State()), Move(clientX, clientY)).0
    {
      if !isDrawing {
        return;
      }
      rect := Some(BoundingBox(startX, startY, clientX, clientY));
    }

    /** mouseup: end the drag and save `rect` or close the window. */
    method MouseUp() returns (o: Outcome)
      modifies this
      ensures !old(isDrawing) ==> State() == old(State()) && o == Nothing
      ensures old(isDrawing) ==> !isDrawing && o == Finish(rect)
      ensures startX == old(startX) && startY == old(startY) && rect == old(rect)
      ensures (State(), o) == Step(old(State()), Up)
    {
      if !isDrawing {
        return Nothing;
      }
      isDrawing := false;
      o := Finish(rect);
    }

    /** keydown: Escape closes the window in any state; the state is never touched. */
    method KeyDown(key: string) returns (o: Outcome)
      ensures o == Close <==> key == "Escape"
      ensures !o.Save?
      ensures (State(), o) == Step(State(), Key(key))
    {
      o := if key == "Escape" then Close else Nothing;
    }
  }

  /** The same drag, driven through the handlers of a fresh selector. */
  method ExampleDrag() returns (o: Outcome)
    ensures o == Save(Rect(50, 50, 200, 150))
  {
    var sel := new Selector();
    sel.MouseDown(50, 50);
    sel.MouseMove(250, 200);
    o := sel.MouseUp();
  }
}
