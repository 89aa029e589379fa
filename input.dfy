/** The board's input handling: the tool lock, the pointer anchor, the
    viewport offset and the pen width, updated one pygame event at a time.
    After each batch of events the loop draws a preview over the screen.
    Drawing, erasing, moving the mouse and saving a page are not performed
    here; each step returns them as effects for the display layer. */
module Input {
  import opened Tuples

  datatype Option<T> = None | Some(value: T)

  /** The tool a lock holds: draw (left button, 'm1'), move (middle
      button, 'm2'), erase (right button, 'm3') or pen width ('c' key). */
  datatype Tool = Draw | Move | Erase | PenWidth

  /** The key codes of pygame for the letter keys are their code points. */
  const KeyS: int := 's' as int
  const KeyQ: int := 'q' as int
  const KeyC: int := 'c' as int

  /** The events the handler distinguishes; every other event is `Other`.
      A motion carries the event's position and the pointer position that
      the handler queries separately. */
  datatype Event =
    | Quit
    | ButtonDown(button: int, pos: Pair)
    | ButtonUp(button: int, pos: Pair)
    | Motion(pos: Pair, mouse: Pair)
    | KeyDown(key: int)
    | KeyUp(key: int)
    | Other

  /** A rectangle by its top-left corner, width and height. */
  datatype Rect = Rect(left: int, top: int, w: int, h: int)

  /** What a step asks the display layer to do: a black line on the
      canvas, a white rectangle on the canvas, a pointer warp, showing or
      hiding the pointer, and writing the screen out as page `page`; and,
      on the screen, the grey outline of the rectangle with corners
      `corner` and `pointer`, or a grey circle. */
  datatype Effect =
    | DrawLine(start: Pair, stop: Pair, width: int)
    | EraseRect(rect: Rect)
    | WarpMouse(target: Pair)
    | ShowCursor(visible: bool)
    | SavePage(page: int)
    | Outline(corner: Pair, pointer: Pair)
    | PenCircle(center: Pair, radius: int)

  /** The exceptions the loop can raise: a `TypeError` when it computes
      with the empty anchor, a `ZeroDivisionError` when the pen-width
      divisor is zero. */
  datatype Error = TypeError | ZeroDivisionError

  /** The handler's module-level variables. `anchor` is `None` where the
      program stores `(None, None)`. */
  datatype State = State(
    islock: bool,
    lock: Option<Tool>,
    isdown: bool,
    anchor: Option<Pair>,
    offset: Pair,
    penwidth: int,
    anchw: int,
    coff: int,
    maxcoff: int,
    page: int)

  /** The result of handling events: the program goes on with a new state,
      exits, or stops on an exception; in each case with the effects
      emitted on the way. */
  datatype Outcome =
    | Next(state: State, effects: seq<Effect>)
    | Exit(effects: seq<Effect>)
    | Crash(error: Error, effects: seq<Effect>)
  {
    /** The same outcome after `earlier` effects have already been emitted. */
    function After(earlier: seq<Effect>): (r: Outcome)
      ensures r.effects == earlier + effects
      ensures r.Next? == Next? && r.Exit? == Exit? && r.Crash? == Crash?
      ensures Next? ==> r.state == state
      ensures Crash? ==> r.error == error
    {
      match this
      case Next(s, out) => Next(s, earlier + out)
      case Exit(out) => Exit(earlier + out)
      case Crash(err, out) => Crash(err, earlier + out)
    }
  }

  /** Which handler is meant: the program as written, or the program with
      the two defects recorded for this model corrected (the empty anchor
      is never used, and the pointer is warped in screen coordinates). */
  datatype Variant = AsWritten | Corrected

  /** The flag `islock` says exactly whether some tool holds the lock. */
  predicate Consistent(s: State) {
    s.islock <==> s.lock.Some?
  }

  /** The state before the first event, for the pen width given on the
      command line. */
  function Init(penwidth: int): (s: State)
    ensures Consistent(s) && s.lock.None? && !s.isdown && s.anchor.None?
    ensures s.offset == Pair(0, 0) && s.penwidth == s.anchw == penwidth && s.page == 0
  {
    State(false, None, false, None, Pair(0, 0), penwidth, penwidth, 0, 0, 0)
  }

  function Min(a: int, b: int): (m: int)
    ensures m <= a && m <= b && (m == a || m == b)
  {
    if a <= b then a else b
  }

  function Max(a: int, b: int): (m: int)
    ensures m >= a && m >= b && (m == a || m == b)
  {
    if a >= b then a else b
  }

  /** Python's floor division `a // b`. Dafny's `/` rounds so that the
      remainder is never negative, which agrees with flooring only for a
      positive divisor. */
  function FloorDiv(a: int, b: int): (q: int)
    requires b != 0
    ensures b > 0 ==> b * q <= a < b * q + b
    ensures b < 0 ==> b * q + b < a <= b * q
  {
    if b > 0 then a / b else (-a) / (-b)
  }

  /** The rectangle spanned by two opposite corners, in either order: its
      left and right edges are the two x coordinates, its top and bottom
      edges the two y coordinates. */
  function NormalRect(a: Pair, b: Pair): (r: Rect)
    ensures r.w >= 0 && r.h >= 0
    ensures {r.left, r.left + r.w} == {a.x, b.x}
    ensures {r.top, r.top + r.h} == {a.y, b.y}
  {
    var left := Min(a.x, b.x);
    var top := Min(a.y, b.y);
    Rect(left, top, Max(a.x, b.x) - left, Max(a.y, b.y) - top)
  }

  /** The offset after a move drag: it shifts by the distance from the
      anchor to the canvas point now under the pointer, which brings the
      anchor back under the pointer. */
  function Pan(offset: Pair, anchor: Pair, mouse: Pair): (r: Pair)
    ensures RealPos(mouse, r) == anchor
  {
    Add(offset, Sub(RealPos(mouse, offset), anchor))
  }

  /** The pen width for a horizontal drag of `coff` pixels from a press
      at pen width `anchw`: one step per `ppp` pixels, never below one. */
  function ResizedWidth(anchw: int, coff: int, ppp: int): (w: int)
    requires ppp != 0
    ensures w >= 1 && w >= anchw + FloorDiv(coff, ppp)
    ensures w == 1 || w == anchw + FloorDiv(coff, ppp)
  {
    Max(anchw + FloorDiv(coff, ppp), 1)
  }

  /** Where the pointer is put back when a pen-width drag ends. As
      written, the handler passes the anchor, a canvas point, to a call
      that takes a screen position. */
  function WarpTarget(anchor: Pair, offset: Pair, v: Variant): Pair {
    if v == AsWritten then anchor else RelPos(anchor, offset)
  }

  /** A branch that needs the anchor when there is none: as written, the
      arithmetic on `None` raises; corrected, the branch does `fallback`. */
  function Unanchored(v: Variant, fallback: Outcome): Outcome {
    if v == AsWritten then Crash(TypeError, []) else fallback
  }

  /** Take the lock for `t` if nobody holds it. */
  function Acquire(s: State, t: Tool): Outcome {
    if !s.islock then Next(s.(islock := true, lock := Some(t)), []) else Next(s, [])
  }

  /** Give the lock up if `t` holds it. */
  function Release(s: State, t: Tool): Outcome {
    if s.lock == Some(t) then Next(s.(islock := false, lock := None), []) else Next(s, [])
  }

  /** Left button released: finish whatever the held tool was doing. */
  function ReleaseLeft(s: State, pos: Pair, v: Variant): Outcome {
    var up := s.(isdown := false, anchor := None);
    match s.lock
    case Some(Draw) => Next(up.(islock := false, lock := None), [])
    case Some(Erase) =>
      if s.anchor.None? then Unanchored(v, Next(up, []))
      else Next(up, [EraseRect(NormalRect(s.anchor.value, RealPos(pos, s.offset)))])
    case Some(Move) => Next(up, [])
    case Some(PenWidth) =>
      if s.anchor.None? then Unanchored(v, Next(up.(anchw := s.penwidth), [ShowCursor(true)]))
      else Next(up.(anchw := s.penwidth),
                [WarpMouse(WarpTarget(s.anchor.value, s.offset, v)), ShowCursor(true)])
    case None => Next(up, [])
  }

  /** Left button pressed: anchor at the canvas point under it, and take
      the draw lock if nobody holds one; under the pen-width lock, start a
      width drag instead. */
  function PressLeft(s: State, pos: Pair, ppp: int): Outcome {
    var down := s.(isdown := true, anchor := Some(RealPos(pos, s.offset)));
    if !s.islock then
      Next(down.(islock := true, lock := Some(Draw)), [])
    else if s.lock == Some(PenWidth) then
      Next(down.(anchw := s.penwidth, coff := 0, maxcoff := -(s.penwidth - 1) * ppp),
           [ShowCursor(false)])
    else
      Next(down, [])
  }

  /** Pointer motion: extend the stroke, pan, or resize the pen, according
      to the lock, while the left button is down. */
  function Moved(s: State, pos: Pair, mouse: Pair, ppp: int, v: Variant): Outcome {
    if s.lock == Some(Draw) && s.isdown then
      var here := RealPos(pos, s.offset);
      var last := if s.anchor.None? then here else s.anchor.value;
      Next(s.(anchor := Some(here)), [DrawLine(last, here, s.penwidth)])
    else if s.lock == Some(Move) && s.isdown then
      if s.anchor.None? then Unanchored(v, Next(s, []))
      else Next(s.(offset := Pan(s.offset, s.anchor.value, mouse)), [])
    else if s.lock == Some(PenWidth) && s.isdown then
      if s.anchor.None? then Unanchored(v, Next(s, []))
      else if ppp == 0 then Crash(ZeroDivisionError, [])
      else
        var coff := Max(RealPos(mouse, s.offset).x - s.anchor.value.x, s.maxcoff);
        Next(s.(coff := coff, penwidth := ResizedWidth(s.anchw, coff, ppp)), [])
    else
      Next(s, [])
  }

  /** The 'c' key released under the pen-width lock: give the lock up and,
      if a width drag is under way, keep the new width and put the pointer
      back. */
  function ReleasePenWidth(s: State, v: Variant): Outcome {
    var free := s.(islock := false, lock := None);
    if s.anchor.Some? then
      Next(free.(anchw := s.penwidth, anchor := None),
           [WarpMouse(WarpTarget(s.anchor.value, s.offset, v)), ShowCursor(true)])
    else
      Next(free, [])
  }

  /** One pass of the event loop's body. */
  function Step(s: State, e: Event, ppp: int, v: Variant): (r: Outcome)
    ensures r.Next? && Consistent(s) ==> Consistent(r.state)
    ensures r.Next? && s.penwidth >= 1 ==> r.state.penwidth >= 1
    ensures !r.Next? ==> r.effects == []
  {
    match e
    case Quit => Exit([])
    case ButtonUp(b, pos) =>
      if b == 1 then ReleaseLeft(s, pos, v)
      else if b == 3 then Release(s, Erase)
      else if b == 2 then Release(s, Move)
      else Next(s, [])
    case ButtonDown(b, pos) =>
      if b == 1 then PressLeft(s, pos, ppp)
      else if b == 3 then Acquire(s, Erase)
      else if b == 2 then Acquire(s, Move)
      else Next(s, [])
    case Motion(pos, mouse) => Moved(s, pos, mouse, ppp, v)
    case KeyDown(k) =>
      if k == KeyS then Next(s.(page := s.page + 1), [SavePage(s.page + 1)])
      else if k == KeyQ then Exit([])
      else if k == KeyC then Acquire(s, PenWidth)
      else Next(s, [])
    case KeyUp(k) =>
      if k == KeyC && s.lock == Some(PenWidth) then ReleasePenWidth(s, v) else Next(s, [])
    case Other => Next(s, [])
  }

  /** The events of a sequence handled in order, stopping at the first one
      that exits or raises. */
  function Run(s: State, es: seq<Event>, ppp: int, v: Variant): (r: Outcome)
    ensures r.Next? && Consistent(s) ==> Consistent(r.state)
    ensures r.Next? && s.penwidth >= 1 ==> r.state.penwidth >= 1
    decreases |es|
  {
    if es == [] then Next(s, [])
    else
      var o := Step(s, es[0], ppp, v);
      if o.Next? then Run(o.state, es[1..], ppp, v).After(o.effects) else o
  }

  /** The preview drawn after a batch, with the pointer at screen position
      `mouse`: while the left button is down, the outline of the rectangle
      being erased under the erase lock, and a circle of the pen's size
      around the press under the pen-width lock, both placed at the
      anchor's screen position. Without an anchor, as written, the
      placement raises; corrected, nothing is drawn. The state is not
      changed. */
  function Preview(s: State, mouse: Pair, v: Variant): (r: Outcome)
    ensures r.Next? ==> r.state == s && |r.effects| <= 1
    ensures r.Crash? <==>
      (v == AsWritten && s.isdown && s.anchor.None? && (s.lock == Some(Erase) || s.lock == Some(PenWidth)))
    ensures r.Crash? ==> r.error == TypeError && r.effects == []
    ensures !r.Exit?
  {
    if s.lock == Some(Erase) && s.isdown then
      if s.anchor.None? then Unanchored(v, Next(s, []))
      else Next(s, [Outline(RelPos(s.anchor.value, s.offset), mouse)])
    else if s.lock == Some(PenWidth) && s.isdown then
      if s.anchor.None? then Unanchored(v, Next(s, []))
      else Next(s, [PenCircle(RelPos(s.anchor.value, s.offset), FloorDiv(s.penwidth + 1, 2))])
    else
      Next(s, [])
  }

  /** One batch of pending events, and where the pointer is when the
      preview after it is drawn. */
  datatype Batch = Batch(events: seq<Event>, mouse: Pair)

  /** One pass of the main loop: the batch, then the preview unless the
      batch exited or raised. */
  function Pass(s: State, b: Batch, ppp: int, v: Variant): (r: Outcome)
    ensures r.Next? && Consistent(s) ==> Consistent(r.state)
    ensures r.Next? && s.penwidth >= 1 ==> r.state.penwidth >= 1
  {
    var o := Run(s, b.events, ppp, v);
    if o.Next? then Preview(o.state, b.mouse, v).After(o.effects) else o
  }

  /** The main loop over a sequence of passes, stopping at the first that
      exits or raises. */
  function Loop(s: State, bs: seq<Batch>, ppp: int, v: Variant): (r: Outcome)
    ensures r.Next? && Consistent(s) ==> Consistent(r.state)
    ensures r.Next? && s.penwidth >= 1 ==> r.state.penwidth >= 1
    decreases |bs|
  {
    if bs == [] then Next(s, [])
    else
      var o := Pass(s, bs[0], ppp, v);
      if o.Next? then Loop(o.state, bs[1..], ppp, v).After(o.effects) else o
  }
}
