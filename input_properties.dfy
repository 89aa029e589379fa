/** What the handler guarantees about the tool lock, the anchor, the
    erase rectangle, panning, the pen width, the preview and the page
    counter. Every lemma holds for the program as written and for the
    corrected one. */
module InputProperties {
  import opened Tuples
  import opened Input

  /** The tool an event asks for: left, right and middle button presses
      and the 'c' key. */
  function Requested(e: Event): Option<Tool> {
    match e
    case ButtonDown(b, _) =>
      if b == 1 then Some(Draw) else if b == 3 then Some(Erase) else if b == 2 then Some(Move) else None
    case KeyDown(k) => if k == KeyC then Some(PenWidth) else None
    case _ => None
  }

  /** The tool an event gives up: left, right and middle button releases
      and releasing the 'c' key. */
  function Released(e: Event): Option<Tool> {
    match e
    case ButtonUp(b, _) =>
      if b == 1 then Some(Draw) else if b == 3 then Some(Erase) else if b == 2 then Some(Move) else None
    case KeyUp(k) => if k == KeyC then Some(PenWidth) else None
    case _ => None
  }

  /** Every sequence of events handled from the initial state leaves
      `islock` true exactly when a tool holds the lock. */
  lemma LockFlagAgrees(penwidth: int, es: seq<Event>, ppp: int, v: Variant)
    ensures var r := Run(Init(penwidth), es, ppp, v);
      r.Next? ==> (r.state.islock <==> r.state.lock.Some?)
  {
  }

  /** A tool is taken only when no tool holds the lock; a request under a
      held lock leaves the lock with its holder. */
  lemma AcquireOnlyWhenFree(s: State, e: Event, ppp: int, v: Variant)
    requires Requested(e).Some?
    ensures var r := Step(s, e, ppp, v);
      r.Next? && r.state.islock &&
      r.state.lock == (if s.islock then s.lock else Requested(e))
  {
  }

  /** A request under a held lock changes nothing but the pointer state
      of a left press, and only a left press under the pen-width lock
      restarts the width drag. */
  lemma RequestWhileHeld(s: State, e: Event, ppp: int, v: Variant)
    requires s.islock && Requested(e).Some?
    ensures var r := Step(s, e, ppp, v);
      r.Next? &&
      r.state.(isdown := s.isdown, anchor := s.anchor, anchw := s.anchw,
               coff := s.coff, maxcoff := s.maxcoff) == s
    ensures !(e.ButtonDown? && e.button == 1) ==> Step(s, e, ppp, v) == Next(s, [])
    ensures var r := Step(s, e, ppp, v);
      (r.state.anchw, r.state.coff, r.state.maxcoff) != (s.anchw, s.coff, s.maxcoff) ||
      r.effects != [] ==>
      e.ButtonDown? && e.button == 1 && s.lock == Some(PenWidth)
  {
  }

  /** A release gives the lock up only when its own tool holds it, and
      otherwise leaves the lock alone. */
  lemma ReleaseOnlyOwnTool(s: State, e: Event, ppp: int, v: Variant)
    requires Released(e).Some?
    ensures var r := Step(s, e, ppp, v);
      r.Next? ==>
        if s.lock == Released(e) then !r.state.islock && r.state.lock.None?
        else r.state.islock == s.islock && r.state.lock == s.lock
  {
  }

  /** Releasing the left button always ends the press and drops the
      anchor, whatever the lock. */
  lemma LeftReleaseEndsPress(s: State, pos: Pair, ppp: int, v: Variant)
    ensures var r := Step(s, ButtonUp(1, pos), ppp, v);
      r.Next? ==> !r.state.isdown && r.state.anchor.None?
  {
  }

  /** The erase rectangle does not depend on which corner came first. */
  lemma NormalRectSymmetric(a: Pair, b: Pair)
    ensures NormalRect(a, b) == NormalRect(b, a)
  {
  }

  /** Releasing the left button under the erase lock erases exactly the
      rectangle between the anchor and the canvas point under the
      release; no other event erases anything. */
  lemma EraseOnLeftRelease(s: State, e: Event, ppp: int, v: Variant)
    ensures var r := Step(s, e, ppp, v);
      (exists k :: 0 <= k < |r.effects| && r.effects[k].EraseRect?) ==>
        e.ButtonUp? && e.button == 1 && s.lock == Some(Erase)
    ensures e.ButtonUp? && e.button == 1 && s.lock == Some(Erase) && s.anchor.Some? ==>
      var r := Step(s, e, ppp, v);
      var q := RealPos(e.pos, s.offset);
      r.Next? && |r.effects| == 1 && r.effects[0].EraseRect? &&
      {r.effects[0].rect.left, r.effects[0].rect.left + r.effects[0].rect.w} == {s.anchor.value.x, q.x} &&
      {r.effects[0].rect.top, r.effects[0].rect.top + r.effects[0].rect.h} == {s.anchor.value.y, q.y}
  {
  }

  /** A move drag keeps the grabbed canvas point under the pointer: the
      offset shifts by the distance the anchor is away from the pointer,
      and nothing else changes. */
  lemma PanKeepsAnchor(s: State, pos: Pair, mouse: Pair, ppp: int, v: Variant)
    requires s.lock == Some(Move) && s.isdown && s.anchor.Some?
    ensures var r := Step(s, Motion(pos, mouse), ppp, v);
      r.Next? && r.effects == [] &&
      Sub(mouse, r.state.offset) == s.anchor.value &&
      Sub(r.state.offset, s.offset) == Sub(RealPos(mouse, s.offset), s.anchor.value) &&
      r.state == s.(offset := r.state.offset)
  {
  }

  /** Only a move drag changes the offset. */
  lemma OnlyMoveDragPans(s: State, e: Event, ppp: int, v: Variant)
    ensures var r := Step(s, e, ppp, v);
      r.Next? && r.state.offset != s.offset ==>
        e.Motion? && s.lock == Some(Move) && s.isdown
  {
  }

  /** A width drag never goes further left than `maxcoff` and never makes
      the pen narrower than one pixel. */
  lemma ResizeBounds(s: State, pos: Pair, mouse: Pair, ppp: int, v: Variant)
    requires s.lock == Some(PenWidth) && s.isdown && s.anchor.Some? && ppp != 0
    ensures var r := Step(s, Motion(pos, mouse), ppp, v);
      r.Next? && r.effects == [] &&
      r.state.coff >= s.maxcoff && r.state.penwidth >= 1 &&
      r.state.coff >= RealPos(mouse, s.offset).x - s.anchor.value.x
  {
  }

  /** Flooring division by a positive number is monotone. */
  lemma FloorDivMonotone(a: int, b: int, p: int)
    requires p > 0 && a <= b
    ensures FloorDiv(a, p) <= FloorDiv(b, p)
  {
    var qa, qb := FloorDiv(a, p), FloorDiv(b, p);
    if qa > qb {
      MulMonotone(p, qb + 1, qa);
      assert false;
    }
  }

  lemma MulMonotone(p: int, a: int, b: int)
    requires p > 0 && a <= b
    ensures p * a <= p * b
  {
  }

  /** Flooring division undoes multiplication by the divisor. */
  lemma FloorDivOfMultiple(k: int, p: int)
    requires p > 0
    ensures FloorDiv(k * p, p) == k
  {
    var q := FloorDiv(k * p, p);
    if q < k {
      MulMonotone(p, q + 1, k);
      assert false;
    } else if q > k {
      MulMonotone(p, k + 1, q);
      assert false;
    }
  }

  /** The pen width grows (weakly) as the pointer moves right. */
  lemma ResizeMonotone(s: State, pos1: Pair, mouse1: Pair, pos2: Pair, mouse2: Pair, ppp: int, v: Variant)
    requires s.lock == Some(PenWidth) && s.isdown && s.anchor.Some? && ppp > 0
    requires mouse1.x <= mouse2.x
    ensures var r1 := Step(s, Motion(pos1, mouse1), ppp, v);
      var r2 := Step(s, Motion(pos2, mouse2), ppp, v);
      r1.Next? && r2.Next? && r1.state.penwidth <= r2.state.penwidth
  {
    var a := s.anchor.value.x;
    var c1 := Max(RealPos(mouse1, s.offset).x - a, s.maxcoff);
    var c2 := Max(RealPos(mouse2, s.offset).x - a, s.maxcoff);
    FloorDivMonotone(c1, c2, ppp);
  }

  /** After a left press under the pen-width lock, `maxcoff` is where the
      pen is exactly one pixel wide, and width drags keep it so. */
  predicate ResizeReady(s: State, ppp: int) {
    s.maxcoff == -(s.anchw - 1) * ppp
  }

  lemma PressMakesResizeReady(s: State, pos: Pair, ppp: int, v: Variant)
    requires s.islock && s.lock == Some(PenWidth)
    ensures var r := Step(s, ButtonDown(1, pos), ppp, v);
      r.Next? && r.effects == [ShowCursor(false)] &&
      r.state.anchw == s.penwidth && r.state.coff == 0 && ResizeReady(r.state, ppp)
  {
  }

  /** Once ready, the clamp to one pixel never binds: the width is the
      press-time width plus one step per `ppp` pixels dragged. */
  lemma ResizeClampInactive(s: State, pos: Pair, mouse: Pair, ppp: int, v: Variant)
    requires s.lock == Some(PenWidth) && s.isdown && s.anchor.Some? && ppp > 0
    requires ResizeReady(s, ppp)
    ensures var r := Step(s, Motion(pos, mouse), ppp, v);
      r.Next? && ResizeReady(r.state, ppp) &&
      r.state.penwidth == s.anchw + FloorDiv(r.state.coff, ppp)
  {
    var r := Step(s, Motion(pos, mouse), ppp, v);
    FloorDivOfMultiple(-(s.anchw - 1), ppp);
    FloorDivMonotone(s.maxcoff, r.state.coff, ppp);
  }

  /** Saving numbers pages 1, 2, 3, ... in order and touches nothing else. */
  lemma SaveAdvancesPage(s: State, ppp: int, v: Variant)
    ensures Step(s, KeyDown(KeyS), ppp, v) == Next(s.(page := s.page + 1), [SavePage(s.page + 1)])
  {
  }

  /** The window's close event and the 'q' key end the program. */
  lemma QuitExits(s: State, e: Event, ppp: int, v: Variant)
    requires e == Quit || e == KeyDown(KeyQ)
    ensures Step(s, e, ppp, v) == Exit([])
  {
  }

  /** After a left press under the erase or the pen-width lock the
      preview is placed at the screen position pressed: the outline runs
      from there to the pointer, and the circle is centred there with half
      the pen width, rounded up, as its radius. */
  lemma PreviewAtPress(s: State, pos: Pair, mouse: Pair, ppp: int, v: Variant)
    requires s.islock && (s.lock == Some(Erase) || s.lock == Some(PenWidth))
    ensures var r := Step(s, ButtonDown(1, pos), ppp, v);
      r.Next? &&
      Preview(r.state, mouse, v) == Next(r.state,
        if s.lock == Some(Erase) then [Outline(pos, mouse)]
        else [PenCircle(pos, FloorDiv(s.penwidth + 1, 2))])
  {
    PositionRoundTrip(pos, s.offset);
  }

  /** The handler raises only by dividing by a zero `ppp` during a width
      drag or, as written, by using the empty anchor under the erase,
      move or pen-width lock. */
  lemma CrashCauses(s: State, e: Event, ppp: int, v: Variant)
    ensures var r := Step(s, e, ppp, v);
      r.Crash? ==>
        (r.error == ZeroDivisionError && ppp == 0 && e.Motion? &&
         s.lock == Some(PenWidth) && s.isdown && s.anchor.Some?) ||
        (r.error == TypeError && v == AsWritten && s.anchor.None? &&
         s.lock.Some? && s.lock.value != Draw)
  {
  }

  /** Emitting `e1` and then `e2` before an outcome is emitting `e1 + e2`. */
  lemma AfterAfter(o: Outcome, e1: seq<Effect>, e2: seq<Effect>)
    ensures o.After(e2).After(e1) == o.After(e1 + e2)
  {
    assert e1 + (e2 + o.effects) == (e1 + e2) + o.effects;
  }

  /** Handling `a + b` is handling `a` and then, if the program is still
      running, handling `b` from where `a` left off. */
  lemma {:induction false} RunAppend(s: State, a: seq<Event>, b: seq<Event>, ppp: int, v: Variant)
    ensures var o := Run(s, a, ppp, v);
      Run(s, a + b, ppp, v) == if o.Next? then Run(o.state, b, ppp, v).After(o.effects) else o
    decreases |a|
  {
    if a == [] {
      assert a + b == b;
      assert Run(s, b, ppp, v).After([]) == Run(s, b, ppp, v);
    } else {
      assert (a + b)[0] == a[0];
      assert (a + b)[1..] == a[1..] + b;
      var o := Step(s, a[0], ppp, v);
      if o.Next? {
        RunAppend(o.state, a[1..], b, ppp, v);
        var o2 := Run(o.state, a[1..], ppp, v);
        if o2.Next? {
          AfterAfter(Run(o2.state, b, ppp, v), o.effects, o2.effects);
        }
      }
    }
  }
}
