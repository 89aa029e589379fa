/** Two defects of the program as written, each shown on a concrete
    event sequence, together with the corrected behaviour and what it
    guarantees.

    1. Releasing 'c' during a width drag clears the anchor but leaves the
       left button down. Once the pen-width or the erase lock is held
       again, the preview after that batch places its circle or outline
       at the empty anchor and raises `TypeError`; so do, in the handler,
       a later left release under either lock and a later move or width
       drag.
    2. Ending a width drag warps the pointer to the anchor, which is a
       canvas point, although the pointer is positioned in screen
       coordinates; the pointer lands `offset` away from where the drag
       started. */
module Findings {
  import opened Tuples
  import opened Input
  import opened InputProperties

  /** The events of the first finding: hold 'c', press the left button at
      `p`, let go of 'c' and press 'c' again. */
  function KeyRelock(p: Pair): seq<Event> {
    [KeyDown(KeyC), ButtonDown(1, p), KeyUp(KeyC), KeyDown(KeyC)]
  }

  /** The same, followed by the release of the left button. */
  function KeyReleaseDuringDrag(p: Pair): seq<Event> {
    KeyRelock(p) + [ButtonUp(1, p)]
  }

  /** Handling `[e] + rest` is handling `e` and then, if the program goes
      on, `rest`. */
  lemma RunCons(s: State, e: Event, rest: seq<Event>, ppp: int, v: Variant)
    ensures var o := Step(s, e, ppp, v);
      Run(s, [e] + rest, ppp, v) == if o.Next? then Run(o.state, rest, ppp, v).After(o.effects) else o
  {
    assert ([e] + rest)[0] == e && ([e] + rest)[1..] == rest;
  }

  /** The states that sequence passes through from `Init(w)`: the
      pen-width lock is taken, the left press anchors at `p`, 'c' up drops
      the lock and the anchor but not the press, 'c' down takes the lock
      again. */
  function Locked(w: int): State {
    Init(w).(islock := true, lock := Some(PenWidth))
  }

  function Pressed(w: int, ppp: int, p: Pair): State {
    Locked(w).(isdown := true, anchor := Some(p), maxcoff := -(w - 1) * ppp)
  }

  function Unlocked(w: int, ppp: int, p: Pair): State {
    Pressed(w, ppp, p).(islock := false, lock := None, anchor := None)
  }

  function Relocked(w: int, ppp: int, p: Pair): State {
    Unlocked(w, ppp, p).(islock := true, lock := Some(PenWidth))
  }

  /** Under either variant those four events leave the pen-width lock
      held and the left button down with no anchor. */
  lemma KeyRelockReaches(w: int, ppp: int, p: Pair, v: Variant)
    ensures Run(Init(w), KeyRelock(p), ppp, v) ==
      Next(Relocked(w, ppp, p), [ShowCursor(false), WarpMouse(WarpTarget(p, Pair(0, 0), v)), ShowCursor(true)])
  {
    var warp := [WarpMouse(WarpTarget(p, Pair(0, 0), v)), ShowCursor(true)];
    var last := Run(Relocked(w, ppp, p), [], ppp, v);
    assert Step(Unlocked(w, ppp, p), KeyDown(KeyC), ppp, v) == Next(Relocked(w, ppp, p), []);
    RunCons(Unlocked(w, ppp, p), KeyDown(KeyC), [], ppp, v);
    assert [KeyDown(KeyC)] + [] == [KeyDown(KeyC)];
    assert last.After([]) == last;
    assert Step(Pressed(w, ppp, p), KeyUp(KeyC), ppp, v) == Next(Unlocked(w, ppp, p), warp);
    RunCons(Pressed(w, ppp, p), KeyUp(KeyC), [KeyDown(KeyC)], ppp, v);
    assert Step(Locked(w), ButtonDown(1, p), ppp, v) == Next(Pressed(w, ppp, p), [ShowCursor(false)]);
    var tail := [KeyUp(KeyC)] + [KeyDown(KeyC)];
    RunCons(Locked(w), ButtonDown(1, p), tail, ppp, v);
    AfterAfter(last, [ShowCursor(false)], warp);
    assert Step(Init(w), KeyDown(KeyC), ppp, v) == Next(Locked(w), []);
    RunCons(Init(w), KeyDown(KeyC), [ButtonDown(1, p)] + tail, ppp, v);
    assert KeyRelock(p) == [KeyDown(KeyC)] + ([ButtonDown(1, p)] + tail);
    var all := Run(Locked(w), [ButtonDown(1, p)] + tail, ppp, v);
    assert all.After([]) == all;
  }

  /** For every initial pen width, every divisor and every press point,
      the preview drawn after those four events raises `TypeError` as
      written; corrected, the program goes on. */
  lemma KeyRelockPreviewCrashes(w: int, ppp: int, p: Pair, mouse: Pair)
    ensures Pass(Init(w), Batch(KeyRelock(p), mouse), ppp, AsWritten) ==
      Crash(TypeError, [ShowCursor(false), WarpMouse(p), ShowCursor(true)])
    ensures Pass(Init(w), Batch(KeyRelock(p), mouse), ppp, Corrected).Next?
  {
    KeyRelockReaches(w, ppp, p, AsWritten);
    KeyRelockReaches(w, ppp, p, Corrected);
  }

  /** The same when every event is a pass of its own: the first three
      passes go on, the fourth raises. */
  lemma KeyRelockCrashesEventByEvent(w: int, ppp: int, p: Pair, mouse: Pair)
    ensures var r := Loop(Init(w), [Batch([KeyDown(KeyC)], mouse), Batch([ButtonDown(1, p)], mouse),
                                    Batch([KeyUp(KeyC)], mouse), Batch([KeyDown(KeyC)], mouse)], ppp, AsWritten);
      r.Crash? && r.error == TypeError
  {
    var b1, b2, b3, b4 := Batch([KeyDown(KeyC)], mouse), Batch([ButtonDown(1, p)], mouse),
                          Batch([KeyUp(KeyC)], mouse), Batch([KeyDown(KeyC)], mouse);
    var bs := [b1, b2, b3, b4];
    RunCons(Init(w), KeyDown(KeyC), [], ppp, AsWritten);
    RunCons(Locked(w), ButtonDown(1, p), [], ppp, AsWritten);
    RunCons(Pressed(w, ppp, p), KeyUp(KeyC), [], ppp, AsWritten);
    RunCons(Unlocked(w, ppp, p), KeyDown(KeyC), [], ppp, AsWritten);
    assert [KeyDown(KeyC)] + [] == [KeyDown(KeyC)] && [ButtonDown(1, p)] + [] == [ButtonDown(1, p)];
    assert [KeyUp(KeyC)] + [] == [KeyUp(KeyC)];
    var o4 := Pass(Unlocked(w, ppp, p), b4, ppp, AsWritten);
    assert o4.Crash? && o4.error == TypeError;
    var o3 := Pass(Pressed(w, ppp, p), b3, ppp, AsWritten);
    assert o3.Next? && o3.state == Unlocked(w, ppp, p);
    var o2 := Pass(Locked(w), b2, ppp, AsWritten);
    assert o2.Next? && o2.state == Pressed(w, ppp, p);
    var o1 := Pass(Init(w), b1, ppp, AsWritten);
    assert o1.Next? && o1.state == Locked(w);
    assert Loop(Unlocked(w, ppp, p), [b4], ppp, AsWritten) == o4;
    assert [b3, b4][1..] == [b4];
    var l3 := Loop(Pressed(w, ppp, p), [b3, b4], ppp, AsWritten);
    assert l3 == Loop(Unlocked(w, ppp, p), [b4], ppp, AsWritten).After(o3.effects);
    assert [b2, b3, b4][1..] == [b3, b4];
    var l2 := Loop(Locked(w), [b2, b3, b4], ppp, AsWritten);
    assert l2 == l3.After(o2.effects);
    assert bs[1..] == [b2, b3, b4];
    assert Loop(Init(w), bs, ppp, AsWritten) == l2.After(o1.effects);
  }

  /** After 'c' up ends a width drag, a right press takes the erase lock
      with the button still down and no anchor; the preview of that pass
      raises `TypeError` as written. */
  lemma EraseAfterKeyReleaseCrashes(w: int, ppp: int, p: Pair, q: Pair, mouse: Pair)
    ensures Pass(Unlocked(w, ppp, p), Batch([ButtonDown(3, q)], mouse), ppp, AsWritten) == Crash(TypeError, [])
    ensures Pass(Unlocked(w, ppp, p), Batch([ButtonDown(3, q)], mouse), ppp, Corrected).Next?
  {
    RunCons(Unlocked(w, ppp, p), ButtonDown(3, q), [], ppp, AsWritten);
    RunCons(Unlocked(w, ppp, p), ButtonDown(3, q), [], ppp, Corrected);
    assert [ButtonDown(3, q)] + [] == [ButtonDown(3, q)];
  }

  /** For every initial pen width, every divisor and every press point,
      the handler as written stops on the five events with `TypeError`;
      the corrected one goes on and releases the press. */
  lemma KeyReleaseDuringDragCrashes(w: int, ppp: int, p: Pair)
    ensures Run(Init(w), KeyReleaseDuringDrag(p), ppp, AsWritten) ==
      Crash(TypeError, [ShowCursor(false), WarpMouse(p), ShowCursor(true)])
    ensures Run(Init(w), KeyReleaseDuringDrag(p), ppp, Corrected).Next?
  {
    KeyRelockReaches(w, ppp, p, AsWritten);
    KeyRelockReaches(w, ppp, p, Corrected);
    RunAppend(Init(w), KeyRelock(p), [ButtonUp(1, p)], ppp, AsWritten);
    RunAppend(Init(w), KeyRelock(p), [ButtonUp(1, p)], ppp, Corrected);
    RunCons(Relocked(w, ppp, p), ButtonUp(1, p), [], ppp, AsWritten);
    RunCons(Relocked(w, ppp, p), ButtonUp(1, p), [], ppp, Corrected);
    assert [ButtonUp(1, p)] + [] == [ButtonUp(1, p)];
  }

  /** Under the correction the handler raises `TypeError` on no sequence
      of events; only a zero pen-width divisor can still raise. */
  lemma {:induction false} CorrectedNeverUsesEmptyAnchor(s: State, es: seq<Event>, ppp: int)
    ensures var r := Run(s, es, ppp, Corrected);
      r.Crash? ==> r.error == ZeroDivisionError && ppp == 0
    decreases |es|
  {
    if es != [] {
      CrashCauses(s, es[0], ppp, Corrected);
      var o := Step(s, es[0], ppp, Corrected);
      if o.Next? {
        CorrectedNeverUsesEmptyAnchor(o.state, es[1..], ppp);
      }
    }
  }

  /** Under the correction no run of the main loop, handler and preview
      together, raises `TypeError`; only a zero pen-width divisor can
      still raise. */
  lemma {:induction false} CorrectedLoopNeverUsesEmptyAnchor(s: State, bs: seq<Batch>, ppp: int)
    ensures var r := Loop(s, bs, ppp, Corrected);
      r.Crash? ==> r.error == ZeroDivisionError && ppp == 0
    decreases |bs|
  {
    if bs != [] {
      CorrectedNeverUsesEmptyAnchor(s, bs[0].events, ppp);
      var o := Pass(s, bs[0], ppp, Corrected);
      if o.Next? {
        CorrectedLoopNeverUsesEmptyAnchor(o.state, bs[1..], ppp);
      }
    }
  }

  /** Wherever the program as written goes on, the corrected one reaches
      the same state, and with a zero offset it emits the same effects. */
  lemma CorrectionKeepsState(s: State, e: Event, ppp: int)
    ensures var w := Step(s, e, ppp, AsWritten);
      var c := Step(s, e, ppp, Corrected);
      (w.Next? ==> c.Next? && c.state == w.state && |c.effects| == |w.effects|) &&
      (!w.Crash? && s.offset == Pair(0, 0) ==> c == w)
  {
  }

  /** Width drags keep the lock, the press, the anchor and the offset. */
  lemma {:induction false} WidthDragKeepsAnchor(s: State, motions: seq<Event>, ppp: int, v: Variant)
    requires s.islock && s.lock == Some(PenWidth) && s.isdown && s.anchor.Some? && ppp != 0
    requires forall k :: 0 <= k < |motions| ==> motions[k].Motion?
    ensures var r := Run(s, motions, ppp, v);
      r.Next? && r.effects == [] &&
      r.state.islock && r.state.lock == s.lock && r.state.isdown &&
      r.state.anchor == s.anchor && r.state.offset == s.offset
    decreases |motions|
  {
    if motions != [] {
      var o := Step(s, motions[0], ppp, v);
      assert o.Next? && o.effects == [];
      WidthDragKeepsAnchor(o.state, motions[1..], ppp, v);
    }
  }

  /** A whole width drag: a left press under the pen-width lock at screen
      position `pos`, any number of motions, and the release. The pointer
      is put back at `WarpTarget` of the canvas point pressed. */
  lemma WidthDragWarp(s: State, pos: Pair, motions: seq<Event>, up: Pair, ppp: int, v: Variant)
    requires s.islock && s.lock == Some(PenWidth) && ppp != 0
    requires forall k :: 0 <= k < |motions| ==> motions[k].Motion?
    ensures var r := Run(s, [ButtonDown(1, pos)] + motions + [ButtonUp(1, up)], ppp, v);
      r.Next? &&
      r.effects == [ShowCursor(false), WarpMouse(WarpTarget(RealPos(pos, s.offset), s.offset, v)), ShowCursor(true)]
  {
    var o1 := Step(s, ButtonDown(1, pos), ppp, v);
    assert Run(s, [ButtonDown(1, pos)], ppp, v) == Run(o1.state, [], ppp, v).After(o1.effects);
    WidthDragKeepsAnchor(o1.state, motions, ppp, v);
    RunAppend(s, [ButtonDown(1, pos)], motions, ppp, v);
    RunAppend(s, [ButtonDown(1, pos)] + motions, [ButtonUp(1, up)], ppp, v);
    var o2 := Run(o1.state, motions, ppp, v);
    var o3 := Step(o2.state, ButtonUp(1, up), ppp, v);
    assert Run(o2.state, [ButtonUp(1, up)], ppp, v) == Run(o3.state, [], ppp, v).After(o3.effects);
  }

  /** Corrected, the pointer returns to exactly where the drag started. */
  lemma CorrectedWarpReturnsToPress(s: State, pos: Pair, motions: seq<Event>, up: Pair, ppp: int)
    requires s.islock && s.lock == Some(PenWidth) && ppp != 0
    requires forall k :: 0 <= k < |motions| ==> motions[k].Motion?
    ensures var r := Run(s, [ButtonDown(1, pos)] + motions + [ButtonUp(1, up)], ppp, Corrected);
      r.Next? && WarpMouse(pos) in r.effects
  {
    WidthDragWarp(s, pos, motions, up, ppp, Corrected);
    PositionRoundTrip(pos, s.offset);
  }

  /** As written, after panning ten pixels right, a width drag started at
      screen position (200, 200) puts the pointer back at (190, 200). */
  lemma AsWrittenWarpMissesPress()
    ensures var s := Init(4).(offset := Pair(10, 0), islock := true, lock := Some(PenWidth));
      var r := Run(s, [ButtonDown(1, Pair(200, 200)), ButtonUp(1, Pair(200, 200))], 50, AsWritten);
      r.Next? && WarpMouse(Pair(200, 200)) !in r.effects && WarpMouse(Pair(190, 200)) in r.effects
  {
    var s := Init(4).(offset := Pair(10, 0), islock := true, lock := Some(PenWidth));
    WidthDragWarp(s, Pair(200, 200), [], Pair(200, 200), 50, AsWritten);
    assert [ButtonDown(1, Pair(200, 200))] + [] + [ButtonUp(1, Pair(200, 200))] ==
           [ButtonDown(1, Pair(200, 200)), ButtonUp(1, Pair(200, 200))];
  }
}
