/** The board program's input variables as one object, updated in place
    by the event loop, one event at a time. Each method is proved to do
    what `Input.Step`, `Input.Run`, `Input.Preview` and `Input.Pass` say,
    for the corrected program. */
module MainLoop {
  import opened Tuples
  import opened Input
  import opened InputProperties

  class Board {
    /** Pixels of horizontal drag per pixel of pen width. */
    const ppp: int

    var islock: bool
    var lock: Option<Tool>
    var isdown: bool
    var anchor: Option<Pair>
    var offset: Pair
    var penwidth: int
    var anchw: int
    var coff: int
    var maxcoff: int
    var page: int

    /** The variables as a value of the specification's state. */
    function Snapshot(): State
      reads this
    {
      State(islock, lock, isdown, anchor, offset, penwidth, anchw, coff, maxcoff, page)
    }

    /** The variables before the first event, for the pen width and the
        drag speed given on the command line. */
    constructor (initialPenwidth: int, pixelsPerStep: int)
      requires pixelsPerStep > 0
      ensures Snapshot() == Init(initialPenwidth) && ppp == pixelsPerStep
    {
      ppp := pixelsPerStep;
      islock, lock, isdown, anchor := false, None, false, None;
      offset := Pair(0, 0);
      coff, maxcoff := 0, 0;
      penwidth, anchw := initialPenwidth, initialPenwidth;
      page := 0;
    }

    /** Count one more page and ask for the screen to be written out as
        that page. */
    method Save() returns (effect: Effect)
      modifies this`page
      ensures page == old(page) + 1 && effect == SavePage(page)
    {
      page := page + 1;
      effect := SavePage(page);
    }

    /** The left button released at `pos`. */
    method LeftUp(pos: Pair) returns (effects: seq<Effect>)
      modifies this
      ensures ReleaseLeft(old(Snapshot()), pos, Corrected) == Next(Snapshot(), effects)
    {
      effects := [];
      isdown := false;
      if lock == Some(Draw) {
        islock := false;
        lock := None;
      } else if lock == Some(Erase) {
        if anchor.Some? {
          effects := [EraseRect(NormalRect(anchor.value, RealPos(pos, offset)))];
        }
      } else if lock == Some(PenWidth) {
        anchw := penwidth;
        if anchor.Some? {
          effects := [WarpMouse(RelPos(anchor.value, offset))];
        }
        effects := effects + [ShowCursor(true)];
      }
      anchor := None;
    }

    /** The left button pressed at `pos`. */
    method LeftDown(pos: Pair) returns (effects: seq<Effect>)
      modifies this
      ensures PressLeft(old(Snapshot()), pos, ppp) == Next(Snapshot(), effects)
    {
      effects := [];
      isdown := true;
      anchor := Some(RealPos(pos, offset));
      if !islock {
        islock := true;
        lock := Some(Draw);
      } else if lock == Some(PenWidth) {
        effects := [ShowCursor(false)];
        anchw := penwidth;
        coff := 0;
        maxcoff := -(anchw - 1) * ppp;
      }
    }

    /** The pointer moved: the event reports `pos`, the pointer is at
        `mouse`. */
    method PointerMoved(pos: Pair, mouse: Pair) returns (effects: seq<Effect>)
      requires ppp > 0
      modifies this
      ensures Moved(old(Snapshot()), pos, mouse, ppp, Corrected) == Next(Snapshot(), effects)
    {
      effects := [];
      if lock == Some(Draw) && isdown {
        var here := RealPos(pos, offset);
        var last := if anchor.None? then here else anchor.value;
        effects := [DrawLine(last, here, penwidth)];
        anchor := Some(here);
      } else if lock == Some(Move) && isdown {
        if anchor.Some? {
          var d := Sub(RealPos(mouse, offset), anchor.value);
          offset := Add(offset, d);
        }
      } else if lock == Some(PenWidth) && isdown {
        if anchor.Some? {
          coff := RealPos(mouse, offset).x - anchor.value.x;
          coff := Max(coff, maxcoff);
          penwidth := Max(anchw + FloorDiv(coff, ppp), 1);
        }
      }
    }

    /** The 'c' key released under the pen-width lock. */
    method PenWidthUp() returns (effects: seq<Effect>)
      requires lock == Some(PenWidth)
      modifies this
      ensures ReleasePenWidth(old(Snapshot()), Corrected) == Next(Snapshot(), effects)
    {
      effects := [];
      islock := false;
      lock := None;
      if anchor.Some? {
        anchw := penwidth;
        effects := [WarpMouse(RelPos(anchor.value, offset)), ShowCursor(true)];
        anchor := None;
      }
    }

    /** Take the lock for `t` if nobody holds it. */
    method Take(t: Tool)
      modifies this`islock, this`lock
      ensures Acquire(old(Snapshot()), t) == Next(Snapshot(), [])
    {
      if !islock {
        islock := true;
        lock := Some(t);
      }
    }

    /** Give the lock up if `t` holds it. */
    method Drop(t: Tool)
      modifies this`islock, this`lock
      ensures Release(old(Snapshot()), t) == Next(Snapshot(), [])
    {
      if lock == Some(t) {
        islock := false;
        lock := None;
      }
    }

    /** Handle one event; `quit` reports that the program exits. */
    method HandleEvent(e: Event) returns (effects: seq<Effect>, quit: bool)
      requires ppp > 0
      modifies this
      ensures var o := Step(old(Snapshot()), e, ppp, Corrected);
        if quit then o == Exit(effects) && Snapshot() == old(Snapshot())
        else o == Next(Snapshot(), effects)
    {
      effects, quit := [], false;
      match e
      case Quit =>
        quit := true;
      case ButtonUp(b, pos) =>
        if b == 1 {
          effects := LeftUp(pos);
        } else if b == 3 {
          Drop(Erase);
        } else if b == 2 {
          Drop(Move);
        }
      case ButtonDown(b, pos) =>
        if b == 1 {
          effects := LeftDown(pos);
        } else if b == 3 {
          Take(Erase);
        } else if b == 2 {
          Take(Move);
        }
      case Motion(pos, mouse) =>
        effects := PointerMoved(pos, mouse);
      case KeyDown(k) =>
        if k == KeyS {
          var saved := Save();
          effects := [saved];
        } else if k == KeyQ {
          quit := true;
        } else if k == KeyC {
          Take(PenWidth);
        }
      case KeyUp(k) =>
        if k == KeyC && lock == Some(PenWidth) {
          effects := PenWidthUp();
        }
      case Other =>
    }

    /** Handle a batch of pending events in order, stopping at the first
        that exits the program. */
    method Pump(events: seq<Event>) returns (effects: seq<Effect>, quit: bool)
      requires ppp > 0
      modifies this
      ensures var o := Run(old(Snapshot()), events, ppp, Corrected);
        if quit then o == Exit(effects) else o == Next(Snapshot(), effects)
    {
      effects, quit := [], false;
      var i := 0;
      while i < |events| && !quit
        invariant 0 <= i <= |events|
        invariant !quit ==> Run(old(Snapshot()), events[..i], ppp, Corrected) == Next(Snapshot(), effects)
        invariant quit ==> Run(old(Snapshot()), events[..i], ppp, Corrected) == Exit(effects)
      {
        ghost var before := Snapshot();
        var out, q := HandleEvent(events[i]);
        assert events[..i + 1] == events[..i] + [events[i]];
        RunAppend(old(Snapshot()), events[..i], [events[i]], ppp, Corrected);
        assert Run(before, [events[i]], ppp, Corrected) ==
          (var o := Step(before, events[i], ppp, Corrected);
           if o.Next? then Run(o.state, [], ppp, Corrected).After(o.effects) else o);
        effects, quit := effects + out, q;
        i := i + 1;
      }
      assert events[..i] + events[i..] == events;
      RunAppend(old(Snapshot()), events[..i], events[i..], ppp, Corrected);
    }

    /** The preview over the screen with the pointer at `mouse`; it needs
        the anchor, and is left out when there is none. */
    method DrawPreview(mouse: Pair) returns (effects: seq<Effect>)
      ensures Preview(Snapshot(), mouse, Corrected) == Next(Snapshot(), effects)
    {
      effects := [];
      if lock == Some(Erase) && isdown && anchor.Some? {
        effects := effects + [Outline(RelPos(anchor.value, offset), mouse)];
      }
      if lock == Some(PenWidth) && isdown && anchor.Some? {
        effects := effects + [PenCircle(RelPos(anchor.value, offset), FloorDiv(penwidth + 1, 2))];
      }
    }

    /** One pass of the main loop: the batch, then the preview with the
        pointer at `mouse`, unless the batch quits. */
    method RunPass(events: seq<Event>, mouse: Pair) returns (effects: seq<Effect>, quit: bool)
      requires ppp > 0
      modifies this
      ensures var o := Pass(old(Snapshot()), Batch(events, mouse), ppp, Corrected);
        if quit then o == Exit(effects) else o == Next(Snapshot(), effects)
    {
      effects, quit := Pump(events);
      if !quit {
        var shown := DrawPreview(mouse);
        effects := effects + shown;
      }
    }
  }
}
