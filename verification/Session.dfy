/** Whole sessions: any sequence of frames, forced repaints, changes of the
    terminal's size and changes of the settings. */
module Session {
  import opened Common
  import opened Terminal
  import opened Renderer
  import opened PaintProofs
  import opened Fidelity
  import Compositor

  datatype Options = Options(text: Text, clearOnShrink: bool, showCursor: bool)

  datatype Sys = Sys(options: Options, shadow: Shadow, term: Term)

  /** `Resized` gives the terminal as its own reflow left it, contents and all;
      `Clearing` and `ShowingCursor` change a setting. */
  datatype Event =
    | Forced
    | Resized(term: Term)
    | Clearing(on: bool)
    | ShowingCursor(on: bool)
    | Rendered(frame: Frame)

  /** The size is asked of the terminal at every render. */
  function SettingOf(o: Options, t: Term): Setting {
    Setting(o.text, t.width, t.height, o.clearOnShrink, o.showCursor)
  }

  function Current(sys: Sys): Setting {
    SettingOf(sys.options, sys.term)
  }

  const FORCED := Shadow([], -1, -1, 0, 0, 0, 0, 0)

  function Apply(sys: Sys, e: Event): (r: Sys)
    requires sys.term.Valid() && (e.Resized? ==> e.term.Valid())
    ensures r.term.Valid()
  {
    match e
    case Forced => sys.(shadow := FORCED.(redraws := sys.shadow.redraws))
    case Resized(t) => sys.(term := t)
    case Clearing(on) => sys.(options := sys.options.(clearOnShrink := on))
    case ShowingCursor(on) =>
      sys.(options := sys.options.(showCursor := on),
           term := if sys.options.showCursor && !on then Step(sys.term, HideCursor) else sys.term)
    case Rendered(f) =>
      var (s', ops) := Render(Current(sys), sys.shadow, f);
      sys.(shadow := s', term := Run(sys.term, ops))
  }

  /** A new size differs from that of the last frame, unless a repaint is forced
      anyway; before the first frame the screen stays blank.  Each frame must be
      safe to patch. */
  ghost predicate Allowed(sys: Sys, e: Event) {
    match e
    case Resized(t) =>
      && t.Valid() && Quiet(sys.term, t)
      && (sys.shadow.width == 0 ==> Untouched(SettingOf(sys.options, t), sys.shadow, t))
      && (sys.shadow.width > 0 ==> t.width != sys.shadow.width || t.height != sys.shadow.height)
    case Rendered(f) => Closed(f.lines) && CursorInTail(Current(sys), f) && Safe(Current(sys), sys.shadow, f)
    case _ => true
  }

  /** What can be read off the frames: none is shorter than the one before, but
      where clearing is on and no overlay is up, or where the size changed or a
      repaint was forced in between. */
  ghost predicate Fitting(sys: Sys, e: Event) {
    if e.Rendered? then
      && Closed(e.frame.lines) && CursorInTail(Current(sys), e.frame)
      && (|| SizeChanged(Current(sys), sys.shadow)
          || |e.frame.lines| >= |sys.shadow.lines|
          || (sys.options.clearOnShrink && !e.frame.overlays))
    else Allowed(sys, e)
  }

  ghost predicate Invariant(sys: Sys) {
    var c := Current(sys);
    && sys.options.text.Truncates() && sys.term.Valid() && !sys.term.clamped && !sys.term.wrapped
    && (|| Untouched(c, sys.shadow, sys.term)
        || (Stale(c, sys.shadow, sys.term) && sys.shadow.width != 0 && sys.shadow.height != 0)
        || Tracks(c, sys.shadow, sys.term))
  }

  /** The working height is that of the last frame, or a repaint is due. */
  predicate Settled(sys: Sys) {
    SizeChanged(Current(sys), sys.shadow) || sys.shadow.max == |sys.shadow.lines|
  }

  /** A fitting frame is safe, whatever it holds, and leaves the working height
      settled; so with clearing on every frame is. */
  lemma FittingIsSafe(sys: Sys, f: Frame)
    requires Invariant(sys) && Settled(sys) && Fitting(sys, Rendered(f))
    ensures var c := Current(sys);
            Safe(c, sys.shadow, f) && Choose(c, sys.shadow, f) != Shorter
            && Render(c, sys.shadow, f).0.max == |f.lines|
  {
    hide FullOps, CursorOps, DeleteOps, PatchOps, Picture, FirstChanged, LastChanged;
    var c := Current(sys);
    ChosenPath(c, sys.shadow, f);
    ChangesAreOrdered(sys.shadow.lines, f.lines);
    if Choose(c, sys.shadow, f) == Same {
      SameLines(sys.shadow.lines, f.lines);
    }
  }

  /** Frames with overlays composited into them always fit. */
  lemma CompositedFramesFit(sys: Sys, lines: seq<Compositor.Line>, views: seq<Compositor.View>, f: Frame)
    requires views != [] && sys.term.Valid() && Recorded(sys.shadow)
    requires Closed(f.lines) && CursorInTail(Current(sys), f)
    requires |f.lines| == |Compositor.Composite(lines, views, sys.shadow.max, sys.term.width, sys.term.height)|
    ensures Fitting(sys, Rendered(f))
  {
    hide Compositor.Composite, Compositor.WorkingHeight, SizeChanged;
    Compositor.CompositeHeight(lines, views, sys.shadow.max, sys.term.width, sys.term.height);
  }

  lemma StepKeepsInvariant(sys: Sys, e: Event)
    requires Invariant(sys) && Allowed(sys, e)
    ensures Invariant(Apply(sys, e))
    ensures e.Rendered? ==> Tracks(Current(sys), Apply(sys, e).shadow, Apply(sys, e).term)
                            && Apply(sys, e).shadow.lines == e.frame.lines
                            && CursorPlaced(Current(sys), e.frame, Apply(sys, e).term)
  {
    hide Run, Picture;
    match e
    case Forced =>
      assert Stale(Current(sys), Apply(sys, e).shadow, sys.term);
    case Resized(t) =>
      assert sys.shadow.width != 0 ==> Stale(SettingOf(sys.options, t), sys.shadow, t);
    case Clearing(_) =>
      SettingsAreIdle(sys, e);
    case ShowingCursor(_) =>
      SettingsAreIdle(sys, e);
    case Rendered(f) =>
      hide Render;
      SafeRenderIsFaithful(Current(sys), sys.shadow, f, sys.term);
  }

  /** A setting by itself changes at most whether the cursor shows. */
  lemma SettingsAreIdle(sys: Sys, e: Event)
    requires Invariant(sys) && (e.Clearing? || e.ShowingCursor?)
    ensures Apply(sys, e) == sys.(options := Apply(sys, e).options, term := Apply(sys, e).term)
    ensures Apply(sys, e).term == sys.term.(visible := Apply(sys, e).term.visible) && Invariant(Apply(sys, e))
  {
    hide Run, Render, MoveUp, PutCells;
    assert Step(sys.term, HideCursor) == sys.term.(visible := false);
    SamePicture(Current(sys), Current(Apply(sys, e)), sys.shadow.lines, Max(sys.shadow.max, sys.term.height));
    SamePicture(Current(sys), Current(Apply(sys, e)), [], sys.term.height);
  }

  lemma SamePicture(c: Setting, d: Setting, lines: seq<string>, n: nat)
    requires c.text == d.text && c.width == d.width
    ensures Picture(c, lines, n) == Picture(d, lines, n)
  {
  }

  /** Terminals given in a session are well-formed. */
  predicate WellFormed(events: seq<Event>) {
    forall e :: e in events && e.Resized? ==> e.term.Valid()
  }

  function RunAll(sys: Sys, events: seq<Event>): (r: Sys)
    requires sys.term.Valid() && WellFormed(events)
    ensures r.term.Valid()
    decreases |events|
  {
    if events == [] then sys else RunAll(Apply(sys, events[0]), events[1..])
  }

  ghost predicate AllAllowed(sys: Sys, events: seq<Event>)
    requires sys.term.Valid() && WellFormed(events)
    decreases |events|
  {
    events == [] || (Allowed(sys, events[0]) && AllAllowed(Apply(sys, events[0]), events[1..]))
  }

  ghost predicate AllFitting(sys: Sys, events: seq<Event>)
    requires sys.term.Valid() && WellFormed(events)
    decreases |events|
  {
    events == [] || (Fitting(sys, events[0]) && AllFitting(Apply(sys, events[0]), events[1..]))
  }

  /** In every state a session of safe frames reaches the shadow is true of the
      terminal, or a repaint is due. */
  lemma {:induction false} InvariantHolds(sys: Sys, events: seq<Event>)
    requires Invariant(sys) && WellFormed(events) && AllAllowed(sys, events)
    ensures Invariant(RunAll(sys, events))
    decreases |events|
  {
    if events != [] {
      hide Invariant, Apply, Allowed;
      StepKeepsInvariant(sys, events[0]);
      InvariantHolds(Apply(sys, events[0]), events[1..]);
    }
  }

  lemma StepSettles(sys: Sys, e: Event)
    requires Invariant(sys) && Settled(sys) && Fitting(sys, e)
    ensures Allowed(sys, e) && Settled(Apply(sys, e))
  {
    hide Run, Picture, Render, Safe, Choose, Step;
    if e.Rendered? {
      FittingIsSafe(sys, e.frame);
      StepKeepsInvariant(sys, e);
      AppliedShadow(sys, e.frame);
    }
  }

  /** Sessions of fitting frames are sessions of safe frames, and stay settled. */
  lemma {:induction false} FittingSessionsAreSafe(sys: Sys, events: seq<Event>)
    requires Invariant(sys) && Settled(sys) && WellFormed(events) && AllFitting(sys, events)
    ensures AllAllowed(sys, events)
    ensures Invariant(RunAll(sys, events)) && Settled(RunAll(sys, events))
    decreases |events|
  {
    if events != [] {
      hide Invariant, Apply, Allowed, Fitting, Settled;
      StepSettles(sys, events[0]);
      StepKeepsInvariant(sys, events[0]);
      FittingSessionsAreSafe(Apply(sys, events[0]), events[1..]);
    }
  }

  // ---- the fields alone -----------------------------------------------------------------

  predicate AllClosed(events: seq<Event>) {
    forall e :: e in events && e.Rendered? ==> Closed(e.frame.lines)
  }

  lemma AppliedShadow(sys: Sys, f: Frame)
    requires sys.term.Valid()
    ensures Apply(sys, Rendered(f)).shadow == Render(Current(sys), sys.shadow, f).0
  {
    hide Render, Run;
  }

  lemma StepRecords(sys: Sys, e: Event)
    requires Recorded(sys.shadow) && sys.term.Valid() && (e.Resized? ==> e.term.Valid())
    requires e.Rendered? ==> Closed(e.frame.lines)
    ensures Recorded(Apply(sys, e).shadow)
  {
    hide Recorded, Render, Run, Step;
    if e.Rendered? {
      RenderRecords(Current(sys), sys.shadow, e.frame);
    } else if e.Forced? {
      ForcedIsRecorded(sys.shadow.redraws);
    }
  }

  /** With any settings, and whatever the frames show or the terminal became: the
      recorded lines never outgrow the working height, and the recorded top is
      always that of the working height. */
  lemma {:induction false} RecordedAlways(sys: Sys, events: seq<Event>)
    requires Recorded(sys.shadow) && sys.term.Valid() && WellFormed(events) && AllClosed(events)
    ensures Recorded(RunAll(sys, events).shadow)
    decreases |events|
  {
    hide Recorded, Apply;
    if events != [] {
      StepRecords(sys, events[0]);
      RecordedAlways(Apply(sys, events[0]), events[1..]);
    }
  }

  lemma ForcedIsRecorded(redraws: nat)
    ensures Recorded(FORCED.(redraws := redraws)) && Recorded(INITIAL)
  {
  }

  /** One render from fields in step. */
  lemma RenderKeepsRecord(c: Setting, s: Shadow, f: Frame)
    requires Recorded(s) && Closed(f.lines)
    ensures var s' := Render(c, s, f).0;
            && s'.lines == f.lines && |s'.lines| <= s'.max
            && s'.height == c.height && s'.top == Max(0, s'.max - s'.height)
    ensures Choose(c, s, f) == Partial ==>
              var target := MoveTarget(s, f.lines, FirstChanged(s.lines, f.lines));
              0 <= target <= s.top + c.height - 1 && ScrollAhead(c, s, target).2 == []
  {
    hide Render, Choose, ScrollAhead, MoveTarget, FirstChanged;
    RenderRecords(c, s, f);
    if Choose(c, s, f) == Partial {
      PatchNeverScrollsAhead(c, s, f);
    }
  }

  /** After every render of every session, safe or not, with clearing on or off:
      the frame is recorded, within the working height, and the top is that of
      the working height at the size rendered; and the render did not scroll
      ahead of the screen. */
  lemma EveryRenderRecords(start: Sys, events: seq<Event>, f: Frame)
    requires start.shadow == INITIAL && start.term.Valid() && Closed(f.lines)
    requires WellFormed(events) && AllClosed(events)
    ensures var now := RunAll(start, events);
            var c := Current(now);
            var s := Apply(now, Rendered(f)).shadow;
            && s.lines == f.lines && |s.lines| <= s.max
            && s.height == c.height && s.top == Max(0, s.max - s.height)
            && (Choose(c, now.shadow, f) == Partial ==>
                  var target := MoveTarget(now.shadow, f.lines, FirstChanged(now.shadow.lines, f.lines));
                  0 <= target <= now.shadow.top + c.height - 1 && ScrollAhead(c, now.shadow, target).2 == [])
  {
    hide *;
    assert Recorded(INITIAL) by { ForcedIsRecorded(0); }
    RecordedAlways(start, events);
    var now := RunAll(start, events);
    RenderKeepsRecord(Current(now), now.shadow, f);
    AppliedShadow(now, f);
  }

  // ---- the refinement -----------------------------------------------------------------------

  /** What clearing everything and printing the lines leaves, from any terminal
      `any` of that size. */
  function Repainted(o: Options, any: Term, lines: seq<string>): Term
    requires any.Valid()
  {
    Run(any, FullOps(SettingOf(o, any), lines, true))
  }

  /** What the terminal shows, and where its cursor is. */
  ghost predicate Refines(c: Setting, f: Frame, s: Shadow, t: Term, full: Term)
    requires t.Valid() && full.Valid()
  {
    && CursorPlaced(c, f, t)
    && t.Scrollback() + t.Screen() == full.Scrollback() + full.Screen()
    && t.Scrollback() == full.Scrollback() && t.Screen() == full.Screen()
    && t.at - t.Top() == s.hardwareRow - s.top && 0 <= s.hardwareRow - s.top < t.height
    && !t.clamped && !t.wrapped
  }

  /** The refinement: after any session of fitting frames the next one leaves
      scrollback and screen exactly as a full repaint would, from whatever
      terminal that started; the cursor is where the marker was, and shows if it
      is to; and no move was clamped nor line wrapped in the whole session.  With
      clearing on and no overlays every frame fits. */
  lemma DifferentialRefinesRepaint(start: Sys, events: seq<Event>, f: Frame, any: Term)
    requires start.shadow == INITIAL && Invariant(start)
    requires WellFormed(events) && AllFitting(start, events)
    requires var now := RunAll(start, events);
             && Fitting(now, Rendered(f))
             && any.Valid() && any.width == now.term.width && any.height == now.term.height
    ensures var now := RunAll(start, events);
            var next := Apply(now, Rendered(f));
            Refines(Current(now), f, next.shadow, next.term, Repainted(now.options, any, f.lines))
  {
    assert start.term.Valid() && Settled(start);
    hide Run, RunAll, Invariant, AllFitting, AllAllowed, Settled;
    FittingSessionsAreSafe(start, events);
    FittingRenderRefines(RunAll(start, events), f, any);
  }

  lemma FittingRenderRefines(sys: Sys, f: Frame, any: Term)
    requires Invariant(sys) && Settled(sys) && Fitting(sys, Rendered(f))
    requires any.Valid() && any.width == sys.term.width && any.height == sys.term.height
    ensures var next := Apply(sys, Rendered(f));
            Refines(Current(sys), f, next.shadow, next.term, Repainted(sys.options, any, f.lines))
  {
    hide Run, Render, Picture, FullOps, Safe, Choose;
    StepKeepsInvariant(sys, Rendered(f)) by { FittingIsSafe(sys, f); }
    FittingIsSafe(sys, f);
    AppliedShadow(sys, f);
    FullPaints(SettingOf(sys.options, any), any, f.lines, true);
  }

  // ---- switching clearing on -------------------------------------------------------------

  /** A frame of `n` lines that changes the first row it can without a repaint
      being taken. */
  function Changing(s: Shadow, first: nat, n: nat): Frame
    requires first <= |s.lines|
  {
    Frame(seq(n, i requires 0 <= i => if i < first then s.lines[i] else LineAt(s.lines, i) + "x"), None, false)
  }

  /** When clearing is on but was not before, every frame without overlays is
      safe exactly when the working height is that of the last frame, or all of
      it is on screen; otherwise the first frames must be safe, or repaints. */
  lemma SwitchingOnIsSafeExactlyWhen(c: Setting, s: Shadow, t: Term)
    requires Tracks(c, s, t) && c.clearOnShrink
    ensures (forall f: Frame :: Closed(f.lines) && CursorInTail(c, f) && !f.overlays ==> Safe(c, s, f))
            <==> s.max == |s.lines| || s.max <= c.height
  {
    hide Picture, FirstChanged, LastChanged;
    if s.max == |s.lines| || s.max <= c.height {
      forall f: Frame | Closed(f.lines) && CursorInTail(c, f) && !f.overlays
        ensures Safe(c, s, f)
      {
        ClearingIsSafe(c, s, f);
      }
    } else {
      ChangingIsUnsafe(c, s);
    }
  }

  lemma ClearingIsSafe(c: Setting, s: Shadow, f: Frame)
    requires Recorded(s) && c.clearOnShrink && !f.overlays && Closed(f.lines) && CursorInTail(c, f)
    requires s.height == c.height && (s.max == |s.lines| || s.max <= c.height)
    ensures Safe(c, s, f)
  {
    hide FirstChanged, LastChanged;
    ChosenPath(c, s, f);
    ChangesAreOrdered(s.lines, f.lines);
  }

  /** Above the screen, but below the content's own top. */
  lemma ChangingIsUnsafe(c: Setting, s: Shadow)
    requires Recorded(s) && c.clearOnShrink && s.width == c.width && s.height == c.height
    requires |s.lines| < s.max && c.height < s.max && s.lines != [] && 1 <= c.height
    ensures var f := Changing(s, Max(0, |s.lines| - c.height), s.max);
            Closed(f.lines) && CursorInTail(c, f) && !f.overlays && !Safe(c, s, f)
  {
    hide LastChanged;
    var first := Max(0, |s.lines| - c.height);
    var f := Changing(s, first, s.max);
    forall i: nat | i < first
      ensures !Changed(s.lines, f.lines, i)
    {
    }
    assert |LineAt(s.lines, first) + "x"| == |LineAt(s.lines, first)| + 1;
    assert Changed(s.lines, f.lines, first);
    assert FirstChanged(s.lines, f.lines) == first;
  }
}
