/** Properties of the button's transition functions. */
module ButtonProperties {
  import opened Options
  import opened ButtonMachine

  // ---- configuration -------------------------------------------------------

  /** Without attributes, and with attributes none of which is set, the defaults are the same. */
  lemma DefaultStyle()
    ensures StyleOf(None) == Style(20, 8, None, false, None)
    ensures StyleOf(Some(Attributes(None, None, None, None, None))) == StyleOf(None)
  {
  }

  /** The reveal duration is stored exactly when the attribute is non-zero, and then it is kept as given. */
  lemma RevealDurationStoredWhenNonZero(a: Attributes)
    ensures StyleOf(Some(a)).revealDuration.Some? <==> a.animDuration.Some? && a.animDuration.value != 0
    ensures StyleOf(Some(a)).revealDuration.Some? ==> StyleOf(Some(a)).revealDuration.value == a.animDuration.value
  {
  }

  /** An offset or width from an attribute is that value truncated to a byte. */
  lemma StyleTruncatesToBytes(a: Attributes)
    ensures StyleOf(Some(a)).requiredOffset == ToByte(GetInt(a.requiredOffset, 20))
    ensures StyleOf(Some(a)).progressWidth == ToByte(GetInt(a.progressWidth, 8))
    ensures a.requiredOffset.Some? && -128 <= a.requiredOffset.value < 128 ==> StyleOf(Some(a)).requiredOffset == a.requiredOffset.value
    ensures a.requiredOffset == Some(200) ==> StyleOf(Some(a)).requiredOffset == -56
  {
  }

  // ---- click and shrink ----------------------------------------------------

  /** A click is ignored unless no sizing runs and the state is IDLE. */
  lemma ClickIgnoredWhenBusy(b: Snapshot)
    requires b.sizing || b.state == Progress
    ensures OnClick(b) == b
  {
  }

  /**
    An accepted click leaves the button in PROGRESS, not clickable, sizing, with
    exactly one more running set; the start listener hears of it first (unless
    it calls itself an expansion) and then the click listener.
  */
  lemma ClickStartsShrink(b: Snapshot)
    requires AcceptsClick(b)
    ensures var c := OnClick(b);
      && c.state == Progress && !c.clickable && c.sizing
      && |c.running| == |b.running| + 1 && c.running[..|b.running|] == b.running
      && c.calls == b.calls
           + (if b.startListener.Some? && !b.startListener.value.expanding
              then [AnimationStarted(b.startListener.value.tag, b.id)] else [])
           + (if b.clickListener.Some? then [Clicked(b.clickListener.value)] else [])
  {
  }

  /** Clicking a second time in a row changes nothing: no second shrink can start. */
  lemma ClickTwiceIsClickOnce(b: Snapshot)
    ensures OnClick(OnClick(b)) == OnClick(b)
  {
  }

  /** The shrink is a no-op unless the state is IDLE; otherwise it ends in PROGRESS, unclickable, sizing. */
  lemma ShrinkGuardAndEffect(b: Snapshot, listener: Option<Listener>)
    ensures b.state != Idle ==> StartProgressAnimation(b, listener) == b
    ensures b.state == Idle ==>
      var s := StartProgressAnimation(b, listener);
      s.state == Progress && !s.clickable && s.sizing
  {
  }

  /**
    Whether a set is an expansion is the listener's answer when there is a
    listener, and otherwise whether the state, already changed, is IDLE. The
    corner radius end points follow the new state, not that answer.
  */
  lemma ExpansionDecision(b: Snapshot, listener: Option<Listener>)
    ensures b.state == Idle ==>
      var rs := StartProgressAnimation(b, listener).running;
      && |rs| == |b.running| + 1
      && rs[|rs| - 1].expansion == (listener.Some? && listener.value.expanding)
      && rs[|rs| - 1].corner == Span(0, 1000)
    ensures b.state == Progress && b.spinner.Some? ==>
      var rs := StartExpandAnimation(b, listener).0.running;
      && |rs| == |b.running| + 1
      && rs[|rs| - 1].expansion == (listener.None? || listener.value.expanding)
      && rs[|rs| - 1].corner == Span(1000, 0)
      && StartExpandAnimation(b, listener).0.calls == b.calls +
           (if listener.Some? && !listener.value.expanding && b.startListener.Some?
            then [AnimationStarted(b.startListener.value.tag, b.id)] else [])
  {
  }

  /** The end points of the shrink set started by an accepted click. */
  lemma ShrinkEndpoints(b: Snapshot)
    requires AcceptsClick(b)
    requires b.startListener.None? || !b.startListener.value.expanding
    ensures var c := OnClick(b);
      var size := if b.originalHeight == 0 then Min(b.height, b.width) else b.requiredSize;
      c.running[|c.running| - 1]
        == SizingAnimation(false, 3000, Span(0, 1000), Span(b.width, size), Span(b.height, size), Span(255, 0))
  {
  }

  /** Original size is captured only while the original height is 0, and the required size is the smaller side. */
  lemma CaptureOnlyWhenUnset(b: Snapshot)
    ensures b.originalHeight != 0 ==> StoreOriginalDimensions(b) == b
    ensures b.originalHeight == 0 ==>
      var s := StoreOriginalDimensions(b);
      s.originalWidth == b.width && s.originalHeight == b.height && s.requiredSize == Min(b.width, b.height)
  {
  }

  // ---- expand and reveal ---------------------------------------------------

  /** The plain expand is a no-op unless the state is PROGRESS. */
  lemma ExpandOnlyFromProgress(b: Snapshot, listener: Option<Listener>)
    requires b.state != Progress
    ensures StartExpandAnimation(b, listener) == (b, None)
  {
  }

  /**
    From PROGRESS with a drawable, the plain expand sets IDLE, stops the
    drawable, enables input and starts the expansion set (unless the listener
    says otherwise), notifying nobody yet.
  */
  lemma ExpandEffect(b: Snapshot, listener: Option<Listener>)
    requires b.state == Progress && b.spinner.Some?
    requires listener.None? || listener.value.expanding
    ensures var (e, failure) := StartExpandAnimation(b, listener);
      && failure.None? && e.state == Idle && e.clickable && e.sizing
      && e.spinner == Some(b.spinner.value.(running := false))
      && e.calls == b.calls
      && e.running == b.running + [SizingAnimation(true, 3000, Span(1000, 0),
           Span(b.requiredSize, b.originalWidth), Span(b.requiredSize, b.originalHeight), Span(0, 255))]
  {
  }

  /** Calling the plain expand twice in a row: the second call has no effect. */
  lemma ExpandTwiceIsExpandOnce(b: Snapshot, first: Option<Listener>, second: Option<Listener>)
    ensures var once := StartExpandAnimation(b, first).0;
      StartExpandAnimation(once, second) == (once, None)
  {
  }

  /** With reveal disabled, ending progress twice in a row: the second call has no effect. */
  lemma EndProgressTwiceIsEndOnce(b: Snapshot, first: Option<Listener>, second: Option<Listener>, found: bool)
    requires !b.style.revealEnabled
    ensures var once := StartProgressEndAnimation(b, first, found).0;
      StartProgressEndAnimation(once, second, found) == (once, None)
  {
  }

  /** Ending progress before the first spinner was ever painted throws, after the state became IDLE. */
  lemma EndWithoutDrawableThrows(b: Snapshot, listener: Option<Listener>, found: bool)
    requires b.spinner.None?
    requires b.style.revealEnabled || b.state == Progress
    ensures StartProgressEndAnimation(b, listener, found) == (b.(state := Idle), Some(NullDrawable))
  {
  }

  /**
    The reveal has no state guard: from any state it sets IDLE and stops the
    drawable; it fails with ContainerNotFound exactly when no container resolved,
    and it never touches clickability, sizing or the running sets.
  */
  lemma RevealPath(b: Snapshot, listener: Option<Listener>, found: bool)
    requires b.style.revealEnabled && b.spinner.Some?
    ensures var (r, failure) := StartProgressEndAnimation(b, listener, found);
      && r == b.(state := Idle, spinner := Some(b.spinner.value.(running := false)))
      && (failure == Some(ContainerNotFound) <==> !found)
      && (failure.None? <==> found)
  {
  }

  // ---- completion and paint ------------------------------------------------

  /**
    The completion callback clears the sizing flag, applies the end values of the
    oldest set, and calls the end listener exactly when that set was an expansion.
  */
  lemma CompletionEffect(b: Snapshot)
    requires |b.running| > 0
    ensures var a := b.running[0]; var e := OnSizingAnimationEnd(b);
      && !e.sizing && e.running == b.running[1..]
      && e.width == a.width.to && e.height == a.height.to
      && e.cornerRadius == a.corner.to && e.textAlpha == a.alpha.to
      && e.calls == b.calls
           + (if a.expansion && b.endListener.Some? then [AnimationEnded(b.endListener.value.tag, b.id)] else [])
  {
  }

  /**
    Painting changes the button only in PROGRESS with no sizing running and no
    running spinner, and then installs a running spinner inset by the offset.
  */
  lemma PaintEffect(b: Snapshot)
    ensures var p := OnDraw(b);
      p != b <==> (b.state == Progress && !b.sizing && (b.spinner.None? || !b.spinner.value.running))
    ensures var p := OnDraw(b);
      p != b ==>
        var o := b.style.requiredOffset;
        p == b.(spinner := Some(Spinner(true, b.style.progressWidth, o, o, b.width - o, b.height - o)))
  {
  }

  // ---- invariants over any sequence of calls ------------------------------

  lemma InitialSatisfiesInv(id: int, style: Style, width: int, height: int, corner: int)
    ensures Inv(Initial(id, style, width, height, corner))
  {
  }

  /** Every single event keeps the invariant. */
  lemma ApplyKeepsInv(b: Snapshot, e: Event)
    requires Inv(b)
    ensures Inv(Apply(b, e))
  {
  }

  /** The invariant holds after any sequence of calls and callbacks. */
  lemma {:induction false} RunKeepsInv(b: Snapshot, events: seq<Event>)
    requires Inv(b)
    ensures Inv(Run(b, events))
    decreases |events|
  {
    if events != [] {
      ApplyKeepsInv(b, events[0]);
      RunKeepsInv(Apply(b, events[0]), events[1..]);
    }
  }

  predicate SameCapture(b: Snapshot, c: Snapshot)
  {
    c.originalWidth == b.originalWidth && c.originalHeight == b.originalHeight
      && c.requiredSize == b.requiredSize
  }

  /** Once a non-zero original height is captured, no call or callback ever changes the capture. */
  lemma {:induction false} CaptureIsFinal(b: Snapshot, events: seq<Event>)
    requires b.originalHeight != 0
    ensures SameCapture(b, Run(b, events))
    decreases |events|
  {
    if events != [] {
      var next := Apply(b, events[0]);
      assert SameCapture(b, next);
      CaptureIsFinal(next, events[1..]);
    }
  }

  lemma {:induction false} RunAppend(b: Snapshot, xs: seq<Event>, ys: seq<Event>)
    ensures Run(b, xs + ys) == Run(Run(b, xs), ys)
    decreases |xs|
  {
    if xs == [] {
      assert xs + ys == ys;
    } else {
      assert (xs + ys)[0] == xs[0];
      assert (xs + ys)[1..] == xs[1..] + ys;
      RunAppend(Apply(b, xs[0]), xs[1..], ys);
    }
  }

  /** The five events of one full cycle with the plain expand. */
  function Cycle(listener: Option<Listener>): seq<Event>
  {
    [Click, SizingEnd, Paint, EndProgress(listener, false), SizingEnd]
  }

  /**
    Round trip: from a resting button, click, let the shrink finish, paint the
    spinner, end the progress and let the expansion finish. The button is back
    to the captured size (its size before the click, on the first cycle), with
    square corners, opaque text, IDLE, clickable and nothing running.
  */
  lemma ShrinkThenExpandRestoresSize(b: Snapshot, listener: Option<Listener>)
    requires Inv(b)
    requires b.state == Idle && !b.sizing && b.running == []
    requires !b.style.revealEnabled
    requires b.startListener.None? || !b.startListener.value.expanding
    requires listener.None? || listener.value.expanding
    ensures var e := Run(b, Cycle(listener));
      && e.width == (if b.originalHeight == 0 then b.width else b.originalWidth)
      && e.height == (if b.originalHeight == 0 then b.height else b.originalHeight)
      && e.cornerRadius == 0 && e.textAlpha == 255
      && e.state == Idle && e.clickable && !e.sizing && e.running == []
  {
    var es := Cycle(listener);
    RunFive(b, es);
    ShrinkPhase(b);
    var c := Apply(b, es[0]);
    assert c == OnClick(b);
    var s := Apply(c, es[1]);
    assert s == OnSizingAnimationEnd(c);
    ExpandPhase(s, listener);
    var p := Apply(s, es[2]);
    assert p == OnDraw(s);
    var x := Apply(p, es[3]);
    assert x == StartProgressEndAnimation(p, listener, false).0;
    var e := Apply(x, es[4]);
    assert e == OnSizingAnimationEnd(x);
  }

  /** Click and the completion of the shrink: a PROGRESS square of the required size. */
  lemma ShrinkPhase(b: Snapshot)
    requires Inv(b)
    requires b.state == Idle && !b.sizing && b.running == []
    requires b.startListener.None? || !b.startListener.value.expanding
    ensures |OnClick(b).running| == 1
    ensures var s := OnSizingAnimationEnd(OnClick(b));
      && s.state == Progress && !s.sizing && s.running == [] && s.style == b.style
      && s.originalWidth == (if b.originalHeight == 0 then b.width else b.originalWidth)
      && s.originalHeight == (if b.originalHeight == 0 then b.height else b.originalHeight)
      && s.width == s.requiredSize && s.height == s.requiredSize
      && s.textAlpha == 0 && s.cornerRadius == 1000
  {
  }

  /** Painting, ending the progress with the plain expand and its completion: back to the captured size. */
  lemma ExpandPhase(s: Snapshot, listener: Option<Listener>)
    requires s.state == Progress && !s.sizing && s.running == [] && !s.style.revealEnabled
    requires listener.None? || listener.value.expanding
    ensures var p := OnDraw(s);
      var x := StartProgressEndAnimation(p, listener, false).0;
      && |x.running| == 1
      && var e := OnSizingAnimationEnd(x);
      && e.width == s.originalWidth && e.height == s.originalHeight
      && e.cornerRadius == 0 && e.textAlpha == 255
      && e.state == Idle && e.clickable && !e.sizing && e.running == []
  {
  }

  /** Unfolds a run of five events. */
  lemma RunFive(b: Snapshot, es: seq<Event>)
    requires |es| == 5
    ensures Run(b, es) == Apply(Apply(Apply(Apply(Apply(b, es[0]), es[1]), es[2]), es[3]), es[4])
  {
    var b1 := Apply(b, es[0]);
    var b2 := Apply(b1, es[1]);
    var b3 := Apply(b2, es[2]);
    var b4 := Apply(b3, es[3]);
    var b5 := Apply(b4, es[4]);
    var t1 := es[1..];
    var t2 := t1[1..];
    var t3 := t2[1..];
    var t4 := t3[1..];
    var t5 := t4[1..];
    assert t5 == [];
    assert Run(b4, t4) == Run(b5, t5);
    assert Run(b3, t3) == Run(b4, t4);
    assert Run(b2, t2) == Run(b3, t3);
    assert Run(b1, t1) == Run(b2, t2);
  }

  /**
    The capture is never reset: a button relaid out to a new size between two
    cycles still expands back to the size captured in the first cycle.
  */
  lemma SecondCycleReturnsToFirstCapture(b: Snapshot, w: int, h: int)
    requires Inv(b)
    requires b.state == Idle && !b.sizing && b.running == []
    requires !b.style.revealEnabled && b.startListener.None?
    requires b.originalHeight == 0 && b.height != 0
    ensures var e := Run(b, Cycle(None) + [Relayout(w, h)] + Cycle(None));
      e.width == b.width && e.height == b.height
  {
    var first := Run(b, Cycle(None));
    ShrinkThenExpandRestoresSize(b, None);
    RunKeepsInv(b, Cycle(None));
    var relaid := Apply(first, Relayout(w, h));
    assert Run(first, [Relayout(w, h)]) == relaid;
    ApplyKeepsInv(first, Relayout(w, h));
    assert first.originalHeight == b.height && first.originalWidth == b.width by {
      OnClickCaptures(b);
      CaptureIsFinal(OnClick(b), Cycle(None)[1..]);
      assert Run(b, Cycle(None)) == Run(OnClick(b), Cycle(None)[1..]);
    }
    ShrinkThenExpandRestoresSize(relaid, None);
    RunAppend(b, Cycle(None), [Relayout(w, h)]);
    RunAppend(b, Cycle(None) + [Relayout(w, h)], Cycle(None));
  }

  lemma OnClickCaptures(b: Snapshot)
    requires AcceptsClick(b) && b.originalHeight == 0 && b.height != 0
    ensures OnClick(b).originalHeight == b.height && OnClick(b).originalWidth == b.width
  {
  }

  // ---- concrete scenarios ------------------------------------------------

  /** A 200 by 100 button: click, shrink to 100 by 100; end with the plain expand: back to 200 by 100. */
  lemma Scenario200By100()
    ensures var b := Initial(7, StyleOf(None), 200, 100, 0);
      var shrunk := Run(b, [Click, SizingEnd]);
      && shrunk.width == 100 && shrunk.height == 100 && shrunk.textAlpha == 0 && shrunk.cornerRadius == 1000
      && var back := Run(shrunk, [Paint, EndProgress(None, false), SizingEnd]);
      back.width == 200 && back.height == 100 && back.textAlpha == 255 && back.cornerRadius == 0
  {
  }

  /** Reveal enabled, no container: ContainerNotFound, state already IDLE, clickability untouched. */
  lemma ScenarioNoContainer(b: Snapshot, listener: Option<Listener>)
    requires b.style.revealEnabled && b.state == Progress && b.spinner.Some? && !b.clickable
    ensures var (r, failure) := StartProgressEndAnimation(b, listener, false);
      failure == Some(ContainerNotFound) && r.state == Idle && !r.clickable
  {
  }

  /** Ending progress while IDLE with the plain expand: no set starts and no listener fires. */
  lemma ScenarioEndWhileIdle(b: Snapshot, listener: Option<Listener>, found: bool)
    requires !b.style.revealEnabled && b.state == Idle
    ensures StartProgressEndAnimation(b, listener, found) == (b, None)
  {
  }

  /**
    The click guard reads the sizing flag, not the running sets. Once a drawable
    exists (from an earlier cycle), ending the progress during the shrink starts
    the expansion at once; the shrink's completion then lowers the flag while
    the expansion still runs, and a click is accepted and starts a new shrink
    on top of it.
  */
  lemma ClickAcceptedWhileExpansionRuns(first: Snapshot)
    requires Inv(first)
    requires first.state == Idle && !first.sizing && first.running == [] && first.spinner.Some?
    requires !first.style.revealEnabled
    ensures |StartExpandAnimation(OnClick(first), None).0.running| == 2
    ensures var b := OnSizingAnimationEnd(StartExpandAnimation(OnClick(first), None).0);
      && AcceptsClick(b) && b.clickable && |b.running| == 1 && b.running[0].expansion
      && |OnClick(b).running| == 2
  {
    ClickStartsShrink(first);
    var c := OnClick(first);
    assert |c.running| == 1 && c.state == Progress && c.spinner.Some? && !c.style.revealEnabled;
    ExpandEffect(c, None);
    var x := StartExpandAnimation(c, None).0;
    assert |x.running| == 2 && x.running[1].expansion && x.clickable && x.state == Idle;
    var b := OnSizingAnimationEnd(x);
    assert b.running == [x.running[1]];
    ClickStartsShrink(b);
  }

  /** Click, end the progress with the plain expand before the shrink finishes, then the shrink finishes. */
  function OverlapRun(b: Snapshot): Snapshot
  {
    Run(b, [Click, EndProgress(None, false), SizingEnd])
  }

  /** On the second cycle of a 200 by 100 button, a click is accepted while the expansion still runs. */
  lemma SecondCycleClickDuringExpansion()
    ensures var first := Run(Initial(7, StyleOf(None), 200, 100, 0), Cycle(None));
      var b := OverlapRun(first);
      AcceptsClick(b) && |b.running| == 1 && |OnClick(b).running| == 2
  {
    var b0 := Initial(7, StyleOf(None), 200, 100, 0);
    InitialSatisfiesInv(7, StyleOf(None), 200, 100, 0);
    CycleLeavesDrawable(b0);
    RunKeepsInv(b0, Cycle(None));
    ClickAcceptedWhileExpansionRuns(Run(b0, Cycle(None)));
    OverlapRunUnfolds(Run(b0, Cycle(None)));
  }

  /** A full plain cycle from a resting button leaves it resting, with a drawable that exists and is stopped. */
  lemma CycleLeavesDrawable(b: Snapshot)
    requires Inv(b)
    requires b.state == Idle && !b.sizing && b.running == []
    requires !b.style.revealEnabled
    requires b.startListener.None? || !b.startListener.value.expanding
    ensures var e := Run(b, Cycle(None));
      e.spinner.Some? && !e.spinner.value.running && e.state == Idle && !e.sizing && e.running == [] && e.style == b.style
  {
    var es := Cycle(None);
    RunFive(b, es);
    ShrinkPhase(b);
    var c := Apply(b, es[0]);
    assert c == OnClick(b);
    var s := Apply(c, es[1]);
    assert s == OnSizingAnimationEnd(c);
    ExpandPhase(s, None);
    ExpandPhaseStopsDrawable(s);
    var p := Apply(s, es[2]);
    assert p == OnDraw(s);
    var x := Apply(p, es[3]);
    assert x == StartProgressEndAnimation(p, None, false).0;
    var e := Apply(x, es[4]);
    assert e == OnSizingAnimationEnd(x);
  }

  /** Painting in PROGRESS, the plain expand and its completion leave a stopped drawable behind. */
  lemma ExpandPhaseStopsDrawable(s: Snapshot)
    requires s.state == Progress && !s.sizing && s.running == [] && !s.style.revealEnabled
    ensures var x := StartProgressEndAnimation(OnDraw(s), None, false).0;
      var e := OnSizingAnimationEnd(x);
      e.spinner.Some? && !e.spinner.value.running && e.style == s.style
  {
  }

  lemma OverlapRunUnfolds(b: Snapshot)
    requires !b.style.revealEnabled
    ensures OverlapRun(b) == OnSizingAnimationEndOrSame(StartExpandAnimation(OnClick(b), None).0)
  {
    RunThree(b, [Click, EndProgress(None, false), SizingEnd]);
  }

  function OnSizingAnimationEndOrSame(b: Snapshot): Snapshot
  {
    if |b.running| > 0 then OnSizingAnimationEnd(b) else b
  }

  /** Unfolds a run of three events. */
  lemma RunThree(b: Snapshot, es: seq<Event>)
    requires |es| == 3
    ensures Run(b, es) == Apply(Apply(Apply(b, es[0]), es[1]), es[2])
  {
    var b1 := Apply(b, es[0]);
    var b2 := Apply(b1, es[1]);
    var b3 := Apply(b2, es[2]);
    var t1 := es[1..];
    var t2 := t1[1..];
    var t3 := t2[1..];
    assert t3 == [];
    assert Run(b2, t2) == Run(b3, t3);
    assert Run(b1, t1) == Run(b2, t2);
  }
}
