/**
  AnimatedLoadingButton as an object whose methods update its fields in place.
  `Model()` reads the fields as a ButtonMachine.Snapshot. A method with a
  transition function of the same name is proved to change the fields exactly
  as that function says; the setters change only their own slot, and the reveal
  hand-off is specified by its failure and by what the container did. Every
  public method keeps `Valid()`, the machine's invariant.
*/
module LoadingButton {
  import opened Options
  import M = ButtonMachine
  import P = ButtonProperties
  import RC = RevealContainer

  class AnimatedLoadingButton {
    const id: int
    const style: M.Style
    var state: M.State
    var sizing: bool
    var clickable: bool
    var originalWidth: int
    var originalHeight: int
    var requiredSize: int
    var width: int
    var height: int
    var cornerRadius: int
    var textAlpha: int
    var spinner: Option<M.Spinner>
    var running: seq<M.SizingAnimation>
    var clickListener: Option<nat>
    var startListener: Option<M.Listener>
    var endListener: Option<M.Listener>
    var revealContainer: RC.CircularRevealContainer?
    var calls: seq<M.Call>

    /** The fields that the button's transitions read and write. */
    function Model(): M.Snapshot
      reads this
    {
      M.Snapshot(id, style, state, sizing, clickable, originalWidth, originalHeight, requiredSize,
                 width, height, cornerRadius, textAlpha, spinner, running,
                 clickListener, startListener, endListener, calls)
    }

    ghost predicate Valid()
      reads this
    {
      M.Inv(Model())
    }

    /** Construction: the style comes from the attributes; size and corner radius from the host. */
    constructor (id: int, attrs: Option<M.Attributes>, width: int, height: int, cornerRadius: int)
      ensures Valid()
      ensures Model() == M.Initial(id, M.StyleOf(attrs), width, height, cornerRadius)
      ensures revealContainer == null
    {
      this.id := id;
      var s: M.Style;
      if attrs.Some? {
        var a := attrs.value;
        var duration := M.GetInt(a.animDuration, 0);
        var color := M.GetInt(a.buttonBackgroundColor, 0);
        s := M.Style(M.ToByte(M.GetInt(a.requiredOffset, M.DefaultRequiredOffset)),
                     M.ToByte(M.GetInt(a.progressWidth, M.DefaultProgressWidth)),
                     None, a.isAnimEnabled == Some(true), None);
        if duration != 0 {
          s := s.(revealDuration := Some(duration));
        }
        if color != 0 {
          s := s.(backgroundColor := Some(color));
        }
      } else {
        s := M.Style(M.DefaultRequiredOffset, M.DefaultProgressWidth, None, false, None);
      }
      style := s;
      state := M.Idle;
      sizing := false;
      clickable := true;
      originalWidth, originalHeight, requiredSize := 0, 0, 0;
      this.width, this.height := width, height;
      this.cornerRadius := cornerRadius;
      textAlpha := M.MaxAlpha;
      spinner := None;
      running := [];
      clickListener, startListener, endListener := None, None, None;
      revealContainer := null;
      calls := [];
    }

    /** The button's own click handler. */
    method OnClick()
      requires Valid()
      modifies this
      ensures Valid()
      ensures Model() == M.OnClick(old(Model()))
      ensures revealContainer == old(revealContainer)
    {
      ghost var before := Model();
      if !sizing && state == M.Idle {
        StartProgressAnimation(startListener);
        if clickListener.Some? {
          calls := calls + [M.Clicked(clickListener.value)];
        }
      }
      P.ApplyKeepsInv(before, M.Click);
    }

    method SetOnClickListener(listener: Option<nat>)
      requires Valid()
      modifies this
      ensures Valid()
      ensures Model() == old(Model()).(clickListener := listener)
      ensures revealContainer == old(revealContainer)
    {
      clickListener := listener;
    }

    method SetAnimationStartListener(listener: Option<M.Listener>)
      requires Valid()
      modifies this
      ensures Valid()
      ensures Model() == old(Model()).(startListener := listener)
      ensures revealContainer == old(revealContainer)
    {
      startListener := listener;
    }

    method SetAnimationEndListener(listener: Option<M.Listener>)
      requires Valid()
      modifies this
      ensures Valid()
      ensures Model() == old(Model()).(endListener := listener)
      ensures revealContainer == old(revealContainer)
    {
      endListener := listener;
    }

    method SetCircularRevealContainer(container: RC.CircularRevealContainer?)
      requires Valid()
      modifies this
      ensures Valid()
      ensures Model() == old(Model())
      ensures revealContainer == container
    {
      revealContainer := container;
    }

    /** The shrink. */
    method StartProgressAnimation(listener: Option<M.Listener>)
      modifies this
      ensures Model() == M.StartProgressAnimation(old(Model()), listener)
      ensures revealContainer == old(revealContainer)
    {
      if state != M.Idle {
        return;
      }
      StoreOriginalDimensions();
      state := M.Progress;
      clickable := false;
      AnimateButtonDimensions(M.IsExpansionAnim(listener, state));
    }

    method StoreOriginalDimensions()
      modifies this
      ensures Model() == M.StoreOriginalDimensions(old(Model()))
      ensures revealContainer == old(revealContainer)
    {
      if originalHeight != 0 {
        return;
      }
      originalHeight := height;
      originalWidth := width;
      requiredSize := M.Min(originalHeight, originalWidth);
    }

    method AnimateButtonDimensions(isExpansion: bool)
      modifies this
      ensures Model() == M.AnimateButtonDimensions(old(Model()), isExpansion)
      ensures revealContainer == old(revealContainer)
    {
      if !isExpansion && startListener.Some? {
        calls := calls + [M.AnimationStarted(startListener.value.tag, id)];
      }
      sizing := true;
      running := running + [M.SizingAnimationFor(Model(), isExpansion)];
    }

    /** The completion callback of the oldest running sizing set. */
    method OnSizingAnimationEnd()
      requires Valid()
      requires |running| > 0
      modifies this
      ensures Valid()
      ensures Model() == M.OnSizingAnimationEnd(old(Model()))
      ensures revealContainer == old(revealContainer)
    {
      ghost var before := Model();
      var animation := running[0];
      running := running[1..];
      width := animation.width.to;
      height := animation.height.to;
      cornerRadius := animation.corner.to;
      textAlpha := animation.alpha.to;
      sizing := false;
      if animation.expansion && endListener.Some? {
        calls := calls + [M.AnimationEnded(endListener.value.tag, id)];
      }
      P.ApplyKeepsInv(before, M.SizingEnd);
    }

    /** The end of the progress with the registered end listener. */
    method StartProgressEndAnimation(lookup: RC.CircularRevealContainer?, data: RC.AnimationData)
      returns (failure: Option<M.Failure>)
      requires Valid()
      modifies this, revealContainer, lookup
      ensures Valid()
      ensures (Model(), failure)
        == M.StartProgressEndAnimation(old(Model()), old(endListener), old(revealContainer) != null || lookup != null)
      ensures revealContainer == old(revealContainer)
      ensures HandedOff(old(revealContainer), lookup, old(endListener), data, failure)
    {
      failure := StartProgressEndAnimationWithListener(endListener, lookup, data);
    }

    /**
      What the end of the progress did to the containers: when the reveal ran,
      the target (the explicit container if one is set, else the one the
      hierarchy lookup found) started it with this listener and the other one is
      untouched; otherwise neither changed.
    */
    twostate predicate HandedOff(explicit: RC.CircularRevealContainer?, lookup: RC.CircularRevealContainer?,
                                 listener: Option<M.Listener>, data: RC.AnimationData, failure: Option<M.Failure>)
      reads this, explicit, lookup
    {
      var target := if explicit != null then explicit else lookup;
      if style.revealEnabled && failure.None? then
        && target != null
        && target.Valid()
        && target.RevealStarted(data, TagOf(listener))
        && (lookup != null && lookup != target ==> unchanged(lookup))
      else
        && (explicit != null ==> unchanged(explicit))
        && (lookup != null ==> unchanged(lookup))
    }

    static function TagOf(listener: Option<M.Listener>): Option<nat>
    {
      if listener.Some? then Some(listener.value.tag) else None
    }

    /** The end of the progress with an explicitly given end listener. */
    method StartProgressEndAnimationWithListener(listener: Option<M.Listener>,
                                                 lookup: RC.CircularRevealContainer?, data: RC.AnimationData)
      returns (failure: Option<M.Failure>)
      requires Valid()
      modifies this, revealContainer, lookup
      ensures Valid()
      ensures (Model(), failure)
        == M.StartProgressEndAnimation(old(Model()), listener, old(revealContainer) != null || lookup != null)
      ensures revealContainer == old(revealContainer)
      ensures HandedOff(old(revealContainer), lookup, listener, data, failure)
    {
      ghost var before := Model();
      if style.revealEnabled {
        failure := StartCircularReveal(listener, lookup, data);
      } else {
        failure := StartExpandAnimation(listener);
      }
      P.ApplyKeepsInv(before, M.EndProgress(listener, old(revealContainer) != null || lookup != null));
    }

    /** The plain expand. */
    method StartExpandAnimation(listener: Option<M.Listener>) returns (failure: Option<M.Failure>)
      modifies this
      ensures (Model(), failure) == M.StartExpandAnimation(old(Model()), listener)
      ensures revealContainer == old(revealContainer)
    {
      failure := None;
      if state != M.Progress {
        return;
      }
      state := M.Idle;
      if spinner.None? {
        failure := Some(M.NullDrawable);
        return;
      }
      spinner := Some(M.Stopped(spinner.value));
      clickable := true;
      AnimateButtonDimensions(M.IsExpansionAnim(listener, state));
    }

    /** The button's half of the circular reveal: no state guard, no change of clickability. */
    method StartCircularReveal(listener: Option<M.Listener>, lookup: RC.CircularRevealContainer?,
                               data: RC.AnimationData)
      returns (failure: Option<M.Failure>)
      modifies this, revealContainer, lookup
      ensures (Model(), failure)
        == M.StartCircularReveal(old(Model()), old(revealContainer) != null || lookup != null)
      ensures revealContainer == old(revealContainer)
      ensures failure.None? ==> var target := if revealContainer != null then revealContainer else lookup;
        && target != null && target.Valid() && target.RevealStarted(data, TagOf(listener))
        && (lookup != null && lookup != target ==> unchanged(lookup))
      ensures failure.Some? ==>
        && (revealContainer != null ==> unchanged(revealContainer))
        && (lookup != null ==> unchanged(lookup))
    {
      state := M.Idle;
      if spinner.None? {
        failure := Some(M.NullDrawable);
        return;
      }
      spinner := Some(M.Stopped(spinner.value));
      if revealContainer != null {
        failure := StartCircularRevealOn(revealContainer, listener, data);
      } else {
        failure := StartCircularRevealOn(lookup, listener, data);
      }
    }

    /** Hand the reveal to `container`, or throw ContainerNotFound when there is none. */
    method StartCircularRevealOn(container: RC.CircularRevealContainer?, listener: Option<M.Listener>,
                                 data: RC.AnimationData)
      returns (failure: Option<M.Failure>)
      modifies container
      ensures failure == (if container == null then Some(M.ContainerNotFound) else None)
      ensures container != null ==> container.Valid() && container.RevealStarted(data, TagOf(listener))
    {
      if container != null {
        container.StartCircularRevealAnimation(data, TagOf(listener));
        failure := None;
      } else {
        failure := Some(M.ContainerNotFound);
      }
    }

    /** The paint routine. */
    method OnDraw()
      requires Valid()
      modifies this
      ensures Valid()
      ensures Model() == M.OnDraw(old(Model()))
      ensures revealContainer == old(revealContainer)
    {
      ghost var before := Model();
      if state == M.Progress && !sizing {
        DrawIndeterminateProgress();
      }
      P.ApplyKeepsInv(before, M.Paint);
    }

    method DrawIndeterminateProgress()
      modifies this
      ensures Model() == M.DrawIndeterminateProgress(old(Model()))
      ensures revealContainer == old(revealContainer)
    {
      if spinner.None? || !spinner.value.running {
        var left := style.requiredOffset;
        var right := width - style.requiredOffset;
        var bottom := height - style.requiredOffset;
        var top := style.requiredOffset;
        spinner := Some(M.Spinner(true, style.progressWidth, left, top, right, bottom));
      }
    }

    /** The host's layout pass. */
    method Layout(newWidth: int, newHeight: int)
      requires Valid()
      modifies this
      ensures Valid()
      ensures Model() == M.Layout(old(Model()), newWidth, newHeight)
      ensures revealContainer == old(revealContainer)
    {
      width, height := newWidth, newHeight;
    }
  }

  /**
    A client of the class: a 200 by 100 button goes through a full cycle with
    the plain expand and ends where it started, having told its listeners in
    order: start listener, click listener, end listener.
  */
  method FullCycle() returns (width: int, height: int, clickable: bool, calls: seq<M.Call>)
    ensures width == 200 && height == 100 && clickable
    ensures calls == [M.AnimationStarted(1, 7), M.Clicked(0), M.AnimationEnded(2, 7)]
  {
    var button := new AnimatedLoadingButton(7, None, 200, 100, 0);
    button.SetOnClickListener(Some(0));
    button.SetAnimationStartListener(Some(M.Listener(1, false)));
    button.SetAnimationEndListener(Some(M.Listener(2, true)));
    button.OnClick();
    assert button.running == [M.SizingAnimation(false, 3000, M.Span(0, 1000), M.Span(200, 100), M.Span(100, 100), M.Span(255, 0))];
    assert button.calls == [M.AnimationStarted(1, 7), M.Clicked(0)];
    button.OnSizingAnimationEnd();
    assert button.state == M.Progress && !button.sizing && button.running == [];
    button.OnDraw();
    assert button.spinner.Some?;
    var failure := button.StartProgressEndAnimation(null, RC.AnimationData(None, None));
    assert failure.None?;
    assert button.running == [M.SizingAnimation(true, 3000, M.Span(1000, 0), M.Span(100, 200), M.Span(100, 100), M.Span(0, 255))];
    button.OnSizingAnimationEnd();
    width, height, clickable, calls := button.width, button.height, button.clickable, button.calls;
  }

  /**
    A client of the class: reveal enabled and no container anywhere. The end of
    the progress throws ContainerNotFound, the button is IDLE and still not
    clickable, and the container the lookup did not find is untouched.
  */
  method RevealWithoutContainer() returns (failure: Option<M.Failure>, state: M.State, clickable: bool)
    ensures failure == Some(M.ContainerNotFound) && state == M.Idle && !clickable
  {
    var attrs := M.Attributes(None, None, None, Some(true), None);
    var button := new AnimatedLoadingButton(7, Some(attrs), 200, 100, 0);
    button.OnClick();
    button.OnSizingAnimationEnd();
    button.OnDraw();
    failure := button.StartProgressEndAnimation(null, RC.AnimationData(None, None));
    state, clickable := button.state, button.clickable;
  }

  /**
    A client of both classes: the reveal is handed to the explicitly set
    container, which swallows touches until its animator ends and then calls
    the end listener with the container's own id.
  */
  method RevealHandOff() returns (swallowed: bool, forwardedWhileRunning: bool, afterEnd: bool, calls: seq<RC.ListenerCall>)
    ensures swallowed && !forwardedWhileRunning && !afterEnd
    ensures calls == [RC.ListenerCall(2, 42)]
  {
    var container := new RC.CircularRevealContainer(42, 0, false);
    var attrs := M.Attributes(None, None, Some(500), Some(true), None);
    var button := new AnimatedLoadingButton(7, Some(attrs), 200, 100, 0);
    button.SetAnimationEndListener(Some(M.Listener(2, true)));
    button.SetCircularRevealContainer(container);
    button.OnClick();
    button.OnSizingAnimationEnd();
    button.OnDraw();
    var failure := button.StartProgressEndAnimation(null, RC.AnimationData(Some(700), None));
    assert failure.None?;
    assert container.animators == [RC.RevealAnimator(700, Some(2))];
    swallowed, forwardedWhileRunning := container.DispatchTouchEvent(false);
    container.OnAnimationEnd(0);
    afterEnd := container.animInProgress;
    calls := container.invoked;
  }

  /**
    A client of both classes: the reveal path has no state guard, so ending the
    progress a second time in a row hands a second reveal to the container,
    whose flag is raised again and whose end listener will be called twice.
  */
  method RevealHandedOffTwice() returns (animators: seq<RC.RevealAnimator>, flag: bool, state: M.State)
    ensures animators == [RC.RevealAnimator(2000, Some(2)), RC.RevealAnimator(2000, Some(2))]
    ensures flag && state == M.Idle
  {
    var container := new RC.CircularRevealContainer(42, 0, false);
    var attrs := M.Attributes(None, None, None, Some(true), None);
    var button := new AnimatedLoadingButton(7, Some(attrs), 200, 100, 0);
    button.SetAnimationEndListener(Some(M.Listener(2, true)));
    button.SetCircularRevealContainer(container);
    button.OnClick();
    assert button.state == M.Progress && |button.running| == 1;
    button.OnSizingAnimationEnd();
    assert button.state == M.Progress && !button.sizing;
    button.OnDraw();
    assert button.spinner.Some? && button.revealContainer == container && container.animators == [];
    var failure := button.StartProgressEndAnimation(null, RC.AnimationData(None, None));
    assert failure.None? && button.state == M.Idle && button.spinner.Some?;
    assert container.animators == [RC.RevealAnimator(2000, Some(2))];
    failure := button.StartProgressEndAnimation(null, RC.AnimationData(None, None));
    assert failure.None?;
    animators, flag, state := container.animators, container.animInProgress, button.state;
  }
}
