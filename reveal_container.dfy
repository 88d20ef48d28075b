/**
  CircularRevealContainerImpl: the frame that plays the circular reveal on
  behalf of a button and swallows touch events while it does.

  A started reveal animator is kept in `animators` until its end callback is
  delivered; the callbacks are events given an index into that list. The
  `invoked` log records the calls made on the end listeners.
*/
module RevealContainer {
  import opened Options

  /** The duration used when the animation data carries none. */
  const DefaultAnimDuration := 2000

  /** The parts of the button's animation data the container reads. */
  datatype AnimationData = AnimationData(animDuration: Option<int>, animColor: Option<int>)

  /** A started reveal animator: its duration and the end listener it will call. */
  datatype RevealAnimator = RevealAnimator(duration: int, listener: Option<nat>)

  /** An end listener call: which listener, with which view id. */
  datatype ListenerCall = ListenerCall(listener: nat, viewId: int)

  /** The data's duration when it has one, otherwise the default. */
  function AnimDuration(data: AnimationData): (d: int)
    ensures data.animDuration.Some? ==> d == data.animDuration.value
    ensures data.animDuration.None? ==> d == DefaultAnimDuration
  {
    if data.animDuration.Some? then data.animDuration.value else DefaultAnimDuration
  }

  /** The animator assembled for `data`, remembering the listener for its end callback. */
  function AssembleAnimator(data: AnimationData, listener: Option<nat>): (a: RevealAnimator)
    ensures a.listener == listener
    ensures a.duration == AnimDuration(data)
  {
    RevealAnimator(AnimDuration(data), listener)
  }

  class CircularRevealContainer {
    const id: int
    var animInProgress: bool
    var maskColor: int
    var maskVisible: bool
    var animators: seq<RevealAnimator>
    var invoked: seq<ListenerCall>

    /** The gating flag is only up while the mask shows and an animator is running. */
    ghost predicate Valid()
      reads this
    {
      animInProgress ==> maskVisible && |animators| > 0
    }

    /** A new container: touches pass through; the mask's colour and visibility come from its layout. */
    constructor (id: int, maskColor: int, maskVisible: bool)
      ensures Valid()
      ensures this.id == id && this.maskColor == maskColor && this.maskVisible == maskVisible
      ensures !animInProgress && animators == [] && invoked == []
    {
      this.id := id;
      this.maskColor := maskColor;
      this.maskVisible := maskVisible;
      animInProgress := false;
      animators := [];
      invoked := [];
    }

    /** What starting a reveal for `data` and `listener` did to this container. */
    twostate predicate RevealStarted(data: AnimationData, listener: Option<nat>)
      reads this
    {
      && animInProgress && maskVisible
      && animators == old(animators) + [AssembleAnimator(data, listener)]
      && maskColor == (if data.animColor.Some? then data.animColor.value else old(maskColor))
      && invoked == old(invoked)
    }

    /** The mask colour changes only when a colour is supplied. */
    method SetAnimationColor(color: Option<int>)
      modifies this
      ensures maskColor == (if color.Some? then color.value else old(maskColor))
      ensures animInProgress == old(animInProgress) && maskVisible == old(maskVisible)
      ensures animators == old(animators) && invoked == old(invoked)
    {
      if color.Some? {
        maskColor := color.value;
      }
    }

    /** Start the reveal: colour the mask, raise the gating flag, show the mask, start the animator. */
    method StartCircularRevealAnimation(data: AnimationData, listener: Option<nat>)
      modifies this
      ensures Valid()
      ensures RevealStarted(data, listener)
    {
      var animator := AssembleAnimator(data, listener);
      SetAnimationColor(data.animColor);
      animInProgress := true;
      maskVisible := true;
      animators := animators + [animator];
    }

    /** The end callback of animator `i`: lower the flag, then call its listener with this id. */
    method OnAnimationEnd(i: nat)
      requires i < |animators|
      modifies this
      ensures Valid()
      ensures !animInProgress
      ensures animators == old(animators[..i] + animators[i + 1..])
      ensures invoked == old(invoked)
        + (if old(animators[i]).listener.Some? then [ListenerCall(old(animators[i]).listener.value, id)] else [])
      ensures maskColor == old(maskColor) && maskVisible == old(maskVisible)
    {
      var animator := animators[i];
      animInProgress := false;
      animators := animators[..i] + animators[i + 1..];
      if animator.listener.Some? {
        invoked := invoked + [ListenerCall(animator.listener.value, id)];
      }
    }

    /** The cancel callback of a running animator: lower the flag and call nobody. */
    method OnAnimationCancel(i: nat)
      requires i < |animators|
      modifies this
      ensures Valid()
      ensures !animInProgress
      ensures animators == old(animators) && invoked == old(invoked)
      ensures maskColor == old(maskColor) && maskVisible == old(maskVisible)
    {
      animInProgress := false;
    }

    /** Lower the flag and hide the mask, whatever was going on. */
    method RemoveAnimationMask()
      modifies this
      ensures Valid()
      ensures !animInProgress && !maskVisible
      ensures animators == old(animators) && invoked == old(invoked) && maskColor == old(maskColor)
    {
      animInProgress := false;
      maskVisible := false;
    }

    /**
      A touch event is swallowed (consumed, not forwarded) while the flag is up;
      otherwise it is forwarded and the answer is the one of the forwarded dispatch.
      In a valid container a swallowed touch means the mask shows and a reveal runs.
    */
    method DispatchTouchEvent(forwardedResult: bool) returns (consumed: bool, forwarded: bool)
      ensures forwarded <==> !animInProgress
      ensures consumed == (if animInProgress then true else forwardedResult)
      ensures Valid() && !forwarded ==> maskVisible && |animators| > 0
    {
      if !animInProgress {
        forwarded := true;
        consumed := forwardedResult;
      } else {
        forwarded := false;
        consumed := true;
      }
    }
  }
}
