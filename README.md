# Circular reveal loading button, modelled in Dafny

This project models the controller of `AnimatedLoadingButton`: a button that,
when clicked, shrinks into a square with pill corners, fades its text out and
shows an indeterminate spinner (state PROGRESS). When the caller signals that
its work is done, the button goes back to IDLE. It returns either by the reverse
animation to its original size, or by handing a circular reveal to a container
(`CircularRevealContainerImpl`). That container swallows touch events while the
reveal runs.

Layout of the project:

- `options.dfy`: the `Option` type, standing for nullable references.
- `button_machine.dfy` (module `ButtonMachine`) holds the button's state as a
  `Snapshot` value. It gives one transition function per operation: click,
  shrink, expand, reveal, the completion callback of an animator set, and paint.
  It also defines the invariant `Inv` and `Run`, which applies a sequence of
  calls and callbacks.
- `button_properties.dfy` (module `ButtonProperties`): the lemmas about those
  transitions, including invariants over any sequence of calls and the
  shrink-then-expand round trip.
- `loading_button.dfy` (module `LoadingButton`): the class
  `AnimatedLoadingButton`. Its fields are the Java fields. Its methods update
  them imperatively, following the Java bodies. Every method that has a
  transition function of the same name is proved to change `Model()` exactly as
  that function says; the listener setters are proved to change only their
  slot; `StartCircularRevealOn` is specified by its failure and by what the
  container did. Every public method also keeps `Valid()`; the private helpers
  only promise the transition. Four client methods run complete scenarios on
  the objects.
- `reveal_container.dfy` (module `RevealContainer`): the class
  `CircularRevealContainer` with its `isAnimInProgress` flag. It covers the flag's
  transitions, the touch gate, the duration rule and the null-guarded mask colour.

How events are modelled:

- An animation is two events. Starting an animator set appends its end points
  (a `SizingAnimation`) to `running`. The completion callback
  (`OnSizingAnimationEnd`) removes the oldest set and sets width, height, corner
  radius and text alpha to that set's end values. Every set lasts the same
  3000 ms, so sets finish in the order they started.
- Listeners are optional slots. A `Listener` carries a tag and the answer of
  its `isExpandingAnimation()`. Calls made on listeners are appended to
  `calls`.
- The hierarchy lookup for the container id is an input: the container it
  found, or `null`. The reveal's animation data packet is also an input.
- `CircularRevealContainerNotFoundException` is the failure `ContainerNotFound`.
- The `NullPointerException` thrown by `mAnimatedDrawable.stop()` before any
  spinner was painted is the failure `NullDrawable`. It is raised after the
  state has already been set to IDLE, as in the code.

Behaviour of the code, modelled as written:

- The reveal path has no state guard. It never re-enables clicking.
- The original size is captured only while the original height is 0. It is
  never reset, so a second cycle after a relayout expands back to the size the
  first cycle captured (`SecondCycleReturnsToFirstCapture`).
- The completion callback notifies the end listener registered on the button.
  The listener passed to the two-argument `startProgressEndAnimation` only
  decides whether the set is an expansion, and is what the reveal passes to the
  container.
- The corner radius end points follow the state. The width, height and alpha
  end points follow the expansion decision.

Where the widget's documented contract and the code differ, the model follows
the code:

- The documented contract says clicking is re-enabled when the reveal fails
  with `ContainerNotFound`. The code never calls `setClickable(true)` on that
  path.
- The documented contract speaks of a capture once per cycle. The code
  captures once, ever, unless the captured height was 0.
- The documented contract says a second end-of-progress call in a row has no
  effect. That holds only with the reveal disabled
  (`EndProgressTwiceIsEndOnce` requires it for this reason). With the reveal
  enabled there is no state guard: a second call stops the drawable again and
  hands a second reveal to the container, whose flag goes up again and whose
  end listener will be called twice (`RevealHandedOffTwice`).
- The documented contract says a click is accepted only when no dimension
  animation is in flight. The code checks a single flag, and the first
  completion lowers it even while a later set still runs. On a second cycle
  (the first cycle's drawable exists), ending the progress during the shrink
  starts the expansion at once; when the shrink finishes, the button is IDLE,
  clickable and not sizing with the expansion still running, and a click starts
  a new shrink on top of it (`ClickAcceptedWhileExpansionRuns`,
  `SecondCycleClickDuringExpansion`).

The host's layout pass is an extra operation (`Layout`, and the event
`Relayout`). It stands for the view being given a new size from outside.

## Model

The pure transition functions of `ButtonMachine` (`OnClick`,
`StartProgressAnimation`, `StoreOriginalDimensions`, `AnimateButtonDimensions`,
`StartExpandAnimation`, `StartCircularReveal`, `StartProgressEndAnimation`,
`OnSizingAnimationEnd`, `DrawIndeterminateProgress`, `OnDraw`) have no rows of
their own. The rows of the class methods of the same name stand for them, and
the `ButtonProperties` rows state what they promise.

| member | source | states |
|---|---|---|
| `ButtonMachine.ToByte` | library/src/main/java/com/apppoweron/circularrevealbutton/AnimatedLoadingButton.java:98-99 | the `(byte)` cast: the result lies in -128..127 and differs from the input by a multiple of 256 |
| `ButtonMachine.Min` | library/src/main/java/com/apppoweron/circularrevealbutton/AnimatedLoadingButton.java:285 | `Math.min`: the result is one of the two arguments and not above either |
| `ButtonMachine.StyleOf` | library/src/main/java/com/apppoweron/circularrevealbutton/AnimatedLoadingButton.java:78-113 | without attributes the defaults 20 and 8, reveal off, no duration and no colour; offset and width always fit in a byte; a stored duration or colour override is never 0 |
| `ButtonMachine.IsExpansionAnim` | library/src/main/java/com/apppoweron/circularrevealbutton/AnimatedLoadingButton.java:206-212 | the listener's own answer when there is a listener, otherwise whether the state is IDLE |
| `ButtonMachine.CornerSpan` | library/src/main/java/com/apppoweron/circularrevealbutton/AnimatedLoadingButton.java:266-277 | the corner animates between 0 and 1000, towards 0 exactly when the state is IDLE |
| `ButtonMachine.AlphaSpan` | library/src/main/java/com/apppoweron/circularrevealbutton/AnimatedLoadingButton.java:236-246 | the text alpha animates between 0 and 255, towards 255 exactly on an expansion |
| `ButtonMachine.SizingAnimationFor` | library/src/main/java/com/apppoweron/circularrevealbutton/AnimatedLoadingButton.java:214-223 | a 3000 ms set; an expansion goes from the required size to the captured originals, a shrink from the current size to the required size; corner and alpha end points as chosen above |
| `ButtonProperties.DefaultStyle` | library/src/main/java/com/apppoweron/circularrevealbutton/AnimatedLoadingButton.java:110-113 | with no attributes: offset 20, progress width 8, no reveal duration, reveal disabled, no colour override; a set of attributes none of which is set gives the same |
| `ButtonProperties.RevealDurationStoredWhenNonZero` | library/src/main/java/com/apppoweron/circularrevealbutton/AnimatedLoadingButton.java:100-102 | the reveal duration is stored iff the attribute is non-zero, and then as given |
| `ButtonProperties.StyleTruncatesToBytes` | library/src/main/java/com/apppoweron/circularrevealbutton/AnimatedLoadingButton.java:98-99 | offset and progress width are the attribute (or default) truncated to a byte: an offset that fits in a byte is kept, 200 becomes -56 |
| `ButtonProperties.ClickIgnoredWhenBusy` | library/src/main/java/com/apppoweron/circularrevealbutton/AnimatedLoadingButton.java:121-128 | a click while sizing or in PROGRESS changes nothing and notifies nobody |
| `ButtonProperties.ClickStartsShrink` | library/src/main/java/com/apppoweron/circularrevealbutton/AnimatedLoadingButton.java:121-128 | an accepted click ends in PROGRESS, unclickable, sizing, with one more set; the start listener is called first (when not calling itself an expansion), then the click listener |
| `ButtonProperties.ClickTwiceIsClickOnce` | library/src/main/java/com/apppoweron/circularrevealbutton/AnimatedLoadingButton.java:121-158 | a second click in a row has no effect: no second shrink starts |
| `ButtonProperties.ShrinkGuardAndEffect` | library/src/main/java/com/apppoweron/circularrevealbutton/AnimatedLoadingButton.java:147-158 | the shrink is a no-op unless IDLE; otherwise it ends in PROGRESS, unclickable, sizing |
| `ButtonProperties.ExpansionDecision` | library/src/main/java/com/apppoweron/circularrevealbutton/AnimatedLoadingButton.java:195-212 | a set is an expansion iff the listener says so, or, with no listener, iff the state after the change is IDLE; the corner end points follow the new state; an expand whose listener answers non-expanding calls the registered start listener, otherwise nobody is notified |
| `ButtonProperties.ShrinkEndpoints` | library/src/main/java/com/apppoweron/circularrevealbutton/AnimatedLoadingButton.java:214-223 | shrink set: width current to required size, height current to required size, alpha 255 to 0, corner 0 to 1000, 3000 ms |
| `ButtonProperties.CaptureOnlyWhenUnset` | library/src/main/java/com/apppoweron/circularrevealbutton/AnimatedLoadingButton.java:279-286 | the capture happens only while the original height is 0 and sets the required size to the smaller side |
| `ButtonProperties.ExpandOnlyFromProgress` | library/src/main/java/com/apppoweron/circularrevealbutton/AnimatedLoadingButton.java:186-189 | the plain expand is a no-op unless PROGRESS |
| `ButtonProperties.ExpandEffect` | library/src/main/java/com/apppoweron/circularrevealbutton/AnimatedLoadingButton.java:186-196 | from PROGRESS with a drawable: IDLE, drawable stopped, clickable, sizing, expansion set from required size to the originals, alpha 0 to 255, corner 1000 to 0, nobody notified yet |
| `ButtonProperties.ExpandTwiceIsExpandOnce` | library/src/main/java/com/apppoweron/circularrevealbutton/AnimatedLoadingButton.java:186-196 | a second plain expand in a row has no effect |
| `ButtonProperties.EndProgressTwiceIsEndOnce` | library/src/main/java/com/apppoweron/circularrevealbutton/AnimatedLoadingButton.java:172-178 | with reveal disabled, a second end-of-progress call in a row has no effect |
| `ButtonProperties.EndWithoutDrawableThrows` | library/src/main/java/com/apppoweron/circularrevealbutton/AnimatedLoadingButton.java:186-192 | ending the progress before any spinner exists throws NullDrawable after setting IDLE, changing nothing else |
| `ButtonProperties.RevealPath` | library/src/main/java/com/apppoweron/circularrevealbutton/AnimatedLoadingButton.java:342-358 | the reveal sets IDLE and stops the drawable from any state, leaves clickability and sizing alone, and fails with ContainerNotFound iff no container resolved |
| `ButtonProperties.CompletionEffect` | library/src/main/java/com/apppoweron/circularrevealbutton/AnimatedLoadingButton.java:224-231 | completion clears the sizing flag, applies the oldest set's end values, and calls the end listener iff that set was an expansion |
| `ButtonProperties.PaintEffect` | library/src/main/java/com/apppoweron/circularrevealbutton/AnimatedLoadingButton.java:302-328 | paint changes the button iff PROGRESS, not sizing and no running spinner; then it installs a running spinner with the progress width and bounds (offset, offset, width - offset, height - offset) |
| `ButtonProperties.InitialSatisfiesInv` | library/src/main/java/com/apppoweron/circularrevealbutton/AnimatedLoadingButton.java:42-50 | a new button satisfies the invariant |
| `ButtonProperties.ApplyKeepsInv` | library/src/main/java/com/apppoweron/circularrevealbutton/AnimatedLoadingButton.java:138-328 | every call or callback keeps the invariant: required size = min(original height, original width), sizing implies a running set, PROGRESS implies unclickable, a running spinner implies PROGRESS |
| `ButtonProperties.RunKeepsInv` | library/src/main/java/com/apppoweron/circularrevealbutton/AnimatedLoadingButton.java:138-328 | the invariant holds after any sequence of calls and callbacks |
| `ButtonProperties.CaptureIsFinal` | library/src/main/java/com/apppoweron/circularrevealbutton/AnimatedLoadingButton.java:279-286 | once a non-zero original height is captured, no sequence of calls changes the capture |
| `ButtonProperties.ShrinkPhase` | library/src/main/java/com/apppoweron/circularrevealbutton/AnimatedLoadingButton.java:214-231 | after a click and the shrink's completion: a PROGRESS square of the required size, alpha 0, corner 1000 |
| `ButtonProperties.ExpandPhase` | library/src/main/java/com/apppoweron/circularrevealbutton/AnimatedLoadingButton.java:186-231 | after painting, the plain expand and its completion: the captured size, alpha 255, corner 0, IDLE, clickable |
| `ButtonProperties.ShrinkThenExpandRestoresSize` | library/src/main/java/com/apppoweron/circularrevealbutton/AnimatedLoadingButton.java:214-223 | a full cycle returns width and height to the captured originals (the pre-click size on the first cycle) with square corners and opaque text |
| `ButtonProperties.SecondCycleReturnsToFirstCapture` | library/src/main/java/com/apppoweron/circularrevealbutton/AnimatedLoadingButton.java:279-286 | the capture is never reset: after a relayout, the next cycle still returns to the first cycle's size |
| `ButtonProperties.ClickAcceptedWhileExpansionRuns` | library/src/main/java/com/apppoweron/circularrevealbutton/AnimatedLoadingButton.java:121-128 | once a drawable exists, click, end of progress during the shrink and the shrink's completion leave the button accepting a click with the expansion still running; that click starts a second running set |
| `ButtonProperties.SecondCycleClickDuringExpansion` | library/src/main/java/com/apppoweron/circularrevealbutton/AnimatedLoadingButton.java:198-231 | the same on the second cycle of a new 200 by 100 button |
| `ButtonProperties.CycleLeavesDrawable` | library/src/main/java/com/apppoweron/circularrevealbutton/AnimatedLoadingButton.java:186-203 | for every resting button with reveal off, a full plain cycle (click, shrink end, paint, end of progress, expand end) leaves it IDLE with a drawable that exists and is stopped, no set running and the style unchanged |
| `ButtonProperties.ExpandPhaseStopsDrawable` | library/src/main/java/com/apppoweron/circularrevealbutton/AnimatedLoadingButton.java:186-192 | from a resting PROGRESS square with reveal off, paint, the plain expand and its completion leave a drawable that exists and is not running, with the style unchanged |
| `ButtonProperties.Scenario200By100` | library/src/main/java/com/apppoweron/circularrevealbutton/AnimatedLoadingButton.java:214-246 | 200 by 100: the shrink ends at 100 by 100, alpha 0, corner 1000; the expand ends at 200 by 100, alpha 255, corner 0 |
| `ButtonProperties.ScenarioNoContainer` | library/src/main/java/com/apppoweron/circularrevealbutton/AnimatedLoadingButton.java:342-358 | reveal enabled and no container: ContainerNotFound, IDLE, still not clickable |
| `ButtonProperties.ScenarioEndWhileIdle` | library/src/main/java/com/apppoweron/circularrevealbutton/AnimatedLoadingButton.java:172-189 | ending the progress while IDLE with reveal disabled: no set starts, no listener fires |
| `LoadingButton.AnimatedLoadingButton.constructor` | library/src/main/java/com/apppoweron/circularrevealbutton/AnimatedLoadingButton.java:78-117 | the style is the one derived from the attributes; the button starts IDLE, clickable, with nothing captured or registered |
| `LoadingButton.AnimatedLoadingButton.OnClick` | library/src/main/java/com/apppoweron/circularrevealbutton/AnimatedLoadingButton.java:121-128 | the fields change as the click transition says; the invariant is kept |
| `LoadingButton.AnimatedLoadingButton.SetOnClickListener` | library/src/main/java/com/apppoweron/circularrevealbutton/AnimatedLoadingButton.java:131-133 | only the click listener slot changes |
| `LoadingButton.AnimatedLoadingButton.SetAnimationStartListener` | library/src/main/java/com/apppoweron/circularrevealbutton/AnimatedLoadingButton.java:330-332 | only the start listener slot changes |
| `LoadingButton.AnimatedLoadingButton.SetAnimationEndListener` | library/src/main/java/com/apppoweron/circularrevealbutton/AnimatedLoadingButton.java:334-336 | only the end listener slot changes |
| `LoadingButton.AnimatedLoadingButton.SetCircularRevealContainer` | library/src/main/java/com/apppoweron/circularrevealbutton/AnimatedLoadingButton.java:338-340 | only the explicit container changes |
| `LoadingButton.AnimatedLoadingButton.StartProgressAnimation` | library/src/main/java/com/apppoweron/circularrevealbutton/AnimatedLoadingButton.java:147-158 | the fields change as the shrink transition says |
| `LoadingButton.AnimatedLoadingButton.StoreOriginalDimensions` | library/src/main/java/com/apppoweron/circularrevealbutton/AnimatedLoadingButton.java:279-286 | the fields change as the capture transition says |
| `LoadingButton.AnimatedLoadingButton.AnimateButtonDimensions` | library/src/main/java/com/apppoweron/circularrevealbutton/AnimatedLoadingButton.java:198-204 | start listener notified on a non-expansion, sizing set, set appended with the end points of the current state |
| `LoadingButton.AnimatedLoadingButton.OnSizingAnimationEnd` | library/src/main/java/com/apppoweron/circularrevealbutton/AnimatedLoadingButton.java:224-231 | the fields change as the completion transition says; the invariant is kept |
| `LoadingButton.AnimatedLoadingButton.StartProgressEndAnimation` | library/src/main/java/com/apppoweron/circularrevealbutton/AnimatedLoadingButton.java:163-165 | same as the two-argument form with the registered end listener |
| `LoadingButton.AnimatedLoadingButton.StartProgressEndAnimationWithListener` | library/src/main/java/com/apppoweron/circularrevealbutton/AnimatedLoadingButton.java:172-178 | the fields and the failure follow the end-of-progress transition; when the reveal ran, the explicit container if set (else the looked-up one) started it with this listener, and no other container changed |
| `LoadingButton.AnimatedLoadingButton.StartExpandAnimation` | library/src/main/java/com/apppoweron/circularrevealbutton/AnimatedLoadingButton.java:186-196 | the fields and the failure follow the expand transition |
| `LoadingButton.AnimatedLoadingButton.StartCircularReveal` | library/src/main/java/com/apppoweron/circularrevealbutton/AnimatedLoadingButton.java:342-351 | the fields and the failure follow the reveal transition; a successful hand-off goes to the explicit container when set, else to the looked-up one |
| `LoadingButton.AnimatedLoadingButton.StartCircularRevealOn` | library/src/main/java/com/apppoweron/circularrevealbutton/AnimatedLoadingButton.java:353-359 | fails with ContainerNotFound iff the container is null; otherwise the container started the reveal |
| `LoadingButton.AnimatedLoadingButton.OnDraw` | library/src/main/java/com/apppoweron/circularrevealbutton/AnimatedLoadingButton.java:302-308 | the fields change as the paint transition says; the invariant is kept |
| `LoadingButton.AnimatedLoadingButton.DrawIndeterminateProgress` | library/src/main/java/com/apppoweron/circularrevealbutton/AnimatedLoadingButton.java:310-328 | a new running spinner with the configured bounds unless a running one exists |
| `LoadingButton.FullCycle` | library/src/main/java/com/apppoweron/circularrevealbutton/AnimatedLoadingButton.java:121-231 | a 200 by 100 button goes through a full cycle back to 200 by 100, clickable, having called start, click and end listeners in that order |
| `LoadingButton.RevealWithoutContainer` | library/src/main/java/com/apppoweron/circularrevealbutton/AnimatedLoadingButton.java:342-358 | reveal enabled with no container: ContainerNotFound, IDLE, not clickable |
| `LoadingButton.RevealHandedOffTwice` | library/src/main/java/com/apppoweron/circularrevealbutton/AnimatedLoadingButton.java:342-351 | with the reveal enabled, ending the progress twice hands two reveals to the container, whose flag is up and state IDLE |
| `LoadingButton.RevealHandOff` | library/src/main/kotlin/com/apppoweron/circularrevealbutton/container/CircularRevealContainerImpl.kt:56-106 | the explicit container receives the reveal, swallows a touch while it runs, and on its end lowers the flag and calls the end listener with its own id |
| `RevealContainer.AnimDuration` | library/src/main/kotlin/com/apppoweron/circularrevealbutton/container/CircularRevealContainerImpl.kt:85-89 | the data's duration when present, else 2000 |
| `RevealContainer.AssembleAnimator` | library/src/main/kotlin/com/apppoweron/circularrevealbutton/container/CircularRevealContainerImpl.kt:79-113 | the animator runs for the data's duration, else 2000, and remembers the given end listener |
| `RevealContainer.CircularRevealContainer.constructor` | library/src/main/kotlin/com/apppoweron/circularrevealbutton/container/CircularRevealContainerImpl.kt:23-30 | a new container has the flag down |
| `RevealContainer.CircularRevealContainer.SetAnimationColor` | library/src/main/kotlin/com/apppoweron/circularrevealbutton/container/CircularRevealContainerImpl.kt:49-53 | the mask colour changes only when a colour is given |
| `RevealContainer.CircularRevealContainer.StartCircularRevealAnimation` | library/src/main/kotlin/com/apppoweron/circularrevealbutton/container/CircularRevealContainerImpl.kt:56-71 | flag up, mask shown, colour applied when given, an animator with the selected duration and the listener started |
| `RevealContainer.CircularRevealContainer.OnAnimationEnd` | library/src/main/kotlin/com/apppoweron/circularrevealbutton/container/CircularRevealContainerImpl.kt:96-102 | flag down, the animator gone, its listener (if any) called with the container's id |
| `RevealContainer.CircularRevealContainer.OnAnimationCancel` | library/src/main/kotlin/com/apppoweron/circularrevealbutton/container/CircularRevealContainerImpl.kt:104-106 | flag down, no listener called |
| `RevealContainer.CircularRevealContainer.RemoveAnimationMask` | library/src/main/kotlin/com/apppoweron/circularrevealbutton/container/CircularRevealContainerImpl.kt:73-76 | flag down and mask hidden, always |
| `RevealContainer.CircularRevealContainer.DispatchTouchEvent` | library/src/main/kotlin/com/apppoweron/circularrevealbutton/container/CircularRevealContainerImpl.kt:115-119 | while the flag is up the touch is consumed and not forwarded; otherwise it is forwarded and its answer returned; in a valid container a swallowed touch means the mask shows and a reveal runs |

## Left out

- Per-frame interpolation by `ValueAnimator`, `ObjectAnimator` and `AnimatorSet` is not modelled. Only end points and one completion event per set are; the 3000 ms duration is recorded in each set.
- The relayout through `setLayoutParams` (`setWidthOfButton`, `setHeightOfButton`) is modelled as assigning the width and height fields.
- The corner radius is an integer: the float property of `GradientDrawable` is only seen at its end points 0 and 1000.
- The initial corner radius comes from a shape resource, so it is a constructor parameter. The text is assumed fully opaque (alpha 255) before the first animation.
- ShrinkThenExpandRestoresSize: proves the corner radius ends at 0, not at its value before the shrink. The code always animates 0 to 1000 and back to 0, so the two agree only when the shape's own radius is 0.
- The attribute `animDuration` is stored in the style (`revealDuration`), but no code in this model reads it. The reveal's duration comes from the data packet, whose builder is not part of this model.
- Text colour is modelled as its alpha. `ButtonColorProvider` and the fading colour it computes are not part of this model, and neither is the background colour it supplies.
- `CircularAnimatedDrawable` is a value with a running flag, a stroke width and bounds. Its drawing, its colour and its self-scheduling are not part of this model. It only stops when the button stops it.
- `UIHierarchyUtil.getViewByIdInParents` is not part of this model. Its answer for the container id is a parameter, so the container id itself is not a parameter. The cast of its answer to a container is assumed to succeed.
- `ButtonCRevealAnimationData` and its builder are not part of this model. The packet is a parameter carrying only the duration and colour the container reads. The click origin and start radius are left out.
- `Math.hypot` for the reveal's end radius, `ViewAnimationUtils`, mask inflation and `bringToFront` are left out. The mask's visibility is kept as one flag.
- The framework delivers an end callback after a cancel. Here the cancel and end callbacks are separate events.
- Style parsing through `TypedArray` is modelled only as optional attribute values with the code's defaults. Theme colours, `setMaxLines` and `setBackground` are left out.
- The private no-argument `startProgressAnimation()` is folded into `OnClick`, which passes the registered start listener, as it does.
- Clicks are modelled as calls to the button's own handler. Android's rule that an unclickable view receives no clicks from touch is not modelled.
- Pixel arithmetic uses unbounded integers. Java's 32-bit overflow cannot arise for view sizes and is not modelled.
- Logging, `DebugUtil`, API-level annotations, the UI thread and the event loop are left out. Everything is a sequence of method calls.
