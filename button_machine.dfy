/**
  The observable state of an AnimatedLoadingButton and one pure transition
  function per operation of the button. The class in loading_button.dfy keeps
  the same state in fields and is proved to move exactly as these functions say;
  the properties of the button are lemmas about them (button_properties.dfy).

  An animation is modelled by its end points only: starting one appends a
  SizingAnimation to `running`, and its completion callback is a separate event
  that removes it and sets width, height, corner radius and text alpha to its
  end values.
*/
module ButtonMachine {
  import opened Options

  /** The two states of the button. */
  datatype State = Progress | Idle

  /** Start and end value of one animated property. */
  datatype Span = Span(from: int, to: int)

  /** The four animations of one sizing animator set, all on one timeline. */
  datatype SizingAnimation = SizingAnimation(
    expansion: bool,
    duration: int,
    corner: Span,
    width: Span,
    height: Span,
    alpha: Span)

  /** The indeterminate progress drawable: whether it runs, its stroke and its bounds. */
  datatype Spinner = Spinner(running: bool, strokeWidth: int, left: int, top: int, right: int, bottom: int)

  /**
    A registered start or end listener: `tag` identifies it in the call log and
    `expanding` is what its isExpandingAnimation() answers.
  */
  datatype Listener = Listener(tag: nat, expanding: bool)

  /** A call the button made on one of its listeners. */
  datatype Call =
    | Clicked(listener: nat)
    | AnimationStarted(listener: nat, viewId: int)
    | AnimationEnded(listener: nat, viewId: int)

  /** What the end-of-progress operation can throw. */
  datatype Failure =
    | ContainerNotFound  // CircularRevealContainerNotFoundException
    | NullDrawable       // NullPointerException from stopping a drawable that was never created

  /** Style attributes as given to the constructor; `None` is an attribute that is not set. */
  datatype Attributes = Attributes(
    requiredOffset: Option<int>,
    progressWidth: Option<int>,
    animDuration: Option<int>,
    isAnimEnabled: Option<bool>,
    buttonBackgroundColor: Option<int>)

  /** The configuration fixed by the constructor. */
  datatype Style = Style(
    requiredOffset: int,
    progressWidth: int,
    revealDuration: Option<int>,
    revealEnabled: bool,
    backgroundColor: Option<int>)

  /** Everything the button's operations read or change. */
  datatype Snapshot = Snapshot(
    id: int,
    style: Style,
    state: State,
    sizing: bool,
    clickable: bool,
    originalWidth: int,
    originalHeight: int,
    requiredSize: int,
    width: int,
    height: int,
    cornerRadius: int,
    textAlpha: int,
    spinner: Option<Spinner>,
    running: seq<SizingAnimation>,
    clickListener: Option<nat>,
    startListener: Option<Listener>,
    endListener: Option<Listener>,
    calls: seq<Call>)

  const DefaultRequiredOffset := 20
  const DefaultProgressWidth := 8
  const SizingDurationMs := 3000
  const SquareCorner := 0
  const RoundCorner := 1000
  const MinAlpha := 0
  const MaxAlpha := 255

  function Min(a: int, b: int): (m: int)
    ensures m <= a && m <= b && (m == a || m == b)
  {
    if a <= b then a else b
  }

  /** Java's narrowing cast `(byte) x`: the low eight bits, read as a signed number. */
  function ToByte(x: int): (b: int)
    ensures -128 <= b < 128
    ensures (x - b) % 256 == 0
  {
    var low := x % 256;
    if low < 128 then low else low - 256
  }

  /** TypedArray.getInt: the attribute's value, or the default when it is not set. */
  function GetInt(attr: Option<int>, default: int): int
  {
    if attr.Some? then attr.value else default
  }

  /** The configuration `init` derives from the attributes (or from their absence). */
  function StyleOf(attrs: Option<Attributes>): (s: Style)
    ensures attrs.None? ==> s == Style(DefaultRequiredOffset, DefaultProgressWidth, None, false, None)
    ensures -128 <= s.requiredOffset < 128 && -128 <= s.progressWidth < 128
    ensures s.revealDuration.Some? ==> s.revealDuration.value != 0
    ensures s.backgroundColor.Some? ==> s.backgroundColor.value != 0
  {
    match attrs
    case None =>
      Style(DefaultRequiredOffset, DefaultProgressWidth, None, false, None)
    case Some(a) =>
      var duration := GetInt(a.animDuration, 0);
      var color := GetInt(a.buttonBackgroundColor, 0);
      Style(ToByte(GetInt(a.requiredOffset, DefaultRequiredOffset)),
            ToByte(GetInt(a.progressWidth, DefaultProgressWidth)),
            if duration != 0 then Some(duration) else None,
            a.isAnimEnabled == Some(true),
            if color != 0 then Some(color) else None)
  }

  /** A freshly constructed button: idle, clickable, nothing captured, nothing registered. */
  function Initial(id: int, style: Style, width: int, height: int, cornerRadius: int): Snapshot
  {
    Snapshot(id, style, Idle, false, true, 0, 0, 0, width, height, cornerRadius, MaxAlpha,
             None, [], None, None, None, [])
  }

  /** The listener's own answer when there is one, otherwise "the state is IDLE". */
  function IsExpansionAnim(listener: Option<Listener>, state: State): (expansion: bool)
    ensures listener.Some? ==> expansion == listener.value.expanding
    ensures listener.None? ==> (expansion <==> state == Idle)
  {
    if listener.Some? then listener.value.expanding else state == Idle
  }

  /** Corner radius end points, chosen by the state at the time the set is built. */
  function CornerSpan(state: State): (r: Span)
    ensures r.from != r.to && {r.from, r.to} == {SquareCorner, RoundCorner}
    ensures r.to == SquareCorner <==> state == Idle
  {
    if state == Idle then Span(RoundCorner, SquareCorner) else Span(SquareCorner, RoundCorner)
  }

  /** Text alpha end points: fade in on expansion, fade out otherwise. */
  function AlphaSpan(isExpansion: bool): (r: Span)
    ensures r.from != r.to && {r.from, r.to} == {MinAlpha, MaxAlpha}
    ensures r.to == MaxAlpha <==> isExpansion
  {
    if isExpansion then Span(MinAlpha, MaxAlpha) else Span(MaxAlpha, MinAlpha)
  }

  /** The end points of the animator set built for `isExpansion` in state `b`. */
  function SizingAnimationFor(b: Snapshot, isExpansion: bool): (a: SizingAnimation)
    ensures a.expansion == isExpansion && a.duration == SizingDurationMs
    ensures isExpansion ==> a.width.to == b.originalWidth && a.height.to == b.originalHeight
    ensures !isExpansion ==> a.width.to == b.requiredSize && a.height.to == b.requiredSize
    ensures isExpansion ==> a.width.from == b.requiredSize && a.height.from == b.requiredSize
    ensures !isExpansion ==> a.width.from == b.width && a.height.from == b.height
    ensures a.corner == CornerSpan(b.state) && a.alpha == AlphaSpan(isExpansion)
  {
    SizingAnimation(
      isExpansion,
      SizingDurationMs,
      CornerSpan(b.state),
      if isExpansion then Span(b.requiredSize, b.originalWidth) else Span(b.width, b.requiredSize),
      if isExpansion then Span(b.requiredSize, b.originalHeight) else Span(b.height, b.requiredSize),
      AlphaSpan(isExpansion))
  }

  /** Lazy capture of the original size, only while the original height is still 0. */
  function StoreOriginalDimensions(b: Snapshot): Snapshot
  {
    if b.originalHeight != 0 then b
    else b.(originalHeight := b.height, originalWidth := b.width,
            requiredSize := Min(b.height, b.width))
  }

  /** Notify the start listener (shrink only), raise the sizing flag, start the set. */
  function AnimateButtonDimensions(b: Snapshot, isExpansion: bool): Snapshot
  {
    var notified :=
      if !isExpansion && b.startListener.Some? then
        b.(calls := b.calls + [AnimationStarted(b.startListener.value.tag, b.id)])
      else b;
    notified.(sizing := true,
              running := notified.running + [SizingAnimationFor(notified, isExpansion)])
  }

  /** The shrink: IDLE to PROGRESS, input disabled, sizing set started. */
  function StartProgressAnimation(b: Snapshot, listener: Option<Listener>): Snapshot
  {
    if b.state != Idle then b
    else
      var shrinking := StoreOriginalDimensions(b).(state := Progress, clickable := false);
      AnimateButtonDimensions(shrinking, IsExpansionAnim(listener, shrinking.state))
  }

  predicate AcceptsClick(b: Snapshot)
  {
    !b.sizing && b.state == Idle
  }

  /** The button's own click handler: shrink, then forward to the external click listener. */
  function OnClick(b: Snapshot): Snapshot
  {
    if AcceptsClick(b) then
      var started := StartProgressAnimation(b, b.startListener);
      if started.clickListener.Some? then
        started.(calls := started.calls + [Clicked(started.clickListener.value)])
      else started
    else b
  }

  function Stopped(s: Spinner): Spinner
  {
    s.(running := false)
  }

  /** The plain expand: PROGRESS to IDLE, drawable stopped, input enabled, sizing set started. */
  function StartExpandAnimation(b: Snapshot, listener: Option<Listener>): (Snapshot, Option<Failure>)
  {
    if b.state != Progress then (b, None)
    else
      var idle := b.(state := Idle);
      if idle.spinner.None? then (idle, Some(NullDrawable))
      else
        var expanding := idle.(spinner := Some(Stopped(idle.spinner.value)), clickable := true);
        (AnimateButtonDimensions(expanding, IsExpansionAnim(listener, expanding.state)), None)
  }

  /**
    The button's half of the circular reveal: IDLE whatever the state was, drawable
    stopped, then the hand-off, which fails when no container resolved (`found`).
  */
  function StartCircularReveal(b: Snapshot, found: bool): (Snapshot, Option<Failure>)
  {
    var idle := b.(state := Idle);
    if idle.spinner.None? then (idle, Some(NullDrawable))
    else
      var stopped := idle.(spinner := Some(Stopped(idle.spinner.value)));
      (stopped, if found then None else Some(ContainerNotFound))
  }

  /** The caller's "work is done" signal: reveal when enabled, plain expand otherwise. */
  function StartProgressEndAnimation(b: Snapshot, listener: Option<Listener>, found: bool): (Snapshot, Option<Failure>)
  {
    if b.style.revealEnabled then StartCircularReveal(b, found) else StartExpandAnimation(b, listener)
  }

  /** The completion callback of the oldest running sizing set. */
  function OnSizingAnimationEnd(b: Snapshot): Snapshot
    requires |b.running| > 0
  {
    var a := b.running[0];
    var finished := b.(running := b.running[1..], width := a.width.to, height := a.height.to,
                       cornerRadius := a.corner.to, textAlpha := a.alpha.to, sizing := false);
    if a.expansion && finished.endListener.Some? then
      finished.(calls := finished.calls + [AnimationEnded(finished.endListener.value.tag, finished.id)])
    else finished
  }

  /** A new running spinner inset by the offset, unless a running one exists already. */
  function DrawIndeterminateProgress(b: Snapshot): Snapshot
  {
    if b.spinner.None? || !b.spinner.value.running then
      var offset := b.style.requiredOffset;
      b.(spinner := Some(Spinner(true, b.style.progressWidth, offset, offset,
                                 b.width - offset, b.height - offset)))
    else b
  }

  /** The paint routine: the spinner is looked after only in PROGRESS with no sizing running. */
  function OnDraw(b: Snapshot): Snapshot
  {
    if b.state == Progress && !b.sizing then DrawIndeterminateProgress(b) else b
  }

  /** The host's layout pass giving the view its size. */
  function Layout(b: Snapshot, width: int, height: int): Snapshot
  {
    b.(width := width, height := height)
  }

  /** One call made on the button, or one callback delivered to it. */
  datatype Event =
    | Click
    | Paint
    | SizingEnd
    | EndProgress(listener: Option<Listener>, found: bool)
    | Relayout(width: int, height: int)
    | SetClickListener(click: Option<nat>)
    | SetStartListener(start: Option<Listener>)
    | SetEndListener(end: Option<Listener>)

  /** The effect of one event; a completion with no set running cannot be delivered. */
  function Apply(b: Snapshot, e: Event): Snapshot
  {
    match e
    case Click => OnClick(b)
    case Paint => OnDraw(b)
    case SizingEnd => if |b.running| > 0 then OnSizingAnimationEnd(b) else b
    case EndProgress(listener, found) => StartProgressEndAnimation(b, listener, found).0
    case Relayout(w, h) => Layout(b, w, h)
    case SetClickListener(l) => b.(clickListener := l)
    case SetStartListener(l) => b.(startListener := l)
    case SetEndListener(l) => b.(endListener := l)
  }

  /** The state after a sequence of events, in order. */
  function Run(b: Snapshot, events: seq<Event>): Snapshot
    decreases |events|
  {
    if events == [] then b else Run(Apply(b, events[0]), events[1..])
  }

  /**
    What holds in every reachable state: the required size is the smaller
    captured dimension, the sizing flag implies a running set, PROGRESS implies
    input disabled, and a running spinner implies PROGRESS.
  */
  ghost predicate Inv(b: Snapshot)
  {
    && b.requiredSize == Min(b.originalHeight, b.originalWidth)
    && (b.sizing ==> |b.running| > 0)
    && (b.state == Progress ==> !b.clickable)
    && (b.spinner.Some? && b.spinner.value.running ==> b.state == Progress)
  }
}
