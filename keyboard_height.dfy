/**
 * The layout-delta interpreter of KeyboardHeightProvider: given the visible
 * frame of the transparent overlay window, the screen height and the sizes of
 * the system bars, decide whether a soft keyboard is shown and how tall it is.
 *
 * Everything here is a pure function of its inputs.  The one piece of state the
 * interpreter carries from one layout event to the next -- the
 * navigation-bar flag and the two per-orientation caches -- is passed in and
 * returned explicitly as a ProviderState.  The class in module Provider owns
 * that state and is specified by Step below.
 */
module KeyboardHeight {

  /** Smallest gap that counts as a keyboard (NAVIGATION_BAR_MIN_HEIGHT). */
  const NavigationBarMinHeight: int := 100

  datatype Orientation = Portrait | Landscape

  /** android.graphics.Rect: the visible frame of the overlay window. */
  datatype Rect = Rect(left: int, top: int, right: int, bottom: int)

  /**
   * What the provider learns from the platform on one layout callback:
   * the visible frame, the root view's height, the two system-bar sizes
   * (resource lookups, 0 when absent) and the display size that decides
   * the orientation.
   */
  datatype LayoutEvent = LayoutEvent(
    frame: Rect,
    screenHeight: int,
    statusBarHeight: nat,
    navigationBarHeight: nat,
    displayWidth: int,
    displayHeight: int)

  /** The fields the interpreter reads and writes. */
  datatype ProviderState = ProviderState(
    keyboardPortraitHeight: int,
    keyboardLandscapeHeight: int,
    navigationBarVisible: bool)

  /** The arguments of one onKeyboardHeightChanged call. */
  datatype Emission = Emission(height: int, orientation: Orientation)

  /** Which rule of the ordered decision list matched. */
  datatype Classification =
    | FrameAtBottom            // keyboard hidden, navigation bar hidden
    | NavigationBarOnly        // keyboard hidden, navigation bar shown
    | BelowThreshold(height: int)  // measurement noise
    | Keyboard(height: int)        // keyboard shown with this height

  datatype StepResult = StepResult(state: ProviderState, emission: Emission)

  datatype Trace = Trace(state: ProviderState, emitted: seq<Emission>)

  /** Heights the provider ever caches or reports: 0 ("no keyboard") or a real keyboard. */
  predicate ValidHeight(h: int) {
    h == 0 || h >= NavigationBarMinHeight
  }

  predicate CachesValid(s: ProviderState) {
    ValidHeight(s.keyboardPortraitHeight) && ValidHeight(s.keyboardLandscapeHeight)
  }

  /** The state of a freshly constructed provider. */
  function InitialState(): (s: ProviderState)
    ensures CachesValid(s)
    ensures s.keyboardPortraitHeight == 0 && s.keyboardLandscapeHeight == 0
    ensures !s.navigationBarVisible
  {
    ProviderState(0, 0, false)
  }

  /** getScreenOrientation: portrait exactly when the display is narrower than tall. */
  function ScreenOrientation(width: int, height: int): (o: Orientation)
    ensures o == Portrait <==> width < height
  {
    if width < height then Portrait else Landscape
  }

  /**
   * calculateKeyboardHeight.  The gap between the screen height and the
   * visible frame's height, less the status bar when it has a size, less the
   * navigation bar when it has a size and the flag left by the PREVIOUS
   * event says it is visible.
   *
   * Read as a partition of the screen: visible frame + status bar +
   * (navigation bar, if counted) + keyboard == screen height.
   */
  function CalculateKeyboardHeight(r: Rect, statusBarHeight: int, navigationBarHeight: int,
                                   screenHeight: int, navigationBarVisible: bool): (h: int)
    ensures (r.bottom - r.top)
            + (if statusBarHeight > 0 then statusBarHeight else 0)
            + (if navigationBarHeight > 0 && navigationBarVisible then navigationBarHeight else 0)
            + h == screenHeight
    ensures h <= screenHeight - (r.bottom - r.top)
  {
    var heightDifference := screenHeight - (r.bottom - r.top);
    var afterStatusBar := if statusBarHeight > 0 then heightDifference - statusBarHeight
                          else heightDifference;
    if navigationBarHeight > 0 && navigationBarVisible then afterStatusBar - navigationBarHeight
    else afterStatusBar
  }

  /** The ordered decision list of handleLayoutChanged; the first matching rule wins. */
  function Classify(e: LayoutEvent, navigationBarVisible: bool): (c: Classification)
    ensures c == FrameAtBottom <==> e.frame.bottom == e.screenHeight
    ensures c == NavigationBarOnly <==>
              e.frame.bottom != e.screenHeight
              && e.frame.bottom + e.navigationBarHeight == e.screenHeight
    ensures (c.BelowThreshold? || c.Keyboard?) <==>
              e.frame.bottom != e.screenHeight
              && e.frame.bottom + e.navigationBarHeight != e.screenHeight
    ensures (c.BelowThreshold? || c.Keyboard?) ==>
              c.height == CalculateKeyboardHeight(e.frame, e.statusBarHeight, e.navigationBarHeight,
                                                  e.screenHeight, navigationBarVisible)
    ensures c.BelowThreshold? ==> c.height < NavigationBarMinHeight
    ensures c.Keyboard? ==> c.height >= NavigationBarMinHeight
  {
    if e.frame.bottom == e.screenHeight then FrameAtBottom
    else if e.frame.bottom + e.navigationBarHeight == e.screenHeight then NavigationBarOnly
    else
      var h := CalculateKeyboardHeight(e.frame, e.statusBarHeight, e.navigationBarHeight,
                                       e.screenHeight, navigationBarVisible);
      if h < NavigationBarMinHeight then BelowThreshold(h) else Keyboard(h)
  }

  /**
   * One layout event: the new state and the (height, orientation) pair
   * handed to notifyKeyboardHeightChanged.  Only the Keyboard outcome writes
   * a cache, and only the one of the current orientation.
   */
  function Step(s: ProviderState, e: LayoutEvent): (r: StepResult)
    ensures ValidHeight(r.emission.height)
    ensures r.emission.orientation == ScreenOrientation(e.displayWidth, e.displayHeight)
    ensures CachesValid(s) ==> CachesValid(r.state)
  {
    var orientation := ScreenOrientation(e.displayWidth, e.displayHeight);
    match Classify(e, s.navigationBarVisible)
    case FrameAtBottom =>
      StepResult(s.(navigationBarVisible := false), Emission(0, orientation))
    case NavigationBarOnly =>
      StepResult(s.(navigationBarVisible := true), Emission(0, orientation))
    case BelowThreshold(_) =>
      StepResult(s.(navigationBarVisible := false), Emission(0, orientation))
    case Keyboard(h) =>
      if orientation == Portrait then
        StepResult(s.(keyboardPortraitHeight := h), Emission(h, orientation))
      else
        StepResult(s.(keyboardLandscapeHeight := h), Emission(h, orientation))
  }

  /** Layout events delivered in order, one Step each. */
  function Replay(s: ProviderState, es: seq<LayoutEvent>): (t: Trace)
    ensures |t.emitted| == |es|
    ensures forall i :: 0 <= i < |es| ==>
              ValidHeight(t.emitted[i].height)
              && t.emitted[i].orientation == ScreenOrientation(es[i].displayWidth, es[i].displayHeight)
    ensures CachesValid(s) ==> CachesValid(t.state)
    decreases |es|
  {
    if es == [] then Trace(s, [])
    else
      var before := Replay(s, es[..|es| - 1]);
      var r := Step(before.state, es[|es| - 1]);
      Trace(r.state, before.emitted + [r.emission])
  }

  /**
   * The height of the last non-zero emission in orientation o, or
   * `default` when there is none.
   */
  function LastKeyboardHeight(emitted: seq<Emission>, o: Orientation, default: int): int
    decreases |emitted|
  {
    if emitted == [] then default
    else
      var last := emitted[|emitted| - 1];
      if last.orientation == o && last.height != 0 then last.height
      else LastKeyboardHeight(emitted[..|emitted| - 1], o, default)
  }

  // ---------------------------------------------------------------------
  // The rules of the decision list, one lemma each.
  // ---------------------------------------------------------------------

  /** Rule 1: the frame reaches the bottom of the screen. */
  lemma StepFrameAtBottom(s: ProviderState, e: LayoutEvent)
    requires e.frame.bottom == e.screenHeight
    ensures Step(s, e).state == s.(navigationBarVisible := false)
    ensures Step(s, e).emission == Emission(0, ScreenOrientation(e.displayWidth, e.displayHeight))
  {
  }

  /** Rule 2: the gap is exactly the navigation bar. */
  lemma StepNavigationBarOnly(s: ProviderState, e: LayoutEvent)
    requires e.frame.bottom != e.screenHeight
    requires e.frame.bottom + e.navigationBarHeight == e.screenHeight
    ensures Step(s, e).state == s.(navigationBarVisible := true)
    ensures Step(s, e).emission == Emission(0, ScreenOrientation(e.displayWidth, e.displayHeight))
  {
  }

  /** Rule 2 can only fire for a navigation bar that has a size. */
  lemma NavigationBarRuleNeedsBar(e: LayoutEvent, navigationBarVisible: bool)
    requires e.navigationBarHeight == 0
    ensures Classify(e, navigationBarVisible) != NavigationBarOnly
  {
  }

  /** Rule 3: a computed height under the threshold, negative ones included, is noise. */
  lemma StepBelowThreshold(s: ProviderState, e: LayoutEvent)
    requires e.frame.bottom != e.screenHeight
    requires e.frame.bottom + e.navigationBarHeight != e.screenHeight
    requires CalculateKeyboardHeight(e.frame, e.statusBarHeight, e.navigationBarHeight,
                                     e.screenHeight, s.navigationBarVisible) < NavigationBarMinHeight
    ensures Step(s, e).state == s.(navigationBarVisible := false)
    ensures Step(s, e).emission == Emission(0, ScreenOrientation(e.displayWidth, e.displayHeight))
  {
  }

  /**
   * Rule 4: a computed height of at least the threshold (exactly 100
   * included) overwrites the cache of the current orientation and nothing
   * else, and is emitted with that orientation.
   */
  lemma StepKeyboard(s: ProviderState, e: LayoutEvent)
    requires e.frame.bottom != e.screenHeight
    requires e.frame.bottom + e.navigationBarHeight != e.screenHeight
    requires CalculateKeyboardHeight(e.frame, e.statusBarHeight, e.navigationBarHeight,
                                     e.screenHeight, s.navigationBarVisible) >= NavigationBarMinHeight
    ensures var h := CalculateKeyboardHeight(e.frame, e.statusBarHeight, e.navigationBarHeight,
                                             e.screenHeight, s.navigationBarVisible);
            var o := ScreenOrientation(e.displayWidth, e.displayHeight);
            && Step(s, e).emission == Emission(h, o)
            && Step(s, e).state == (if o == Portrait then s.(keyboardPortraitHeight := h)
                                    else s.(keyboardLandscapeHeight := h))
  {
  }

  /** A non-zero height is emitted exactly when a keyboard was recognised. */
  lemma StepEmitsHeightIffKeyboard(s: ProviderState, e: LayoutEvent)
    ensures Step(s, e).emission.height != 0 <==> Classify(e, s.navigationBarVisible).Keyboard?
  {
  }

  /**
   * The navigation-bar flag after an event: set by rule 2, cleared by rules
   * 1 and 3, carried over unchanged by rule 4.
   */
  lemma StepNavigationBarFlag(s: ProviderState, e: LayoutEvent)
    ensures Step(s, e).state.navigationBarVisible <==>
              Classify(e, s.navigationBarVisible) == NavigationBarOnly
              || (Classify(e, s.navigationBarVisible).Keyboard? && s.navigationBarVisible)
  {
  }

  /** The caches change only when a keyboard is recognised. */
  lemma StepCachesOnlyOnKeyboard(s: ProviderState, e: LayoutEvent)
    requires !Classify(e, s.navigationBarVisible).Keyboard?
    ensures Step(s, e).state.keyboardPortraitHeight == s.keyboardPortraitHeight
    ensures Step(s, e).state.keyboardLandscapeHeight == s.keyboardLandscapeHeight
  {
  }

  /**
   * The one-cycle lag: with a sized navigation bar, the same geometry
   * measures exactly the bar's height less when the previous event left the
   * flag set than when it left it cleared.
   */
  lemma NavigationBarLag(r: Rect, statusBarHeight: int, navigationBarHeight: int, screenHeight: int)
    requires navigationBarHeight > 0
    ensures CalculateKeyboardHeight(r, statusBarHeight, navigationBarHeight, screenHeight, false)
            == CalculateKeyboardHeight(r, statusBarHeight, navigationBarHeight, screenHeight, true)
               + navigationBarHeight
  {
  }

  /** A square display counts as landscape. */
  lemma SquareDisplayIsLandscape(side: int)
    ensures ScreenOrientation(side, side) == Landscape
  {
  }

  /** Turning a non-square display by a quarter turn flips the orientation. */
  lemma RotationFlipsOrientation(width: int, height: int)
    requires width != height
    ensures ScreenOrientation(width, height) != ScreenOrientation(height, width)
  {
  }

  // ---------------------------------------------------------------------
  // Sequences of layout events.
  // ---------------------------------------------------------------------

  /**
   * The caches are overwritten, never accumulated: after any run of
   * events each cache holds the last keyboard height reported in its
   * orientation, or its starting value if none was.
   */
  lemma {:induction false} ReplayCachesHoldLastKeyboard(s: ProviderState, es: seq<LayoutEvent>)
    ensures var t := Replay(s, es);
            && t.state.keyboardPortraitHeight
               == LastKeyboardHeight(t.emitted, Portrait, s.keyboardPortraitHeight)
            && t.state.keyboardLandscapeHeight
               == LastKeyboardHeight(t.emitted, Landscape, s.keyboardLandscapeHeight)
    decreases |es|
  {
    if es != [] {
      var prefix := es[..|es| - 1];
      var before := Replay(s, prefix);
      ReplayCachesHoldLastKeyboard(s, prefix);
      var r := Step(before.state, es[|es| - 1]);
      var emitted := before.emitted + [r.emission];
      assert emitted[..|emitted| - 1] == before.emitted;
      if r.emission.height == 0 {
        StepEmitsHeightIffKeyboard(before.state, es[|es| - 1]);
        StepCachesOnlyOnKeyboard(before.state, es[|es| - 1]);
      }
    }
  }
}
