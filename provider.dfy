/**
 * KeyboardHeightProvider as an object: the two per-orientation caches, the
 * navigation-bar flag and the single observer are fields that the methods
 * assign.  The calls made on observers are recorded in the ghost sequence
 * `notifications`, so that what was reported, to whom and in what order can
 * be specified.  Each layout callback is specified by KeyboardHeight.Step.
 */
module Provider {
  import opened KeyboardHeight

  /** KeyboardHeightObserver: only its identity matters; its reaction is not modelled. */
  class KeyboardHeightObserver {
    constructor () {}
  }

  /** One onKeyboardHeightChanged(height, orientation) call made on `observer`. */
  datatype Notification = Notification(observer: KeyboardHeightObserver, height: int, orientation: Orientation)

  /**
   * The calls notifyKeyboardHeightChanged makes: exactly one, to the
   * registered observer, when there is one; none otherwise.
   */
  function Deliver(observer: KeyboardHeightObserver?, height: int, orientation: Orientation): (ns: seq<Notification>)
    ensures |ns| <= 1
    ensures |ns| == 1 <==> observer != null
    ensures forall n :: n in ns ==> n == Notification(observer, height, orientation)
  {
    if observer != null then [Notification(observer, height, orientation)] else []
  }

  class KeyboardHeightProvider {
    var observer: KeyboardHeightObserver?
    var keyboardLandscapeHeight: int
    var keyboardPortraitHeight: int
    var navigationBarVisible: bool
    /** Whether the overlay window is shown (PopupWindow.isShowing). */
    var showing: bool
    /** Every notification delivered so far, oldest first. */
    ghost var notifications: seq<Notification>

    /** The fields the layout interpreter works on. */
    function State(): ProviderState
      reads this
    {
      ProviderState(keyboardPortraitHeight, keyboardLandscapeHeight, navigationBarVisible)
    }

    /** Caches and reported heights are always 0 or a real keyboard height. */
    ghost predicate Valid()
      reads this
    {
      && CachesValid(State())
      && forall i :: 0 <= i < |notifications| ==> ValidHeight(notifications[i].height)
    }

    /** A new provider: no observer, empty caches, flag cleared, window not shown. */
    constructor ()
      ensures Valid()
      ensures State() == InitialState()
      ensures observer == null && !showing && notifications == []
    {
      observer := null;
      keyboardLandscapeHeight := 0;
      keyboardPortraitHeight := 0;
      navigationBarVisible := false;
      showing := false;
      notifications := [];
    }

    /**
     * start: show the overlay window unless it is already shown or the
     * parent view has no window token yet (the host is not resumed).
     */
    method Start(hasWindowToken: bool)
      requires Valid()
      modifies this`showing
      ensures Valid()
      ensures showing == (old(showing) || hasWindowToken)
    {
      if !showing && hasWindowToken {
        showing := true;
      }
    }

    /** close: drop the observer and dismiss the overlay window. */
    method Close()
      requires Valid()
      modifies this`observer, this`showing
      ensures Valid()
      ensures observer == null && !showing
      ensures State() == old(State()) && notifications == old(notifications)
    {
      observer := null;
      showing := false;
    }

    /** setKeyboardHeightObserver: replace (not add to) the registered observer; null clears it. */
    method SetKeyboardHeightObserver(o: KeyboardHeightObserver?)
      requires Valid()
      modifies this`observer
      ensures Valid()
      ensures observer == o
      ensures State() == old(State()) && notifications == old(notifications)
    {
      observer := o;
    }

    method GetKeyboardLandscapeHeight() returns (h: int)
      requires Valid()
      ensures h == keyboardLandscapeHeight
      ensures ValidHeight(h)
    {
      h := keyboardLandscapeHeight;
    }

    method GetKeyboardPortraitHeight() returns (h: int)
      requires Valid()
      ensures h == keyboardPortraitHeight
      ensures ValidHeight(h)
    {
      h := keyboardPortraitHeight;
    }

    /** notifyKeyboardHeightChanged: the emission gate. */
    method NotifyKeyboardHeightChanged(height: int, orientation: Orientation)
      modifies this`notifications
      ensures notifications == old(notifications) + Deliver(observer, height, orientation)
    {
      if observer != null {
        notifications := notifications + [Notification(observer, height, orientation)];
      }
    }

    /**
     * handleLayoutChanged: run the decision list once on the event, update
     * the fields as Step says and report Step's emission to the observer, if
     * any.  The observer and the window state are untouched.
     */
    method HandleLayoutChanged(e: LayoutEvent)
      requires Valid()
      modifies this
      ensures Valid()
      ensures State() == Step(old(State()), e).state
      ensures notifications == old(notifications)
                               + Deliver(observer, Step(old(State()), e).emission.height,
                                         Step(old(State()), e).emission.orientation)
      ensures observer == old(observer) && showing == old(showing)
    {
      var statusBarHeight := e.statusBarHeight;
      var navigationBarHeight := e.navigationBarHeight;
      var orientation := ScreenOrientation(e.displayWidth, e.displayHeight);
      var rect := e.frame;
      var keyboardHeight := 0;

      if rect.bottom == e.screenHeight {
        navigationBarVisible := false;
        NotifyKeyboardHeightChanged(0, orientation);
      } else if rect.bottom + navigationBarHeight == e.screenHeight {
        navigationBarVisible := true;
        NotifyKeyboardHeightChanged(0, orientation);
      } else {
        keyboardHeight := CalculateKeyboardHeight(rect, statusBarHeight, navigationBarHeight,
                                                  e.screenHeight, navigationBarVisible);
        if keyboardHeight < NavigationBarMinHeight {
          navigationBarVisible := false;
          NotifyKeyboardHeightChanged(0, orientation);
        } else if orientation == Portrait {
          keyboardPortraitHeight := keyboardHeight;
          NotifyKeyboardHeightChanged(keyboardPortraitHeight, orientation);
        } else {
          keyboardLandscapeHeight := keyboardHeight;
          NotifyKeyboardHeightChanged(keyboardLandscapeHeight, orientation);
        }
      }
    }
  }

  /**
   * Closing twice leaves the provider exactly as closing once: no observer,
   * window dismissed, caches, flag and notifications untouched.
   */
  method CloseTwice(p: KeyboardHeightProvider)
    requires p.Valid()
    modifies p
    ensures p.Valid()
    ensures p.observer == null && !p.showing
    ensures p.State() == old(p.State()) && p.notifications == old(p.notifications)
  {
    p.Close();
    p.Close();
  }

  /**
   * After close, layout events still update the caches and the flag but
   * notify nobody, until an observer is set again.
   */
  method LayoutAfterClose(p: KeyboardHeightProvider, e: LayoutEvent)
    requires p.Valid()
    modifies p
    ensures p.Valid()
    ensures p.observer == null
    ensures p.State() == Step(old(p.State()), e).state
    ensures p.notifications == old(p.notifications)
  {
    p.Close();
    p.HandleLayoutChanged(e);
  }

  /**
   * setKeyboardHeightObserver replaces: after two calls, later events reach
   * only the second observer.
   */
  method ReplaceObserver(p: KeyboardHeightProvider, first: KeyboardHeightObserver,
                         second: KeyboardHeightObserver, e: LayoutEvent)
    requires p.Valid()
    modifies p
    ensures p.Valid()
    ensures p.notifications == old(p.notifications)
                               + [Notification(second, Step(old(p.State()), e).emission.height,
                                               Step(old(p.State()), e).emission.orientation)]
  {
    p.SetKeyboardHeightObserver(first);
    p.SetKeyboardHeightObserver(second);
    p.HandleLayoutChanged(e);
  }
}
