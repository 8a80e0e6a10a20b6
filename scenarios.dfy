/**
 * Concrete runs of the layout interpreter on a 1080 x 1920 portrait screen
 * with a 24-pixel status bar and a 50-pixel navigation bar.
 */
module Scenarios {
  import opened KeyboardHeight

  function Frame(top: int, bottom: int): Rect {
    Rect(0, top, 1080, bottom)
  }

  function PortraitEvent(top: int, bottom: int): LayoutEvent {
    LayoutEvent(Frame(top, bottom), 1920, 24, 50, 1080, 1920)
  }

  /** The frame reaches the bottom: no keyboard, flag cleared. */
  lemma FullFrameHidesKeyboard(s: ProviderState)
    ensures Step(s, PortraitEvent(0, 1920)).emission == Emission(0, Portrait)
    ensures !Step(s, PortraitEvent(0, 1920)).state.navigationBarVisible
  {
  }

  /** A 50-pixel gap is the navigation bar: no keyboard, flag set. */
  lemma NavigationBarGapSetsFlag(s: ProviderState)
    ensures Step(s, PortraitEvent(24, 1870)).emission == Emission(0, Portrait)
    ensures Step(s, PortraitEvent(24, 1870)).state.navigationBarVisible
  {
  }

  /**
   * After the navigation bar was seen, a frame from 24 to 1370 measures
   * 1920 - 1346 - 24 - 50 == 500: a portrait keyboard of 500 pixels.
   */
  lemma KeyboardAfterNavigationBar()
    ensures var t := Replay(InitialState(), [PortraitEvent(24, 1870), PortraitEvent(24, 1370)]);
            && t.emitted == [Emission(0, Portrait), Emission(500, Portrait)]
            && t.state == ProviderState(500, 0, true)
  {
  }

  /**
   * The one-cycle lag: the frame from 24 to 1810 measures 60 (noise) after
   * the navigation bar was seen, but 110 (a keyboard) on a fresh provider.
   */
  lemma SameFrameDependsOnPreviousEvent()
    ensures var t := Replay(InitialState(), [PortraitEvent(24, 1870), PortraitEvent(24, 1810)]);
            && t.emitted == [Emission(0, Portrait), Emission(0, Portrait)]
            && t.state == ProviderState(0, 0, false)
    ensures var t := Replay(InitialState(), [PortraitEvent(24, 1810)]);
            && t.emitted == [Emission(110, Portrait)]
            && t.state == ProviderState(110, 0, false)
  {
  }
}
