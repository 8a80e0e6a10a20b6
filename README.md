# Keyboard height provider — a verified model

This project models the keyboard-height classifier of `KeyboardHeightProvider`, an
Android helper that places a transparent, full-height popup window over an activity and
watches that window's visible frame shrink and grow to find out whether the soft keyboard
is shown and how tall it is. It then reports `(height, orientation)` to one registered
observer.

- `keyboard_height.dfy`, module `KeyboardHeight`: the pure part. `CalculateKeyboardHeight`
  computes the height. `Classify` is the ordered decision list of `handleLayoutChanged`.
  `Step` is one layout event on the provider's state (the two per-orientation caches and
  the navigation-bar flag), and `Replay` runs a sequence of events in delivery order.
  The lemmas state each rule of the decision list, the one-cycle lag of the navigation-bar
  flag, the orientation rule, the invariant that every cache and every reported height is
  0 or at least 100, and that each cache holds the last keyboard height seen in its
  orientation.
- `provider.dfy`, module `Provider`: the class `KeyboardHeightProvider` with the fields the
  Java class assigns. Every call made on an observer is recorded in the ghost sequence
  `notifications`. `HandleLayoutChanged` runs the same decision list imperatively and is
  proved to update the fields as `Step` says and to deliver `Step`'s emission to the
  observer, if there is one. Three small client methods show that `close` is idempotent,
  that nothing is delivered after `close`, and that setting an observer replaces the old one.
- `scenarios.dfy`, module `Scenarios`: concrete runs on a 1080 x 1920 screen, including one
  where the same frame is a keyboard or noise depending on the previous event.

The constant `NAVIGATION_BAR_MIN_HEIGHT` (100) is, despite its name, the smallest height
accepted as a keyboard. It is kept under its own name, `NavigationBarMinHeight`.

`notifyKeyboardHeightChanged` (KeyboardHeightProvider.java:250-254) calls the observer only
when one is registered, so an event makes one call or none (`Deliver`). There is one getter
per orientation (146-157).

## Model

| member | source | states |
|---|---|---|
| `KeyboardHeight.InitialState` | app/src/main/java/com/siebeprojects/samples/keyboardheight/KeyboardHeightProvider.java:54-70 | a new provider has both caches 0 and the navigation-bar flag cleared |
| `KeyboardHeight.CalculateKeyboardHeight` | app/src/main/java/com/siebeprojects/samples/keyboardheight/KeyboardHeightProvider.java:235-245 | visible height + status bar (if it has a size) + navigation bar (if it has a size and the previous event's flag is set) + result == screen height; the result never exceeds the raw gap |
| `KeyboardHeight.Classify` | app/src/main/java/com/siebeprojects/samples/keyboardheight/KeyboardHeightProvider.java:210-229 | first matching rule wins: frame at bottom iff `bottom == screenHeight`; navigation bar only iff not that and `bottom + navigationBarHeight == screenHeight`; otherwise the computed height, noise below 100, a keyboard at 100 or more |
| `KeyboardHeight.Step` | app/src/main/java/com/siebeprojects/samples/keyboardheight/KeyboardHeightProvider.java:201-230 | one layout event reports a height that is 0 or at least 100, with the orientation of the display, and keeps both caches 0 or at least 100 |
| `KeyboardHeight.Replay` | app/src/main/java/com/siebeprojects/samples/keyboardheight/KeyboardHeightProvider.java:97-105 | each event of a run makes exactly one report, in order, with a valid height and that event's orientation; the cache invariant holds after any run that starts from it, in particular from a new provider |
| `KeyboardHeight.StepFrameAtBottom` | app/src/main/java/com/siebeprojects/samples/keyboardheight/KeyboardHeightProvider.java:210-213 | frame at the bottom: flag cleared, height 0 reported, caches unchanged |
| `KeyboardHeight.StepNavigationBarOnly` | app/src/main/java/com/siebeprojects/samples/keyboardheight/KeyboardHeightProvider.java:214-217 | gap equal to the navigation bar: flag set, height 0 reported, caches unchanged |
| `KeyboardHeight.NavigationBarRuleNeedsBar` | app/src/main/java/com/siebeprojects/samples/keyboardheight/KeyboardHeightProvider.java:210-217 | with a zero navigation bar the second rule never matches, because the first one already did |
| `KeyboardHeight.StepBelowThreshold` | app/src/main/java/com/siebeprojects/samples/keyboardheight/KeyboardHeightProvider.java:218-221 | a computed height below 100, negative included, clears the flag, reports 0 and leaves the caches alone |
| `KeyboardHeight.StepKeyboard` | app/src/main/java/com/siebeprojects/samples/keyboardheight/KeyboardHeightProvider.java:222-229 | a computed height of 100 or more overwrites exactly the current orientation's cache, is reported with that orientation, and leaves the other cache and the flag alone |
| `KeyboardHeight.StepEmitsHeightIffKeyboard` | app/src/main/java/com/siebeprojects/samples/keyboardheight/KeyboardHeightProvider.java:208-229 | a non-zero height is reported if and only if a keyboard was recognised |
| `KeyboardHeight.StepNavigationBarFlag` | app/src/main/java/com/siebeprojects/samples/keyboardheight/KeyboardHeightProvider.java:210-229 | the flag afterwards is set iff the navigation-bar rule matched, or a keyboard was recognised and it was already set |
| `KeyboardHeight.StepCachesOnlyOnKeyboard` | app/src/main/java/com/siebeprojects/samples/keyboardheight/KeyboardHeightProvider.java:210-221 | rules 1 to 3 leave both caches unchanged |
| `KeyboardHeight.NavigationBarLag` | app/src/main/java/com/siebeprojects/samples/keyboardheight/KeyboardHeightProvider.java:241-243 | with a sized navigation bar, the same geometry measures exactly the bar's height less when the previous event left the flag set |
| `KeyboardHeight.SquareDisplayIsLandscape` | app/src/main/java/com/siebeprojects/samples/keyboardheight/KeyboardHeightProvider.java:167 | a square display counts as landscape |
| `KeyboardHeight.ScreenOrientation` | app/src/main/java/com/siebeprojects/samples/keyboardheight/KeyboardHeightProvider.java:167 | the display is portrait if and only if its width is less than its height; otherwise, a square included, landscape |
| `KeyboardHeight.RotationFlipsOrientation` | app/src/main/java/com/siebeprojects/samples/keyboardheight/KeyboardHeightProvider.java:167 | swapping width and height of a non-square display flips the orientation |
| `KeyboardHeight.ReplayCachesHoldLastKeyboard` | app/src/main/java/com/siebeprojects/samples/keyboardheight/KeyboardHeightProvider.java:222-229 | after any run each cache holds the last keyboard height reported in its orientation, or its starting value: caches are overwritten, never accumulated |
| `Provider.Deliver` | app/src/main/java/com/siebeprojects/samples/keyboardheight/KeyboardHeightProvider.java:250-254 | at most one call, exactly one iff an observer is registered, made on that observer with the given height and orientation |
| `Provider.KeyboardHeightProvider.constructor` | app/src/main/java/com/siebeprojects/samples/keyboardheight/KeyboardHeightProvider.java:78-106 | no observer, caches 0, flag cleared, window not shown, nothing delivered |
| `Provider.KeyboardHeightProvider.Start` | app/src/main/java/com/siebeprojects/samples/keyboardheight/KeyboardHeightProvider.java:113-119 | the window is shown afterwards iff it already was or the parent view has a window token |
| `Provider.KeyboardHeightProvider.Close` | app/src/main/java/com/siebeprojects/samples/keyboardheight/KeyboardHeightProvider.java:125-128 | the observer is cleared and the window dismissed; caches, flag and notifications are unchanged |
| `Provider.KeyboardHeightProvider.SetKeyboardHeightObserver` | app/src/main/java/com/siebeprojects/samples/keyboardheight/KeyboardHeightProvider.java:137-139 | the observer is replaced by the argument (null clears it); nothing else changes |
| `Provider.KeyboardHeightProvider.GetKeyboardLandscapeHeight` | app/src/main/java/com/siebeprojects/samples/keyboardheight/KeyboardHeightProvider.java:146-148 | returns the landscape cache, which is 0 or at least 100 |
| `Provider.KeyboardHeightProvider.GetKeyboardPortraitHeight` | app/src/main/java/com/siebeprojects/samples/keyboardheight/KeyboardHeightProvider.java:155-157 | returns the portrait cache, which is 0 or at least 100 |
| `Provider.KeyboardHeightProvider.NotifyKeyboardHeightChanged` | app/src/main/java/com/siebeprojects/samples/keyboardheight/KeyboardHeightProvider.java:250-254 | appends exactly the calls `Deliver` describes to the notification log |
| `Provider.KeyboardHeightProvider.HandleLayoutChanged` | app/src/main/java/com/siebeprojects/samples/keyboardheight/KeyboardHeightProvider.java:201-230 | the fields become `Step`'s new state, the log grows by `Step`'s report delivered to the current observer, observer and window state unchanged, invariant kept |
| `Provider.CloseTwice` | app/src/main/java/com/siebeprojects/samples/keyboardheight/KeyboardHeightProvider.java:125-128 | closing twice ends in the same state as closing once |
| `Provider.LayoutAfterClose` | app/src/main/java/com/siebeprojects/samples/keyboardheight/KeyboardHeightProvider.java:250-254 | after close a layout event still updates caches and flag but delivers nothing, and the observer stays null, so later events deliver nothing either |
| `Provider.ReplaceObserver` | app/src/main/java/com/siebeprojects/samples/keyboardheight/KeyboardHeightProvider.java:137-139 | after setting two observers in turn, the next event reaches only the second, once |
| `Scenarios.FullFrameHidesKeyboard` | app/src/main/java/com/siebeprojects/samples/keyboardheight/KeyboardHeightProvider.java:210-213 | a frame from 0 to 1920 on a 1920-high screen reports 0 and clears the flag |
| `Scenarios.NavigationBarGapSetsFlag` | app/src/main/java/com/siebeprojects/samples/keyboardheight/KeyboardHeightProvider.java:214-217 | a frame ending 50 pixels above the bottom with a 50-pixel navigation bar reports 0 and sets the flag |
| `Scenarios.KeyboardAfterNavigationBar` | app/src/main/java/com/siebeprojects/samples/keyboardheight/KeyboardHeightProvider.java:222-245 | after the navigation bar was seen, a frame from 24 to 1370 reports a 500-pixel portrait keyboard and caches it |
| `Scenarios.SameFrameDependsOnPreviousEvent` | app/src/main/java/com/siebeprojects/samples/keyboardheight/KeyboardHeightProvider.java:235-245 | the frame from 24 to 1810 is noise (60) after the navigation bar was seen but a 110-pixel keyboard on a fresh provider |

## Left out

- Window plumbing is not modelled: the `PopupWindow` superclass, inflating the popup view, the soft-input flags, registering the global-layout listener, and showing or dismissing the window. `start` and `close` keep only an abstract `showing` flag, and whether the parent view has a window token is a parameter of `Start`.
- The constructor's `IllegalArgumentException` for a null parent view is not modelled, because the parent view itself is not modelled.
- The status-bar and navigation-bar resource lookups (`getStatusBarHeight`, `getNavigationBarHeight`) are platform calls. Their results are inputs of `LayoutEvent`, as naturals, since a pixel size is never negative.
- The visible frame, the root view height and the display size come from the platform. They are inputs of `LayoutEvent`, and the orientation is computed from the display size by `ScreenOrientation`.
- Logging of the screen height is left out.
- The observer's reaction to a notification is not modelled. An observer is an object of an empty class, and only its identity is recorded.
- Threading and the UI loop are not modelled. Events are handled one at a time, in order, as `Replay` and the class methods assume.
- Java's 32-bit `int` arithmetic is not modelled: `bottom + navigationBarHeight` and the subtractions use unbounded integers, so inputs that would overflow in Java behave differently here.
