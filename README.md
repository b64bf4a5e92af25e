# Wedding page carousel, modelled in Dafny

This project models the image carousels of a single-page wedding announcement site, written as a browser script (`script.js`). The core is the `Slider` class. It is a small state machine with these parts:

- a 1-based current position that wraps round at both ends;
- a transition lock that drops navigation requests for a short cooldown after every slide change;
- an autoplay timer that advances one slide, with at most one advance ever pending;
- touch-swipe detection with a 50 px threshold;
- `build()`, which lays out the numbered slide images and their dots.

The model also covers two pure pieces of the script: the two-digit, zero-padded image file names, and the key-wise merge of the fetched `sliders` configuration over the built-in defaults.

Modules:

- `ImageNames` (`image_names.dfy`): `String(i)`, `padStart(2, '0')` and the image path `folder/NN.jpg`, with a round trip from the padded name back to the number and distinctness of paths.
- `SiteConfig` (`site_config.dfy`): the default slider configurations (both disabled, count 0), `Object.assign` as a map override, and the choice of the two configurations the page constructs sliders with.
- `SliderSpec` (`slider_spec.dfy`): the slider as a state machine on values. `View` holds the state: the object's fields, the slides and dots in its containers, whether its touch listeners exist, and its pending timer callbacks. There is one function per operation, plus the events that can reach a slider, runs of events, the invariant every reachable state keeps, and the lemmas stating what the operations promise.
- `Sliders` (`sliders.dfy`): the class `Slider`, whose methods update fields in place as the script does. `show` and `build` contain the script's loops. Each public method and timer callback is proved to produce exactly the state the matching `SliderSpec` function gives, and to keep the invariant. `SetupEventListeners`, which `Build` calls while the layout is still being written, is proved only to set `listening` and change nothing else. This module also holds the start-up step that constructs and builds the two sliders, and three concrete scenarios: swipes, wraparound, and a disabled slider.

Timers are not clocks here; they are pending events that a caller fires:

- An autoplay timeout is a handle in `liveAutoplay` from the moment it is scheduled until it fires (`AutoplayExpires(h)`) or is cancelled (`clearTimeout`).
- The field `timer`, as in the script, keeps the last handle stored, even after it has fired.
- Every answered `show` schedules a 100 ms cooldown callback. These are never cancelled, so they are counted in `pendingCooldowns`; `CooldownExpires()` runs one of them.

Events may fire in any order, which includes every order real timing can produce.

A touch-end during a transition returns before `startAutoPlay()` (`script.js:61`). `SliderSpec.TouchEndWhileLocked` states this. It also shows that the pending cooldown restarts autoplay anyway, because a set lock always has a cooldown pending.

## Model

| member | source | states |
|---|---|---|
| ImageNames.NatToString | script.js:40 | `String(i)` of a non-negative integer is a non-empty string of decimal digits; it has one digit exactly when `i < 10`, and no leading zero when `i > 0` |
| ImageNames.DecimalValueOfNatToString | script.js:40 | reading the decimal string of `n` back gives `n` |
| ImageNames.DecimalValueIgnoresLeadingZero | script.js:40 | a leading '0' does not change the number a digit string denotes |
| ImageNames.PadStart | script.js:40 | `padStart(width, fill)` has length `max(len, width)`; it ends with the original string and is filled with `fill` before it |
| ImageNames.Pad2 | script.js:40 | the padded name is all digits; one-digit numbers get a leading '0', and numbers of two or more digits are left unchanged |
| ImageNames.Pad2RoundTrip | script.js:40 | the padded name of `i` denotes `i` |
| ImageNames.Pad2Injective | script.js:40 | different slide numbers get different padded names |
| ImageNames.ImagePathInjective | script.js:40 | two slides of one folder have the same image path only if they are the same slide |
| ImageNames.ImagePaths | script.js:35-44 | the images of slides 1..n are `folder/NN.jpg` for each position, in order |
| ImageNames.ImagePathsDistinct | script.js:35-44 | no two slides of a build share an image path |
| SiteConfig.Merge | script.js:145 | the merged keys are the union of both key sets; an overriding entry replaces a default entry whole; defaults are kept for absent keys |
| SiteConfig.MergeIdempotent | script.js:145 | merging the same `sliders` object twice gives the same configuration as merging it once |
| SiteConfig.SliderConfigs | script.js:144-148 | no sliders are configured without a `sliders` object; otherwise memories and preshoot each take the document's entry when it has one, and the built-in disabled default otherwise |
| SliderSpec.Resolve | script.js:76-78 | the resolved position is in `[1, len]`: it is `n` when `n` is in range, 1 above the range and `len` below it |
| SliderSpec.ResolveNext | script.js:76-78 | one step forward from a position in range is the next position in the cycle `1..len` |
| SliderSpec.ResolvePrev | script.js:76-78 | one step back from a position in range is the previous position in the cycle `1..len` |
| SliderSpec.AdvanceSplit | script.js:76-78 | forward steps of the position compose: `a` steps then `b` steps are `a + b` steps |
| SliderSpec.AdvanceCountsUp | script.js:76-78 | before the last slide, forward steps count up one slide at a time |
| SliderSpec.AdvanceFullCycle | script.js:76-78 | from any slide, `len` forward steps return to it |
| SliderSpec.AdvanceReachesEverySlide | script.js:76-78 | from any slide, every slide is reached in fewer than `len` forward steps |
| SliderSpec.CountOnlyAt | script.js:80-84 | hiding every flag and then setting the one at position `k` leaves exactly one flag set when `k` is in range, and none otherwise |
| SliderSpec.SwipeDirection | script.js:62-63 | a touch navigates +1 when the finger travelled more than 50 px left, -1 when more than 50 px right, and not at all otherwise |
| SliderSpec.SwipeDirectionAntisymmetric | script.js:62-63 | reversing a touch reverses its direction |
| ImageNames.ImagePath | script.js:40 | the `src` of slide `i`: `folder/` + `Pad2(i)` + `.jpg`; distinctness per folder is `ImagePathInjective` |
| SliderSpec.Initial | script.js:20-23 | the constructed state: position 1, unlocked, `timer` null, touch X 0; it satisfies the invariant (`InitialInv`) |
| SliderSpec.Show | script.js:71-88 | `show(n)`; its promises are `ShowDisplaysCurrent`, `ShowWithoutSlides`, `ShowWrapsAround` and `ShowPreservesInv` |
| SliderSpec.Navigate | script.js:68 | `navigate(d)`; its promises are `UnlockedNavigationShows`, `NavigationsDropped` and `NavigationBurstMovesOnce` |
| SliderSpec.GoToSlide | script.js:69 | `goToSlide(i)`; its promises are `UnlockedNavigationShows` and `NavigationsDropped` |
| SliderSpec.StartAutoPlay | script.js:90 | `startAutoPlay()`; its promises are `StartAutoPlayTwice` and `AtMostOnePending` |
| SliderSpec.StopAutoPlay | script.js:91 | `stopAutoPlay()`; its promise is `StopAutoPlayCancels` |
| SliderSpec.CooldownExpires | script.js:87 | the cooldown callback; its promise is `CooldownReleasesAndArms` |
| SliderSpec.AutoplayFires | script.js:90 | the autoplay callback; its promises are `AutoplayAdvances`, `AutoplayRound` and `AutoplayRounds` |
| SliderSpec.TouchStart | script.js:59 | the touch-start handler; its promise is `TouchStartSuspends` |
| SliderSpec.TouchEnd | script.js:60-65 | the touch-end handler; its promises are `TouchEndWhileLocked` and `TouchEndSwipes` |
| SliderSpec.Build | script.js:26-56 | `build()`; its promises are `BuildDisabledIsNoop`, `BuildLaysOut`, `BuildNegativeCount` and `BuildPreservesInv` |
| SliderSpec.InitialInv | script.js:20-23 | a newly constructed slider (position 1, unlocked, no timer) satisfies the invariant |
| SliderSpec.ShowPreservesInv | script.js:71-88 | `show` keeps the invariant |
| SliderSpec.BuildPreservesInv | script.js:26-56 | `build` keeps the invariant |
| SliderSpec.StepPreservesInv | script.js:58-91 | every call, gesture and timer callback keeps the invariant: slides, dots and images line up, one slide is displayed with its dot active, the position is in range, at most one autoplay advance is pending (the stored one), and a set lock has a cooldown pending |
| SliderSpec.RunPreservesInv | script.js:58-91 | the invariant holds after any sequence of events that can happen |
| SliderSpec.ShowDisplaysCurrent | script.js:74-86 | after `show(n)` with slides present, the position is `n` wrapped into range; exactly one slide is displayed and exactly one dot is active, both at that position; the lock is set and one more cooldown is pending; the pending autoplay advance (not cancelled), the stored timer, images, touch X and listeners are unchanged |
| SliderSpec.ShowWithoutSlides | script.js:74 | with no slides laid out, `show` changes nothing |
| SliderSpec.ShowWrapsAround | script.js:76-77 | `show(0)` lands on the last slide and `show(len + 1)` on the first |
| SliderSpec.NavigationsDropped | script.js:68-69 | while locked, or with no slides, any sequence of `navigate` and `goToSlide` calls leaves the state exactly as it was |
| SliderSpec.NavigationBurstMovesOnce | script.js:68-69 | an unlocked `navigate` followed by any burst of `navigate`/`goToSlide` calls before a cooldown moves the slider once, exactly as the first call alone |
| SliderSpec.UnlockedNavigationShows | script.js:68-69 | unlocked, `navigate(d)` is `show(currentIndex + d)` and `goToSlide(i)` is `show(i)` |
| SliderSpec.CooldownReleasesAndArms | script.js:87 | a cooldown releases the lock and leaves exactly one autoplay advance pending; what is displayed does not change |
| SliderSpec.AtMostOnePending | script.js:90-91 | in every reachable state at most one autoplay advance is pending, and it is the one `timer` holds |
| SliderSpec.StartAutoPlayTwice | script.js:90 | two `startAutoPlay` calls in a row leave exactly one advance pending, the second; the first is cancelled |
| SliderSpec.StopAutoPlayCancels | script.js:91 | `stopAutoPlay` leaves no advance pending and `timer` null |
| SliderSpec.AutoplayAdvances | script.js:90 | the autoplay callback moves to the next slide in the cycle even while locked; afterwards no advance is pending until a cooldown restarts autoplay |
| SliderSpec.RunAppend | script.js:58-91 | running one sequence of events and then another is running their concatenation |
| SliderSpec.AutoplayRound | script.js:86-90 | from an armed state with slides, the autoplay callback followed by its cooldown can happen, moves one step forward, and ends unlocked and armed again |
| SliderSpec.AutoplayRounds | script.js:86-90 | left alone, an armed slider has a run of `k` rounds of timer callbacks only that ends `k` forward steps on, still armed; with `AdvanceReachesEverySlide` and `AdvanceFullCycle`, autoplay shows every slide and comes back |
| SliderSpec.TouchStartSuspends | script.js:59 | touch-start records its X coordinate and leaves no autoplay advance pending |
| SliderSpec.TouchEndWhileLocked | script.js:61 | a touch-end while locked changes nothing, with no navigation and no autoplay restart; a cooldown is pending and still restarts autoplay |
| SliderSpec.TouchEndSwipes | script.js:61-64 | an unlocked touch-end moves +1 if the start-to-end difference exceeds 50, -1 if it is below -50, and not at all otherwise (exactly 50 included); autoplay is re-armed with one advance in every case |
| SliderSpec.BuildDisabledIsNoop | script.js:29 | with a container missing or `count == 0`, `build` changes nothing |
| SliderSpec.BuildLaysOut | script.js:31-54 | an enabled `build` replaces the slides and dots with exactly `count` of each; only the first slide is displayed and only the first dot active; images are `folder/NN.jpg` in order and pairwise distinct; listeners are registered; position, lock, stored timer, pending callbacks, handle counter and touch X are untouched |
| SliderSpec.BuildNegativeCount | script.js:29-55 | a negative count passes the guard: `build` empties both containers, lays out nothing, registers listeners and changes nothing else |
| Sliders.Slider.constructor | script.js:13-24 | a new slider keeps its configuration; it starts at position 1, unlocked, with no timer, touch X 0 and empty containers |
| Sliders.Slider.Build | script.js:26-56 | the loops build exactly the state `SliderSpec.Build` gives, and keep the invariant |
| Sliders.Slider.SetupEventListeners | script.js:58-66 | registers the touch handlers and changes nothing else |
| Sliders.Slider.Navigate | script.js:68 | the new state is `SliderSpec.Navigate` of the old one; the invariant is kept |
| Sliders.Slider.GoToSlide | script.js:69 | the new state is `SliderSpec.GoToSlide` of the old one; the invariant is kept |
| Sliders.Slider.Show | script.js:71-88 | the hide-all and show-one loops give exactly the state `SliderSpec.Show` gives; the invariant is kept |
| Sliders.Slider.CooldownExpires | script.js:87 | the cooldown callback gives the state `SliderSpec.CooldownExpires` gives |
| Sliders.Slider.AutoplayExpires | script.js:90 | the autoplay callback gives the state `SliderSpec.AutoplayFires` gives |
| Sliders.Slider.StartAutoPlay | script.js:90 | cancels and re-schedules, as `SliderSpec.StartAutoPlay` |
| Sliders.Slider.StopAutoPlay | script.js:91 | cancels the stored handle and clears `timer`, as `SliderSpec.StopAutoPlay` |
| Sliders.Slider.TouchStart | script.js:59 | the touch-start handler gives the state `SliderSpec.TouchStart` gives |
| Sliders.Slider.TouchEnd | script.js:60-65 | the touch-end handler gives the state `SliderSpec.TouchEnd` gives |
| Sliders.InitSliders | script.js:143-150 | without a `sliders` object no slider is constructed; otherwise two distinct fresh sliders are constructed from the merged configurations, and each is built |

## Left out

- Page content templating (hero, greeting, profiles, biographies, story; `script.js:101-141`) is not modelled. It is one-shot HTML interpolation driven by `fetch` and `response.json()`, which are I/O.
- The `try`/`catch` error logging, `hideLoading` and the `DOMContentLoaded` hook (`script.js:152-153`, `171-180`) are not modelled. They are console output, styling and a real timer.
- Tab switching (`initUI`, `script.js:160-169`) and the dispatchers `plusSlides` and `plusSlidesPre` (`script.js:156-157`) are not modelled. They are DOM wiring, and null-checked calls of `navigate` on the global sliders.
- Real time is not modelled: no millisecond durations and no ordering imposed by them. Timers are pending events, fired in whatever order a caller chooses. The 4000 ms autoplay interval and the 100 ms cooldown therefore do not appear.
- DOM element identity, CSS class names, `lazy` loading, and where the slides sit relative to the arrow anchor (`script.js:45-46`) are not modelled. Slides and dots are index-addressed flags, and their order is document order.
- Duplicate listeners from calling `build()` twice are not modelled; the page calls it once.
- The slide and dot containers are assumed to hold no slide or dot elements before `build()`. The model starts with both empty.
- Sliders.Slider.Show: the TypeError that `show` raises when a container is missing is not modelled. A slider without containers never lays out slides, so the model treats this case as the no-slide no-op. The state is unchanged either way.
- Sliders.Slider.Show: the TypeError that would follow when there are fewer dots than the position is not modelled. The invariant keeps slide and dot counts equal, so that state cannot arise.
- SliderSpec.SwipeDirection: touch coordinates are exact reals. Floating-point rounding of `clientX` differences is not modelled.
- SiteConfig.SliderConfigs: configuration entries are assumed well formed, each with a string folder and an integer count. Null entries, missing fields and fractional counts in the fetched document are not modelled. A negative count is modelled: it passes the `count === 0` guard, so `build` empties the containers, lays out nothing and still registers listeners.
- Timer handles are drawn from a counter private to each slider. In a browser, the handles of both sliders come from one shared sequence; only their distinctness matters here.
