# Slide-deck presentation controller, modelled in Dafny

This project models the controller of a single-page slide deck (`PresentationApp`
in `app.js`). The deck has 14 slides, numbered from 1. The controller keeps the
current slide number and moves the `active` class from the old slide element to
the new one. After each move it refreshes the page indicator and the enabled or
disabled state of the four navigation buttons (first, prev, next, last). Whenever
slide 3, 5 or 8 is entered and its chart (market growth, revenue distribution,
start-up costs) is not yet stored, it tries to build the chart; nothing is built
when the chart's canvas is missing, and a construction that throws stores nothing. Input comes from the keyboard and from
horizontal touch swipes. The controller also resizes and destroys the charts on
request.

Modules:

- `Navigation`: the slide-number state machine as pure functions. `Apply` gives
  the slide after one request and `Run` the slide after a sequence of them.
  Lemmas show that the number stays in 1..14 and how repeated steps stop at the
  ends.
- `Slides`: the `active` flags of the slide elements as a sequence. `Switch` is
  the move done by `goToSlide`. Lemmas state that exactly the current slide is
  active and that this is the same as "it is active and the active count is one".
- `PageControls`: the indicator and button elements. Each may be missing from
  the page. The module holds the updates `updatePageIndicator` and
  `updateNavigationButtons` and what they guarantee at the boundaries.
- `Charts`: the slide-to-chart dispatch, the guarded construction (no canvas,
  already built, or the library throws: no change) and the embedded datasets.
- `Input`: the keydown mapping, the swipe rule, and the `SwipeTracker` class that
  holds the touch handlers' closure variables.
- `Presentation`: the `PresentationApp` class. It holds `currentSlide`, the slide
  elements as an `array<bool>`, the controls, the canvases present and the chart
  map. Its methods are proved against the functions above. The module also has
  the keydown and touchend handlers, and a walkthrough of a navigation session
  whose assertions the verifier checks.

Modelling choices:

- The chart library is a parameter. `attempt: Option<Handle>` is what `new Chart(...)`
  would yield if a call reaches it: a handle, or `None` when it throws.
  `throwing: set<ChartName>` names the charts whose `resize` or `destroy` throws.
- The delayed chart initialisation (`setTimeout` after `goToSlide`) is modelled as
  a direct call for the slide number that was captured.
- The slide collection may have any length, as `querySelectorAll` returns. A slide
  number with no element behind it is skipped, as the `if (this.slides[i])`
  guards do. The invariant "exactly the current slide is active" is preserved
  whatever the length. It becomes "exactly one slide is active" when the current
  slide has an element.
- A touch that starts at x = 0 or y = 0 never navigates, because `!startX` and
  `!startY` treat 0 as missing. The model keeps this behaviour.

## Model

| member | source | states |
|---|---|---|
| `Navigation.Apply` | app.js:131-151 | After next, prev or goTo the slide number stays in 1..14. Next moves one forward except on slide 14, prev one back except on slide 1. goTo reaches its target exactly when the target is in 1..14; otherwise the slide stays where it was. |
| `Navigation.RunStaysInRange` | app.js:131-151 | No sequence of navigation requests, starting from a slide in 1..14, leads out of 1..14. |
| `Navigation.RepeatedNext` | app.js:131-135 | k forward steps from slide c end at c + k, or at slide 14 if that comes first. |
| `Navigation.RepeatedPrev` | app.js:137-141 | k backward steps from slide c end at c - k, or at slide 1 if that comes first. |
| `Slides.SetFlag` | app.js:146-156 | Removing or adding `active` on one slide changes only that slide's flag, and only when its element exists. |
| `Slides.Switch` | app.js:145-156 | A move from slide `from` to slide `to` clears `from`, sets `to` and leaves every other slide's flag unchanged. |
| `Slides.SwitchKeepsOnlyActive` | app.js:143-156 | If only the old slide was active before a move, only the new slide is active after it. |
| `Slides.NoneActive` | app.js:143-156 | The active count is zero exactly when no slide carries `active`. |
| `Slides.SoleActive` | app.js:143-156 | Slide k is the only active slide exactly when it is active and the active count is one. |
| `PageControls.Indicator` | app.js:169-175 | The indicators present show the current slide and the total 14. No element appears or disappears, and the buttons are untouched. |
| `PageControls.Buttons` | app.js:177-187 | Each button present gets its disabled flag: prev and first exactly on slide 1, next and last exactly on slide 14. The indicators are untouched. |
| `PageControls.Refresh` | app.js:158-160 | After a move, indicator and buttons both agree with the new slide, and the same elements are present. |
| `PageControls.RefreshDeterminedByPresence` | app.js:169-187 | The refreshed controls depend only on which elements exist and on the slide number, so a second refresh changes nothing. |
| `PageControls.BoundaryButtons` | app.js:183-186 | On slide 1, prev and first are disabled and next and last enabled. On slide 14 it is the reverse. In between, all four are enabled. |
| `Charts.ChartFor` | app.js:194-206 | Slide 3 dispatches to the market-growth chart, 5 to revenue distribution and 8 to start-up costs. Every other slide dispatches to nothing. |
| `Charts.Created` | app.js:208-437 | A chart constructor changes nothing when its canvas is missing, when its chart exists or when the library throws. Otherwise it adds exactly its own handle, and other charts are never touched. |
| `Charts.CreateIsIdempotent` | app.js:208-293 | Once a chart exists, another construction of it changes nothing, whatever the library would return. A construction that stored nothing left the map as it was. |
| `Charts.InitChartsFacts` | app.js:194-206 | Entering a slide adds at most one chart, only for slides 3, 5 and 8, only where a canvas exists, and never replaces a handle. Once the slide's chart exists, entering the slide again builds nothing. |
| `Charts.DatasetFacts` | app.js:212-377 | Facts about the embedded literals only. The market series rises every year and stays within the axis range of 6 to 10 billion. The revenue shares and the start-up shares each sum to 100%. The five start-up shares are the amounts' shares of 700000, rounded. |
| `Input.KeyCommand` | app.js:23-42 | ArrowRight and Space mean next, ArrowLeft means prev, Home means goTo(1) and End means goTo(14). Each of these holds in both directions, and every other key does nothing. |
| `Input.SwipeCommand` | app.js:499-512 | A gesture means next exactly when it moves left by more than 50 and more than its vertical distance. It means prev exactly when it moves right by that much. Otherwise it means nothing. |
| `Input.SwipeTracker.constructor` | app.js:483-485 | The touch state starts empty and not armed. |
| `Input.SwipeTracker.TouchStart` | app.js:487-491 | A touch start records both coordinates and sets the touch flag. It arms the tracker exactly when neither coordinate is 0. |
| `Input.SwipeTracker.TouchEnd` | app.js:493-517 | When not armed, a touch end returns nothing and changes nothing. Otherwise it returns the swipe rule's verdict and clears the start state, whether or not a swipe was recognised. |
| `Presentation.PresentationApp.constructor` | app.js:3-17 | The controller starts on slide 1 with no charts. Indicator and buttons are refreshed for slide 1, and the invariant holds. |
| `Presentation.PresentationApp.UpdatePageIndicator` | app.js:169-175 | The controls become `Indicator` of the old controls and the current slide; nothing else changes. |
| `Presentation.PresentationApp.UpdateNavigationButtons` | app.js:177-187 | The controls become `Buttons` of the old controls and the current slide; nothing else changes. |
| `Presentation.PresentationApp.InitializeCharts` | app.js:189-192 | The chart map becomes the start-up dispatch for the current slide. |
| `Presentation.PresentationApp.InitializeSlideCharts` | app.js:194-206 | The chart map becomes `InitCharts` of the old map for the given slide. |
| `Presentation.PresentationApp.CreateChart` | app.js:208-437 | The chart map becomes `Created` of the old map: a guarded, at-most-once insertion. |
| `Presentation.PresentationApp.SetActive` | app.js:146-156 | The slide flags become `SetFlag` of the old flags. |
| `Presentation.PresentationApp.GoToSlide` | app.js:143-167 | An invalid or redundant target changes nothing. A valid one sets the slide number, moves `active`, refreshes indicator and buttons, and builds the slide's chart. The invariant is kept, and "exactly the current slide is active" is preserved. |
| `Presentation.PresentationApp.NextSlide` | app.js:131-135 | The slide number becomes `Apply(old, Next)`, with the full effect of `goToSlide(old + 1)`; on slide 14 nothing changes. The invariants are kept. |
| `Presentation.PresentationApp.PrevSlide` | app.js:137-141 | The slide number becomes `Apply(old, Prev)`, with the full effect of `goToSlide(old - 1)`; on slide 1 nothing changes. The invariants are kept. |
| `Presentation.PresentationApp.Perform` | app.js:131-167 | Carrying out a request gives `Apply` of it and the effect of `goToSlide` on its target. The invariants are kept. |
| `Presentation.PresentationApp.HandleResize` | app.js:440-450 | Every chart whose `resize` does not throw is resized, however many other charts throw. Every throwing chart is caught and logged, and no state changes. |
| `Presentation.PresentationApp.DestroyCharts` | app.js:453-464 | `destroy` is attempted on every chart, each failure isolated, and the map is left empty. A second call destroys nothing and leaves the same empty map. |
| `Presentation.OnKeyDown` | app.js:23-43 | A mapped key carries out its request with the full `goToSlide` effect on its target (flags, indicator, buttons, chart build); any other key changes nothing. Exactly-the-current-slide-active is preserved. |
| `Presentation.OnTouchEnd` | app.js:493-517 | An unarmed touch end changes nothing, tracker included. An armed one resets the tracker; a recognised swipe has the full `goToSlide` effect on its target, any other gesture leaves the controller unchanged. Exactly-the-current-slide-active is preserved. |

## Left out

- Listener wiring and event plumbing are left out: `setupEventListeners`, the four buttons and two click zones, `preventDefault`, `stopPropagation`, `closest(...)`, and the `touchmove` default prevention. The buttons and click zones call the same `nextSlide`, `prevSlide` and `goToSlide` that `Perform` models.
- The timer delays (100 ms before binding listeners, 300 ms and 100 ms before building a chart) are not modelled. The chart step runs directly for the captured slide number, so navigation that happens between a move and its deferred chart build is not modelled.
- The `debounce` of resize events is left out; it is about timers only.
- The Chart.js configuration (chart type, colours, axes, labels, tooltips) and the library's rendering are left out. A chart is an opaque `Handle`. Only the numbers of the three datasets are kept; market sizes are in hundredths of a billion.
- `formatCurrency`, `formatPercentage` and the tooltip's `(amount/1000).toFixed(0)` are left out; they are floating-point formatting.
- `console.error` logging and the global error handler are left out. A logged failure appears only as the `failed` result of `HandleResize` and `DestroyCharts`.
- JavaScript numbers are modelled as `int`. `goToSlide` with a fractional or non-number argument is not modelled; the source's callers pass only integers. Touch coordinates are whole numbers here, and NaN is not modelled.
- The indicator's `textContent` is modelled as the number written, not as a string.
- The `chart && typeof chart.resize === 'function'` guard (and its `destroy` twin) is not modelled. Every stored value is a library handle, so the guard always holds.
- `Object.values` visits charts in insertion order; the model visits them in an unspecified order. The results are sets and do not depend on the order.
- Which slide is `active` at load time comes from the markup, not from the controller. The model therefore preserves "exactly the current slide is active" and does not establish it.
- `window.presentationApp`, the global handle exposed for debugging, is left out.
