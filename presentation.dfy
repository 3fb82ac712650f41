/**
 * The presentation controller: the current slide, the `active` flags of the
 * slide elements, the indicator and buttons, and the chart registry, with
 * the navigation methods that change them and the input handlers that call
 * those methods.
 */
module Presentation {
  import opened Wrappers
  import opened Navigation
  import opened Slides
  import opened PageControls
  import opened Charts
  import opened Input

  class PresentationApp {
    /** `this.currentSlide`, numbered from 1. */
    var currentSlide: int
    /** `this.slides`: the slide elements found on the page, as their `active` flags. */
    const slides: array<bool>
    /** The indicator and button elements and what they show. */
    var controls: Controls
    /** The charts whose canvas is on the page. */
    const surfaces: set<ChartName>
    /** `this.charts`. */
    var charts: map<ChartName, Handle>

    /**
     * The controller's invariant: the slide number is in range, the
     * indicator and buttons agree with it, and a chart exists only where
     * its canvas does.
     */
    ghost predicate Valid()
      reads this
    {
      && 1 <= currentSlide <= TotalSlides
      && ShowsPage(controls, currentSlide)
      && ButtonsMatch(controls, currentSlide)
      && charts.Keys <= surfaces
    }

    /** Exactly the current slide carries `active` (among the elements present). */
    ghost predicate ShowsCurrent()
      reads this, slides
    {
      OnlyActive(slides[..], currentSlide)
    }

    /**
     * The effect of `goToSlide(n)`: when `n` is a slide other than the
     * current one, the slide number becomes `n`, the old slide loses
     * `active` and slide `n` gains it, indicator and buttons are refreshed
     * for `n`, and the chart of slide `n` is built if it has one; otherwise
     * nothing changes.
     */
    twostate predicate Transitioned(n: int, attempt: Option<Handle>)
      reads this, slides
    {
      var from := old(currentSlide);
      if Moves(from, n) then
        && currentSlide == n
        && slides[..] == Switch(old(slides[..]), from, n)
        && controls == Refresh(old(controls), n)
        && charts == InitCharts(old(charts), surfaces, n, attempt)
      else
        && currentSlide == from
        && slides[..] == old(slides[..])
        && controls == old(controls)
        && charts == old(charts)
    }

    /**
     * `new PresentationApp()` followed by `initializeApp`: start on slide 1
     * with no chart, refresh indicator and buttons, and initialise the
     * charts of slide 1 (it has none).
     */
    constructor (slides: array<bool>, controls: Controls, surfaces: set<ChartName>)
      ensures Valid()
      ensures this.slides == slides && this.surfaces == surfaces
      ensures currentSlide == 1 && charts == map[]
      ensures this.controls == Refresh(controls, 1)
    {
      this.currentSlide := 1;
      this.slides := slides;
      this.controls := controls;
      this.surfaces := surfaces;
      this.charts := map[];
      new;
      UpdatePageIndicator();
      UpdateNavigationButtons();
      InitializeCharts(None);
    }

    /** `updatePageIndicator`. */
    method UpdatePageIndicator()
      modifies this`controls
      ensures controls == Indicator(old(controls), currentSlide)
    {
      controls := Indicator(controls, currentSlide);
    }

    /** `updateNavigationButtons`. */
    method UpdateNavigationButtons()
      modifies this`controls
      ensures controls == Buttons(old(controls), currentSlide)
    {
      controls := Buttons(controls, currentSlide);
    }

    /** `initializeCharts`: the charts of the slide shown at start-up. */
    method InitializeCharts(attempt: Option<Handle>)
      modifies this`charts
      ensures charts == InitCharts(old(charts), surfaces, currentSlide, attempt)
    {
      InitializeSlideCharts(currentSlide, attempt);
    }

    /** `initializeSlideCharts`: dispatch slides 3, 5 and 8 to their chart's constructor. */
    method InitializeSlideCharts(slide: int, attempt: Option<Handle>)
      modifies this`charts
      ensures charts == InitCharts(old(charts), surfaces, slide, attempt)
    {
      match ChartFor(slide)
      case None =>
      case Some(name) => CreateChart(name, attempt);
    }

    /**
     * `createMarketGrowthChart`, `createRevenueDistributionChart` and
     * `createStartupCostsChart`: return at once when the canvas is missing
     * or the chart exists; otherwise store the new handle, or, when the
     * library throws, log the error and store nothing.
     */
    method CreateChart(name: ChartName, attempt: Option<Handle>)
      modifies this`charts
      ensures charts == Created(old(charts), surfaces, name, attempt)
    {
      if name !in surfaces || name in charts {
        return;
      }
      match attempt
      case None =>
      case Some(h) => charts := charts[name := h];
    }

    /** `classList.remove('active')` / `classList.add('active')` on slide `slide`, if its element exists. */
    method SetActive(slide: int, on: bool)
      modifies slides
      ensures slides[..] == SetFlag(old(slides[..]), slide, on)
    {
      if 1 <= slide <= slides.Length {
        slides[slide - 1] := on;
      }
    }

    /** `goToSlide`, with the deferred chart initialisation run directly for slide `n`. */
    method GoToSlide(n: int, attempt: Option<Handle>)
      requires Valid()
      modifies this, slides
      ensures Valid()
      ensures Transitioned(n, attempt)
      ensures old(ShowsCurrent()) ==> ShowsCurrent()
    {
      if 1 <= n <= TotalSlides && n != currentSlide {
        ghost var before := slides[..];
        ghost var from := currentSlide;
        SetActive(currentSlide, false);
        currentSlide := n;
        SetActive(currentSlide, true);
        UpdatePageIndicator();
        UpdateNavigationButtons();
        InitializeSlideCharts(n, attempt);
        InitChartsFacts(old(charts), surfaces, n, attempt, attempt);
        if OnlyActive(before, from) {
          SwitchKeepsOnlyActive(before, from, n);
        }
      }
    }

    /** `nextSlide`: one slide forward, nothing on the last slide. */
    method NextSlide(attempt: Option<Handle>)
      requires Valid()
      modifies this, slides
      ensures Valid()
      ensures currentSlide == Apply(old(currentSlide), Next)
      ensures Transitioned(old(currentSlide) + 1, attempt)
      ensures old(ShowsCurrent()) ==> ShowsCurrent()
    {
      if currentSlide < TotalSlides {
        GoToSlide(currentSlide + 1, attempt);
      }
    }

    /** `prevSlide`: one slide back, nothing on the first slide. */
    method PrevSlide(attempt: Option<Handle>)
      requires Valid()
      modifies this, slides
      ensures Valid()
      ensures currentSlide == Apply(old(currentSlide), Prev)
      ensures Transitioned(old(currentSlide) - 1, attempt)
      ensures old(ShowsCurrent()) ==> ShowsCurrent()
    {
      if currentSlide > 1 {
        GoToSlide(currentSlide - 1, attempt);
      }
    }

    /** Carry out one navigation request, as the input handlers do. */
    method Perform(cmd: Command, attempt: Option<Handle>)
      requires Valid()
      modifies this, slides
      ensures Valid()
      ensures currentSlide == Apply(old(currentSlide), cmd)
      ensures Transitioned(Target(old(currentSlide), cmd), attempt)
      ensures old(ShowsCurrent()) ==> ShowsCurrent()
    {
      match cmd
      case Next => NextSlide(attempt);
      case Prev => PrevSlide(attempt);
      case GoTo(n) => GoToSlide(n, attempt);
    }

    /**
     * `handleResize`: call `resize` on every chart, each in its own
     * try/catch. `throwing` are the charts whose `resize` throws; every
     * other chart is resized however many of the others fail, each failure
     * is logged, and no state changes.
     */
    method HandleResize(throwing: set<ChartName>) returns (resized: set<ChartName>, failed: set<ChartName>)
      ensures resized == charts.Keys - throwing
      ensures failed == charts.Keys * throwing
    {
      var pending := charts.Keys;
      resized, failed := {}, {};
      while pending != {}
        invariant pending <= charts.Keys
        invariant resized == (charts.Keys - pending) - throwing
        invariant failed == (charts.Keys - pending) * throwing
        decreases pending
      {
        var name :| name in pending;
        if name in throwing {
          failed := failed + {name};
        } else {
          resized := resized + {name};
        }
        pending := pending - {name};
      }
    }

    /**
     * `destroyCharts`: call `destroy` on every chart, each in its own
     * try/catch, then empty the map. A second call finds nothing to destroy
     * and leaves the same empty map.
     */
    method DestroyCharts(throwing: set<ChartName>) returns (destroyed: set<ChartName>, failed: set<ChartName>)
      requires Valid()
      modifies this`charts
      ensures Valid()
      ensures destroyed == old(charts).Keys - throwing
      ensures failed == old(charts).Keys * throwing
      ensures charts == map[]
    {
      var pending := charts.Keys;
      destroyed, failed := {}, {};
      while pending != {}
        invariant pending <= charts.Keys
        invariant destroyed == (charts.Keys - pending) - throwing
        invariant failed == (charts.Keys - pending) * throwing
        decreases pending
      {
        var name :| name in pending;
        if name in throwing {
          failed := failed + {name};
        } else {
          destroyed := destroyed + {name};
        }
        pending := pending - {name};
      }
      charts := map[];
    }
  }

  /** The keydown listener: ArrowRight and Space forward, ArrowLeft back, Home and End to the ends. */
  method OnKeyDown(app: PresentationApp, key: string, attempt: Option<Handle>)
    requires app.Valid()
    modifies app, app.slides
    ensures app.Valid()
    ensures KeyCommand(key) == None ==>
              app.currentSlide == old(app.currentSlide) && app.charts == old(app.charts) &&
              app.controls == old(app.controls) && unchanged(app.slides)
    ensures KeyCommand(key).Some? ==>
              app.currentSlide == Apply(old(app.currentSlide), KeyCommand(key).value) &&
              app.Transitioned(Target(old(app.currentSlide), KeyCommand(key).value), attempt)
    ensures old(app.ShowsCurrent()) ==> app.ShowsCurrent()
  {
    var cmd := KeyCommand(key);
    if cmd.Some? {
      app.Perform(cmd.value, attempt);
    }
  }

  /** The touchend listener: classify the gesture and navigate on a swipe. */
  method OnTouchEnd(app: PresentationApp, tracker: SwipeTracker, endX: int, endY: int,
                    attempt: Option<Handle>)
    requires app.Valid()
    modifies app, app.slides, tracker
    ensures app.Valid()
    ensures !old(tracker.Armed()) ==>
              unchanged(tracker) && app.currentSlide == old(app.currentSlide) &&
              app.controls == old(app.controls) && app.charts == old(app.charts) && unchanged(app.slides)
    ensures old(tracker.Armed()) ==>
              tracker.startX == None && tracker.startY == None && !tracker.isTouch
    ensures old(tracker.Armed()) ==>
              var cmd := SwipeCommand(old(tracker.startX).value, old(tracker.startY).value, endX, endY);
              if cmd.Some? then
                app.currentSlide == Apply(old(app.currentSlide), cmd.value) &&
                app.Transitioned(Target(old(app.currentSlide), cmd.value), attempt)
              else
                app.currentSlide == old(app.currentSlide) && app.controls == old(app.controls) &&
                app.charts == old(app.charts) && unchanged(app.slides)
    ensures old(app.ShowsCurrent()) ==> app.ShowsCurrent()
  {
    var cmd := tracker.TouchEnd(endX, endY);
    if cmd.Some? {
      app.Perform(cmd.value, attempt);
    }
  }

  /**
   * A walk through the deck: forward once, to slide 8 (building the
   * start-up costs chart), to slide 8 again (building nothing), then back
   * seven times to slide 1 with prev and first disabled.
   */
  method Walkthrough(h: Handle, other: Handle)
  {
    var flags := new bool[TotalSlides](i => i == 0);
    var page := Controls(Some(0), Some(0), Some(false), Some(false), Some(false), Some(false));
    var app := new PresentationApp(flags, page, {MarketGrowth, RevenueDistribution, StartupCosts});
    assert app.ShowsCurrent();

    app.NextSlide(None);
    assert app.currentSlide == 2 && !flags[0] && flags[1];
    assert app.controls.currentPage == Some(2);

    app.GoToSlide(8, Some(h));
    assert app.currentSlide == 8 && app.charts == map[StartupCosts := h];

    app.GoToSlide(8, Some(other));
    assert app.charts == map[StartupCosts := h];

    var k := 0;
    while k < 7
      invariant 0 <= k <= 7
      invariant app.Valid() && app.ShowsCurrent() && app.slides == flags
      invariant app.currentSlide == 8 - k
      invariant app.controls.prev.Some? && app.controls.first.Some?
      invariant app.charts == map[StartupCosts := h]
      modifies app, flags
    {
      app.PrevSlide(None);
      k := k + 1;
    }
    assert app.currentSlide == 1;
    assert app.controls.prev == Some(true) && app.controls.first == Some(true);
    SoleActive(flags[..], 0);
    assert CountActive(flags[..]) == 1;

    assert app.charts.Keys == {StartupCosts};
    var resized, failed := app.HandleResize({StartupCosts});
    assert resized == {} && failed == {StartupCosts};
    var destroyed, failedOnce := app.DestroyCharts({});
    assert destroyed == {StartupCosts};
    destroyed, failedOnce := app.DestroyCharts({});
    assert destroyed == {} && app.charts == map[];
  }
}
