/**
 * The page indicator (`#currentPage`, `#totalPages`) and the four navigation
 * buttons (`#prevSlide`, `#firstSlide`, `#nextSlide`, `#lastSlide`). Each is
 * looked up by id and may be absent from the page: `None` stands for a missing
 * element, `Some(v)` for the number an indicator shows or a button's
 * `disabled` flag.
 */
module PageControls {
  import opened Wrappers
  import opened Navigation

  datatype Controls = Controls(
    currentPage: Option<int>,
    totalPages: Option<int>,
    prev: Option<bool>,
    first: Option<bool>,
    next: Option<bool>,
    last: Option<bool>)

  /** The same elements are present in both. */
  predicate SamePresence(c: Controls, d: Controls)
  {
    && c.currentPage.Some? == d.currentPage.Some?
    && c.totalPages.Some? == d.totalPages.Some?
    && c.prev.Some? == d.prev.Some?
    && c.first.Some? == d.first.Some?
    && c.next.Some? == d.next.Some?
    && c.last.Some? == d.last.Some?
  }

  /** Every indicator present shows slide `cur` of 14. */
  predicate ShowsPage(c: Controls, cur: int)
  {
    && (c.currentPage.Some? ==> c.currentPage.value == cur)
    && (c.totalPages.Some? ==> c.totalPages.value == TotalSlides)
  }

  /** prev and first are disabled exactly on the first slide, next and last exactly on the last. */
  predicate ButtonsMatch(c: Controls, cur: int)
  {
    && (c.prev.Some? ==> (c.prev.value <==> cur == 1))
    && (c.first.Some? ==> (c.first.value <==> cur == 1))
    && (c.next.Some? ==> (c.next.value <==> cur == TotalSlides))
    && (c.last.Some? ==> (c.last.value <==> cur == TotalSlides))
  }

  /** `updatePageIndicator`: write the slide number and the total into the indicators present. */
  function Indicator(c: Controls, cur: int): (r: Controls)
    ensures SamePresence(c, r) && ShowsPage(r, cur)
    ensures r.prev == c.prev && r.first == c.first && r.next == c.next && r.last == c.last
  {
    c.(currentPage := if c.currentPage.Some? then Some(cur) else None,
       totalPages := if c.totalPages.Some? then Some(TotalSlides) else None)
  }

  /** `updateNavigationButtons`: set the `disabled` flag of each button present. */
  function Buttons(c: Controls, cur: int): (r: Controls)
    ensures SamePresence(c, r) && ButtonsMatch(r, cur)
    ensures r.currentPage == c.currentPage && r.totalPages == c.totalPages
  {
    c.(prev := if c.prev.Some? then Some(cur == 1) else None,
       first := if c.first.Some? then Some(cur == 1) else None,
       next := if c.next.Some? then Some(cur == TotalSlides) else None,
       last := if c.last.Some? then Some(cur == TotalSlides) else None)
  }

  /** Both updates, in the order `goToSlide` runs them. */
  function Refresh(c: Controls, cur: int): (r: Controls)
    ensures SamePresence(c, r) && ShowsPage(r, cur) && ButtonsMatch(r, cur)
  {
    Buttons(Indicator(c, cur), cur)
  }

  /** A refresh is fully determined by the elements present: refreshing twice is refreshing once. */
  lemma RefreshDeterminedByPresence(c: Controls, d: Controls, cur: int)
    requires SamePresence(c, d)
    ensures Refresh(c, cur) == Refresh(d, cur) == Refresh(Refresh(c, cur), cur)
  {
  }

  /**
   * What the buttons report at the boundaries: on slide 1 prev and first are
   * disabled and next and last enabled, on slide 14 the reverse, and on any
   * slide in between all four are enabled.
   */
  lemma BoundaryButtons(c: Controls, cur: int)
    requires 1 <= cur <= TotalSlides && ButtonsMatch(c, cur)
    ensures cur == 1 ==>
              c.prev != Some(false) && c.first != Some(false) &&
              c.next != Some(true) && c.last != Some(true)
    ensures cur == TotalSlides ==>
              c.prev != Some(true) && c.first != Some(true) &&
              c.next != Some(false) && c.last != Some(false)
    ensures 1 < cur < TotalSlides ==>
              c.prev != Some(true) && c.first != Some(true) &&
              c.next != Some(true) && c.last != Some(true)
  {
  }
}
