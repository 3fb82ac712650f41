/**
 * The two input rules of the page: the keydown mapping and the horizontal
 * swipe recognised between `touchstart` and `touchend`.
 */
module Input {
  import opened Wrappers
  import opened Navigation

  /** The keydown switch: which navigation, if any, a key stands for. */
  function KeyCommand(key: string): (r: Option<Command>)
    ensures r == Some(Next) <==> key == "ArrowRight" || key == " "
    ensures r == Some(Prev) <==> key == "ArrowLeft"
    ensures r == Some(GoTo(1)) <==> key == "Home"
    ensures r == Some(GoTo(TotalSlides)) <==> key == "End"
    ensures r == None <==> key !in {"ArrowRight", " ", "ArrowLeft", "Home", "End"}
  {
    match key
    case "ArrowRight" => Some(Next)
    case " " => Some(Next)
    case "ArrowLeft" => Some(Prev)
    case "Home" => Some(GoTo(1))
    case "End" => Some(GoTo(TotalSlides))
    case _ => None
  }

  function Abs(x: int): nat
  {
    if x < 0 then -x else x
  }

  /**
   * The swipe rule of `touchend`: with `dx = startX - endX` and
   * `dy = startY - endY`, a gesture navigates only when `|dx| > |dy|` and
   * `|dx| > 50`; a leftward swipe (`dx > 0`) goes forward, any other back.
   */
  function SwipeCommand(startX: int, startY: int, endX: int, endY: int): (r: Option<Command>)
    ensures r == Some(Next) <==> startX - endX > 50 && startX - endX > Abs(startY - endY)
    ensures r == Some(Prev) <==> endX - startX > 50 && endX - startX > Abs(startY - endY)
    ensures r == None || r == Some(Next) || r == Some(Prev)
  {
    var dx, dy := startX - endX, startY - endY;
    if Abs(dx) > Abs(dy) && Abs(dx) > 50 then
      (if dx > 0 then Some(Next) else Some(Prev))
    else None
  }

  /** JavaScript truthiness of a stored coordinate: `null` and `0` are both falsy. */
  predicate Truthy(coord: Option<int>)
  {
    coord.Some? && coord.value != 0
  }

  /** The closure variables `startX`, `startY` and `isTouch` of the touch handlers. */
  class SwipeTracker {
    var startX: Option<int>
    var startY: Option<int>
    var isTouch: bool

    /** The guard `!startX || !startY || !isTouch` at the top of `touchend`, negated. */
    predicate Armed()
      reads this
    {
      Truthy(startX) && Truthy(startY) && isTouch
    }

    constructor ()
      ensures startX == None && startY == None && !isTouch
      ensures !Armed()
    {
      startX, startY, isTouch := None, None, false;
    }

    /** `touchstart`: remember where the first touch began. */
    method TouchStart(x: int, y: int)
      modifies this
      ensures startX == Some(x) && startY == Some(y) && isTouch
      ensures Armed() <==> x != 0 && y != 0
    {
      isTouch := true;
      startX := Some(x);
      startY := Some(y);
    }

    /**
     * `touchend`: when not armed, return at once and change nothing;
     * otherwise classify the gesture and reset the start state, whether or
     * not the gesture was a swipe.
     */
    method TouchEnd(endX: int, endY: int) returns (cmd: Option<Command>)
      modifies this
      ensures !old(Armed()) ==> cmd == None && unchanged(this)
      ensures old(Armed()) ==>
                cmd == SwipeCommand(old(startX).value, old(startY).value, endX, endY) &&
                startX == None && startY == None && !isTouch
    {
      if !Armed() {
        return None;
      }
      cmd := SwipeCommand(startX.value, startY.value, endX, endY);
      startX := None;
      startY := None;
      isTouch := false;
    }
  }
}
