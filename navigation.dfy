/**
 * The slide-index state machine of the presentation controller, as pure
 * functions: where `nextSlide`, `prevSlide` and `goToSlide` take the current
 * slide number, and where any sequence of them leads.
 */
module Navigation {

  /** `this.totalSlides`: the deck has 14 slides, numbered from 1. */
  const TotalSlides: int := 14

  /** A navigation request, as the keyboard, the buttons and swipes issue them. */
  datatype Command = Next | Prev | GoTo(target: int)

  /** The guard of `goToSlide`: the target is a slide and not the current one. */
  predicate Moves(from: int, to: int)
  {
    1 <= to <= TotalSlides && to != from
  }

  /** The slide number that a command hands to `goToSlide`. */
  function Target(cur: int, cmd: Command): int
  {
    match cmd
    case Next => cur + 1
    case Prev => cur - 1
    case GoTo(n) => n
  }

  /** The current slide after one command. */
  function Apply(cur: int, cmd: Command): (r: int)
    ensures 1 <= cur <= TotalSlides ==> 1 <= r <= TotalSlides
    ensures cmd == Next && 1 <= cur <= TotalSlides ==>
              r == (if cur < TotalSlides then cur + 1 else cur)
    ensures cmd == Prev && 1 <= cur <= TotalSlides ==>
              r == (if cur > 1 then cur - 1 else cur)
    ensures cmd.GoTo? && 1 <= cur <= TotalSlides ==>
              (r == cmd.target <==> 1 <= cmd.target <= TotalSlides) &&
              (r != cmd.target ==> r == cur)
  {
    var n := Target(cur, cmd);
    if Moves(cur, n) then n else cur
  }

  /** The current slide after a sequence of commands, processed one at a time. */
  function Run(cur: int, cmds: seq<Command>): int
    decreases |cmds|
  {
    if cmds == [] then cur else Run(Apply(cur, cmds[0]), cmds[1..])
  }

  /** No sequence of commands leads out of 1..14. */
  lemma {:induction false} RunStaysInRange(cur: int, cmds: seq<Command>)
    requires 1 <= cur <= TotalSlides
    ensures 1 <= Run(cur, cmds) <= TotalSlides
    decreases |cmds|
  {
    if cmds != [] {
      RunStaysInRange(Apply(cur, cmds[0]), cmds[1..]);
    }
  }

  /** `k` steps forward end at slide `cur + k`, or stop at the last slide. */
  lemma {:induction false} RepeatedNext(cur: int, k: nat)
    requires 1 <= cur <= TotalSlides
    ensures Run(cur, seq(k, _ => Next)) == if cur + k <= TotalSlides then cur + k else TotalSlides
    decreases k
  {
    if k > 0 {
      var cmds := seq(k, _ => Next);
      assert cmds[0] == Next && cmds[1..] == seq(k - 1, _ => Next);
      RepeatedNext(Apply(cur, Next), k - 1);
    }
  }

  /** `k` steps back end at slide `cur - k`, or stop at the first slide. */
  lemma {:induction false} RepeatedPrev(cur: int, k: nat)
    requires 1 <= cur <= TotalSlides
    ensures Run(cur, seq(k, _ => Prev)) == if cur - k >= 1 then cur - k else 1
    decreases k
  {
    if k > 0 {
      var cmds := seq(k, _ => Prev);
      assert cmds[0] == Prev && cmds[1..] == seq(k - 1, _ => Prev);
      RepeatedPrev(Apply(cur, Prev), k - 1);
    }
  }
}
