/**
 * The `active` class of the slide elements, as a sequence of flags: index
 * `i` holds the flag of slide `i + 1`.
 */
module Slides {

  /** Every slide element present is active exactly when it is slide `cur`. */
  ghost predicate OnlyActive(flags: seq<bool>, cur: int)
  {
    forall i :: 0 <= i < |flags| ==> (flags[i] <==> i == cur - 1)
  }

  /**
   * The flags after slide `slide` gains (`on`) or loses `active`; a slide
   * number with no element behind it changes nothing.
   */
  function SetFlag(flags: seq<bool>, slide: int, on: bool): (r: seq<bool>)
    ensures |r| == |flags|
    ensures 1 <= slide <= |flags| ==> r[slide - 1] == on
    ensures forall i :: 0 <= i < |flags| && i != slide - 1 ==> r[i] == flags[i]
  {
    if 1 <= slide <= |flags| then flags[slide - 1 := on] else flags
  }

  /**
   * The flags after `goToSlide` moves from slide `from` to slide `to`: the
   * old slide loses `active`, then the new one gains it.
   */
  function Switch(flags: seq<bool>, from: int, to: int): (r: seq<bool>)
    ensures |r| == |flags|
    ensures 1 <= from <= |flags| && from != to ==> !r[from - 1]
    ensures 1 <= to <= |flags| ==> r[to - 1]
    ensures forall i :: 0 <= i < |flags| && i != from - 1 && i != to - 1 ==> r[i] == flags[i]
  {
    SetFlag(SetFlag(flags, from, false), to, true)
  }

  /** If only the old slide was active, only the new one is afterwards. */
  lemma SwitchKeepsOnlyActive(flags: seq<bool>, from: int, to: int)
    requires from != to
    requires OnlyActive(flags, from)
    ensures OnlyActive(Switch(flags, from, to), to)
  {
  }

  /** The number of active slides. */
  function CountActive(flags: seq<bool>): nat
  {
    if flags == [] then 0 else (if flags[0] then 1 else 0) + CountActive(flags[1..])
  }

  /** No slide is active exactly when the count is zero. */
  lemma {:induction false} NoneActive(flags: seq<bool>)
    ensures CountActive(flags) == 0 <==> forall i :: 0 <= i < |flags| ==> !flags[i]
  {
    if flags != [] {
      NoneActive(flags[1..]);
      assert forall i :: 1 <= i < |flags| ==> flags[i] == flags[1..][i - 1];
    }
  }

  /** Slide `k + 1` is the only active one exactly when it is active and the count is one. */
  lemma {:induction false} SoleActive(flags: seq<bool>, k: int)
    requires 0 <= k < |flags|
    ensures OnlyActive(flags, k + 1) <==> flags[k] && CountActive(flags) == 1
  {
    var rest := flags[1..];
    assert forall i :: 1 <= i < |flags| ==> flags[i] == rest[i - 1];
    if k == 0 {
      NoneActive(rest);
    } else {
      SoleActive(rest, k - 1);
      NoneActive(rest);
    }
  }
}
