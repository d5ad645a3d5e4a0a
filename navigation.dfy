/**
 * Stepping through the filtered view (js/player.js, playNext / playPrev / playShuffle).
 *
 * The filtered view is a sequence of distinct registry positions. The current track is a
 * registry position; its place in the view is found afresh on every step, and is -1 when the
 * track has been filtered out.
 */
module Navigation {

  /** No registry position occurs twice in the view. */
  predicate Distinct(view: seq<nat>) {
    forall i, j :: 0 <= i < j < |view| ==> view[i] != view[j]
  }

  /** `findIndex`: the first view position holding `current`, or -1 when there is none. */
  function FindPos(view: seq<nat>, current: nat): (k: int)
    ensures -1 <= k < |view|
    ensures k == -1 <==> current !in view
    ensures 0 <= k ==> view[k] == current && forall j :: 0 <= j < k ==> view[j] != current
  {
    if view == [] then -1
    else if view[0] == current then 0
    else
      var k := FindPos(view[1..], current);
      if k == -1 then -1 else k + 1
  }

  /** JavaScript's `%`, which truncates toward zero (the sign follows the dividend). */
  function JsRem(a: int, n: int): (r: int)
    requires n > 0
    ensures a >= 0 ==> r == a % n
    ensures -n < r < n
  {
    if a >= 0 then a % n else -((-a) % n)
  }

  /** `(currentInFiltered + 1) % length`. */
  function NextPos(k: int, len: nat): (r: nat)
    requires len > 0 && -1 <= k < len
    ensures r < len
    ensures r == if k == len - 1 then 0 else k + 1
  {
    ModOneWrap(k + 1, len);
    JsRem(k + 1, len)
  }

  /**
   * `(currentInFiltered - 1 + length) % length`. For an absent track (k = -1) this is
   * position len - 2, and 0 for a one-entry view (JavaScript gives -0 there).
   */
  function PrevPos(k: int, len: nat): (r: nat)
    requires len > 0 && -1 <= k < len
    ensures r < len
    ensures 0 < k ==> r == k - 1
    ensures k == 0 ==> r == len - 1
    ensures k == -1 ==> r == if len >= 2 then len - 2 else 0
  {
    var a := k - 1 + len;
    if a < 0 then
      assert k == -1 && len == 1;
      JsRem(a, len)
    else
      ModOneWrap(a, len);
      JsRem(a, len)
  }

  /** For 0 <= a < 2n, `a % n` is a, or a - n once a reaches n. */
  lemma ModOneWrap(a: int, n: int)
    requires n > 0 && 0 <= a < 2 * n
    ensures a % n == if a < n then a else a - n
  {
    if a >= n {
      var q := a / n;
      assert n * q + a % n == a && 0 <= a % n < n;
      assert n * (q - 1) + a % n == a - n;
      ModOfRemainder(a - n, n, q - 1, a % n);
    } else {
      ModOfRemainder(a, n, a / n, a % n);
    }
  }

  /** A value below n is its own remainder, whatever quotient the decomposition uses. */
  lemma ModOfRemainder(a: int, n: int, q: int, m: int)
    requires n > 0 && 0 <= a < n && 0 <= m < n && a == n * q + m
    ensures q == 0 && m == a
  {
  }

  /** The registry position `playNext` plays. */
  function NextIndex(view: seq<nat>, current: nat): (r: nat)
    requires view != []
    ensures r in view
    ensures current !in view ==> r == view[0]
  {
    view[NextPos(FindPos(view, current), |view|)]
  }

  /** The registry position `playPrev` plays. */
  function PrevIndex(view: seq<nat>, current: nat): (r: nat)
    requires view != []
    ensures r in view
    ensures current !in view ==> r == view[if |view| >= 2 then |view| - 2 else 0]
  {
    view[PrevPos(FindPos(view, current), |view|)]
  }

  /** The registry position `playShuffle` plays for a drawn view position. */
  function ShuffleIndex(view: seq<nat>, position: nat): (r: nat)
    requires position < |view|
    ensures r in view
  {
    view[position]
  }

  /** In a view without repeats, the position of an entry is where it stands. */
  lemma FindPosOfEntry(view: seq<nat>, j: nat)
    requires Distinct(view) && j < |view|
    ensures FindPos(view, view[j]) == j
  {
  }

  /** Stepping forward from the track at view position j lands on the following position, wrapping. */
  lemma NextFrom(view: seq<nat>, j: nat)
    requires Distinct(view) && j < |view|
    ensures NextIndex(view, view[j]) == view[if j == |view| - 1 then 0 else j + 1]
  {
    FindPosOfEntry(view, j);
  }

  /** Going back after going forward returns to the track the session started on. */
  lemma PrevUndoesNext(view: seq<nat>, current: nat)
    requires Distinct(view) && current in view
    ensures PrevIndex(view, NextIndex(view, current)) == current
  {
    var j := FindPos(view, current);
    var n := NextPos(j, |view|);
    FindPosOfEntry(view, n);
  }

  /** Going forward after going back returns to the track the session started on. */
  lemma NextUndoesPrev(view: seq<nat>, current: nat)
    requires Distinct(view) && current in view
    ensures NextIndex(view, PrevIndex(view, current)) == current
  {
    var j := FindPos(view, current);
    var p := PrevPos(j, |view|);
    FindPosOfEntry(view, p);
  }

  /** `playNext` applied `steps` times, with the view unchanged. */
  function NextTimes(view: seq<nat>, current: nat, steps: nat): nat
    requires view != []
  {
    if steps == 0 then current else NextIndex(view, NextTimes(view, current, steps - 1))
  }

  /** Position p of a cycle of length n, for p below 2n: p itself, or p - n once it reaches n. */
  function Wrap(p: nat, n: nat): (r: nat)
    requires p < 2 * n
    ensures r < n
  {
    if p < n then p else p - n
  }

  /** One step past a wrapped position is the wrapped next position. */
  lemma WrapStep(p: nat, n: nat)
    requires p + 1 < 2 * n
    ensures (if Wrap(p, n) == n - 1 then 0 else Wrap(p, n) + 1) == Wrap(p + 1, n)
  {
  }

  /** After `steps` forward steps (at most one lap) from view position j, the session is `steps` positions on, wrapping once. */
  lemma {:induction false} NextTimesAt(view: seq<nat>, j: nat, steps: nat)
    requires Distinct(view) && j < |view| && steps <= |view|
    ensures NextTimes(view, view[j], steps) == view[Wrap(j + steps, |view|)]
  {
    if steps > 0 {
      NextTimesAt(view, j, steps - 1);
      var i := Wrap(j + steps - 1, |view|);
      WrapStep(j + steps - 1, |view|);
      NextFrom(view, i);
    }
  }

  /** Cycling: |view| forward steps from a track in the view come back to it. */
  lemma NextCycle(view: seq<nat>, current: nat)
    requires Distinct(view) && current in view
    ensures NextTimes(view, current, |view|) == current
  {
    NextTimesAt(view, FindPos(view, current), |view|);
  }

  /** Registry [A, B, C] unfiltered, starting at A: next gives B, C, then wraps to A. */
  lemma UnfilteredScenario()
    ensures NextIndex([0, 1, 2], 0) == 1
    ensures NextIndex([0, 1, 2], 1) == 2
    ensures NextIndex([0, 1, 2], 2) == 0
  {
    assert FindPos([0, 1, 2], 1) == 1 by { FindPosOfEntry([0, 1, 2], 1); }
    assert FindPos([0, 1, 2], 2) == 2 by { FindPosOfEntry([0, 1, 2], 2); }
  }

  /** With B filtered out the view is [A, C]; next from A skips B and plays C. */
  lemma FilteredScenario()
    ensures NextIndex([0, 2], 0) == 2
  {
  }
}
