/**
 * The playlist list (js/renderer.js, renderPlaylist and updatePlaylistActiveState): one item
 * per filtered-view entry, marked active when it is the current track and showing the
 * playing indicator when it is active and the widget is playing. Markup is not modelled.
 */
module PlaylistView {
  import Navigation

  /** A rendered song item: its registry position and its two flags. */
  datatype Item = Item(originalIndex: nat, active: bool, playing: bool)

  /** The flag rule for the item of registry position `originalIndex`. */
  function Flags(originalIndex: nat, current: nat, isPlaying: bool): (it: Item)
    ensures it.originalIndex == originalIndex
    ensures it.active <==> originalIndex == current
    ensures it.playing <==> originalIndex == current && isPlaying
  {
    var isActive := originalIndex == current;
    Item(originalIndex, isActive, isActive && isPlaying)
  }

  /** Every item's flags agree with the session's current index and playing state. */
  ghost predicate Reflects(items: seq<Item>, current: nat, isPlaying: bool) {
    forall i :: 0 <= i < |items| ==> items[i] == Flags(items[i].originalIndex, current, isPlaying)
  }

  /** The items list the view in its order; an empty view shows the "no results" notice instead. */
  method RenderPlaylist(view: seq<nat>, current: nat, isPlaying: bool) returns (items: seq<Item>, emptyNotice: bool)
    ensures emptyNotice <==> view == []
    ensures |items| == |view|
    ensures forall i :: 0 <= i < |items| ==> items[i].originalIndex == view[i]
    ensures Reflects(items, current, isPlaying)
  {
    if |view| == 0 {
      return [], true;
    }
    emptyNotice := false;
    items := [];
    for i := 0 to |view|
      invariant |items| == i
      invariant forall j :: 0 <= j < i ==> items[j] == Flags(view[j], current, isPlaying)
    {
      items := items + [Flags(view[i], current, isPlaying)];
    }
  }

  /** Re-marks already rendered items for a new current index or playing state. */
  method UpdatePlaylistActiveState(items: seq<Item>, current: nat, isPlaying: bool) returns (updated: seq<Item>)
    ensures |updated| == |items|
    ensures forall i :: 0 <= i < |updated| ==> updated[i].originalIndex == items[i].originalIndex
    ensures Reflects(updated, current, isPlaying)
  {
    updated := [];
    for i := 0 to |items|
      invariant |updated| == i
      invariant forall j :: 0 <= j < i ==> updated[j] == Flags(items[j].originalIndex, current, isPlaying)
    {
      updated := updated + [Flags(items[i].originalIndex, current, isPlaying)];
    }
  }

  /** With distinct registry positions in the view, at most one item is active. */
  lemma AtMostOneActive(items: seq<Item>, view: seq<nat>, current: nat, isPlaying: bool)
    requires Navigation.Distinct(view) && |items| == |view|
    requires forall i :: 0 <= i < |items| ==> items[i].originalIndex == view[i]
    requires Reflects(items, current, isPlaying)
    ensures forall i, j :: 0 <= i < |items| && 0 <= j < |items| && items[i].active && items[j].active ==> i == j
  {
    forall i, j | 0 <= i < |items| && 0 <= j < |items| && items[i].active && items[j].active
      ensures i == j
    {
      assert view[i] == current == view[j];
    }
  }

  /** Some item is active exactly when the current track is in the view; a playing item is always the active one. */
  lemma ActiveIffShown(items: seq<Item>, view: seq<nat>, current: nat, isPlaying: bool)
    requires |items| == |view|
    requires forall i :: 0 <= i < |items| ==> items[i].originalIndex == view[i]
    requires Reflects(items, current, isPlaying)
    ensures (exists i :: 0 <= i < |items| && items[i].active) <==> current in view
    ensures forall i :: 0 <= i < |items| && items[i].playing ==> items[i].active && isPlaying
  {
    if current in view {
      var k :| 0 <= k < |view| && view[k] == current;
      assert items[k].active;
    }
  }
}
