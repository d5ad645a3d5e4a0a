/**
 * The age tabs (js/renderer.js, renderAgeTabs): which tab is marked active, and which age
 * becomes the current one. The profile keys are given in their `Object.keys` order.
 */
module AgeTabs {
  import Player

  /** No key occurs twice. */
  predicate DistinctKeys(ages: seq<string>) {
    forall i, j :: 0 <= i < j < |ages| ==> ages[i] != ages[j]
  }

  /**
   * The current age after the tabs are rendered. "" stands for a falsy current age. With no
   * keys nothing changes; with one key it is that key; otherwise an empty or unknown age is
   * replaced by the first key.
   */
  function SelectAge(ages: seq<string>, current: string): (r: string)
    ensures ages == [] ==> r == current
    ensures ages != [] ==> r in ages
    ensures |ages| == 1 ==> r == ages[0]
    ensures |ages| >= 2 && current != "" && current in ages ==> r == current
    ensures |ages| >= 2 && (current == "" || current !in ages) ==> r == ages[0]
  {
    if |ages| == 0 then current
    else if |ages| == 1 then ages[0]
    else if current == "" || current !in ages then ages[0]
    else current
  }

  /** The tab of key `i` is marked active when its key is the current age, or it is the first tab and no age is set. */
  predicate TabActive(ages: seq<string>, i: nat, current: string)
    requires i < |ages|
    ensures TabActive(ages, i, current) && current != "" ==> ages[i] == current
    ensures current == "" && ages[i] != "" ==> (TabActive(ages, i, current) <==> i == 0)
  {
    ages[i] == current || (i == 0 && current == "")
  }

  /** With distinct non-empty keys at most one tab is marked active. */
  lemma AtMostOneTab(ages: seq<string>, current: string)
    requires DistinctKeys(ages) && "" !in ages
    ensures forall i, j :: 0 <= i < |ages| && 0 <= j < |ages| && TabActive(ages, i, current) && TabActive(ages, j, current) ==> i == j
  {
  }

  /**
   * The tabs are marked from the age held before the selection: for a known age the marked
   * tab is the selected one, while an unknown non-empty age marks no tab at all although the
   * first key is then selected.
   */
  lemma TabsVersusSelection(ages: seq<string>, current: string)
    requires |ages| >= 2 && "" !in ages
    ensures current in ages ==> forall i :: 0 <= i < |ages| ==> (TabActive(ages, i, current) <==> ages[i] == SelectAge(ages, current))
    ensures current != "" && current !in ages ==>
              (forall i :: 0 <= i < |ages| ==> !TabActive(ages, i, current)) && SelectAge(ages, current) == ages[0]
  {
    if current in ages {
      assert current != "";
    }
  }

  /**
   * Renders the tabs (when the container is mounted and there are at least two keys) and
   * updates the shared current age. `tabs` holds each tab's active mark.
   */
  method RenderAgeTabs(st: Player.State, mounted: bool, ages: seq<string>) returns (tabs: seq<bool>)
    modifies st`currentAge
    ensures st.currentAge == if mounted then SelectAge(ages, old(st.currentAge)) else old(st.currentAge)
    ensures |tabs| == (if mounted && |ages| >= 2 then |ages| else 0)
    ensures forall i :: 0 <= i < |tabs| ==> (tabs[i] <==> TabActive(ages, i, old(st.currentAge)))
  {
    tabs := [];
    if !mounted || |ages| == 0 {
      return;
    }
    if |ages| == 1 {
      st.currentAge := ages[0];
      return;
    }
    var current := st.currentAge;
    tabs := seq(|ages|, i requires 0 <= i < |ages| => TabActive(ages, i, current));
    if current == "" || current !in ages {
      st.currentAge := ages[0];
    }
  }
}
