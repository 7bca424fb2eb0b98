/**
 * The servings line of `metadata` (lib.rs:128-158): the recipe's servings
 * alternatives joined by "|", the one the recipe is scaled to in brackets;
 * when it was scaled to a number of servings that is not one of them, the
 * list (struck through) is followed by an arrow and the target. The
 * "servings: " key in front of it (lib.rs:95-96, 157) is not modelled.
 */
module Servings {
  import opened Options
  import opened Strings

  /** What scaling recorded: the position of the target among the alternatives, if it is one, and the target. */
  datatype ScaledData = ScaledData(targetIndex: Option<nat>, targetServings: string)

  /**
   * The alternative to highlight: the scaling target's position, or the
   * first alternative when the recipe is at its default scale.
   */
  function SelectedIndex(scaled: Option<ScaledData>, defaultScaled: bool): (k: Option<nat>)
    ensures scaled.Some? && scaled.value.targetIndex.Some? ==> k == scaled.value.targetIndex
    ensures (scaled.None? || scaled.value.targetIndex.None?) ==> (k.Some? <==> defaultScaled)
    ensures k.Some? && k != Some(0) ==> scaled.Some? && k == scaled.value.targetIndex
  {
    if scaled.Some? && scaled.value.targetIndex.Some? then scaled.value.targetIndex
    else if defaultScaled then Some(0)
    else None
  }

  /** The alternatives with the selected one in brackets. */
  function Marked(servings: seq<string>, index: Option<nat>): seq<string>
  {
    seq(|servings|, i requires 0 <= i < |servings| => if index == Some(i) then "[" + servings[i] + "]" else servings[i])
  }

  /** The value of the servings line. */
  function ServingsText(servings: seq<string>, scaled: Option<ScaledData>, defaultScaled: bool): (r: string)
    ensures |servings| == 0 && (scaled.None? || scaled.value.targetIndex.Some?) ==> r == ""
    ensures scaled.Some? && scaled.value.targetIndex.None? ==>
      var tail := " \U{2192} " + scaled.value.targetServings;
      |tail| <= |r| && r[|r| - |tail|..] == tail
  {
    var text := Join("|", Marked(servings, SelectedIndex(scaled, defaultScaled)));
    if scaled.Some? && scaled.value.targetIndex.None? then text + " \U{2192} " + scaled.value.targetServings
    else text
  }

  predicate NoBar(s: string)
  {
    forall j :: 0 <= j < |s| ==> s[j] != '|'
  }

  /**
   * When the target is one of the alternatives (or there is no scaling),
   * the value splits back on "|" into one field per alternative, in order,
   * the selected one bracketed and every other one as it was.
   */
  lemma ServingsFields(servings: seq<string>, scaled: Option<ScaledData>, defaultScaled: bool)
    requires |servings| > 0 && forall i :: 0 <= i < |servings| ==> NoBar(servings[i])
    requires scaled.None? || scaled.value.targetIndex.Some?
    ensures var fields := SplitOn(ServingsText(servings, scaled, defaultScaled), '|');
      |fields| == |servings|
      && forall i :: 0 <= i < |fields| ==>
           fields[i] == if SelectedIndex(scaled, defaultScaled) == Some(i) then "[" + servings[i] + "]" else servings[i]
  {
    var m := Marked(servings, SelectedIndex(scaled, defaultScaled));
    forall k, j | 0 <= k < |m| && 0 <= j < |m[k]|
      ensures m[k][j] != '|'
    {
      if m[k] != servings[k] {
        assert m[k] == "[" + servings[k] + "]";
        if 0 < j < |m[k]| - 1 {
          assert m[k][j] == servings[k][j - 1];
        }
      }
    }
    SplitOnJoin(m, '|');
  }

  /**
   * A target that is not among the alternatives: the list reads as it would
   * without scaling, then an arrow and the target.
   */
  lemma UnmatchedTarget(servings: seq<string>, scaled: Option<ScaledData>, defaultScaled: bool)
    requires scaled.Some? && scaled.value.targetIndex.None?
    ensures ServingsText(servings, scaled, defaultScaled)
            == ServingsText(servings, None, defaultScaled) + " \U{2192} " + scaled.value.targetServings
  {
  }
}
