/**
 * Per-step ingredient deduplication (`build_step_igrs_dedup`,
 * lib.rs:452-481) and subscript numbering (`write_igr_count`,
 * lib.rs:483-500).
 *
 * The ingredient indices of one step are grouped by ingredient name in the
 * order they appear; each group then keeps only the occurrences that carry
 * information (a quantity, or a reference to an earlier step or section),
 * falling back to its first occurrence when none does. An occurrence is
 * numbered by its position in the group that remains.
 */
module IngredientGroups {
  import opened Options
  import opened Strings
  import opened Decimal
  import opened Recipe
  import opened Subscripts

  type Groups = map<string, seq<nat>>

  /** The names of the ingredients the step's items mention. */
  function StepNames(r: Recipe, items: seq<Item>): (names: set<string>)
    requires IngredientsInRange(r, items)
    ensures forall k :: 0 <= k < |items| && items[k].IngredientRef? ==>
              r.ingredients[items[k].index].name in names
  {
    if |items| == 0 then {}
    else
      var init := StepNames(r, items[..|items| - 1]);
      match items[|items| - 1]
      case IngredientRef(i) => init + {r.ingredients[i].name}
      case _ => init
  }

  /**
   * The group of `name` before filtering: the indices of the step's
   * ingredient items with that name, in item order.
   */
  function Occurrences(r: Recipe, items: seq<Item>, name: string): (g: seq<nat>)
    requires IngredientsInRange(r, items)
    ensures |g| > 0 <==> name in StepNames(r, items)
    ensures forall j :: 0 <= j < |g| ==> g[j] < |r.ingredients| && r.ingredients[g[j]].name == name
  {
    if |items| == 0 then []
    else
      var init := Occurrences(r, items[..|items| - 1], name);
      match items[|items| - 1]
      case IngredientRef(i) => if r.ingredients[i].name == name then init + [i] else init
      case _ => init
  }

  /** An item mentions the ingredient at index `i`, which is named `name`. */
  predicate MentionsAt(r: Recipe, items: seq<Item>, k: int, i: nat, name: string)
    requires IngredientsInRange(r, items)
  {
    0 <= k < |items| && items[k] == IngredientRef(i) && r.ingredients[i].name == name
  }

  /** An index is in the group of `name` exactly when some item of the step mentions it under that name. */
  lemma {:induction false} OccurrencesMembers(r: Recipe, items: seq<Item>, name: string, i: nat)
    requires IngredientsInRange(r, items)
    ensures i in Occurrences(r, items, name) <==> exists k :: MentionsAt(r, items, k, i, name)
  {
    if |items| > 0 {
      var init := items[..|items| - 1];
      OccurrencesMembers(r, init, name, i);
      if exists k :: MentionsAt(r, items, k, i, name) {
        var k :| MentionsAt(r, items, k, i, name);
        if k < |items| - 1 {
          assert MentionsAt(r, init, k, i, name);
        }
      }
      if exists k :: MentionsAt(r, init, k, i, name) {
        var k :| MentionsAt(r, init, k, i, name);
        assert MentionsAt(r, items, k, i, name);
      }
      if i in Occurrences(r, items, name) && i !in Occurrences(r, init, name) {
        assert MentionsAt(r, items, |items| - 1, i, name);
      }
    }
  }

  /** An occurrence worth a legend entry of its own. */
  predicate Informative(ing: Ingredient)
  {
    ing.quantity.Some? || IsIntermediateReference(ing.relation)
  }

  predicate InRange(r: Recipe, g: seq<nat>)
  {
    forall j :: 0 <= j < |g| ==> g[j] < |r.ingredients|
  }

  /** `group.retain(...)`: the informative members of a group, in order. */
  function Informatives(r: Recipe, g: seq<nat>): (f: seq<nat>)
    requires InRange(r, g)
    ensures forall i :: i in f <==> i in g && Informative(r.ingredients[i])
    ensures forall j :: 0 <= j < |f| ==> f[j] < |r.ingredients|
  {
    if |g| == 0 then []
    else
      var init := Informatives(r, g[..|g| - 1]);
      assert forall i :: i in g <==> i in g[..|g| - 1] || i == g[|g| - 1];
      if Informative(r.ingredients[g[|g| - 1]]) then init + [g[|g| - 1]] else init
  }

  /** A group after filtering: its informative members, or its first member when it has none. */
  function Retained(r: Recipe, g: seq<nat>): (f: seq<nat>)
    requires InRange(r, g) && |g| > 0
    ensures |f| > 0
  {
    var kept := Informatives(r, g);
    if |kept| == 0 then [g[0]] else kept
  }

  /** The map `build_step_igrs_dedup` returns for a step with these items. */
  function Dedup(r: Recipe, items: seq<Item>): (d: Groups)
    requires IngredientsInRange(r, items)
    ensures d.Keys == StepNames(r, items)
  {
    map name | name in StepNames(r, items) :: Retained(r, Occurrences(r, items, name))
  }

  /** What one more item adds to the names and to the unfiltered groups. */
  lemma GroupingStep(r: Recipe, items: seq<Item>, i: nat)
    requires IngredientsInRange(r, items) && i < |items|
    ensures items[i].IngredientRef? ==>
              StepNames(r, items[..i + 1]) == StepNames(r, items[..i]) + {r.ingredients[items[i].index].name}
    ensures !items[i].IngredientRef? ==> StepNames(r, items[..i + 1]) == StepNames(r, items[..i])
    ensures forall name {:trigger Occurrences(r, items[..i + 1], name)} ::
              Occurrences(r, items[..i + 1], name) ==
                if items[i].IngredientRef? && r.ingredients[items[i].index].name == name
                then Occurrences(r, items[..i], name) + [items[i].index]
                else Occurrences(r, items[..i], name)
  {
    assert items[..i + 1][..i] == items[..i];
  }

  /** `build_step_igrs_dedup`: group, then filter each group in place. */
  method BuildStepIgrsDedup(r: Recipe, step: Step) returns (d: Groups)
    requires IngredientsInRange(r, step.items)
    ensures d == Dedup(r, step.items)
  {
    var grouped := GroupByName(r, step.items);
    d := RetainInformative(r, grouped);
    ghost var spec := Dedup(r, step.items);
    assert d.Keys == spec.Keys;
    forall name | name in d
      ensures d[name] == spec[name]
    {
      assert grouped[name] == Occurrences(r, step.items, name);
    }
  }

  /** The first loop of `build_step_igrs_dedup`: `entry(name).or_default().push(index)`. */
  method GroupByName(r: Recipe, items: seq<Item>) returns (d: Groups)
    requires IngredientsInRange(r, items)
    ensures d.Keys == StepNames(r, items)
    ensures forall name :: name in d ==> d[name] == Occurrences(r, items, name)
  {
    d := map[];
    var i := 0;
    while i < |items|
      invariant 0 <= i <= |items|
      invariant d.Keys == StepNames(r, items[..i])
      invariant forall name :: name in d ==> d[name] == Occurrences(r, items[..i], name)
    {
      GroupingStep(r, items, i);
      match items[i] {
        case IngredientRef(index) =>
          var name := r.ingredients[index].name;
          var group := if name in d then d[name] else [];
          d := d[name := group + [index]];
        case _ =>
      }
      i := i + 1;
    }
    assert items[..|items|] == items;
  }

  /**
   * The second loop of `build_step_igrs_dedup`: every group keeps only its
   * informative entries (`retain`), and gets its first entry back when that
   * leaves it empty.
   */
  method RetainInformative(r: Recipe, grouped: Groups) returns (d: Groups)
    requires forall name :: name in grouped ==> |grouped[name]| > 0 && InRange(r, grouped[name])
    ensures d.Keys == grouped.Keys
    ensures forall name :: name in d ==> d[name] == Retained(r, grouped[name])
  {
    d := grouped;
    var todo := d.Keys;
    while todo != {}
      invariant todo <= grouped.Keys && d.Keys == grouped.Keys
      invariant forall name :: name in d ==>
                  d[name] == if name in todo then grouped[name] else Retained(r, grouped[name])
      decreases |todo|
    {
      var name :| name in todo;
      var group := d[name];
      var first := group[0];
      group := Informatives(r, group);
      if |group| == 0 {
        group := [first];
      }
      d := d[name := group];
      todo := todo - {name};
    }
  }

  // ---------------------------------------------------------------------
  // What deduplication guarantees

  /** `a` is `b` with some elements left out, the rest kept in order. */
  predicate IsSubsequence(a: seq<nat>, b: seq<nat>)
  {
    if |a| == 0 then true
    else if |b| == 0 then false
    else if a[|a| - 1] == b[|b| - 1] then IsSubsequence(a[..|a| - 1], b[..|b| - 1])
    else IsSubsequence(a, b[..|b| - 1])
  }

  /** A subsequence of `g` stays one when `g` grows at the end. */
  lemma {:induction false} SubsequenceExtend(f: seq<nat>, g: seq<nat>, x: nat)
    requires IsSubsequence(f, g)
    ensures IsSubsequence(f, g + [x])
    decreases |f| + |g|, 1
  {
    var h := g + [x];
    assert h[..|h| - 1] == g;
    if |f| > 0 && f[|f| - 1] == x {
      SubsequenceDropLast(f, g);
    }
  }

  /** A subsequence stays one when it loses its last element. */
  lemma {:induction false} SubsequenceDropLast(f: seq<nat>, g: seq<nat>)
    requires |f| > 0 && IsSubsequence(f, g)
    ensures IsSubsequence(f[..|f| - 1], g)
    decreases |f| + |g|, 0
  {
    var f', g' := f[..|f| - 1], g[..|g| - 1];
    assert g == g' + [g[|g| - 1]];
    if f[|f| - 1] == g[|g| - 1] {
      SubsequenceExtend(f', g', g[|g| - 1]);
    } else {
      SubsequenceDropLast(f, g');
      SubsequenceExtend(f', g', g[|g| - 1]);
    }
  }

  lemma {:induction false} InformativesSubsequence(r: Recipe, g: seq<nat>)
    requires InRange(r, g)
    ensures IsSubsequence(Informatives(r, g), g)
  {
    if |g| > 0 {
      var init, last := g[..|g| - 1], g[|g| - 1];
      assert g == init + [last];
      var f := Informatives(r, init);
      InformativesSubsequence(r, init);
      if Informative(r.ingredients[last]) {
        assert (f + [last])[..|f|] == f;
      } else {
        SubsequenceExtend(f, init, last);
      }
    }
  }

  lemma {:induction false} SingletonSubsequence(x: nat, g: seq<nat>)
    requires x in g
    ensures IsSubsequence([x], g)
  {
    if g[|g| - 1] != x {
      assert x in g[..|g| - 1] by {
        assert g == g[..|g| - 1] + [g[|g| - 1]];
      }
      SingletonSubsequence(x, g[..|g| - 1]);
    }
  }

  /**
   * Every group of the result is non-empty and a subsequence, in order, of
   * the step's occurrences of its name.
   */
  lemma DedupGroupsAreSubsequences(r: Recipe, items: seq<Item>, name: string)
    requires IngredientsInRange(r, items)
    requires name in StepNames(r, items)
    ensures |Dedup(r, items)[name]| > 0
    ensures IsSubsequence(Dedup(r, items)[name], Occurrences(r, items, name))
  {
    var g := Occurrences(r, items, name);
    var kept := Informatives(r, g);
    assert Dedup(r, items)[name] == Retained(r, g);
    if |kept| == 0 {
      SingletonSubsequence(g[0], g);
    } else {
      InformativesSubsequence(r, g);
    }
  }

  /**
   * Which occurrences survive: when some occurrence of the name is
   * informative, exactly the informative ones do; otherwise the group is
   * exactly its first occurrence.
   */
  lemma DedupGroupMembers(r: Recipe, items: seq<Item>, name: string)
    requires IngredientsInRange(r, items)
    requires name in StepNames(r, items)
    ensures (exists i :: i in Occurrences(r, items, name) && Informative(r.ingredients[i])) ==>
              forall i :: i in Dedup(r, items)[name] <==>
                i in Occurrences(r, items, name) && Informative(r.ingredients[i])
    ensures (forall i :: i in Occurrences(r, items, name) ==> !Informative(r.ingredients[i])) ==>
              Dedup(r, items)[name] == [Occurrences(r, items, name)[0]]
  {
    var g := Occurrences(r, items, name);
    var kept := Informatives(r, g);
    assert Dedup(r, items)[name] == Retained(r, g);
    if |kept| > 0 {
      assert kept[0] in kept;
    }
  }

  // ---------------------------------------------------------------------
  // Subscript numbering

  /** `iter().position(|&i| i == x)`: the first position of `x`. */
  function Position(s: seq<nat>, x: nat): (p: Option<nat>)
    ensures p.Some? <==> x in s
    ensures p.Some? ==> p.value < |s| && s[p.value] == x && forall j :: 0 <= j < p.value ==> s[j] != x
  {
    if |s| == 0 then None
    else if s[0] == x then Some(0)
    else match Position(s[1..], x)
      case Some(p) => Some(p + 1)
      case None => None
  }

  /**
   * The number an occurrence gets: 1 + its position in the filtered group,
   * and none when that group has at most one member or leaves it out.
   */
  function Count(entries: seq<nat>, index: nat): (p: Option<nat>)
    ensures p.Some? <==> |entries| > 1 && index in entries
    ensures p.Some? ==>
              1 <= p.value <= |entries| && entries[p.value - 1] == index
              && forall j :: 0 <= j < p.value - 1 ==> entries[j] != index
  {
    if |entries| <= 1 then None
    else match Position(entries, index)
      case Some(pos) => Some(pos + 1)
      case None => None
  }

  /** The subscript text for a number, empty for none. */
  function CountSuffix(p: Option<nat>): string
  {
    match p
    case Some(n) => Subscript(NatToString(n))
    case None => ""
  }

  /**
   * `write_igr_count(buffer, step_igrs, index, name)`: appends the
   * occurrence's number in subscript digits, or nothing, and returns it.
   */
  method WriteIgrCount(buffer: string, groups: Groups, index: nat, name: string)
    returns (out: string, pos: Option<nat>)
    requires name in groups
    ensures pos == Count(groups[name], index)
    ensures out == buffer + CountSuffix(pos)
  {
    var entries := groups[name];
    if |entries| <= 1 {
      return buffer, None;
    }
    match Position(entries, index) {
      case Some(p) =>
        var n := p + 1;
        out := WriteSubscript(buffer, NatToString(n));
        pos := Some(n);
      case None =>
        out, pos := buffer, None;
    }
  }

  /**
   * The consequence for a repeated name without quantities: when only one
   * occurrence survives filtering, no occurrence of the name is numbered.
   */
  lemma SingleSurvivorUnnumbered(r: Recipe, items: seq<Item>, name: string, index: nat)
    requires IngredientsInRange(r, items)
    requires name in Dedup(r, items) && |Dedup(r, items)[name]| == 1
    ensures Count(Dedup(r, items)[name], index) == None
  {
  }

  /** Distinct occurrences in one group never share a number. */
  lemma CountsDistinct(entries: seq<nat>, a: nat, b: nat)
    requires a != b
    requires Count(entries, a).Some? && Count(entries, b).Some?
    ensures Count(entries, a) != Count(entries, b)
  {
  }
}
