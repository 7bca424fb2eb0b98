/**
 * Step text assembly (`step_text`, lib.rs:334-437) and cross-reference text
 * (`inter_ref_text`, lib.rs:439-450).
 *
 * A step's items are walked once: the narrative receives each item's
 * rendering, and every ingredient occurrence that survived deduplication is
 * queued, with its number, for the legend line under the step. Styling is
 * the identity on text.
 */
module StepRender {
  import opened Options
  import opened Strings
  import opened Decimal
  import opened Recipe
  import opened Subscripts
  import opened IngredientGroups

  // ---------------------------------------------------------------------
  // Cross-references

  /**
   * `inter_ref_text`: where an occurrence that refers to an earlier section
   * or step comes from, as "section N" (1-based) or "step N" (the number of
   * the step at that position of the current section).
   */
  function InterRefText(ing: Ingredient, sec: Section): (t: Option<string>)
    requires RefResolvable(ing, sec)
    ensures t.Some? <==> IsIntermediateReference(ing.relation)
  {
    match ReferencesTo(ing.relation)
    case Some((target, SectionTarget)) => Some("section " + NatToString(target + 1))
    case Some((target, StepTarget)) => Some("step " + NatToString(sec.content[target].step.number))
    case _ => None
  }

  /**
   * The number in a cross-reference reads back as the 1-based section index,
   * or as the display number of the step referred to.
   */
  lemma InterRefTextNumber(ing: Ingredient, sec: Section)
    requires RefResolvable(ing, sec) && IsIntermediateReference(ing.relation)
    ensures var t := InterRefText(ing, sec).value;
      if ing.relation.kind == SectionTarget then
        |t| > 8 && t[..8] == "section " && IsDigits(t[8..]) && Value(t[8..]) == ing.relation.target + 1
      else
        |t| > 5 && t[..5] == "step " && IsDigits(t[5..])
        && Value(t[5..]) == sec.content[ing.relation.target].step.number
  {
    var t := InterRefText(ing, sec).value;
    if ing.relation.kind == SectionTarget {
      assert t[8..] == NatToString(ing.relation.target + 1);
      ValueOfNatToString(ing.relation.target + 1);
    } else {
      assert t[5..] == NatToString(sec.content[ing.relation.target].step.number);
      ValueOfNatToString(sec.content[ing.relation.target].step.number);
    }
  }

  // ---------------------------------------------------------------------
  // The narrative

  /**
   * How a timer reads in the narrative: its quantity first, with the name in
   * parentheses after it when the timer has both; the bare name when it has
   * no quantity.
   */
  function TimerText(t: Timer): (s: string)
    requires TimerRenderable(t)
    ensures t.quantity.Some? ==>
              var qf := QuantityFmt(t.quantity.value);
              |qf| <= |s| && s[..|qf|] == qf
              && (t.name.None? <==> |s| == |qf|)
              && (t.name.Some? ==> s[|qf|..] == " (" + t.name.value + ")")
    ensures t.quantity.None? ==> t.name.Some? && s == t.name.value
  {
    match t.quantity
    case Some(q) => (match t.name case Some(n) => QuantityFmt(q) + " (" + n + ")" case None => QuantityFmt(q))
    case None => t.name.value
  }

  /** The group that `step_igrs_dedup[igr.name]` looks up exists for every ingredient item. */
  predicate GroupsCover(r: Recipe, groups: Groups, items: seq<Item>)
    requires IngredientsInRange(r, items)
  {
    forall k :: 0 <= k < |items| && items[k].IngredientRef? ==>
      r.ingredients[items[k].index].name in groups
  }

  lemma DedupCovers(r: Recipe, items: seq<Item>)
    requires IngredientsInRange(r, items)
    ensures GroupsCover(r, Dedup(r, items), items)
  {
  }

  /** How one item reads inside the narrative. */
  function ItemText(r: Recipe, sec: Section, groups: Groups, item: Item): string
    requires ItemValid(r, sec, item)
    requires item.IngredientRef? ==> r.ingredients[item.index].name in groups
  {
    match item
    case Text(v) => v
    case IngredientRef(i) =>
      var igr := r.ingredients[i];
      igr.displayName + CountSuffix(Count(groups[igr.name], i))
    case CookwareRef(i) => r.cookware[i].name
    case TimerRef(i) => TimerText(r.timers[i])
    case InlineQuantityRef(i) => QuantityFmt(r.inlineQuantities[i])
  }

  /** The narrative for a sequence of items: their renderings, in item order. */
  function Narrative(r: Recipe, sec: Section, groups: Groups, items: seq<Item>): string
    requires StepValid(r, sec, items)
    requires IngredientsInRange(r, items) && GroupsCover(r, groups, items)
  {
    if |items| == 0 then ""
    else
      assert ItemValid(r, sec, items[|items| - 1]);
      Narrative(r, sec, groups, items[..|items| - 1]) + ItemText(r, sec, groups, items[|items| - 1])
  }

  /** Everything rendering `items` needs. */
  predicate Renderable(r: Recipe, sec: Section, groups: Groups, items: seq<Item>)
  {
    StepValid(r, sec, items) && IngredientsInRange(r, items) && GroupsCover(r, groups, items)
  }

  lemma RenderableParts(r: Recipe, sec: Section, groups: Groups, a: seq<Item>, b: seq<Item>)
    requires Renderable(r, sec, groups, a + b)
    ensures Renderable(r, sec, groups, a) && Renderable(r, sec, groups, b)
  {
    assert forall k :: 0 <= k < |a| ==> (a + b)[k] == a[k];
    assert forall k :: 0 <= k < |b| ==> (a + b)[|a| + k] == b[k];
  }

  /** The narrative of a concatenation is the concatenation of the narratives. */
  lemma {:induction false} NarrativeAppend(r: Recipe, sec: Section, groups: Groups, a: seq<Item>, b: seq<Item>)
    requires Renderable(r, sec, groups, a + b)
    ensures Renderable(r, sec, groups, a) && Renderable(r, sec, groups, b)
    ensures Narrative(r, sec, groups, a + b) == Narrative(r, sec, groups, a) + Narrative(r, sec, groups, b)
  {
    RenderableParts(r, sec, groups, a, b);
    if |b| == 0 {
      assert a + b == a;
    } else {
      var b', x := b[..|b| - 1], b[|b| - 1];
      assert b == b' + [x];
      assert a + b == (a + b') + [x];
      RenderableParts(r, sec, groups, a + b', [x]);
      RenderableParts(r, sec, groups, b', [x]);
      NarrativeAppend(r, sec, groups, a, b');
      assert (a + b)[..|a + b| - 1] == a + b';
    }
  }

  /** Text items are copied into the narrative verbatim. */
  lemma NarrativeOfText(r: Recipe, sec: Section, groups: Groups, v: string)
    ensures StepValid(r, sec, [Text(v)])
    ensures Narrative(r, sec, groups, [Text(v)]) == v
  {
    assert [Text(v)][..0] == [];
  }

  // ---------------------------------------------------------------------
  // The legend

  /** An entry queued for the legend: the ingredient's index and its number, if any. */
  datatype LegendItem = LegendItem(index: nat, pos: Option<nat>)

  /** The ingredient items of `items` whose index survived in the group of their name. */
  predicate InLegend(r: Recipe, groups: Groups, item: Item)
  {
    item.IngredientRef? && item.index < |r.ingredients|
    && r.ingredients[item.index].name in groups
    && item.index in groups[r.ingredients[item.index].name]
  }

  /** What one item adds to the legend queue: its entry when it is listed, else nothing. */
  function QueuedBy(r: Recipe, groups: Groups, item: Item): (q: seq<LegendItem>)
    ensures |q| <= 1
    ensures |q| == 1 <==> InLegend(r, groups, item)
    ensures |q| == 1 ==> item == IngredientRef(q[0].index)
                         && q[0].pos == Count(groups[r.ingredients[item.index].name], item.index)
  {
    if InLegend(r, groups, item) then
      [LegendItem(item.index, Count(groups[r.ingredients[item.index].name], item.index))]
    else []
  }

  /** `step_igrs_line`: the legend queue after walking `items`. */
  function Queue(r: Recipe, groups: Groups, items: seq<Item>): (q: seq<LegendItem>)
    ensures forall j :: 0 <= j < |q| ==> exists k :: 0 <= k < |items| && items[k] == IngredientRef(q[j].index)
  {
    if |items| == 0 then []
    else
      var init := Queue(r, groups, items[..|items| - 1]);
      var last := items[|items| - 1];
      assert forall j :: 0 <= j < |init| ==> exists k :: 0 <= k < |items| && items[k] == IngredientRef(init[j].index);
      init + QueuedBy(r, groups, last)
  }

  /** The entry an item in the legend queues: its index and its number. */
  function EntryOf(r: Recipe, groups: Groups, item: Item): LegendItem
    requires InLegend(r, groups, item)
  {
    LegendItem(item.index, Count(groups[r.ingredients[item.index].name], item.index))
  }

  /**
   * The legend lists an occurrence iff it survived deduplication, and then
   * with its own number: an entry is queued exactly when some item in the
   * legend queues it.
   */
  lemma {:induction false} QueueMembers(r: Recipe, groups: Groups, items: seq<Item>, e: LegendItem)
    ensures e in Queue(r, groups, items) <==>
              exists k :: 0 <= k < |items| && InLegend(r, groups, items[k]) && e == EntryOf(r, groups, items[k])
  {
    if |items| > 0 {
      var init, last := items[..|items| - 1], items[|items| - 1];
      QueueMembers(r, groups, init, e);
      assert forall k :: 0 <= k < |init| ==> init[k] == items[k];
      if e in Queue(r, groups, items) && e !in Queue(r, groups, init) {
        assert InLegend(r, groups, last) && e == EntryOf(r, groups, last);
      }
      if exists k :: 0 <= k < |items| && InLegend(r, groups, items[k]) && e == EntryOf(r, groups, items[k]) {
        var k :| 0 <= k < |items| && InLegend(r, groups, items[k]) && e == EntryOf(r, groups, items[k]);
        if k < |init| {
          assert e in Queue(r, groups, init);
        } else {
          assert QueuedBy(r, groups, last) == [e];
        }
      }
    }
  }

  /** Every queued entry is an ingredient of one of the items. */
  predicate QueueValid(r: Recipe, sec: Section, q: seq<LegendItem>)
  {
    forall j :: 0 <= j < |q| ==> q[j].index < |r.ingredients| && RefResolvable(r.ingredients[q[j].index], sec)
  }

  lemma QueueOfValidStep(r: Recipe, sec: Section, groups: Groups, items: seq<Item>)
    requires StepValid(r, sec, items)
    ensures QueueValid(r, sec, Queue(r, groups, items))
  {
    var q := Queue(r, groups, items);
    forall j | 0 <= j < |q|
      ensures q[j].index < |r.ingredients| && RefResolvable(r.ingredients[q[j].index], sec)
    {
      var k :| 0 <= k < |items| && items[k] == IngredientRef(q[j].index);
      assert ItemValid(r, sec, items[k]);
    }
  }

  /** " (opt)" for an optional ingredient. */
  function OptText(igr: Ingredient): string
  {
    if igr.modifiers.optional then " (opt)" else ""
  }

  /** " from section N" or " from step N" for an intermediate reference. */
  function FromText(igr: Ingredient, sec: Section): string
    requires RefResolvable(igr, sec)
  {
    match InterRefText(igr, sec)
    case Some(src) => " from " + src
    case None => ""
  }

  /** ": quantity" when the occurrence itself has one. */
  function QuantityText(igr: Ingredient): string
  {
    match igr.quantity
    case Some(q) => ": " + QuantityFmt(q)
    case None => ""
  }

  /** How a queued entry reads: name, number, " (opt)", " from …", ": quantity", in that order. */
  function EntryText(r: Recipe, sec: Section, e: LegendItem): string
    requires e.index < |r.ingredients| && RefResolvable(r.ingredients[e.index], sec)
  {
    var igr := r.ingredients[e.index];
    Concat([igr.displayName, CountSuffix(e.pos), OptText(igr), FromText(igr, sec), QuantityText(igr)])
  }

  /** The texts of the queued entries, in queue order. */
  function Entries(r: Recipe, sec: Section, q: seq<LegendItem>): (es: seq<string>)
    requires QueueValid(r, sec, q)
    ensures |es| == |q|
  {
    seq(|q|, k requires 0 <= k < |q| && QueueValid(r, sec, q) => EntryText(r, sec, q[k]))
  }

  /** The legend line: "[-]" for no entries, otherwise the entries joined by ", " in brackets. */
  function LegendText(entries: seq<string>): (t: string)
    ensures |t| >= 2 && t[0] == '[' && t[|t| - 1] == ']'
  {
    if |entries| == 0 then "[-]" else "[" + Join(", ", entries) + "]"
  }

  /** The legend `step_text` returns for a step with these items. */
  function Legend(r: Recipe, sec: Section, groups: Groups, items: seq<Item>): string
    requires StepValid(r, sec, items)
  {
    QueueOfValidStep(r, sec, groups, items);
    LegendText(Entries(r, sec, Queue(r, groups, items)))
  }

  /** The legend is the placeholder exactly when no ingredient item survived deduplication. */
  lemma {:induction false} QueueEmptyIff(r: Recipe, groups: Groups, items: seq<Item>)
    ensures |Queue(r, groups, items)| == 0 <==> forall k :: 0 <= k < |items| ==> !InLegend(r, groups, items[k])
  {
    if |items| > 0 {
      var init, last := items[..|items| - 1], items[|items| - 1];
      QueueEmptyIff(r, groups, init);
      assert Queue(r, groups, items) == Queue(r, groups, init) + QueuedBy(r, groups, last);
      assert (forall k :: 0 <= k < |items| ==> !InLegend(r, groups, items[k]))
         <==> (forall k :: 0 <= k < |init| ==> !InLegend(r, groups, init[k])) && !InLegend(r, groups, last) by {
        assert forall k :: 0 <= k < |init| ==> init[k] == items[k];
      }
    }
  }

  /**
   * The two shapes of the legend: the placeholder when no ingredient item
   * survived deduplication, otherwise the queued entries, in walk order,
   * joined by ", " inside brackets.
   */
  lemma LegendShape(r: Recipe, sec: Section, groups: Groups, items: seq<Item>)
    requires StepValid(r, sec, items)
    ensures QueueValid(r, sec, Queue(r, groups, items))
    ensures (forall k :: 0 <= k < |items| ==> !InLegend(r, groups, items[k])) ==>
              Legend(r, sec, groups, items) == "[-]"
    ensures (exists k :: 0 <= k < |items| && InLegend(r, groups, items[k])) ==>
              var es := Entries(r, sec, Queue(r, groups, items));
              |es| > 0 && Legend(r, sec, groups, items) == "[" + Join(", ", es) + "]"
  {
    QueueOfValidStep(r, sec, groups, items);
    QueueEmptyIff(r, groups, items);
  }

  // ---------------------------------------------------------------------
  // `step_text`

  /**
   * `step_text(recipe, section, step)`: the narrative and the legend line of
   * one step, built by walking the items once into a text buffer and a
   * legend queue and then writing the queued entries out.
   */
  method StepText(r: Recipe, sec: Section, step: Step) returns (text: string, legend: string)
    requires StepValid(r, sec, step.items)
    ensures Renderable(r, sec, Dedup(r, step.items), step.items)
    ensures text == Narrative(r, sec, Dedup(r, step.items), step.items)
    ensures legend == Legend(r, sec, Dedup(r, step.items), step.items)
  {
    StepValidInRange(r, sec, step.items);
    var groups := BuildStepIgrsDedup(r, step);
    DedupCovers(r, step.items);
    var line;
    text, line := WalkItems(r, sec, groups, step.items);
    QueueOfValidStep(r, sec, groups, step.items);
    legend := WriteLegend(r, sec, line);
  }

  /** One more item: its rendering extends the narrative, its entry (if any) the queue. */
  lemma WalkStep(r: Recipe, sec: Section, groups: Groups, items: seq<Item>, i: nat)
    requires Renderable(r, sec, groups, items) && i < |items|
    ensures Renderable(r, sec, groups, items[..i]) && Renderable(r, sec, groups, items[..i + 1])
    ensures ItemValid(r, sec, items[i])
    ensures items[i].IngredientRef? ==> r.ingredients[items[i].index].name in groups
    ensures Narrative(r, sec, groups, items[..i + 1])
            == Narrative(r, sec, groups, items[..i]) + ItemText(r, sec, groups, items[i])
    ensures Queue(r, groups, items[..i + 1]) == Queue(r, groups, items[..i]) + QueuedBy(r, groups, items[i])
  {
    assert items[..i + 1][..i] == items[..i];
    assert items == items[..i + 1] + items[i + 1..];
    RenderableParts(r, sec, groups, items[..i + 1], items[i + 1..]);
    assert items[..i + 1] == items[..i] + [items[i]];
    RenderableParts(r, sec, groups, items[..i], [items[i]]);
    assert ItemValid(r, sec, items[i]);
  }

  /** The body of the item loop: one item written into the buffer and, if listed, queued. */
  method WriteItem(r: Recipe, sec: Section, groups: Groups, text: string, item: Item)
    returns (out: string, queued: seq<LegendItem>)
    requires ItemValid(r, sec, item)
    requires item.IngredientRef? ==> r.ingredients[item.index].name in groups
    ensures out == text + ItemText(r, sec, groups, item)
    ensures queued == QueuedBy(r, groups, item)
  {
    queued := [];
    match item {
      case Text(v) =>
        out := text + v;
      case IngredientRef(index) =>
        var igr := r.ingredients[index];
        out := text + igr.displayName;
        var pos;
        out, pos := WriteIgrCount(out, groups, index, igr.name);
        AppendAssoc(text, igr.displayName, CountSuffix(pos));
        if index in groups[igr.name] {
          queued := [LegendItem(index, pos)];
        }
      case CookwareRef(index) =>
        out := text + r.cookware[index].name;
      case TimerRef(index) =>
        var timer := r.timers[index];
        match (timer.quantity, timer.name) {
          case (Some(q), Some(n)) => out := text + (QuantityFmt(q) + " (" + n + ")");
          case (Some(q), None) => out := text + QuantityFmt(q);
          case (None, Some(n)) => out := text + n;
          case (None, None) => assert false;
        }
      case InlineQuantityRef(index) =>
        out := text + QuantityFmt(r.inlineQuantities[index]);
    }
  }

  /** The item loop of `step_text`: the narrative buffer and the legend queue. */
  method WalkItems(r: Recipe, sec: Section, groups: Groups, items: seq<Item>)
    returns (text: string, line: seq<LegendItem>)
    requires Renderable(r, sec, groups, items)
    ensures text == Narrative(r, sec, groups, items)
    ensures line == Queue(r, groups, items)
  {
    text := "";
    line := [];
    var i := 0;
    while i < |items|
      invariant 0 <= i <= |items|
      invariant text == Narrative(r, sec, groups, items[..i])
      invariant line == Queue(r, groups, items[..i])
    {
      WalkStep(r, sec, groups, items, i);
      var queued;
      text, queued := WriteItem(r, sec, groups, text, items[i]);
      line := line + queued;
      i := i + 1;
    }
    assert items[..|items|] == items;
  }

  /** The body of the legend loop: entry `k` of the queue, field by field. */
  method WriteEntry(r: Recipe, sec: Section, buffer: string, line: seq<LegendItem>, k: nat) returns (out: string)
    requires QueueValid(r, sec, line) && k < |line|
    ensures out == buffer + Entries(r, sec, line)[k]
  {
    var e := line[k];
    var igr := r.ingredients[e.index];
    var name := igr.displayName;
    out := buffer + name;
    if e.pos.Some? {
      out := WriteSubscript(out, NatToString(e.pos.value));
    }
    var number := CountSuffix(e.pos);
    assert out == buffer + name + number;
    if igr.modifiers.optional {
      out := out + " (opt)";
    }
    var opt := OptText(igr);
    assert out == buffer + name + number + opt;
    var source := InterRefText(igr, sec);
    if source.Some? {
      out := out + (" from " + source.value);
    }
    var from := FromText(igr, sec);
    assert out == buffer + name + number + opt + from;
    if igr.quantity.Some? {
      out := out + (": " + QuantityFmt(igr.quantity.value));
    }
    var quantity := QuantityText(igr);
    assert out == buffer + name + number + opt + from + quantity;
    AppendFive(buffer, name, number, opt, from, quantity);
  }

  /**
   * The legend buffer after `k` of the entries `es` have been written: the
   * opening bracket, the entries so far joined by ", ", and a separator
   * unless the last entry has been written.
   */
  function LegendPrefix(es: seq<string>, k: nat): string
    requires k <= |es|
  {
    if k == 0 then "[" else "[" + Join(", ", es[..k]) + (if k < |es| then ", " else "")
  }

  /** The legend part of `step_text`: "[-]", or "[" + entries joined by ", " + "]". */
  method WriteLegend(r: Recipe, sec: Section, line: seq<LegendItem>) returns (legend: string)
    requires QueueValid(r, sec, line)
    ensures legend == LegendText(Entries(r, sec, line))
  {
    if |line| == 0 {
      return "[-]";
    }
    ghost var es := Entries(r, sec, line);
    legend := "[";
    var k := 0;
    while k < |line|
      invariant 0 <= k <= |line|
      invariant legend == LegendPrefix(es, k)
    {
      legend := WriteEntry(r, sec, legend, line, k);
      JoinStep(", ", es, k);
      if k != |line| - 1 {
        legend := legend + ", ";
      }
      k := k + 1;
    }
    assert es[..|line|] == es;
    legend := legend + "]";
  }
}
