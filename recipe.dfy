/**
 * The already parsed and scaled recipe the renderer reads: flat arrays of
 * ingredients, cookware, timers and inline quantities, addressed by index
 * from the items of each step. Nothing here is ever changed by the renderer.
 */
module Recipe {
  import opened Options

  /** A quantity whose numeric value arrives already formatted. */
  datatype Quantity = Quantity(value: string, unit: Option<string>)

  /** `quantity_fmt`: the value, then a space and the unit when there is one. */
  function QuantityFmt(q: Quantity): (r: string)
    ensures |r| >= |q.value| && r[..|q.value|] == q.value
    ensures q.unit.None? <==> |r| == |q.value|
    ensures q.unit.Some? ==> r[|q.value|..] == " " + q.unit.value
  {
    match q.unit
    case Some(u) => q.value + " " + u
    case None => q.value
  }

  /** What a reference occurrence points at. */
  datatype RefTarget = IngredientTarget | StepTarget | SectionTarget

  /**
   * Whether an ingredient occurrence defines the ingredient or refers to
   * something earlier: another ingredient, a step of the same section (by
   * position in the section's content) or a section (by position).
   */
  datatype Relation = Definition | Reference(target: nat, kind: RefTarget)

  /** `references_to()`: the target index and kind of a reference. */
  function ReferencesTo(r: Relation): Option<(nat, RefTarget)>
  {
    match r
    case Reference(t, k) => Some((t, k))
    case Definition => None
  }

  /** `is_intermediate_reference()`: the occurrence stands for the result of an earlier step or section. */
  predicate IsIntermediateReference(r: Relation)
  {
    r.Reference? && r.kind != IngredientTarget
  }

  /** The modifier flags the renderer consults; `listed` is `should_be_listed()`. */
  datatype Modifiers = Modifiers(optional: bool, listed: bool)

  datatype Ingredient = Ingredient(
    name: string,
    displayName: string,
    quantity: Option<Quantity>,
    note: Option<string>,
    modifiers: Modifiers,
    relation: Relation)

  datatype Cookware = Cookware(
    name: string,
    displayName: string,
    note: Option<string>,
    modifiers: Modifiers)

  datatype Timer = Timer(quantity: Option<Quantity>, name: Option<string>)

  datatype Item =
    | Text(value: string)
    | IngredientRef(index: nat)
    | CookwareRef(index: nat)
    | TimerRef(index: nat)
    | InlineQuantityRef(index: nat)

  datatype Step = Step(number: nat, items: seq<Item>)

  datatype Content = StepContent(step: Step) | TextContent(text: string)

  datatype Section = Section(name: Option<string>, content: seq<Content>)

  datatype Recipe = Recipe(
    sections: seq<Section>,
    ingredients: seq<Ingredient>,
    cookware: seq<Cookware>,
    timers: seq<Timer>,
    inlineQuantities: seq<Quantity>)

  /** Every ingredient item of `items` addresses an existing ingredient. */
  predicate IngredientsInRange(r: Recipe, items: seq<Item>)
  {
    forall k :: 0 <= k < |items| && items[k].IngredientRef? ==> items[k].index < |r.ingredients|
  }

  /**
   * `unwrap_step` on `section.content[target]` succeeds: a reference to a
   * step names a position of the section's content that holds a step.
   */
  predicate RefResolvable(ing: Ingredient, sec: Section)
  {
    ing.relation.Reference? && ing.relation.kind == StepTarget ==>
      ing.relation.target < |sec.content| && sec.content[ing.relation.target].StepContent?
  }

  /** A timer names a duration, a name or both; the parser never lets one with neither through. */
  predicate TimerRenderable(t: Timer)
  {
    t.quantity.Some? || t.name.Some?
  }

  /** What rendering one item of a step in section `sec` needs of the recipe. */
  predicate ItemValid(r: Recipe, sec: Section, item: Item)
  {
    match item
    case Text(_) => true
    case IngredientRef(i) => i < |r.ingredients| && RefResolvable(r.ingredients[i], sec)
    case CookwareRef(i) => i < |r.cookware|
    case TimerRef(i) => i < |r.timers| && TimerRenderable(r.timers[i])
    case InlineQuantityRef(i) => i < |r.inlineQuantities|
  }

  predicate StepValid(r: Recipe, sec: Section, items: seq<Item>)
  {
    forall k :: 0 <= k < |items| ==> ItemValid(r, sec, items[k])
  }

  lemma StepValidInRange(r: Recipe, sec: Section, items: seq<Item>)
    requires StepValid(r, sec, items)
    ensures IngredientsInRange(r, items)
  {
    forall k | 0 <= k < |items| && items[k].IngredientRef?
      ensures items[k].index < |r.ingredients|
    {
      assert ItemValid(r, sec, items[k]);
    }
  }

  /** A piece of content can be rendered in section `sec`: a step's items are all valid there. */
  predicate ContentValid(r: Recipe, sec: Section, c: Content)
  {
    c.StepContent? ==> StepValid(r, sec, c.step.items)
  }

  /** Every step of the section can be rendered. */
  predicate SectionValid(r: Recipe, sec: Section)
  {
    forall c :: 0 <= c < |sec.content| ==> ContentValid(r, sec, sec.content[c])
  }

  /** Every step of every section can be rendered. */
  predicate RecipeValid(r: Recipe)
  {
    forall s :: 0 <= s < |r.sections| ==> SectionValid(r, r.sections[s])
  }
}
