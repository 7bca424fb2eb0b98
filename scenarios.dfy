/**
 * Concrete steps worked through the model: a repeated ingredient of which
 * only one occurrence carries a quantity (no numbers), and one whose two
 * occurrences both carry one (numbered 1 and 2).
 */
module Scenarios {
  import opened Options
  import opened Strings
  import opened Decimal
  import opened Recipe
  import opened Subscripts
  import opened IngredientGroups
  import opened StepRender

  const Salt: Ingredient := Ingredient("salt", "salt", None, None, Modifiers(false, true), Definition)
  const Tsp: Quantity := Quantity("1", Some("tsp"))
  const SaltTsp: Ingredient := Salt.(quantity := Some(Tsp))

  const SaltItems: seq<Item> := [Text("Add "), IngredientRef(0), Text(" and "), IngredientRef(1)]
  const Body: Section := Section(None, [StepContent(Step(1, SaltItems))])

  const SaltRecipe: Recipe := Recipe([Body], [Salt, SaltTsp], [], [], [])

  lemma SaltStepValid()
    ensures StepValid(SaltRecipe, Body, SaltItems) && IngredientsInRange(SaltRecipe, SaltItems)
  {
    assert StepValid(SaltRecipe, Body, SaltItems) by {
      forall k | 0 <= k < |SaltItems| ensures ItemValid(SaltRecipe, Body, SaltItems[k]) { }
    }
    StepValidInRange(SaltRecipe, Body, SaltItems);
  }

  /** The items before each of the step's items, as literals. */
  lemma SaltPrefixes()
    ensures SaltItems[..3] == [Text("Add "), IngredientRef(0), Text(" and ")]
    ensures SaltItems[..3][..2] == [Text("Add "), IngredientRef(0)]
    ensures SaltItems[..3][..2][..1] == [Text("Add ")]
    ensures SaltItems[..3][..2][..1][..0] == []
  {
  }

  lemma SaltNames()
    ensures IngredientsInRange(SaltRecipe, SaltItems)
    ensures StepNames(SaltRecipe, SaltItems) == {"salt"}
  {
    SaltStepValid();
    SaltPrefixes();
    assert StepNames(SaltRecipe, [Text("Add ")]) == {};
    assert StepNames(SaltRecipe, [Text("Add "), IngredientRef(0)]) == {"salt"};
    assert StepNames(SaltRecipe, SaltItems[..3]) == {"salt"};
  }

  lemma SaltOccurrences()
    ensures IngredientsInRange(SaltRecipe, SaltItems)
    ensures Occurrences(SaltRecipe, SaltItems, "salt") == [0, 1]
  {
    SaltStepValid();
    SaltPrefixes();
    assert Occurrences(SaltRecipe, [Text("Add ")], "salt") == [];
    assert Occurrences(SaltRecipe, [Text("Add "), IngredientRef(0)], "salt") == [0];
    assert Occurrences(SaltRecipe, SaltItems[..3], "salt") == [0];
  }

  /** The group of "salt" keeps only the mention with a quantity. */
  lemma SaltGroups()
    ensures IngredientsInRange(SaltRecipe, SaltItems)
    ensures Dedup(SaltRecipe, SaltItems) == map["salt" := [1]]
  {
    SaltNames();
    SaltOccurrences();
    SaltRetained();
  }

  lemma SaltRetained()
    ensures InRange(SaltRecipe, [0, 1]) && Retained(SaltRecipe, [0, 1]) == [1]
  {
    var r := SaltRecipe;
    assert !Informative(r.ingredients[0]) && Informative(r.ingredients[1]);
    assert [0, 1][..1] == [0] && [0][..0] == [];
    assert Informatives(r, []) == [];
    assert Informatives(r, [0]) == [];
    assert Informatives(r, [0, 1]) == [1];
  }

  /** The narrative of two items is their two renderings. */
  lemma NarrativePair(r: Recipe, sec: Section, groups: Groups, x: Item, y: Item)
    requires Renderable(r, sec, groups, [x, y])
    ensures ItemValid(r, sec, x) && ItemValid(r, sec, y)
    ensures x.IngredientRef? ==> r.ingredients[x.index].name in groups
    ensures y.IngredientRef? ==> r.ingredients[y.index].name in groups
    ensures Narrative(r, sec, groups, [x, y]) == ItemText(r, sec, groups, x) + ItemText(r, sec, groups, y)
  {
    assert [x, y][0] == x && [x, y][1] == y;
    assert ItemValid(r, sec, x) && ItemValid(r, sec, y);
    assert [x, y][..1] == [x] && [x][..0] == [];
    assert Narrative(r, sec, groups, [x]) == ItemText(r, sec, groups, x);
    assert Narrative(r, sec, groups, [x, y]) == Narrative(r, sec, groups, [x]) + ItemText(r, sec, groups, y);
  }

  const SaltGroupsLit: Groups := map["salt" := [1]]

  lemma SaltRenderable()
    ensures Renderable(SaltRecipe, Body, SaltGroupsLit, SaltItems)
  {
    SaltStepValid();
    assert ItemValid(SaltRecipe, Body, IngredientRef(0));
    assert ItemValid(SaltRecipe, Body, IngredientRef(1));
  }

  lemma SaltNarrativeOf()
    ensures Renderable(SaltRecipe, Body, SaltGroupsLit, SaltItems)
    ensures Narrative(SaltRecipe, Body, SaltGroupsLit, SaltItems) == "Add salt and salt"
  {
    var r, groups := SaltRecipe, SaltGroupsLit;
    var a, b := [Text("Add "), IngredientRef(0)], [Text(" and "), IngredientRef(1)];
    assert SaltItems == a + b;
    SaltRenderable();
    NarrativeAppend(r, Body, groups, a, b);
    NarrativePair(r, Body, groups, Text("Add "), IngredientRef(0));
    NarrativePair(r, Body, groups, Text(" and "), IngredientRef(1));
    assert Count([1], 0) == None && Count([1], 1) == None;
  }

  /**
   * Neither mention is numbered: with the groups deduplication gives, the
   * narrative is "Add salt and salt".
   */
  lemma SaltNarrative()
    ensures IngredientsInRange(SaltRecipe, SaltItems) && Dedup(SaltRecipe, SaltItems) == SaltGroupsLit
    ensures Renderable(SaltRecipe, Body, SaltGroupsLit, SaltItems)
    ensures Narrative(SaltRecipe, Body, SaltGroupsLit, SaltItems) == "Add salt and salt"
  {
    SaltGroups();
    SaltNarrativeOf();
  }

  lemma SaltQueue()
    ensures Queue(SaltRecipe, SaltGroupsLit, SaltItems) == [LegendItem(1, None)]
  {
    var r, groups := SaltRecipe, SaltGroupsLit;
    SaltPrefixes();
    assert !InLegend(r, groups, IngredientRef(0));
    assert InLegend(r, groups, IngredientRef(1));
    assert Count([1], 1) == None;
    assert Queue(r, groups, [Text("Add ")]) == [];
    assert Queue(r, groups, [Text("Add "), IngredientRef(0)]) == [];
    assert Queue(r, groups, SaltItems[..3]) == [];
  }

  /** The legend entry of the mention with a quantity. */
  lemma SaltEntry()
    ensures QueueValid(SaltRecipe, Body, [LegendItem(1, None)])
    ensures Entries(SaltRecipe, Body, [LegendItem(1, None)]) == ["salt: 1 tsp"]
  {
    var igr := SaltTsp;
    assert SaltRecipe.ingredients[1] == igr;
    assert CountSuffix(None) == "";
    assert OptText(igr) == "";
    assert FromText(igr, Body) == "";
    assert QuantityText(igr) == ": 1 tsp";
    AppendFive("", "salt", "", "", "", ": 1 tsp");
    assert "" + "salt" + "" + "" + "" + ": 1 tsp" == "salt: 1 tsp";
    assert EntryText(SaltRecipe, Body, LegendItem(1, None)) == "salt: 1 tsp";
  }

  lemma SaltLegendText()
    ensures LegendText(["salt: 1 tsp"]) == "[salt: 1 tsp]"
  {
    assert Join(", ", ["salt: 1 tsp"]) == "salt: 1 tsp";
    assert "[" + "salt: 1 tsp" + "]" == "[salt: 1 tsp]";
  }

  lemma SaltLegendOf()
    ensures StepValid(SaltRecipe, Body, SaltItems)
    ensures Legend(SaltRecipe, Body, SaltGroupsLit, SaltItems) == "[salt: 1 tsp]"
  {
    SaltStepValid();
    SaltQueue();
    SaltEntry();
    SaltLegendText();
  }

  /** Only the mention with a quantity is in the legend: "[salt: 1 tsp]". */
  lemma SaltLegend()
    ensures StepValid(SaltRecipe, Body, SaltItems)
    ensures Legend(SaltRecipe, Body, Dedup(SaltRecipe, SaltItems), SaltItems) == "[salt: 1 tsp]"
  {
    SaltGroups();
    SaltLegendOf();
  }

  // ---------------------------------------------------------------------
  // "Add @salt{1%tsp} and @salt{2%tsp}": both occurrences are numbered.

  const TwoTsp: Quantity := Quantity("2", Some("tsp"))
  const SaltTwoTsp: Ingredient := Salt.(quantity := Some(TwoTsp))
  const PairRecipe: Recipe := Recipe([Body], [SaltTsp, SaltTwoTsp], [], [], [])
  const PairGroupsLit: Groups := map["salt" := [0, 1]]

  lemma PairStepValid()
    ensures StepValid(PairRecipe, Body, SaltItems) && IngredientsInRange(PairRecipe, SaltItems)
  {
    assert StepValid(PairRecipe, Body, SaltItems) by {
      forall k | 0 <= k < |SaltItems| ensures ItemValid(PairRecipe, Body, SaltItems[k]) { }
    }
    StepValidInRange(PairRecipe, Body, SaltItems);
  }

  lemma PairNames()
    ensures IngredientsInRange(PairRecipe, SaltItems)
    ensures StepNames(PairRecipe, SaltItems) == {"salt"}
  {
    PairStepValid();
    SaltPrefixes();
    assert StepNames(PairRecipe, [Text("Add ")]) == {};
    assert StepNames(PairRecipe, [Text("Add "), IngredientRef(0)]) == {"salt"};
    assert StepNames(PairRecipe, SaltItems[..3]) == {"salt"};
  }

  lemma PairOccurrences()
    ensures IngredientsInRange(PairRecipe, SaltItems)
    ensures Occurrences(PairRecipe, SaltItems, "salt") == [0, 1]
  {
    PairStepValid();
    SaltPrefixes();
    assert Occurrences(PairRecipe, [Text("Add ")], "salt") == [];
    assert Occurrences(PairRecipe, [Text("Add "), IngredientRef(0)], "salt") == [0];
    assert Occurrences(PairRecipe, SaltItems[..3], "salt") == [0];
  }

  /** Both occurrences carry a quantity, so the group of "salt" keeps both. */
  lemma PairGroups()
    ensures IngredientsInRange(PairRecipe, SaltItems)
    ensures Dedup(PairRecipe, SaltItems) == PairGroupsLit
  {
    PairNames();
    PairOccurrences();
    PairRetained();
  }

  lemma PairRetained()
    ensures InRange(PairRecipe, [0, 1]) && Retained(PairRecipe, [0, 1]) == [0, 1]
  {
    var r := PairRecipe;
    assert Informative(r.ingredients[0]) && Informative(r.ingredients[1]);
    assert [0, 1][..1] == [0] && [0][..0] == [];
    assert Informatives(r, []) == [];
    assert Informatives(r, [0]) == [0];
    assert Informatives(r, [0, 1]) == [0, 1];
  }

  /** The numbers 1 and 2 as subscripts. */
  lemma SubscriptOneTwo()
    ensures CountSuffix(Some(1)) == "\U{2081}" && CountSuffix(Some(2)) == "\U{2082}"
  {
    assert NatToString(1) == "1" && NatToString(2) == "2";
    assert SubscriptChar('1') == '\U{2081}' && SubscriptChar('2') == '\U{2082}';
  }

  lemma PairRenderable()
    ensures Renderable(PairRecipe, Body, PairGroupsLit, SaltItems)
  {
    PairStepValid();
    assert ItemValid(PairRecipe, Body, IngredientRef(0));
    assert ItemValid(PairRecipe, Body, IngredientRef(1));
  }

  lemma PairNarrativeOf()
    ensures Renderable(PairRecipe, Body, PairGroupsLit, SaltItems)
    ensures Narrative(PairRecipe, Body, PairGroupsLit, SaltItems) == "Add salt\U{2081} and salt\U{2082}"
  {
    var r, groups := PairRecipe, PairGroupsLit;
    var a, b := [Text("Add "), IngredientRef(0)], [Text(" and "), IngredientRef(1)];
    assert SaltItems == a + b;
    PairRenderable();
    NarrativeAppend(r, Body, groups, a, b);
    NarrativePair(r, Body, groups, Text("Add "), IngredientRef(0));
    NarrativePair(r, Body, groups, Text(" and "), IngredientRef(1));
    PairItemTexts();
    PairNarrativeLiteral();
  }

  lemma PairNarrativeLiteral()
    ensures ("Add " + "salt\U{2081}") + (" and " + "salt\U{2082}") == "Add salt\U{2081} and salt\U{2082}"
  {
    assert "Add " + "salt\U{2081}" == "Add salt\U{2081}";
    assert " and " + "salt\U{2082}" == " and salt\U{2082}";
    assert "Add salt\U{2081}" + " and salt\U{2082}" == "Add salt\U{2081} and salt\U{2082}";
  }

  lemma PairItemTexts()
    ensures ItemValid(PairRecipe, Body, IngredientRef(0)) && ItemValid(PairRecipe, Body, IngredientRef(1))
    ensures "salt" in PairGroupsLit
    ensures ItemText(PairRecipe, Body, PairGroupsLit, IngredientRef(0)) == "salt\U{2081}"
    ensures ItemText(PairRecipe, Body, PairGroupsLit, IngredientRef(1)) == "salt\U{2082}"
  {
    assert Count([0, 1], 0) == Some(1) && Count([0, 1], 1) == Some(2);
    SubscriptOneTwo();
  }

  /** Each occurrence is numbered by its place in the group: "Add salt₁ and salt₂". */
  lemma PairNarrative()
    ensures IngredientsInRange(PairRecipe, SaltItems) && Dedup(PairRecipe, SaltItems) == PairGroupsLit
    ensures Renderable(PairRecipe, Body, PairGroupsLit, SaltItems)
    ensures Narrative(PairRecipe, Body, PairGroupsLit, SaltItems) == "Add salt\U{2081} and salt\U{2082}"
  {
    PairGroups();
    PairNarrativeOf();
  }

  lemma PairQueue()
    ensures Queue(PairRecipe, PairGroupsLit, SaltItems) == [LegendItem(0, Some(1)), LegendItem(1, Some(2))]
  {
    var r, groups := PairRecipe, PairGroupsLit;
    SaltPrefixes();
    PairQueuedBy();
    assert Queue(r, groups, [Text("Add ")]) == [];
    assert Queue(r, groups, [Text("Add "), IngredientRef(0)]) == [LegendItem(0, Some(1))];
    assert Queue(r, groups, SaltItems[..3]) == [LegendItem(0, Some(1))];
  }

  /** What each item of the pair step adds to the legend queue. */
  lemma PairQueuedBy()
    ensures QueuedBy(PairRecipe, PairGroupsLit, Text("Add ")) == []
    ensures QueuedBy(PairRecipe, PairGroupsLit, Text(" and ")) == []
    ensures QueuedBy(PairRecipe, PairGroupsLit, IngredientRef(0)) == [LegendItem(0, Some(1))]
    ensures QueuedBy(PairRecipe, PairGroupsLit, IngredientRef(1)) == [LegendItem(1, Some(2))]
  {
    var r, groups := PairRecipe, PairGroupsLit;
    assert r.ingredients[0].name == "salt" && r.ingredients[1].name == "salt";
    assert groups["salt"] == [0, 1];
    assert InLegend(r, groups, IngredientRef(0));
    assert InLegend(r, groups, IngredientRef(1));
    assert Count([0, 1], 0) == Some(1) && Count([0, 1], 1) == Some(2);
  }

  lemma PairEntry(k: nat, q: Quantity, digit: string, text: string)
    requires k < 2 && PairRecipe.ingredients[k].quantity == Some(q)
    requires CountSuffix(Some(k + 1)) == digit
    requires text == "salt" + digit + ": " + QuantityFmt(q)
    ensures k < |PairRecipe.ingredients| && RefResolvable(PairRecipe.ingredients[k], Body)
    ensures EntryText(PairRecipe, Body, LegendItem(k, Some(k + 1))) == text
  {
    var igr := PairRecipe.ingredients[k];
    var tail := ": " + QuantityFmt(q);
    assert igr.displayName == "salt";
    assert OptText(igr) == "";
    assert FromText(igr, Body) == "";
    assert QuantityText(igr) == tail;
    assert EntryText(PairRecipe, Body, LegendItem(k, Some(k + 1))) == Concat(["salt", digit, "", "", tail]);
    AppendFive("", "salt", digit, "", "", tail);
    assert "" + "salt" + digit + "" + "" + tail == text;
  }

  lemma PairEntries()
    ensures QueueValid(PairRecipe, Body, [LegendItem(0, Some(1)), LegendItem(1, Some(2))])
    ensures Entries(PairRecipe, Body, [LegendItem(0, Some(1)), LegendItem(1, Some(2))])
            == ["salt\U{2081}: 1 tsp", "salt\U{2082}: 2 tsp"]
  {
    SubscriptOneTwo();
    assert QuantityFmt(Tsp) == "1 tsp" && QuantityFmt(TwoTsp) == "2 tsp";
    PairEntry(0, Tsp, "\U{2081}", "salt\U{2081}: 1 tsp");
    PairEntry(1, TwoTsp, "\U{2082}", "salt\U{2082}: 2 tsp");
  }

  lemma PairLegendText()
    ensures LegendText(["salt\U{2081}: 1 tsp", "salt\U{2082}: 2 tsp"]) == "[salt\U{2081}: 1 tsp, salt\U{2082}: 2 tsp]"
  {
    LegendOfTwo("salt\U{2081}: 1 tsp", "salt\U{2082}: 2 tsp");
    assert "[" + "salt\U{2081}: 1 tsp" == "[salt\U{2081}: 1 tsp";
    assert "[salt\U{2081}: 1 tsp" + ", " == "[salt\U{2081}: 1 tsp, ";
    assert "[salt\U{2081}: 1 tsp, " + "salt\U{2082}: 2 tsp" == "[salt\U{2081}: 1 tsp, salt\U{2082}: 2 tsp";
    assert "[salt\U{2081}: 1 tsp, salt\U{2082}: 2 tsp" + "]" == "[salt\U{2081}: 1 tsp, salt\U{2082}: 2 tsp]";
  }

  /** The legend of two entries. */
  lemma LegendOfTwo(a: string, b: string)
    ensures LegendText([a, b]) == "[" + a + ", " + b + "]"
  {
    assert [a, b][..1] == [a];
    assert Join(", ", [a, b]) == a + ", " + b;
    assert "[" + (a + ", " + b) + "]" == "[" + a + ", " + b + "]";
  }

  /** Both numbered entries are in the legend: "[salt₁: 1 tsp, salt₂: 2 tsp]". */
  lemma PairLegend()
    ensures StepValid(PairRecipe, Body, SaltItems)
    ensures Legend(PairRecipe, Body, Dedup(PairRecipe, SaltItems), SaltItems)
            == "[salt\U{2081}: 1 tsp, salt\U{2082}: 2 tsp]"
  {
    PairGroups();
    PairStepValid();
    PairQueue();
    PairEntries();
    PairLegendText();
  }
}
