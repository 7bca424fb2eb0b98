/**
 * The whole-recipe tables: `ingredients` (lib.rs:172-244) and `cookware`
 * (lib.rs:246-287). Grouping the recipe's quantities (`group_ingredients`,
 * `group_amounts`) happens upstream, so its results are inputs here. A
 * table is its rows of cells; laying the cells out in columns is left to the
 * table library.
 */
module Tables {
  import opened Options
  import opened Strings
  import opened Recipe
  import opened Output

  /** How scaling an ingredient's quantities went. */
  datatype ScaleOutcome = Scaled | Fixed | Error(details: string) | NoQuantity

  /** One entry of `group_ingredients`: the ingredient, its combined quantities and the scaling outcome. */
  datatype GroupedIngredient = GroupedIngredient(ingredient: Ingredient, quantity: seq<Quantity>, outcome: Option<ScaleOutcome>)

  /** The warning glyphs, each with the space that separates it from the quantities. */
  const Triangle: string := " \U{26A0}"
  const Octagon: string := " \U{2BC3}"

  const FixedNote: string := "\U{26A0} fixed value"
  const ErrorNote: string := "\U{2BC3} error scaling"

  predicate IsFixed(o: Option<ScaleOutcome>)
  {
    o == Some(Fixed)
  }

  predicate IsError(o: Option<ScaleOutcome>)
  {
    o.Some? && o.value.Error?
  }

  /** The glyph after an entry's quantities: a triangle when fixed, an octagon on error, else nothing. */
  function OutcomeMark(o: Option<ScaleOutcome>): (m: string)
    ensures IsFixed(o) <==> m == Triangle
    ensures IsError(o) <==> m == Octagon
    ensures !IsFixed(o) && !IsError(o) <==> m == ""
  {
    match o
    case Some(Fixed) => Triangle
    case Some(Error(_)) => Octagon
    case _ => ""
  }

  /** The second cell of a row: the optional marker or nothing. */
  function OptionalCell(m: Modifiers): string
  {
    if m.optional then "(optional)" else ""
  }

  /** The last cell of a row: the note in parentheses or nothing. */
  function NoteCell(note: Option<string>): string
  {
    match note
    case Some(n) => "(" + n + ")"
    case None => ""
  }

  /** Each quantity formatted, in order. */
  function FormatAll(qs: seq<Quantity>): seq<string>
  {
    seq(|qs|, k requires 0 <= k < |qs| => QuantityFmt(qs[k]))
  }

  /** The row of an ingredient entry: name, optional marker, quantities and glyph, note. */
  function IngredientRow(e: GroupedIngredient): seq<string>
  {
    [e.ingredient.displayName, OptionalCell(e.ingredient.modifiers),
     Join(", ", FormatAll(e.quantity)) + OutcomeMark(e.outcome), NoteCell(e.ingredient.note)]
  }

  /** `should_be_listed()`. */
  predicate Listed(e: GroupedIngredient)
  {
    e.ingredient.modifiers.listed
  }

  /** The rows of the ingredient table: one per listed entry, in order. */
  function IngredientRows(es: seq<GroupedIngredient>): (rows: seq<seq<string>>)
    ensures |rows| <= |es|
  {
    if |es| == 0 then []
    else
      var last := es[|es| - 1];
      IngredientRows(es[..|es| - 1]) + (if Listed(last) then [IngredientRow(last)] else [])
  }

  /** Some listed entry could not be scaled and kept its value. */
  predicate AnyFixed(es: seq<GroupedIngredient>)
  {
    exists k :: 0 <= k < |es| && Listed(es[k]) && IsFixed(es[k].outcome)
  }

  /** Scaling failed for some listed entry. */
  predicate AnyError(es: seq<GroupedIngredient>)
  {
    exists k :: 0 <= k < |es| && Listed(es[k]) && IsError(es[k].outcome)
  }

  /**
   * The line explaining the glyphs that occurred: the fixed-value
   * explanation, then the error explanation, with " | " between them only
   * when both are there.
   */
  function GlyphLegend(fixed: bool, err: bool): (t: string)
    ensures fixed && !err ==> t == FixedNote
    ensures !fixed && err ==> t == ErrorNote
    ensures fixed && err ==> t == FixedNote + " | " + ErrorNote
  {
    (if fixed then FixedNote else "") + (if fixed && err then " | " else "") + (if err then ErrorNote else "")
  }

  /** What `ingredients` writes: nothing for a recipe without ingredients. */
  function IngredientsOut(r: Recipe, es: seq<GroupedIngredient>): seq<Out>
  {
    if |r.ingredients| == 0 then []
    else
      var fixed, err := AnyFixed(es), AnyError(es);
      [Line("Ingredients:"), Table(IngredientRows(es))]
      + (if fixed || err then [Line(""), Line(GlyphLegend(fixed, err))] else [])
      + [Line("")]
  }

  /** One entry of the ingredient loop: its row, and whether it was fixed or failed. */
  method IngredientEntry(e: GroupedIngredient) returns (row: seq<string>, isFixed: bool, isErr: bool)
    ensures row == IngredientRow(e)
    ensures isFixed == IsFixed(e.outcome) && isErr == IsError(e.outcome)
  {
    isFixed, isErr := false, false;
    var mark := "";
    match e.outcome {
      case Some(Fixed) =>
        isFixed := true;
        mark := Triangle;
      case Some(Error(_)) =>
        isErr := true;
        mark := Octagon;
      case Some(Scaled) =>
      case Some(NoQuantity) =>
      case None =>
    }
    var igr := e.ingredient;
    row := [igr.displayName];
    if igr.modifiers.optional {
      row := row + ["(optional)"];
    } else {
      row := row + [""];
    }
    var content := Join(", ", FormatAll(e.quantity));
    row := row + [content + mark];
    if igr.note.Some? {
      row := row + ["(" + igr.note.value + ")"];
    } else {
      row := row + [""];
    }
  }

  /** The loop of `ingredients`: rows for the listed entries, and the two flags. */
  method IngredientTable(es: seq<GroupedIngredient>) returns (rows: seq<seq<string>>, thereIsFixed: bool, thereIsErr: bool)
    ensures rows == IngredientRows(es)
    ensures thereIsFixed == AnyFixed(es) && thereIsErr == AnyError(es)
  {
    rows, thereIsFixed, thereIsErr := [], false, false;
    var i := 0;
    while i < |es|
      invariant 0 <= i <= |es|
      invariant rows == IngredientRows(es[..i])
      invariant thereIsFixed == AnyFixed(es[..i]) && thereIsErr == AnyError(es[..i])
    {
      ListedStep(es, i);
      if Listed(es[i]) {
        var row, isFixed, isErr := IngredientEntry(es[i]);
        rows := rows + [row];
        thereIsFixed := thereIsFixed || isFixed;
        thereIsErr := thereIsErr || isErr;
      }
      i := i + 1;
    }
    assert es[..|es|] == es;
  }

  /** What one more entry adds to the rows and to the flags. */
  lemma ListedStep(es: seq<GroupedIngredient>, i: nat)
    requires i < |es|
    ensures IngredientRows(es[..i + 1]) == IngredientRows(es[..i]) + (if Listed(es[i]) then [IngredientRow(es[i])] else [])
    ensures AnyFixed(es[..i + 1]) == (AnyFixed(es[..i]) || (Listed(es[i]) && IsFixed(es[i].outcome)))
    ensures AnyError(es[..i + 1]) == (AnyError(es[..i]) || (Listed(es[i]) && IsError(es[i].outcome)))
  {
    var a, b := es[..i], es[..i + 1];
    assert b[..i] == a && b[i] == es[i];
    FlagStep(es, i);
  }

  lemma FlagStep(es: seq<GroupedIngredient>, i: nat)
    requires i < |es|
    ensures AnyFixed(es[..i + 1]) == (AnyFixed(es[..i]) || (Listed(es[i]) && IsFixed(es[i].outcome)))
    ensures AnyError(es[..i + 1]) == (AnyError(es[..i]) || (Listed(es[i]) && IsError(es[i].outcome)))
  {
    var a, b := es[..i], es[..i + 1];
    assert forall k :: 0 <= k < i ==> b[k] == a[k];
    assert b[i] == es[i];
  }

  /** `ingredients(w, recipe, converter)`: the heading, the table, the glyph legend if needed, a blank line. */
  method Ingredients(r: Recipe, es: seq<GroupedIngredient>) returns (out: seq<Out>)
    ensures out == IngredientsOut(r, es)
  {
    if |r.ingredients| == 0 {
      return [];
    }
    out := [Line("Ingredients:")];
    var rows, thereIsFixed, thereIsErr := IngredientTable(es);
    out := out + [Table(rows)];
    if thereIsFixed || thereIsErr {
      out := out + [Line("")];
      var legend := "";
      if thereIsFixed {
        legend := legend + FixedNote;
      }
      if thereIsErr {
        if thereIsFixed {
          legend := legend + " | ";
        }
        legend := legend + ErrorNote;
      }
      assert legend == GlyphLegend(thereIsFixed, thereIsErr);
      out := out + [Line(legend)];
    }
    out := out + [Line("")];
  }

  // ---------------------------------------------------------------------
  // What the ingredient table promises

  /**
   * Rows and entries: every row belongs to a listed entry and every listed
   * entry has a row; an entry left unlisted gets none.
   */
  lemma {:induction false} IngredientRowsMeaning(es: seq<GroupedIngredient>)
    ensures forall row :: row in IngredientRows(es) ==>
              exists k :: 0 <= k < |es| && Listed(es[k]) && row == IngredientRow(es[k])
    ensures forall k :: 0 <= k < |es| && Listed(es[k]) ==> IngredientRow(es[k]) in IngredientRows(es)
  {
    if |es| > 0 {
      var init := es[..|es| - 1];
      IngredientRowsMeaning(init);
      assert forall k :: 0 <= k < |init| ==> init[k] == es[k];
    }
  }

  /** A Fixed entry's quantities cell ends with the triangle, a failed one's with the octagon. */
  lemma FlaggedRowGlyph(e: GroupedIngredient)
    ensures IsFixed(e.outcome) ==> var c := IngredientRow(e)[2]; |c| >= 2 && c[|c| - 2..] == Triangle
    ensures IsError(e.outcome) ==> var c := IngredientRow(e)[2]; |c| >= 2 && c[|c| - 2..] == Octagon
    ensures !IsFixed(e.outcome) && !IsError(e.outcome) ==> IngredientRow(e)[2] == Join(", ", FormatAll(e.quantity))
  {
  }

  /** The glyph legend lines: present exactly when some listed entry was Fixed or failed. */
  lemma GlyphLegendPresence(r: Recipe, es: seq<GroupedIngredient>)
    requires |r.ingredients| > 0
    ensures var out := IngredientsOut(r, es);
      (|out| == 5 <==> AnyFixed(es) || AnyError(es)) && (|out| == 3 <==> !AnyFixed(es) && !AnyError(es))
    ensures var out := IngredientsOut(r, es);
      |out| == 5 ==> out[3] == Line(GlyphLegend(AnyFixed(es), AnyError(es)))
  {
  }

  /**
   * The fixed-value explanation opens the glyph legend exactly when some
   * listed entry was Fixed, and the error explanation closes it exactly when
   * some listed entry failed; however many entries share an outcome, its
   * explanation is there once.
   */
  lemma GlyphLegendMeaning(fixed: bool, err: bool)
    requires fixed || err
    ensures var t := GlyphLegend(fixed, err);
      (|t| >= |FixedNote| && t[..|FixedNote|] == FixedNote <==> fixed)
      && (|t| >= |ErrorNote| && t[|t| - |ErrorNote|..] == ErrorNote <==> err)
      && (fixed && err <==> |t| == |FixedNote| + 3 + |ErrorNote|)
  {
    var t := GlyphLegend(fixed, err);
    if !fixed {
      assert t[0] != FixedNote[0];
    }
    if !err {
      assert t[|t| - 1] != ErrorNote[|ErrorNote| - 1];
    }
  }

  // ---------------------------------------------------------------------
  // Cookware

  /**
   * The row of a cookware item: name, optional marker, its grouped amounts
   * (already formatted) joined by ", " or nothing, note.
   */
  function CookwareRow(item: Cookware, amounts: seq<string>): seq<string>
  {
    [item.displayName, OptionalCell(item.modifiers), Join(", ", amounts), NoteCell(item.note)]
  }

  /** The rows of the cookware table for the first `n` items: one per listed item, in order. */
  function CookwareRows(items: seq<Cookware>, amounts: seq<seq<string>>, n: nat): (rows: seq<seq<string>>)
    requires n <= |items| == |amounts|
    ensures |rows| <= n
  {
    if n == 0 then []
    else
      CookwareRows(items, amounts, n - 1)
      + (if items[n - 1].modifiers.listed then [CookwareRow(items[n - 1], amounts[n - 1])] else [])
  }

  /** What `cookware` writes: nothing for a recipe without cookware; the table is followed by a line break. */
  function CookwareOut(r: Recipe, amounts: seq<seq<string>>): seq<Out>
    requires |amounts| == |r.cookware|
  {
    if |r.cookware| == 0 then []
    else [Line("Cookware:"), Table(CookwareRows(r.cookware, amounts, |r.cookware|)), Line("")]
  }

  /**
   * `cookware(w, recipe)`; `amounts[k]` is `group_amounts` of item `k`,
   * each amount already formatted.
   */
  method CookwareTable(r: Recipe, amounts: seq<seq<string>>) returns (out: seq<Out>)
    requires |amounts| == |r.cookware|
    ensures out == CookwareOut(r, amounts)
  {
    if |r.cookware| == 0 {
      return [];
    }
    var rows := [];
    var i := 0;
    while i < |r.cookware|
      invariant 0 <= i <= |r.cookware|
      invariant rows == CookwareRows(r.cookware, amounts, i)
    {
      var item := r.cookware[i];
      if item.modifiers.listed {
        var opt := if item.modifiers.optional then "(optional)" else "";
        var amount := amounts[i];
        var t := "";
        if |amount| > 0 {
          t := Join(", ", amount);
        }
        var note := if item.note.Some? then "(" + item.note.value + ")" else "";
        rows := rows + [[item.displayName, opt, t, note]];
      }
      i := i + 1;
    }
    out := [Line("Cookware:"), Table(rows), Line("")];
  }

  /**
   * The cookware table has a row for every listed item and none for an
   * item left unlisted.
   */
  lemma {:induction false} CookwareRowsMeaning(items: seq<Cookware>, amounts: seq<seq<string>>, n: nat)
    requires n <= |items| == |amounts|
    ensures forall k :: 0 <= k < n && items[k].modifiers.listed ==>
              CookwareRow(items[k], amounts[k]) in CookwareRows(items, amounts, n)
    ensures forall row :: row in CookwareRows(items, amounts, n) ==>
              exists k :: 0 <= k < n && items[k].modifiers.listed && row == CookwareRow(items[k], amounts[k])
  {
    if n > 0 {
      CookwareRowsMeaning(items, amounts, n - 1);
    }
  }
}
