# cooklang-to-human rendering core, in Dafny

This project models the part of `cooklang-to-human` that turns an already
parsed and scaled Cooklang recipe into human-readable text. The recipe is an
immutable value. It holds flat sequences of ingredients, cookware, timers and
inline quantities, and step items refer to them by index. The model covers:

- per-step ingredient deduplication (`build_step_igrs_dedup`) and subscript
  numbering (`write_igr_count`, `write_subscript`);
- step text assembly (`step_text`, `inter_ref_text`): the narrative and the
  legend line under each step;
- the framing done by `steps`: the numbered step line, the `─── § k ───`
  section dividers, section headings, text paragraphs, and the legend's
  `split_inclusive(", ")` word separator;
- the tag colour hash (`tag_color`);
- the row and legend logic of the ingredient and cookware tables, and the
  servings value of the metadata block;
- `quantity_fmt`.

Styling is the identity on text. Output is a sequence of events (`Output.Out`).
`Line` is one written line. `Centered`, `Table` and `Wrapped` record what is
handed to the centring, table and wrapping code, not the layout that code
produces.

Files: `options.dfy` (`Option`), `recipe.dfy` (data model), `strings.dfy` (join, trim, alignment,
`split_inclusive`, split), `decimal.dfy` (`usize` to decimal), `subscript.dfy`,
`dedup.dfy`, `render.dfy`, `framing.dfy`, `tags.dfy`, `tables.dfy`,
`servings.dfy`, and `scenarios.dfy` (two worked examples).

Subscript numbers follow the code. An occurrence is numbered by its position
in the group after filtering (cooklang-to-human/src/lib.rs:489), not in the
unfiltered group. An occurrence that was filtered out gets no number. A group
filtered down to one member gives no numbers at all. So "Add @salt and
@salt{1%tsp}" renders as `Add salt and salt` with legend `[salt: 1 tsp]`
(`Scenarios.SaltNarrative`, `Scenarios.SaltLegend`). It does not render as
`Add salt₁ and salt₂`. That numbered form comes from "Add @salt{1%tsp} and
@salt{2%tsp}", with legend `[salt₁: 1 tsp, salt₂: 2 tsp]`
(`Scenarios.PairNarrative`, `Scenarios.PairLegend`).

## Model

| member | source | states |
|---|---|---|
| `Recipe.QuantityFmt` | cooklang-to-human/src/lib.rs:502-508 | the value comes first; a unit, when present, follows after one space; without a unit the text is the value alone |
| `Decimal.ValueOfNatToString` | cooklang-to-human/src/lib.rs:493-495 | the decimal rendering of a number (`pos.to_string()`) reads back as that number |
| `Decimal.NatToStringInjective` | cooklang-to-human/src/lib.rs:493-495 | different numbers render differently |
| `Subscripts.SubscriptCharMeaning` | cooklang-to-human/src/lib.rs:513-525 | digit d maps to U+2080+d; every other character passes through unchanged and reads back as itself |
| `Subscripts.WriteSubscript` | cooklang-to-human/src/lib.rs:510-527 | appends exactly one glyph per input character and keeps the existing buffer as a prefix |
| `Subscripts.SubscriptOfNumber` | cooklang-to-human/src/lib.rs:495 | the subscript of a number is all subscript digits, one per decimal digit, and decodes back to the number |
| `IngredientGroups.Occurrences` | cooklang-to-human/src/lib.rs:459-464 | the unfiltered group of a name is non-empty iff the step mentions the name, and holds only indices of ingredients with that name |
| `IngredientGroups.OccurrencesMembers` | cooklang-to-human/src/lib.rs:459-464 | an index is in the unfiltered group of a name iff some item of the step mentions it under that name |
| `IngredientGroups.Informatives` | cooklang-to-human/src/lib.rs:472-475 | `retain` keeps exactly the members that have a quantity or are an intermediate reference |
| `IngredientGroups.GroupByName` | cooklang-to-human/src/lib.rs:458-464 | the first loop builds one key per ingredient name in the step, and each key maps to that name's indices in item order |
| `IngredientGroups.RetainInformative` | cooklang-to-human/src/lib.rs:470-479 | the second loop keeps the keys and leaves every group filtered, or reduced to its first member when filtering empties it |
| `IngredientGroups.BuildStepIgrsDedup` | cooklang-to-human/src/lib.rs:452-481 | the map built equals the specification `Dedup` of the step |
| `IngredientGroups.DedupGroupsAreSubsequences` | cooklang-to-human/src/lib.rs:466-479 | every group of the result is non-empty and an in-order subsequence of the name's occurrences |
| `IngredientGroups.DedupGroupMembers` | cooklang-to-human/src/lib.rs:470-479 | if some occurrence is informative, exactly the informative ones survive; otherwise the group is exactly `[first]` |
| `IngredientGroups.Count` | cooklang-to-human/src/lib.rs:489-499 | a number exists iff the filtered group has more than one member and contains the index; it is 1 + the first position of the index |
| `IngredientGroups.WriteIgrCount` | cooklang-to-human/src/lib.rs:483-500 | returns that number and appends exactly its subscript digits, or returns none and leaves the buffer unchanged |
| `IngredientGroups.SingleSurvivorUnnumbered` | cooklang-to-human/src/lib.rs:489-492 | when a group shrinks to one member, no occurrence of that name is numbered |
| `IngredientGroups.CountsDistinct` | cooklang-to-human/src/lib.rs:493-496 | two different occurrences in one group never get the same number |
| `StepRender.InterRefText` | cooklang-to-human/src/lib.rs:439-450 | a text exists iff the occurrence refers to an earlier step or section |
| `StepRender.InterRefTextNumber` | cooklang-to-human/src/lib.rs:441-446 | a section reference reads `section t+1`; a step reference reads `step n`, where n is the number of the step at that position of the section |
| `StepRender.TimerText` | cooklang-to-human/src/lib.rs:366-387 | a timer with a quantity reads as the formatted quantity first, with ` (name)` after it iff it also has a name; a timer without a quantity reads as its bare name; a timer with neither is excluded by the precondition |
| `StepRender.NarrativeAppend` | cooklang-to-human/src/lib.rs:343-399 | the narrative of concatenated items is the concatenation of their narratives, so it is the item renderings in item order |
| `StepRender.NarrativeOfText` | cooklang-to-human/src/lib.rs:345 | a text item is copied verbatim |
| `StepRender.Queue` | cooklang-to-human/src/lib.rs:341-358 | every queued legend entry is the index of an ingredient item of the step |
| `StepRender.QueuedBy` | cooklang-to-human/src/lib.rs:355-357 | an item queues exactly one entry iff its index survived in the filtered group of its name, and that entry is its own index with its number (`Count`) |
| `StepRender.QueueMembers` | cooklang-to-human/src/lib.rs:341-358 | an entry is in the legend queue iff some occurrence of the step survived deduplication and the entry is that occurrence's index and number |
| `StepRender.QueueEmptyIff` | cooklang-to-human/src/lib.rs:355-357 | nothing is queued iff no ingredient item's index is in its filtered group |
| `StepRender.LegendText` | cooklang-to-human/src/lib.rs:403-435 | the legend is always enclosed in brackets |
| `StepRender.LegendShape` | cooklang-to-human/src/lib.rs:401-436 | when nothing is listed the legend is `[-]`; otherwise it is `[` + the entries joined by `, ` in walk order + `]` |
| `StepRender.WriteItem` | cooklang-to-human/src/lib.rs:344-398 | one item appends its rendering to the buffer and queues its entry if listed |
| `StepRender.WalkItems` | cooklang-to-human/src/lib.rs:343-399 | the item loop yields the specification narrative and queue |
| `StepRender.WriteEntry` | cooklang-to-human/src/lib.rs:407-430 | an entry is written as name, number, ` (opt)`, ` from …`, `: quantity`, in that order |
| `StepRender.WriteLegend` | cooklang-to-human/src/lib.rs:401-436 | the legend loop writes the specification legend |
| `StepRender.StepText` | cooklang-to-human/src/lib.rs:334-437 | `step_text` returns the specification narrative and legend for the deduplicated groups |
| `Strings.TrimSlice` | cooklang-to-human/src/lib.rs:309 | trimming keeps a contiguous slice that neither starts nor ends with whitespace, and removes only whitespace |
| `Strings.PadLeft` | cooklang-to-human/src/lib.rs:309 | `{:>2}` right-aligns: spaces, then the text, padded up to the width |
| `Strings.SplitInclusiveConcat` | cooklang-to-human/src/lib.rs:315-319 | the pieces of `split_inclusive(", ")` concatenate back to the input |
| `Strings.SplitInclusivePieces` | cooklang-to-human/src/lib.rs:315-319 | no piece is empty; a `, ` occurs only at the end of a piece; every piece but the last ends with one |
| `Strings.SplitInclusiveJoin` | cooklang-to-human/src/lib.rs:315-319 | a `, `-join of parts without `, ` splits back into those parts, each keeping its separator |
| `Framing.StepLineShape` | cooklang-to-human/src/lib.rs:309 | the step line is padding, the step number in decimal (at least two columns), `. `, then the trimmed narrative |
| `Framing.DividerLabelNumber` | cooklang-to-human/src/lib.rs:292-299 | a divider carries the section's 1-based number, so no two dividers are alike |
| `Framing.StepOut` | cooklang-to-human/src/lib.rs:308-321 | a step writes exactly two wrapped texts: the step line and the legend |
| `Framing.ContentOut` | cooklang-to-human/src/lib.rs:305-329 | content never writes a centred line |
| `Framing.StepsDividers` | cooklang-to-human/src/lib.rs:291-299 | there are no dividers for one section; otherwise there is one per section, labelled 1..n in order |
| `Framing.LegendWords` | cooklang-to-human/src/lib.rs:311-321 | the legend separator keeps `[-]` as one word; when every entry is non-empty and holds no `, `, it cuts the legend into exactly one word per entry and never inside one |
| `Framing.Steps` | cooklang-to-human/src/lib.rs:289-332 | `steps` writes the specification events, section by section |
| `Framing.WriteSection` | cooklang-to-human/src/lib.rs:292-304 | a section writes its divider (several sections only), its name heading, then its content |
| `Framing.WriteContents` | cooklang-to-human/src/lib.rs:305-329 | the content loop appends every piece's events in order |
| `Framing.WriteContent` | cooklang-to-human/src/lib.rs:306-327 | a step becomes its two wrapped lines; a text becomes a blank line, the indented trimmed text, and a blank line |
| `Tags.ColorOf` | cooklang-to-human/src/lib.rs:75-84 | each of the seven arms yields the colour with that index, so the `unreachable!` arm is dead |
| `Tags.HashPrefixIsSum` | cooklang-to-human/src/lib.rs:68-72 | the wrapping reduce equals the unbounded weighted sum mod 2^64 |
| `Tags.TagColor` | cooklang-to-human/src/lib.rs:67-85 | the colour index is the weighted sum mod 2^64 mod 7, and the empty tag is red |
| `Tags.ShortTagsRed` | cooklang-to-human/src/lib.rs:68-76 | tags of at most one character are red |
| `Tags.FirstCharIgnored` | cooklang-to-human/src/lib.rs:68-71 | the first character has weight 0, so changing it never changes the colour |
| `Tables.OutcomeMark` | cooklang-to-human/src/lib.rs:194-208 | the triangle appears iff Fixed, the octagon iff Error, and nothing for other outcomes or none |
| `Tables.IngredientEntry` | cooklang-to-human/src/lib.rs:183-227 | an entry's row is its name, optional marker, quantities with glyph, and note; its flags equal its outcome |
| `Tables.IngredientTable` | cooklang-to-human/src/lib.rs:178-228 | the loop yields one row per listed entry; `there_is_fixed` / `there_is_err` hold iff some listed entry was Fixed / Error |
| `Tables.IngredientRowsMeaning` | cooklang-to-human/src/lib.rs:189-191 | every row belongs to a listed entry, and every listed entry has a row |
| `Tables.FlaggedRowGlyph` | cooklang-to-human/src/lib.rs:215-220 | a Fixed row's quantities end with the triangle, an Error row's with the octagon; other rows carry no glyph |
| `Tables.GlyphLegend` | cooklang-to-human/src/lib.rs:232-239 | fixed only, error only, or both joined by ` \| ` |
| `Tables.GlyphLegendMeaning` | cooklang-to-human/src/lib.rs:230-241 | the fixed explanation opens the line iff fixed; the error explanation closes it iff error; the separator is there iff both are |
| `Tables.GlyphLegendPresence` | cooklang-to-human/src/lib.rs:229-243 | the glyph legend lines appear iff some listed entry was Fixed or Error |
| `Tables.Ingredients` | cooklang-to-human/src/lib.rs:172-244 | `ingredients` writes nothing for a recipe without ingredients; otherwise the heading, the table, the glyph legend if needed, and a blank line |
| `Tables.CookwareTable` | cooklang-to-human/src/lib.rs:246-287 | `cookware` writes nothing for a recipe without cookware; otherwise the heading and one row per listed item, in order |
| `Tables.CookwareRowsMeaning` | cooklang-to-human/src/lib.rs:252-256 | every listed item has a row, and every row belongs to a listed item |
| `Servings.SelectedIndex` | cooklang-to-human/src/lib.rs:129-132 | a target that is one of the alternatives selects that alternative; otherwise the first is selected iff the recipe is at its default scale, and nothing else is ever selected |
| `Servings.ServingsText` | cooklang-to-human/src/lib.rs:133-156 | no alternatives and no unmatched target give an empty value; an unmatched target always ends the value with ` → ` and the target |
| `Servings.ServingsFields` | cooklang-to-human/src/lib.rs:128-146 | the value splits back on `\|` into one field per alternative, in order, with only the selected one bracketed |
| `Servings.UnmatchedTarget` | cooklang-to-human/src/lib.rs:147-156 | a target that is not an alternative shows the unscaled list, then ` → ` and the target |
| `Scenarios.SaltGroups` | cooklang-to-human/src/lib.rs:452-481 | for `salt` (no quantity) then `salt` (1 tsp), the group is `[1]` |
| `Scenarios.SaltNarrative` | cooklang-to-human/src/lib.rs:343-358 | that step's narrative is `Add salt and salt`, with no subscripts |
| `Scenarios.SaltLegend` | cooklang-to-human/src/lib.rs:401-436 | that step's legend is `[salt: 1 tsp]` |
| `Scenarios.PairNarrative` | cooklang-to-human/src/lib.rs:343-358 | for `salt` (1 tsp) then `salt` (2 tsp), both survive and the narrative is `Add salt₁ and salt₂` |
| `Scenarios.PairLegend` | cooklang-to-human/src/lib.rs:401-436 | that step's legend is `[salt₁: 1 tsp, salt₂: 2 tsp]` |

## Left out

- Line wrapping: `textwrap::wrap` and the terminal width (`TERM_WIDTH`, lib.rs:533-546) belong to a foreign library and a terminal query. A `Wrapped` event records the text, the indents and the word separator; only `split_inclusive(", ")` is modelled.
- Column layout: `tabular::Table` and the `{: ^width$}` centring are foreign formatting. Rows are sequences of cells, and a divider is a `Centered` event.
- `Tags.TagColor`: `usize` is taken as 64 bits, so the sum wraps mod 2^64. On a 32-bit target `wrapping_add` wraps mod 2^32, and long tags can get a different colour.
- ANSI styling (`paint`, `italic`, `strike`, `dim`, colours) is the identity on text. `tag_color` returns the colour as a value.
- Durations (`humantime::format_duration`), and the header, description, author, source, time and free metadata lines of `header`/`metadata`: these are not modelled, apart from the tag colour and the servings value.
- Upstream computations are inputs: `group_ingredients` (entries with their outcomes), `group_amounts` (formatted cookware amounts), `Converter`, `metadata.tags()`, `map_filtered()`, the scaling target index, `is_default_scaled()`, and `should_be_listed()` (the `listed` modifier flag).
- Numbers: `qty.value()` and `target_servings()` are taken as already formatted strings. Step numbers and positions are unbounded naturals.
- I/O: `io::Write`, error propagation, and the orchestration in `print_human` are not modelled. Each function returns the sequence of events it writes.
- Panics become preconditions: a `unwrap_step` on a step reference that is not a step (`RefResolvable`), a timer with neither quantity nor name (`TimerRenderable`), and indices out of range (`StepValid`). The `step_igrs_dedup[name]` lookup cannot fail; `StepRender.DedupCovers` proves it.
- `IngredientGroups.RetainInformative`: a `HashMap` of groups is a Dafny `map`, so iteration order is not modelled. `Vec::retain` is computed by the function `Informatives`, not element by element in place.
