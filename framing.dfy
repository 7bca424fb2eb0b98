/**
 * `steps` (lib.rs:289-332): the "Steps:" block. Every section may open with
 * a centred divider "─── § k ───" (only when the recipe has more than one
 * section) and a "name:" heading; every step becomes its numbered,
 * wrapped line and the wrapped legend under it, whose words are cut by
 * `split_inclusive(", ")`; every text paragraph is set off by blank lines.
 */
module Framing {
  import opened Options
  import opened Strings
  import opened Decimal
  import opened Recipe
  import opened IngredientGroups
  import opened StepRender
  import opened Output

  const StepIndent: string := "    "
  const LegendIndent: string := "     "
  const TextIndent: string := "  "

  // ---------------------------------------------------------------------
  // The pieces of the block

  /** `format!("{:>2}. {}", number, text.trim())`. */
  function StepLine(number: nat, text: string): string
  {
    PadLeft(NatToString(number), 2) + ". " + Trim(text)
  }

  /**
   * The step line is some spaces, the step number in decimal, ". " and the
   * trimmed narrative; the number and its padding fill at least two columns,
   * and padding is only there for a one-digit number.
   */
  lemma StepLineShape(number: nat, text: string)
    ensures exists pad, digits ::
              StepLine(number, text) == pad + digits + ". " + Trim(text)
              && (forall i :: 0 <= i < |pad| ==> pad[i] == ' ')
              && IsDigits(digits) && Value(digits) == number
              && |pad + digits| >= 2
              && (|pad| > 0 ==> number < 10)
  {
    var digits := NatToString(number);
    var padded := PadLeft(digits, 2);
    var pad := padded[..|padded| - |digits|];
    assert padded == pad + digits;
    ValueOfNatToString(number);
    NatToStringLength(number);
    assert StepLine(number, text) == pad + digits + ". " + Trim(text);
  }

  /** The divider label of the section at position `k`: its 1-based number between rules. */
  function DividerLabel(k: nat): string
  {
    "\U{2500}\U{2500}\U{2500} \U{00A7} " + NatToString(k + 1) + " \U{2500}\U{2500}\U{2500}"
  }

  /** The number in a divider reads back as the section's 1-based position, so no two dividers are alike. */
  lemma DividerLabelNumber(j: nat, k: nat)
    ensures var t := DividerLabel(k);
      |t| > 10 && IsDigits(t[6..|t| - 4]) && Value(t[6..|t| - 4]) == k + 1
    ensures DividerLabel(j) == DividerLabel(k) ==> j == k
  {
    var t := DividerLabel(k);
    assert t[6..|t| - 4] == NatToString(k + 1);
    ValueOfNatToString(k + 1);
    var u := DividerLabel(j);
    assert u[6..|u| - 4] == NatToString(j + 1);
    if u == t {
      NatToStringInjective(j + 1, k + 1);
    }
  }

  /** What one step writes: its numbered line, then its legend, each wrapped. */
  function StepOut(r: Recipe, sec: Section, step: Step): (o: seq<Out>)
    requires StepValid(r, sec, step.items)
    ensures |o| == 2 && o[0].Wrapped? && o[1].Wrapped? && NoCentered(o)
  {
    StepValidInRange(r, sec, step.items);
    DedupCovers(r, step.items);
    var groups := Dedup(r, step.items);
    [Wrapped(StepLine(step.number, Narrative(r, sec, groups, step.items)), "", StepIndent, DefaultWords),
     Wrapped(Legend(r, sec, groups, step.items), LegendIndent, LegendIndent, CommaSpace)]
  }

  /** What one piece of content writes: a step, or a trimmed paragraph between blank lines. */
  function ContentOut(r: Recipe, sec: Section, c: Content): (o: seq<Out>)
    requires ContentValid(r, sec, c)
    ensures NoCentered(o)
  {
    match c
    case StepContent(step) => StepOut(r, sec, step)
    case TextContent(t) => Paragraph(t)
  }

  /** None of the events is a centred line. */
  predicate NoCentered(o: seq<Out>)
  {
    forall i :: 0 <= i < |o| ==> !o[i].Centered?
  }

  /** A text paragraph: a blank line, the trimmed text wrapped after a two-space indent, a blank line. */
  function Paragraph(t: string): (o: seq<Out>)
    ensures |o| == 3 && NoCentered(o)
  {
    [Line(""), Wrapped(Trim(t), TextIndent, "", DefaultWords), Line("")]
  }

  /** What each piece of the section's content writes, position by position. */
  function SectionEvents(r: Recipe, sec: Section): (es: seq<seq<Out>>)
    requires SectionValid(r, sec)
    ensures |es| == |sec.content|
  {
    seq(|sec.content|, c requires 0 <= c < |sec.content| && SectionValid(r, sec) => ContentOut(r, sec, sec.content[c]))
  }

  /** The events of the pieces, one after the other. */
  function Flatten(es: seq<seq<Out>>): seq<Out>
  {
    if |es| == 0 then [] else Flatten(es[..|es| - 1]) + es[|es| - 1]
  }

  /** The first `n` pieces of the section's content, in order. */
  function ContentsOut(r: Recipe, sec: Section, n: nat): seq<Out>
    requires SectionValid(r, sec) && n <= |sec.content|
  {
    Flatten(SectionEvents(r, sec)[..n])
  }

  /** The divider (when there are several sections) and the name heading (when there is a name). */
  function SectionHead(count: nat, k: nat, sec: Section): seq<Out>
  {
    (if count > 1 then [Centered(DividerLabel(k))] else [])
    + (match sec.name case Some(name) => [Line(name + ":")] case None => [])
  }

  /** What the section at position `k` writes: its head, then its content. */
  function SectionOut(r: Recipe, k: nat): seq<Out>
    requires RecipeValid(r) && k < |r.sections|
  {
    var sec := r.sections[k];
    SectionHead(|r.sections|, k, sec) + ContentsOut(r, sec, |sec.content|)
  }

  /** What each section writes, section by section. */
  function RecipeEvents(r: Recipe): (es: seq<seq<Out>>)
    requires RecipeValid(r)
    ensures |es| == |r.sections|
  {
    seq(|r.sections|, k requires 0 <= k < |r.sections| && RecipeValid(r) => SectionOut(r, k))
  }

  /** The first `n` sections of the recipe, in order. */
  function SectionsOut(r: Recipe, n: nat): seq<Out>
    requires RecipeValid(r) && n <= |r.sections|
  {
    Flatten(RecipeEvents(r)[..n])
  }

  /** The whole "Steps:" block. */
  function StepsOut(r: Recipe): seq<Out>
    requires RecipeValid(r)
  {
    [Line("Steps:")] + SectionsOut(r, |r.sections|)
  }

  // ---------------------------------------------------------------------
  // `steps`

  /** `steps(w, recipe)`: the events written, section by section and content by content. */
  method Steps(r: Recipe) returns (out: seq<Out>)
    requires RecipeValid(r)
    ensures out == StepsOut(r)
  {
    out := [Line("Steps:")];
    ghost var es := RecipeEvents(r);
    var s := 0;
    while s < |r.sections|
      invariant 0 <= s <= |r.sections|
      invariant out == [Line("Steps:")] + Flatten(es[..s])
    {
      ghost var before := out;
      out := WriteSection(r, s, out);
      assert es[..s + 1][..s] == es[..s];
      AppendAssoc([Line("Steps:")], Flatten(es[..s]), es[s]);
      s := s + 1;
    }
  }

  /** The body of the section loop: the divider, the name heading, then the content. */
  method WriteSection(r: Recipe, s: nat, written: seq<Out>) returns (out: seq<Out>)
    requires RecipeValid(r) && s < |r.sections|
    ensures out == written + RecipeEvents(r)[s]
  {
    var section := r.sections[s];
    out := written;
    if |r.sections| > 1 {
      out := out + [Centered(DividerLabel(s))];
    }
    if section.name.Some? {
      out := out + [Line(section.name.value + ":")];
    }
    assert out == written + SectionHead(|r.sections|, s, section);
    assert SectionValid(r, section);
    out := WriteContents(r, section, out);
    AppendAssoc(written, SectionHead(|r.sections|, s, section), ContentsOut(r, section, |section.content|));
  }

  /** The content loop of `steps` for one section, appending to what has been written. */
  method WriteContents(r: Recipe, sec: Section, written: seq<Out>) returns (out: seq<Out>)
    requires SectionValid(r, sec)
    ensures out == written + ContentsOut(r, sec, |sec.content|)
  {
    out := written;
    var c := 0;
    ghost var es := SectionEvents(r, sec);
    while c < |sec.content|
      invariant 0 <= c <= |sec.content|
      invariant out == written + Flatten(es[..c])
    {
      var events := WriteContent(r, sec, c);
      assert es[..c + 1][..c] == es[..c];
      AppendAssoc(written, Flatten(es[..c]), events);
      out := out + events;
      c := c + 1;
    }
  }

  /** One piece of content: `step_text` for a step, the trimmed text for a paragraph. */
  method WriteContent(r: Recipe, sec: Section, c: nat) returns (events: seq<Out>)
    requires SectionValid(r, sec) && c < |sec.content|
    ensures events == SectionEvents(r, sec)[c]
  {
    assert ContentValid(r, sec, sec.content[c]);
    match sec.content[c] {
      case StepContent(step) =>
        var text, legend := StepText(r, sec, step);
        var line := PadLeft(NatToString(step.number), 2) + ". " + Trim(text);
        events := [Wrapped(line, "", StepIndent, DefaultWords), Wrapped(legend, LegendIndent, LegendIndent, CommaSpace)];
        assert events == StepOut(r, sec, step);
      case TextContent(t) =>
        events := [Line(""), Wrapped(Trim(t), TextIndent, "", DefaultWords), Line("")];
        assert events == Paragraph(t);
    }
  }

  // ---------------------------------------------------------------------
  // Dividers

  /** The labels of the centred lines among `out`, in order. */
  function Dividers(out: seq<Out>): seq<string>
  {
    if |out| == 0 then []
    else Dividers(out[..|out| - 1]) + (if out[|out| - 1].Centered? then [out[|out| - 1].text] else [])
  }

  lemma {:induction false} DividersAppend(a: seq<Out>, b: seq<Out>)
    ensures Dividers(a + b) == Dividers(a) + Dividers(b)
  {
    if |b| > 0 {
      DividersAppend(a, b[..|b| - 1]);
      assert (a + b)[..|a + b| - 1] == a + b[..|b| - 1];
    } else {
      assert a + b == a;
    }
  }

  /** Events none of which is centred carry no divider. */
  lemma {:induction false} DividersNone(out: seq<Out>)
    requires forall i :: 0 <= i < |out| ==> !out[i].Centered?
    ensures Dividers(out) == []
  {
    if |out| > 0 {
      DividersNone(out[..|out| - 1]);
    }
  }

  lemma ContentNotCentered(r: Recipe, sec: Section, c: nat)
    requires SectionValid(r, sec) && c < |sec.content|
    ensures forall i :: 0 <= i < |SectionEvents(r, sec)[c]| ==> !SectionEvents(r, sec)[c][i].Centered?
  {
    assert ContentValid(r, sec, sec.content[c]);
  }

  /** Content never writes a divider. */
  lemma {:induction false} ContentsHaveNoDividers(r: Recipe, sec: Section, n: nat)
    requires SectionValid(r, sec) && n <= |sec.content|
    ensures Dividers(ContentsOut(r, sec, n)) == []
  {
    var es := SectionEvents(r, sec);
    if n > 0 {
      ContentsHaveNoDividers(r, sec, n - 1);
      assert es[..n][..n - 1] == es[..n - 1];
      ContentNotCentered(r, sec, n - 1);
      DividersNone(es[n - 1]);
      DividersAppend(ContentsOut(r, sec, n - 1), es[n - 1]);
    } else {
      assert es[..0] == [];
    }
  }

  /** The divider labels of sections 1 to n, in order. */
  function DividerLabels(n: nat): (ls: seq<string>)
    ensures |ls| == n
    ensures forall k :: 0 <= k < n ==> ls[k] == DividerLabel(k)
  {
    if n == 0 then [] else DividerLabels(n - 1) + [DividerLabel(n - 1)]
  }

  /** The head of a section carries its divider when there are several sections, and no other. */
  lemma SectionHeadDividers(count: nat, k: nat, sec: Section)
    ensures Dividers(SectionHead(count, k, sec)) == if count > 1 then [DividerLabel(k)] else []
  {
    var divider: seq<Out> := if count > 1 then [Centered(DividerLabel(k))] else [];
    var heading: seq<Out> := match sec.name case Some(name) => [Line(name + ":")] case None => [];
    DividersAppend(divider, heading);
    DividersNone(heading);
    if count > 1 {
      assert divider[..0] == [];
    }
  }

  /** Section `k` writes one divider, its own, when there are several sections, and none otherwise. */
  lemma SectionDividers(r: Recipe, k: nat)
    requires RecipeValid(r) && k < |r.sections|
    ensures Dividers(RecipeEvents(r)[k]) == if |r.sections| > 1 then [DividerLabel(k)] else []
  {
    var sec := r.sections[k];
    assert RecipeEvents(r)[k] == SectionOut(r, k);
    var head := SectionHead(|r.sections|, k, sec);
    assert SectionValid(r, sec);
    var body := ContentsOut(r, sec, |sec.content|);
    DividersAppend(head, body);
    ContentsHaveNoDividers(r, sec, |sec.content|);
    SectionHeadDividers(|r.sections|, k, sec);
  }

  /** The dividers of the first `n` sections: none for a single section, else one per section, numbered in order. */
  lemma {:induction false} SectionsDividers(r: Recipe, n: nat)
    requires RecipeValid(r) && n <= |r.sections|
    ensures Dividers(SectionsOut(r, n)) == if |r.sections| > 1 then DividerLabels(n) else []
  {
    var es := RecipeEvents(r);
    if n > 0 {
      SectionsDividers(r, n - 1);
      assert es[..n][..n - 1] == es[..n - 1];
      DividersAppend(SectionsOut(r, n - 1), es[n - 1]);
      SectionDividers(r, n - 1);
    } else {
      assert es[..0] == [];
    }
  }

  /**
   * The "Steps:" block carries a divider exactly when the recipe has more
   * than one section, and then one per section, labelled 1 to n in order.
   */
  lemma StepsDividers(r: Recipe)
    requires RecipeValid(r)
    ensures |r.sections| <= 1 ==> Dividers(StepsOut(r)) == []
    ensures |r.sections| > 1 ==>
              var ds := Dividers(StepsOut(r));
              |ds| == |r.sections| && forall k :: 0 <= k < |ds| ==> ds[k] == DividerLabel(k)
  {
    DividersAppend([Line("Steps:")], SectionsOut(r, |r.sections|));
    assert [Line("Steps:")][..0] == [];
    SectionsDividers(r, |r.sections|);
  }

  // ---------------------------------------------------------------------
  // The legend's words

  /** The entries with the legend's brackets attached: "[" before the first, "]" after the last. */
  function Bracketed(es: seq<string>): (bs: seq<string>)
    requires |es| > 0
    ensures |bs| == |es|
  {
    var first := es[0 := "[" + es[0]];
    first[|es| - 1 := first[|es| - 1] + "]"]
  }

  /** A prefix written before a join joins onto its first part. */
  lemma {:induction false} JoinPrefix(sep: string, p: string, es: seq<string>)
    requires |es| > 0
    ensures p + Join(sep, es) == Join(sep, es[0 := p + es[0]])
  {
    if |es| > 1 {
      var init := es[..|es| - 1];
      JoinPrefix(sep, p, init);
      assert es[0 := p + es[0]][..|es| - 1] == init[0 := p + init[0]];
    }
  }

  /** The legend line is the join of the bracketed entries. */
  lemma LegendTextJoin(es: seq<string>)
    requires |es| > 0
    ensures LegendText(es) == Join(", ", Bracketed(es))
  {
    JoinPrefix(", ", "[", es);
    var first := es[0 := "[" + es[0]];
    if |es| > 1 {
      assert first[|es| - 1 := first[|es| - 1] + "]"][..|es| - 1] == first[..|es| - 1];
    }
  }

  /** Attaching a bracket adds no separator. */
  lemma BracketNoSep(e: string)
    requires NoSep(e)
    ensures NoSep("[" + e) && NoSep(e + "]")
  {
    var s := "[" + e;
    forall j | 0 <= j < |s|
      ensures !SepAt(s, j)
    {
      if 0 < j && j + 1 < |s| {
        assert s[j] == e[j - 1] && s[j + 1] == e[j];
        assert !SepAt(e, j - 1);
      }
    }
    var t := e + "]";
    forall j | 0 <= j < |t|
      ensures !SepAt(t, j)
    {
      if j + 2 < |t| {
        assert t[j] == e[j] && t[j + 1] == e[j + 1];
        assert !SepAt(e, j);
      }
    }
  }

  /**
   * How the legend's custom word separator cuts the legend: "[-]" stays one
   * word, and a legend of entries that hold no ", " breaks into exactly one
   * word per entry, each keeping its ", ", the first opening with "[" and
   * the last closing with "]"; no break ever falls inside an entry.
   */
  lemma LegendWords(es: seq<string>)
    requires forall k :: 0 <= k < |es| ==> |es[k]| > 0 && NoSep(es[k])
    ensures |es| == 0 ==> SplitInclusive(LegendText(es)) == ["[-]"]
    ensures |es| > 0 ==> SplitInclusive(LegendText(es)) == Terminated(Bracketed(es))
  {
    if |es| == 0 {
      assert FirstSep("[-]", 0) == 3;
    } else {
      LegendTextJoin(es);
      var bs := Bracketed(es);
      forall k | 0 <= k < |bs|
        ensures |bs[k]| > 0 && NoSep(bs[k])
      {
        BracketNoSep(es[k]);
        if k == 0 && |es| > 1 {
          assert bs[k] == "[" + es[k];
        } else if k == 0 {
          BracketNoSep("[" + es[k]);
          assert bs[k] == "[" + es[k] + "]";
        } else if k == |es| - 1 {
          assert bs[k] == es[k] + "]";
        } else {
          assert bs[k] == es[k];
        }
      }
      SplitInclusiveJoin(bs);
    }
  }
}
