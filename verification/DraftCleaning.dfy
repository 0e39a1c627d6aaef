/** What cleaning a recipe keeps, position by position, and when two recipes count as
    the same. */
module DraftCleaning {
  import opened Options
  import opened Drafts
  import opened TextLaws

  /** The text has a character that is neither a space, a tab nor an end of line. */
  predicate Visible(text: string) {
    exists i :: 0 <= i < |text| && text[i] != ' ' && text[i] != '\t' && text[i] != '\n' && text[i] != '\r'
  }

  /** `from` are the positions to be kept, in order. */
  ghost predicate Picks(from: seq<nat>, keep: set<nat>) {
    && (forall a, b :: 0 <= a < b < |from| ==> from[a] < from[b])
    && (forall i: nat :: i in from <==> i in keep)
  }

  /** The positions after one more element in front. */
  function Shifted(from: seq<nat>): (s: seq<nat>)
    ensures |s| == |from| && forall a :: 0 <= a < |s| ==> s[a] == from[a] + 1
  {
    seq(|from|, a requires 0 <= a < |from| => from[a] + 1)
  }

  lemma InShifted(from: seq<nat>, i: nat)
    ensures i in Shifted(from) <==> i > 0 && i - 1 in from
  {
    if i > 0 && i - 1 in from {
      var a :| 0 <= a < |from| && from[a] == i - 1;
      assert Shifted(from)[a] == i;
    }
    if i in Shifted(from) {
      var a :| 0 <= a < |from| && Shifted(from)[a] == i;
      assert from[a] in from;
    }
  }

  lemma PicksCons(rest: seq<nat>, keep: set<nat>, all: set<nat>, from: seq<nat>)
    requires Picks(rest, keep) && forall i: nat :: i + 1 in all <==> i in keep
    requires from == if 0 in all then [0] + Shifted(rest) else Shifted(rest)
    ensures Picks(from, all)
  {
    forall i: nat
      ensures i in from <==> i in all
    {
      InShifted(rest, i);
      assert i > 0 ==> (i in all <==> i - 1 in keep);
    }
  }

  // ---------------------------------------------------------------------------
  // Steps and lines
  // ---------------------------------------------------------------------------

  ghost function VisibleSteps(steps: seq<string>): set<nat> {
    set i: nat | i < |steps| && Visible(steps[i])
  }

  lemma FirstStepKept(steps: seq<string>)
    requires steps != []
    ensures CleanSteps(steps) ==
            if Visible(steps[0]) then [steps[0]] + CleanSteps(steps[1..]) else CleanSteps(steps[1..])
  {
  }

  /** Exactly the visible steps are kept, unchanged and in order. */
  lemma {:induction false} StepsKept(steps: seq<string>) returns (from: seq<nat>)
    ensures Picks(from, VisibleSteps(steps))
    ensures |CleanSteps(steps)| == |from|
    ensures forall a :: 0 <= a < |from| ==> from[a] < |steps| && CleanSteps(steps)[a] == steps[from[a]]
  {
    if steps == [] {
      from := [];
    } else {
      var rest := StepsKept(steps[1..]);
      FirstStepKept(steps);
      if Visible(steps[0]) {
        from := [0] + Shifted(rest);
        forall a | 0 <= a < |from|
          ensures from[a] < |steps| && CleanSteps(steps)[a] == steps[from[a]]
        {
          assert a > 0 ==>
            && steps[from[a]] == steps[1..][rest[a - 1]]
            && CleanSteps(steps)[a] == CleanSteps(steps[1..])[a - 1];
        }
      } else {
        from := Shifted(rest);
      }
      PicksCons(rest, VisibleSteps(steps[1..]), VisibleSteps(steps), from);
    }
  }

  /** A cleaned line keeps everything but a quantity that is not positive. */
  predicate IsCleaned(line: NormalizedLine, clean: NormalizedLine) {
    && clean.text == line.text && clean.unit == line.unit && clean.name == line.name
    && if line.quantity.Some? && 0.0 < line.quantity.value then clean.quantity == line.quantity
       else clean.quantity.None?
  }

  ghost function VisibleLines(lines: seq<NormalizedLine>): set<nat> {
    set i: nat | i < |lines| && Visible(lines[i].text)
  }

  lemma LineIsCleaned(line: NormalizedLine)
    ensures IsCleaned(line, CleanLine(line))
  {
  }

  lemma FirstLineKept(lines: seq<NormalizedLine>)
    requires lines != []
    ensures CleanLines(lines) ==
            if Visible(lines[0].text) then [CleanLine(lines[0])] + CleanLines(lines[1..]) else CleanLines(lines[1..])
  {
  }

  /** The same of the lines, each cleaned. */
  lemma {:induction false} LinesKept(lines: seq<NormalizedLine>) returns (from: seq<nat>)
    ensures Picks(from, VisibleLines(lines))
    ensures |CleanLines(lines)| == |from|
    ensures forall a :: 0 <= a < |from| ==> from[a] < |lines| && IsCleaned(lines[from[a]], CleanLines(lines)[a])
  {
    if lines == [] {
      from := [];
    } else {
      var rest := LinesKept(lines[1..]);
      FirstLineKept(lines);
      if Visible(lines[0].text) {
        from := [0] + Shifted(rest);
        LineIsCleaned(lines[0]);
        forall a | 0 <= a < |from|
          ensures from[a] < |lines| && IsCleaned(lines[from[a]], CleanLines(lines)[a])
        {
          assert a > 0 ==>
            && lines[from[a]] == lines[1..][rest[a - 1]]
            && CleanLines(lines)[a] == CleanLines(lines[1..])[a - 1];
        }
      } else {
        from := Shifted(rest);
      }
      PicksCons(rest, VisibleLines(lines[1..]), VisibleLines(lines), from);
    }
  }

  ghost predicate HasVisibleLine(group: NormalizedGroup) {
    VisibleLines(group.lines) != {}
  }

  lemma NoLinesLeft(group: NormalizedGroup)
    ensures CleanLines(group.lines) == [] <==> !HasVisibleLine(group)
  {
    var from := LinesKept(group.lines);
    if from != [] {
      assert from[0] in VisibleLines(group.lines);
    }
  }

  ghost function VisibleGroups(groups: seq<NormalizedGroup>): set<nat> {
    set i: nat | i < |groups| && HasVisibleLine(groups[i])
  }

  predicate SameGroup(group: NormalizedGroup, clean: NormalizedGroup) {
    clean.name == group.name && clean.lines == CleanLines(group.lines)
  }

  lemma FirstGroupKept(groups: seq<NormalizedGroup>)
    requires groups != []
    ensures if HasVisibleLine(groups[0]) then
              && |CleanGroups(groups)| == 1 + |CleanGroups(groups[1..])|
              && SameGroup(groups[0], CleanGroups(groups)[0])
              && CleanGroups(groups)[1..] == CleanGroups(groups[1..])
            else CleanGroups(groups) == CleanGroups(groups[1..])
  {
    NoLinesLeft(groups[0]);
  }

  /** Exactly the groups with a visible line are kept, in order, each under its own
      name with its own lines. */
  lemma {:induction false} GroupsKept(groups: seq<NormalizedGroup>) returns (from: seq<nat>)
    ensures Picks(from, VisibleGroups(groups))
    ensures |CleanGroups(groups)| == |from|
    ensures forall a :: 0 <= a < |from| ==> from[a] < |groups| && SameGroup(groups[from[a]], CleanGroups(groups)[a])
  {
    if groups == [] {
      from := [];
    } else {
      var rest := GroupsKept(groups[1..]);
      FirstGroupKept(groups);
      if HasVisibleLine(groups[0]) {
        from := [0] + Shifted(rest);
        forall a | 0 <= a < |from|
          ensures from[a] < |groups| && SameGroup(groups[from[a]], CleanGroups(groups)[a])
        {
          if a > 0 {
            assert groups[from[a]] == groups[1..][rest[a - 1]];
            assert CleanGroups(groups)[a] == CleanGroups(groups)[1..][a - 1];
          }
        }
      } else {
        from := Shifted(rest);
      }
      PicksCons(rest, VisibleGroups(groups[1..]), VisibleGroups(groups), from);
    }
  }

  // ---------------------------------------------------------------------------
  // The title
  // ---------------------------------------------------------------------------

  /** `core` is the text without the white space around it. */
  ghost predicate IsCore(core: string, text: string) {
    && (core != "" ==> Visible(core[..1]) && Visible(core[|core| - 1..]))
    && exists before, after :: text == before + core + after && !Visible(before) && !Visible(after)
  }

  lemma VisibleChar(text: string, i: nat)
    requires i < |text|
    ensures Visible([text[i]]) <==> !IsSpace(text[i])
  {
    assert [text[i]][0] == text[i];
  }

  lemma BlankPlus(a: string, b: string)
    requires !Visible(a) && !Visible(b)
    ensures !Visible(a + b)
  {
  }

  predicate NoSpaceAround(core: string) {
    core != "" ==> !IsSpace(core[0]) && !IsSpace(core[|core| - 1])
  }

  lemma CoreOf(before: string, core: string, after: string, text: string)
    requires text == before + core + after && !Visible(before) && !Visible(after)
    requires NoSpaceAround(core)
    ensures IsCore(core, text)
  {
    if core != "" {
      VisibleChar(core, 0);
      VisibleChar(core, |core| - 1);
      assert core[..1] == [core[0]] && core[|core| - 1..] == [core[|core| - 1]];
    }
  }

  lemma FrontAdded(text: string, before: string, core: string, after: string)
    requires text != "" && IsSpace(text[0]) && text[1..] == before + core + after && !Visible(before)
    ensures text == [text[0]] + before + core + after && !Visible([text[0]] + before)
  {
    VisibleChar(text, 0);
    BlankPlus([text[0]], before);
  }

  lemma BackAdded(text: string, before: string, core: string, after: string)
    requires text != "" && IsSpace(text[|text| - 1]) && text[..|text| - 1] == before + core + after && !Visible(after)
    ensures text == before + core + (after + [text[|text| - 1]]) && !Visible(after + [text[|text| - 1]])
  {
    VisibleChar(text, |text| - 1);
    BlankPlus(after, [text[|text| - 1]]);
    assert text == text[..|text| - 1] + [text[|text| - 1]];
  }

  lemma {:induction false} StrippedParts(text: string) returns (before: string, after: string)
    ensures text == before + Stripped(text) + after && !Visible(before) && !Visible(after)
    ensures NoSpaceAround(Stripped(text))
    decreases |text|
  {
    before, after := "", "";
    if text != "" && IsSpace(text[0]) {
      before, after := StrippedParts(text[1..]);
      FrontAdded(text, before, Stripped(text), after);
      before := [text[0]] + before;
    } else if text != "" && IsSpace(text[|text| - 1]) {
      before, after := StrippedParts(text[..|text| - 1]);
      BackAdded(text, before, Stripped(text), after);
      after := after + [text[|text| - 1]];
    }
  }

  lemma StrippedIsCore(text: string)
    ensures IsCore(Stripped(text), text)
  {
    var before, after := StrippedParts(text);
    CoreOf(before, Stripped(text), after, text);
  }

  /** The title without white space around it, cut at 300 characters; a standard one
      when nothing is left. */
  lemma TitleIs(title: string)
    ensures exists core :: IsCore(core, title)
              && CleanTitle(title) == if core == "" then "Untitled recipe"
                                      else if |core| > 300 then core[..300] else core
  {
    StrippedIsCore(title);
    var core := Stripped(title);
    assert IsCore(core, title);
  }

  /** A recipe is dropped exactly when none of its lines is visible. */
  lemma DroppedExactly(recipe: NormalizedRecipe)
    ensures ToRecipeIn(recipe).None? <==> forall i :: 0 <= i < |recipe.groups| ==> !HasVisibleLine(recipe.groups[i])
    ensures ToRecipeIn(recipe).Some? ==>
              && ToRecipeIn(recipe).value.title == CleanTitle(recipe.title)
              && ToRecipeIn(recipe).value.groups == CleanGroups(recipe.groups)
              && ToRecipeIn(recipe).value.steps == CleanSteps(recipe.steps)
  {
    var from := GroupsKept(recipe.groups);
    if from != [] {
      assert from[0] in VisibleGroups(recipe.groups);
    }
    if i :| 0 <= i < |recipe.groups| && HasVisibleLine(recipe.groups[i]) {
      assert i in VisibleGroups(recipe.groups);
    }
  }

  // ---------------------------------------------------------------------------
  // When two recipes of one result count as the same
  // ---------------------------------------------------------------------------

  /** A line under its group's name. */
  function Labelled(group: NormalizedGroup, line: NormalizedLine): string {
    match group.name
    case None => ":" + line.text
    case Some(name) => name + ":" + line.text
  }

  function LabelledAll(group: NormalizedGroup, lines: seq<NormalizedLine>): seq<string> {
    if lines == [] then []
    else LabelledAll(group, lines[..|lines| - 1]) + [Labelled(group, lines[|lines| - 1])]
  }

  function AllLabelled(groups: seq<NormalizedGroup>): seq<string> {
    if groups == [] then []
    else
      var last := groups[|groups| - 1];
      AllLabelled(groups[..|groups| - 1]) + LabelledAll(last, last.lines)
  }

  /** Title, lines and steps, as one text. */
  function WholeText(data: RecipeIn): string {
    data.title + "|" + Chained(AllLabelled(data.groups), "\n") + "|" + Chained(data.steps, "\n")
  }

  lemma {:induction false} LabelledFront(group: NormalizedGroup, lines: seq<NormalizedLine>)
    requires lines != []
    ensures LabelledAll(group, lines) == [Labelled(group, lines[0])] + LabelledAll(group, lines[1..])
  {
    var n := |lines| - 1;
    if n > 0 {
      LabelledFront(group, lines[..n]);
      assert lines[..n][1..] == lines[1..][..n - 1];
      ConcatAssociates([Labelled(group, lines[0])], LabelledAll(group, lines[1..n]), [Labelled(group, lines[n])]);
    }
  }

  lemma FirstLabel(group: NormalizedGroup, lines: seq<NormalizedLine>)
    requires lines != []
    ensures LabelledLines(group, lines) == [Labelled(group, lines[0])] + LabelledLines(group, lines[1..])
  {
    var heading := if group.name.Some? then group.name.value else "";
    assert heading + ":" + lines[0].text == Labelled(group, lines[0]);
  }

  lemma {:induction false} LabelledLinesAre(group: NormalizedGroup, lines: seq<NormalizedLine>)
    ensures LabelledLines(group, lines) == LabelledAll(group, lines)
  {
    if lines != [] {
      LabelledLinesAre(group, lines[1..]);
      FirstLabel(group, lines);
      LabelledFront(group, lines);
    }
  }

  lemma {:induction false} AllLabelledFront(groups: seq<NormalizedGroup>)
    requires groups != []
    ensures AllLabelled(groups) == LabelledAll(groups[0], groups[0].lines) + AllLabelled(groups[1..])
  {
    var n := |groups| - 1;
    if n > 0 {
      AllLabelledFront(groups[..n]);
      assert groups[..n][1..] == groups[1..][..n - 1];
      ConcatAssociates(LabelledAll(groups[0], groups[0].lines), AllLabelled(groups[1..n]),
                       LabelledAll(groups[n], groups[n].lines));
    }
  }

  lemma {:induction false} LineTextsAre(groups: seq<NormalizedGroup>)
    ensures LineTexts(groups) == AllLabelled(groups)
  {
    if groups != [] {
      LineTextsAre(groups[1..]);
      LabelledLinesAre(groups[0], groups[0].lines);
      AllLabelledFront(groups);
    }
  }

  /** Two recipes have one content key exactly when their titles, lines and steps read
      the same but for case. */
  lemma KeyComparesTexts(a: RecipeIn, b: RecipeIn)
    ensures ContentKey(a) == ContentKey(b) <==> SameLetters(WholeText(a), WholeText(b))
  {
    KeyIsFolded(a);
    KeyIsFolded(b);
    FoldedCompares(WholeText(a), WholeText(b));
  }

  lemma KeyIsFolded(data: RecipeIn)
    ensures ContentKey(data) == Folded(WholeText(data))
  {
    LineTextsAre(data.groups);
    JoinedIsChained(LineTexts(data.groups), "\n");
    JoinedIsChained(data.steps, "\n");
  }
}
