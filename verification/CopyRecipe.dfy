/** Copying a recipe: fresh ids for every line, and step references rewritten
    through the map from old lines to new ones. */
module CopyRecipe {
  import opened Options

  type LineId = nat
  type UserId = nat

  /** Every column of a line but its id. */
  datatype LineData = LineData(order: int, text: string, quantity: Option<real>, unit: Option<string>,
                               ingredient: Option<nat>, amount: Option<real>, approx: bool, note: Option<string>,
                               optional: bool)
  datatype Line = Line(id: LineId, data: LineData)
  datatype Group = Group(name: Option<string>, order: int, lines: seq<Line>)
  datatype StepRow = StepRow(order: int, text: string, refs: seq<LineId>)
  /** What is copied verbatim. */
  datatype Header = Header(title: string, description: Option<string>, image: Option<string>, source: Option<string>,
                           sourceType: string, language: string, servings: Option<real>, servingsUnit: Option<string>,
                           prepMin: Option<int>, cookMin: Option<int>, totalMin: Option<int>, verified: bool,
                           vocabulary: set<string>)
  datatype RecipeRow = RecipeRow(owner: UserId, header: Header, provenance: Option<string>, fingerprint: Option<string>,
                                 extractionMeta: Option<string>, favorite: bool, notes: Option<string>,
                                 groups: seq<Group>, steps: seq<StepRow>)

  function LineCount(groups: seq<Group>): nat {
    if groups == [] then 0 else LineCount(groups[..|groups| - 1]) + |groups[|groups| - 1].lines|
  }

  /** The lines with consecutive new ids from `next`. */
  function CopyLines(lines: seq<Line>, next: LineId): seq<Line> {
    if lines == [] then []
    else
      var n := |lines| - 1;
      CopyLines(lines[..n], next) + [Line(next + n, lines[n].data)]
  }

  function CopyGroups(groups: seq<Group>, next: LineId): seq<Group> {
    if groups == [] then []
    else
      var n := |groups| - 1;
      CopyGroups(groups[..n], next)
      + [Group(groups[n].name, groups[n].order, CopyLines(groups[n].lines, next + LineCount(groups[..n])))]
  }

  function LineMap(lines: seq<Line>, next: LineId, before: map<LineId, LineId>): map<LineId, LineId> {
    if lines == [] then before
    else
      var n := |lines| - 1;
      LineMap(lines[..n], next, before)[lines[n].id := next + n]
  }

  /** From the id of each line to the id of its copy. */
  function IdMap(groups: seq<Group>, next: LineId): map<LineId, LineId> {
    if groups == [] then map[]
    else
      var n := |groups| - 1;
      LineMap(groups[n].lines, next + LineCount(groups[..n]), IdMap(groups[..n], next))
  }

  function Remapped(refs: seq<LineId>, ids: map<LineId, LineId>): seq<LineId> {
    if refs == [] then []
    else
      var n := |refs| - 1;
      var earlier := Remapped(refs[..n], ids);
      if refs[n] in ids then earlier + [ids[refs[n]]] else earlier
  }

  function CopySteps(steps: seq<StepRow>, ids: map<LineId, LineId>): seq<StepRow> {
    if steps == [] then []
    else
      var n := |steps| - 1;
      CopySteps(steps[..n], ids) + [StepRow(steps[n].order, steps[n].text, Remapped(steps[n].refs, ids))]
  }

  function Copied(source: RecipeRow, owner: UserId, provenance: string, next: LineId): RecipeRow {
    RecipeRow(owner, source.header, Some(provenance), None, None, false, None,
              CopyGroups(source.groups, next), CopySteps(source.steps, IdMap(source.groups, next)))
  }

  method CopyGroup(group: Group, next: LineId, ids: map<LineId, LineId>)
    returns (copy: Group, ids': map<LineId, LineId>)
    ensures copy == Group(group.name, group.order, CopyLines(group.lines, next))
    ensures ids' == LineMap(group.lines, next, ids)
  {
    var lines: seq<Line> := [];
    ids' := ids;
    for i := 0 to |group.lines|
      invariant lines == CopyLines(group.lines[..i], next)
      invariant ids' == LineMap(group.lines[..i], next, ids)
    {
      assert group.lines[..i + 1][..i] == group.lines[..i];
      var line := Line(next + i, group.lines[i].data);
      lines := lines + [line];
      ids' := ids'[group.lines[i].id := line.id];
    }
    assert group.lines[..|group.lines|] == group.lines;
    copy := Group(group.name, group.order, lines);
  }

  /** Copies a recipe for a new owner; new lines get the ids from `next` on. */
  method Copy(source: RecipeRow, owner: UserId, provenance: string, next: LineId)
    returns (copy: RecipeRow, next': LineId)
    ensures copy == Copied(source, owner, provenance, next)
    ensures next' == next + LineCount(source.groups)
    ensures copy.owner == owner && copy.header == source.header && copy.provenance == Some(provenance)
    ensures copy.fingerprint.None? && copy.extractionMeta.None? && copy.notes.None? && !copy.favorite
    ensures DistinctIds(source.groups) && IdsBelow(source.groups, next) ==> Isomorphic(source, copy)
  {
    CopiedIsIsomorphic(source, owner, provenance, next);
    var groups: seq<Group>, ids: map<LineId, LineId> := [], map[];
    next' := next;
    for i := 0 to |source.groups|
      invariant groups == CopyGroups(source.groups[..i], next)
      invariant ids == IdMap(source.groups[..i], next)
      invariant next' == next + LineCount(source.groups[..i])
    {
      assert source.groups[..i + 1][..i] == source.groups[..i];
      var group, ids' := CopyGroup(source.groups[i], next', ids);
      groups, ids := groups + [group], ids';
      next' := next' + |source.groups[i].lines|;
    }
    assert source.groups[..|source.groups|] == source.groups;
    var steps: seq<StepRow> := [];
    for i := 0 to |source.steps|
      invariant steps == CopySteps(source.steps[..i], ids)
    {
      assert source.steps[..i + 1][..i] == source.steps[..i];
      var refs := RemapRefs(source.steps[i].refs, ids);
      steps := steps + [StepRow(source.steps[i].order, source.steps[i].text, refs)];
    }
    assert source.steps[..|source.steps|] == source.steps;
    copy := RecipeRow(owner, source.header, Some(provenance), None, None, false, None, groups, steps);
  }

  method RemapRefs(refs: seq<LineId>, ids: map<LineId, LineId>) returns (remapped: seq<LineId>)
    ensures remapped == Remapped(refs, ids)
  {
    remapped := [];
    for i := 0 to |refs|
      invariant remapped == Remapped(refs[..i], ids)
    {
      assert refs[..i + 1][..i] == refs[..i];
      if refs[i] in ids {
        remapped := remapped + [ids[refs[i]]];
      }
    }
    assert refs[..|refs|] == refs;
  }

  // ---------------------------------------------------------------------------
  // The copy is isomorphic to the source
  // ---------------------------------------------------------------------------

  /** `id` is the line at position `l` of group `g`. */
  predicate At(groups: seq<Group>, g: nat, l: nat, id: LineId) {
    g < |groups| && l < |groups[g].lines| && groups[g].lines[l].id == id
  }

  ghost predicate Names(groups: seq<Group>, id: LineId) {
    exists g: nat, l: nat :: At(groups, g, l, id)
  }

  /** Line ids are unique. */
  ghost predicate DistinctIds(groups: seq<Group>) {
    forall g: nat, l: nat, h: nat, m: nat, id: LineId :: At(groups, g, l, id) && At(groups, h, m, id) ==>
      g == h && l == m
  }

  /** `a` and `c` are at the same position of `source` and `copy`. */
  ghost predicate Correspond(source: seq<Group>, copy: seq<Group>, a: LineId, c: LineId) {
    exists g: nat, l: nat :: At(source, g, l, a) && At(copy, g, l, c)
  }

  /** Same groups, same lines in them, whatever the ids. */
  predicate SameContent(a: seq<Group>, b: seq<Group>) {
    && |a| == |b|
    && forall g :: 0 <= g < |a| ==>
         && a[g].name == b[g].name && a[g].order == b[g].order && |a[g].lines| == |b[g].lines|
         && forall l :: 0 <= l < |a[g].lines| ==> a[g].lines[l].data == b[g].lines[l].data
  }

  /** The references that name a line, in order, with repetitions. */
  ghost function Kept(groups: seq<Group>, refs: seq<LineId>): seq<LineId> {
    if refs == [] then []
    else
      var n := |refs| - 1;
      var earlier := Kept(groups, refs[..n]);
      if Names(groups, refs[n]) then earlier + [refs[n]] else earlier
  }

  lemma {:induction false} CopyLinesAre(lines: seq<Line>, next: LineId)
    ensures |CopyLines(lines, next)| == |lines|
    ensures forall l :: 0 <= l < |lines| ==> CopyLines(lines, next)[l] == Line(next + l, lines[l].data)
  {
    if lines != [] {
      CopyLinesAre(lines[..|lines| - 1], next);
    }
  }

  lemma {:induction false} CopyGroupAt(groups: seq<Group>, next: LineId, g: nat)
    requires g < |groups|
    ensures |CopyGroups(groups, next)| == |groups|
    ensures CopyGroups(groups, next)[g] ==
            Group(groups[g].name, groups[g].order, CopyLines(groups[g].lines, next + LineCount(groups[..g])))
  {
    var n := |groups| - 1;
    if g < n {
      CopyGroupAt(groups[..n], next, g);
      assert groups[..n][..g] == groups[..g];
    } else if n > 0 {
      CopyGroupAt(groups[..n], next, 0);
    }
  }

  /** The new ids: consecutive within a group, and rising from group to group. */
  lemma CopyGroupsAre(groups: seq<Group>, next: LineId)
    ensures SameContent(groups, CopyGroups(groups, next))
    ensures forall g, l :: 0 <= g < |groups| && 0 <= l < |groups[g].lines| ==>
              CopyGroups(groups, next)[g].lines[l].id == next + LineCount(groups[..g]) + l
  {
    forall g | 0 <= g < |groups|
      ensures |CopyGroups(groups, next)| == |groups|
      ensures CopyGroups(groups, next)[g] ==
              Group(groups[g].name, groups[g].order, CopyLines(groups[g].lines, next + LineCount(groups[..g])))
    {
      CopyGroupAt(groups, next, g);
    }
    forall g | 0 <= g < |groups|
      ensures |CopyLines(groups[g].lines, next + LineCount(groups[..g]))| == |groups[g].lines|
      ensures forall l :: 0 <= l < |groups[g].lines| ==>
                CopyLines(groups[g].lines, next + LineCount(groups[..g]))[l]
                == Line(next + LineCount(groups[..g]) + l, groups[g].lines[l].data)
    {
      CopyLinesAre(groups[g].lines, next + LineCount(groups[..g]));
    }
  }

  lemma {:induction false} LineCountGrows(groups: seq<Group>, g: nat, h: nat)
    requires g < h <= |groups|
    ensures LineCount(groups[..g]) + |groups[g].lines| <= LineCount(groups[..h])
    decreases h
  {
    assert groups[..h][..h - 1] == groups[..h - 1];
    if g < h - 1 {
      LineCountGrows(groups, g, h - 1);
    }
  }

  /** The ids of a copy are fresh and unique. */
  lemma CopyIdsAreFresh(groups: seq<Group>, next: LineId)
    ensures DistinctIds(CopyGroups(groups, next))
    ensures forall g: nat, l: nat, id: LineId :: At(CopyGroups(groups, next), g, l, id) ==>
              next <= id < next + LineCount(groups)
  {
    CopyGroupsAre(groups, next);
    var copy := CopyGroups(groups, next);
    forall g: nat, l: nat, id: LineId | At(copy, g, l, id)
      ensures id == next + LineCount(groups[..g]) + l && id < next + LineCount(groups)
    {
      LineCountGrows(groups, g, |groups|);
      assert groups[..|groups|] == groups;
    }
    forall g: nat, l: nat, h: nat, m: nat, id: LineId | At(copy, g, l, id) && At(copy, h, m, id)
      ensures g == h && l == m
    {
      if g < h {
        LineCountGrows(groups, g, h);
      } else if h < g {
        LineCountGrows(groups, h, g);
      }
    }
  }

  lemma {:induction false} LineMapIs(lines: seq<Line>, next: LineId, before: map<LineId, LineId>)
    requires forall l, m :: 0 <= l < m < |lines| ==> lines[l].id != lines[m].id
    ensures var ids := LineMap(lines, next, before);
            && (forall l :: 0 <= l < |lines| ==> lines[l].id in ids && ids[lines[l].id] == next + l)
            && (forall id: LineId :: (forall l :: 0 <= l < |lines| ==> lines[l].id != id) ==>
                  (id in ids <==> id in before) && (id in ids ==> ids[id] == before[id]))
  {
    if lines != [] {
      LineMapIs(lines[..|lines| - 1], next, before);
    }
  }

  /** The id map knows exactly the source's lines, and sends each to its copy. */
  lemma {:induction false} IdMapIs(groups: seq<Group>, next: LineId)
    requires DistinctIds(groups)
    ensures forall id: LineId :: id in IdMap(groups, next) <==> Names(groups, id)
    ensures forall g: nat, l: nat, id: LineId :: At(groups, g, l, id) ==>
              id in IdMap(groups, next) && IdMap(groups, next)[id] == next + LineCount(groups[..g]) + l
  {
    if groups != [] {
      var n := |groups| - 1;
      var lines, first := groups[n].lines, next + LineCount(groups[..n]);
      assert DistinctIds(groups[..n]) by {
        forall g: nat, l: nat, h: nat, m: nat, id: LineId | At(groups[..n], g, l, id) && At(groups[..n], h, m, id)
          ensures g == h && l == m
        {
          assert At(groups, g, l, id) && At(groups, h, m, id);
        }
      }
      IdMapIs(groups[..n], next);
      forall l, m | 0 <= l < m < |lines|
        ensures lines[l].id != lines[m].id
      {
        assert At(groups, n, l, lines[l].id) && At(groups, n, m, lines[m].id);
      }
      LineMapIs(lines, first, IdMap(groups[..n], next));
      forall g: nat, l: nat, id: LineId | At(groups, g, l, id)
        ensures id in IdMap(groups, next) && IdMap(groups, next)[id] == next + LineCount(groups[..g]) + l
      {
        if g < n {
          LocateEarlier(groups, next, g, l, id);
          assert At(groups[..n], g, l, id) && groups[..n][..g] == groups[..g];
        } else {
          LocateInLast(groups, next, l);
        }
      }
      forall id: LineId
        ensures id in IdMap(groups, next) <==> Names(groups, id)
      {
        KnownIsNamed(groups, next, id);
      }
    }
  }

  predicate InLines(lines: seq<Line>, id: LineId) {
    exists l :: 0 <= l < |lines| && lines[l].id == id
  }

  lemma NamesSnoc(groups: seq<Group>, id: LineId)
    requires groups != []
    ensures Names(groups, id) <==> Names(groups[..|groups| - 1], id) || InLines(groups[|groups| - 1].lines, id)
  {
    var n := |groups| - 1;
    if g: nat, l: nat :| At(groups, g, l, id) {
      assert g < n ==> At(groups[..n], g, l, id);
    }
    if g: nat, l: nat :| At(groups[..n], g, l, id) {
      assert At(groups, g, l, id);
    }
    if l :| 0 <= l < |groups[n].lines| && groups[n].lines[l].id == id {
      assert At(groups, n, l, id);
    }
  }

  lemma LineMapKnows(lines: seq<Line>, next: LineId, before: map<LineId, LineId>, id: LineId)
    requires forall a, c :: 0 <= a < c < |lines| ==> lines[a].id != lines[c].id
    ensures id in LineMap(lines, next, before) <==> id in before || InLines(lines, id)
  {
    LineMapIs(lines, next, before);
  }

  /** What the last group adds to the ids known. */
  lemma KnownIsNamed(groups: seq<Group>, next: LineId, id: LineId)
    requires groups != []
    requires var lines := groups[|groups| - 1].lines; forall a, c :: 0 <= a < c < |lines| ==> lines[a].id != lines[c].id
    requires id in IdMap(groups[..|groups| - 1], next) <==> Names(groups[..|groups| - 1], id)
    ensures id in IdMap(groups, next) <==> Names(groups, id)
  {
    var n := |groups| - 1;
    NamesSnoc(groups, id);
    LineMapKnows(groups[n].lines, next + LineCount(groups[..n]), IdMap(groups[..n], next), id);
  }

  /** A line of the last group is where its own entry says. */
  lemma LocateInLast(groups: seq<Group>, next: LineId, l: nat)
    requires groups != [] && l < |groups[|groups| - 1].lines|
    requires var lines := groups[|groups| - 1].lines; forall a, c :: 0 <= a < c < |lines| ==> lines[a].id != lines[c].id
    ensures var n := |groups| - 1;
            var id := groups[n].lines[l].id;
            id in IdMap(groups, next) && IdMap(groups, next)[id] == next + LineCount(groups[..n]) + l
  {
    var n := |groups| - 1;
    LineMapIs(groups[n].lines, next + LineCount(groups[..n]), IdMap(groups[..n], next));
  }

  /** A line of an earlier group is where it was before the last group was added. */
  lemma LocateEarlier(groups: seq<Group>, next: LineId, g: nat, l: nat, id: LineId)
    requires groups != [] && DistinctIds(groups) && At(groups, g, l, id) && g < |groups| - 1
    requires var lines := groups[|groups| - 1].lines; forall a, c :: 0 <= a < c < |lines| ==> lines[a].id != lines[c].id
    ensures var before := IdMap(groups[..|groups| - 1], next);
            (id in IdMap(groups, next) <==> id in before) && (id in before ==> IdMap(groups, next)[id] == before[id])
  {
    var n := |groups| - 1;
    LineMapIs(groups[n].lines, next + LineCount(groups[..n]), IdMap(groups[..n], next));
    forall m | 0 <= m < |groups[n].lines|
      ensures groups[n].lines[m].id != id
    {
      assert At(groups, n, m, groups[n].lines[m].id);
    }
  }

  lemma {:induction false} RemappedIs(groups: seq<Group>, next: LineId, refs: seq<LineId>)
    requires DistinctIds(groups)
    ensures var remapped := Remapped(refs, IdMap(groups, next));
            && |remapped| == |Kept(groups, refs)|
            && forall k :: 0 <= k < |remapped| ==>
                 Correspond(groups, CopyGroups(groups, next), Kept(groups, refs)[k], remapped[k])
  {
    if refs != [] {
      var n := |refs| - 1;
      RemappedIs(groups, next, refs[..n]);
      IdMapIs(groups, next);
      CopyGroupsAre(groups, next);
      if refs[n] in IdMap(groups, next) {
        var g: nat, l: nat :| At(groups, g, l, refs[n]);
        assert At(CopyGroups(groups, next), g, l, IdMap(groups, next)[refs[n]]);
      }
    }
  }

  lemma {:induction false} CopyStepsAre(steps: seq<StepRow>, ids: map<LineId, LineId>)
    ensures |CopySteps(steps, ids)| == |steps|
    ensures forall i :: 0 <= i < |steps| ==>
              CopySteps(steps, ids)[i] == StepRow(steps[i].order, steps[i].text, Remapped(steps[i].refs, ids))
  {
    if steps != [] {
      CopyStepsAre(steps[..|steps| - 1], ids);
    }
  }

  ghost predicate IdsBelow(groups: seq<Group>, next: LineId) {
    forall g: nat, l: nat, id: LineId :: At(groups, g, l, id) ==> id < next
  }

  /** Same groups and lines in order, unique ids that are not the source's, and in each
      step the references that name a line, in order and as often, each now naming the
      line at the same position of the copy. */
  ghost predicate Isomorphic(source: RecipeRow, copy: RecipeRow) {
    && SameContent(source.groups, copy.groups)
    && DistinctIds(copy.groups)
    && (forall id: LineId :: !(Names(source.groups, id) && Names(copy.groups, id)))
    && |copy.steps| == |source.steps|
    && forall i :: 0 <= i < |source.steps| ==> SameStep(source, copy, source.steps[i], copy.steps[i])
  }

  ghost predicate SameStep(source: RecipeRow, copy: RecipeRow, step: StepRow, copied: StepRow) {
    var kept := Kept(source.groups, step.refs);
    && copied.order == step.order
    && copied.text == step.text
    && |copied.refs| == |kept|
    && forall k :: 0 <= k < |kept| ==> Correspond(source.groups, copy.groups, kept[k], copied.refs[k])
  }

  /** The copy is isomorphic to the source. */
  lemma CopyIsIsomorphic(source: RecipeRow, owner: UserId, provenance: string, next: LineId)
    requires DistinctIds(source.groups) && IdsBelow(source.groups, next)
    ensures Isomorphic(source, Copied(source, owner, provenance, next))
  {
    var copy := Copied(source, owner, provenance, next);
    CopyGroupsAre(source.groups, next);
    CopyIdsAreFresh(source.groups, next);
    CopyStepsAre(source.steps, IdMap(source.groups, next));
    forall i | 0 <= i < |source.steps|
      ensures SameStep(source, copy, source.steps[i], copy.steps[i])
    {
      RemappedIs(source.groups, next, source.steps[i].refs);
    }
  }

  lemma CopiedIsIsomorphic(source: RecipeRow, owner: UserId, provenance: string, next: LineId)
    ensures DistinctIds(source.groups) && IdsBelow(source.groups, next) ==>
              Isomorphic(source, Copied(source, owner, provenance, next))
  {
    if DistinctIds(source.groups) && IdsBelow(source.groups, next) {
      CopyIsIsomorphic(source, owner, provenance, next);
    }
  }

  /** Of the references, each that names a line is kept, and no other. */
  lemma KeptNext(groups: seq<Group>, refs: seq<LineId>, last: LineId)
    ensures Kept(groups, []) == []
    ensures Kept(groups, refs + [last]) == Kept(groups, refs) + if Names(groups, last) then [last] else []
  {
    assert (refs + [last])[..|refs|] == refs;
  }

  /** A line corresponds to one line of the copy only, so the references above are
      determined: equal references stay equal and different ones different. */
  lemma CorrespondenceIsOneToOne(source: seq<Group>, copy: seq<Group>, a: LineId, c: LineId, b: LineId, d: LineId)
    requires DistinctIds(source) && DistinctIds(copy)
    requires Correspond(source, copy, a, c) && Correspond(source, copy, b, d)
    ensures a == b <==> c == d
  {
  }
}
