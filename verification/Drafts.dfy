/** From an extraction result to unverified draft recipes: cleaning each
    normalized recipe, collapsing duplicates, and creating the rows. */
module Drafts {
  import opened Options
  import opened JobQueue

  const MAX_TITLE_LEN := 300
  const UNTITLED := "Untitled recipe"

  datatype NormalizedLine = NormalizedLine(text: string, quantity: Option<real>, unit: Option<string>,
                                           name: Option<string>)
  datatype NormalizedGroup = NormalizedGroup(name: Option<string>, lines: seq<NormalizedLine>)
  datatype NormalizedRecipe = NormalizedRecipe(title: string, groups: seq<NormalizedGroup>, steps: seq<string>)

  /** What `create_recipe` receives; the same shapes, cleaned. */
  datatype RecipeIn = RecipeIn(title: string, groups: seq<NormalizedGroup>, steps: seq<string>)

  predicate IsSpace(c: char) {
    c == ' ' || c == '\t' || c == '\n' || c == '\r'
  }

  predicate IsBlank(s: string) {
    forall i :: 0 <= i < |s| ==> IsSpace(s[i])
  }

  function Stripped(s: string): string
    decreases |s|
  {
    if s == "" then s
    else if IsSpace(s[0]) then Stripped(s[1..])
    else if IsSpace(s[|s| - 1]) then Stripped(s[..|s| - 1])
    else s
  }

  function CleanTitle(title: string): string {
    var stripped := Truncated(Stripped(title), MAX_TITLE_LEN);
    if stripped == "" then UNTITLED else stripped
  }

  function CleanLine(line: NormalizedLine): NormalizedLine {
    line.(quantity := if line.quantity.Some? && line.quantity.value > 0.0 then line.quantity else None)
  }

  function CleanLines(lines: seq<NormalizedLine>): seq<NormalizedLine> {
    if lines == [] then []
    else if IsBlank(lines[0].text) then CleanLines(lines[1..])
    else [CleanLine(lines[0])] + CleanLines(lines[1..])
  }

  function CleanGroups(groups: seq<NormalizedGroup>): seq<NormalizedGroup> {
    if groups == [] then []
    else
      var kept := CleanLines(groups[0].lines);
      if kept == [] then CleanGroups(groups[1..])
      else [NormalizedGroup(groups[0].name, kept)] + CleanGroups(groups[1..])
  }

  function CleanSteps(steps: seq<string>): seq<string> {
    if steps == [] then []
    else if IsBlank(steps[0]) then CleanSteps(steps[1..])
    else [steps[0]] + CleanSteps(steps[1..])
  }

  /** `None` when no ingredient line survives: the draft is skipped. */
  function ToRecipeIn(recipe: NormalizedRecipe): Option<RecipeIn> {
    var groups := CleanGroups(recipe.groups);
    if groups == [] then None
    else Some(RecipeIn(CleanTitle(recipe.title), groups, CleanSteps(recipe.steps)))
  }

  /** Cleaning distributes over concatenation, so a loop may clean from the left. */
  lemma {:induction false} CleanGroupsAppend(groups: seq<NormalizedGroup>, last: NormalizedGroup)
    ensures CleanGroups(groups + [last]) == CleanGroups(groups) + CleanGroups([last])
  {
    if groups != [] {
      CleanGroupsAppend(groups[1..], last);
      assert (groups + [last])[1..] == groups[1..] + [last];
    }
  }

  /** Lines of a recipe, in order, over all its groups. */
  function AllLines(groups: seq<NormalizedGroup>): seq<NormalizedLine> {
    if groups == [] then [] else groups[0].lines + AllLines(groups[1..])
  }

  lemma TailOfConcat<T>(a: seq<T>, b: seq<T>)
    requires a != []
    ensures a + b != [] && (a + b)[0] == a[0] && (a + b)[1..] == a[1..] + b
  {
  }

  lemma ConcatAssociates<T>(a: seq<T>, b: seq<T>, c: seq<T>)
    ensures a + (b + c) == (a + b) + c
  {
  }

  lemma {:induction false} CleanLinesConcat(a: seq<NormalizedLine>, b: seq<NormalizedLine>)
    ensures CleanLines(a + b) == CleanLines(a) + CleanLines(b)
  {
    if a == [] {
      assert a + b == b;
    } else {
      CleanLinesConcat(a[1..], b);
      TailOfConcat(a, b);
      ConcatAssociates([CleanLine(a[0])], CleanLines(a[1..]), CleanLines(b));
    }
  }

  /** Regrouping loses nothing: the lines of the cleaned recipe are exactly the
      cleaned lines of the original, in order, and no group is left empty. */
  lemma {:induction false} CleaningKeepsLines(groups: seq<NormalizedGroup>)
    ensures AllLines(CleanGroups(groups)) == CleanLines(AllLines(groups))
    ensures forall g :: g in CleanGroups(groups) ==> g.lines != []
  {
    if groups != [] {
      CleaningKeepsLines(groups[1..]);
      CleanLinesConcat(groups[0].lines, AllLines(groups[1..]));
      var kept := CleanLines(groups[0].lines);
      if kept == [] {
        assert CleanGroups(groups) == CleanGroups(groups[1..]);
      } else {
        assert CleanGroups(groups)[1..] == CleanGroups(groups[1..]);
      }
    }
  }

  method CleanRecipe(recipe: NormalizedRecipe) returns (data: Option<RecipeIn>)
    ensures data == ToRecipeIn(recipe)
  {
    var groups: seq<NormalizedGroup> := [];
    for i := 0 to |recipe.groups|
      invariant groups == CleanGroups(recipe.groups[..i])
    {
      CleanGroupsAppend(recipe.groups[..i], recipe.groups[i]);
      assert recipe.groups[..i + 1] == recipe.groups[..i] + [recipe.groups[i]];
      var lines := CleanLines(recipe.groups[i].lines);
      if lines != [] {
        groups := groups + [NormalizedGroup(recipe.groups[i].name, lines)];
      }
    }
    assert recipe.groups[..|recipe.groups|] == recipe.groups;
    if groups == [] {
      return None;
    }
    return Some(RecipeIn(CleanTitle(recipe.title), groups, CleanSteps(recipe.steps)));
  }

  function Lower(c: char): char {
    if 'A' <= c <= 'Z' then c - 'A' + 'a' else c
  }

  function Folded(s: string): string {
    seq(|s|, i requires 0 <= i < |s| => Lower(s[i]))
  }

  function Joined(parts: seq<string>, separator: string): string {
    if parts == [] then ""
    else if |parts| == 1 then parts[0]
    else parts[0] + separator + Joined(parts[1..], separator)
  }

  function LabelledLines(group: NormalizedGroup, lines: seq<NormalizedLine>): seq<string> {
    if lines == [] then []
    else
      var heading := if group.name.Some? then group.name.value else "";
      [heading + ":" + lines[0].text] + LabelledLines(group, lines[1..])
  }

  function LineTexts(groups: seq<NormalizedGroup>): seq<string> {
    if groups == [] then [] else LabelledLines(groups[0], groups[0].lines) + LineTexts(groups[1..])
  }

  /** The content fingerprint: two recipes of one result with the same key
      collapse into one draft. */
  function ContentKey(data: RecipeIn): string {
    Folded(data.title + "|" + Joined(LineTexts(data.groups), "\n") + "|" + Joined(data.steps, "\n"))
  }

  /** The drafts of the recipes from `from` on, given the content keys already
      seen. */
  function Plan(result: seq<NormalizedRecipe>, from: nat, seen: set<string>): seq<RecipeIn>
    requires from <= |result|
    decreases |result| - from
  {
    if from == |result| then []
    else
      match ToRecipeIn(result[from])
      case None => Plan(result, from + 1, seen)
      case Some(data) =>
        if ContentKey(data) in seen then Plan(result, from + 1, seen)
        else [data] + Plan(result, from + 1, seen + {ContentKey(data)})
  }

  /** The recipe at `i` as a draft, unless it is unusable or its content was seen. */
  method NextDraft(result: seq<NormalizedRecipe>, i: nat, seen: set<string>)
    returns (data: Option<RecipeIn>, seen': set<string>)
    requires i < |result|
    ensures data.None? ==> Plan(result, i, seen) == Plan(result, i + 1, seen')
    ensures data.Some? ==> Plan(result, i, seen) == [data.value] + Plan(result, i + 1, seen')
  {
    data := CleanRecipe(result[i]);
    if data.None? || ContentKey(data.value) in seen {
      return None, seen;
    }
    return data, seen + {ContentKey(data.value)};
  }

  /** Recipe `i` has usable lines and a content key that neither `seen` nor any
      recipe since `from` has. */
  ghost predicate FirstOfItsKey(result: seq<NormalizedRecipe>, from: nat, seen: set<string>, i: nat) {
    && from <= i < |result|
    && ToRecipeIn(result[i]).Some?
    && ContentKey(ToRecipeIn(result[i]).value) !in seen
    && forall k :: from <= k < i && ToRecipeIn(result[k]).Some? ==>
         ContentKey(ToRecipeIn(result[k]).value) != ContentKey(ToRecipeIn(result[i]).value)
  }

  lemma FirstInTail(result: seq<NormalizedRecipe>, from: nat, seen: set<string>, i: nat)
    requires from < |result| && i > from
    ensures var data := ToRecipeIn(result[from]);
            var seen' := if data.Some? then seen + {ContentKey(data.value)} else seen;
            FirstOfItsKey(result, from + 1, seen', i) <==> FirstOfItsKey(result, from, seen, i)
  {
  }

  /** The picks are exactly the firsts of their keys. */
  ghost predicate PicksFirsts(result: seq<NormalizedRecipe>, from: nat, seen: set<string>, picks: seq<nat>) {
    forall i: nat :: i in picks <==> FirstOfItsKey(result, from, seen, i)
  }

  lemma PicksWithFirst(result: seq<NormalizedRecipe>, from: nat, seen: set<string>, seen': set<string>, rest: seq<nat>)
    requires from < |result|
    requires var data := ToRecipeIn(result[from]);
             seen' == if data.Some? then seen + {ContentKey(data.value)} else seen
    requires PicksFirsts(result, from + 1, seen', rest)
    ensures PicksFirsts(result, from, seen, if FirstOfItsKey(result, from, seen, from) then [from] + rest else rest)
  {
    var picks := if FirstOfItsKey(result, from, seen, from) then [from] + rest else rest;
    forall i: nat
      ensures i in picks <==> FirstOfItsKey(result, from, seen, i)
    {
      if i > from {
        FirstInTail(result, from, seen, i);
        assert i in picks <==> i in rest;
      }
    }
  }

  /** A recipe becomes a draft exactly when its content did not occur before, and
      drafts keep the order of the result: `picks` gives the position each came from. */
  lemma {:induction false} PlanPicksFirsts(result: seq<NormalizedRecipe>, from: nat, seen: set<string>)
    returns (picks: seq<nat>)
    requires from <= |result|
    ensures |picks| == |Plan(result, from, seen)|
    ensures forall a, b :: 0 <= a < b < |picks| ==> picks[a] < picks[b]
    ensures PicksFirsts(result, from, seen, picks)
    ensures forall a :: 0 <= a < |picks| ==>
              && from <= picks[a] < |result|
              && ToRecipeIn(result[picks[a]]) == Some(Plan(result, from, seen)[a])
    decreases |result| - from
  {
    if from == |result| {
      return [];
    }
    var data := ToRecipeIn(result[from]);
    var isNew := data.Some? && ContentKey(data.value) !in seen;
    var seen' := if data.Some? then seen + {ContentKey(data.value)} else seen;
    assert !isNew ==> seen' == seen;
    var rest := PlanPicksFirsts(result, from + 1, seen');
    PicksWithFirst(result, from, seen, seen', rest);
    picks := if isNew then [from] + rest else rest;
  }

  /** Two drafts of one result never share their content key. */
  lemma PlanHasDistinctKeys(result: seq<NormalizedRecipe>, a: nat, b: nat)
    requires a < b < |Plan(result, 0, {})|
    ensures ContentKey(Plan(result, 0, {})[a]) != ContentKey(Plan(result, 0, {})[b])
  {
    var picks := PlanPicksFirsts(result, 0, {});
    assert picks[b] in picks;
  }

  /** Which attempt made a recipe. `Draft` is bookkeeping of the model: it names
      the job and the position of the draft in that job's result. */
  datatype Origin = Manual | Draft(job: JobId, index: nat)

  datatype Recipe = Recipe(owner: UserId, fingerprint: Option<string>, verified: bool, content: RecipeIn,
                           origin: Origin)

  /** Some recipe of `owner` already carries `fingerprint`. */
  predicate Taken(recipes: map<RecipeId, Recipe>, owner: UserId, fingerprint: Option<string>) {
    && fingerprint.Some?
    && exists r :: r in recipes && recipes[r].owner == owner && recipes[r].fingerprint == fingerprint
  }

  function DraftIds(next: nat, count: nat): (ids: seq<RecipeId>)
    ensures |ids| == count
  {
    if count == 0 then [] else DraftIds(next, count - 1) + [next + count - 1]
  }

  lemma {:induction false} DraftIdsAre(next: nat, count: nat)
    ensures forall i :: 0 <= i < count ==> DraftIds(next, count)[i] == next + i
    ensures forall r :: r in DraftIds(next, count) <==> next <= r < next + count
  {
    if count > 0 {
      DraftIdsAre(next, count - 1);
    }
  }

  /** The draft at `index` of a result; only the first one carries the fingerprint. */
  function DraftRow(owner: UserId, fingerprint: Option<string>, data: RecipeIn, job: JobId, index: nat): Recipe {
    Recipe(owner, if index == 0 then fingerprint else None, false, data, Draft(job, index))
  }

  function WithDrafts(recipes: map<RecipeId, Recipe>, next: nat, owner: UserId, fingerprint: Option<string>,
                      drafts: seq<RecipeIn>, job: JobId): map<RecipeId, Recipe>
  {
    if drafts == [] then recipes
    else
      var n := |drafts| - 1;
      WithDrafts(recipes, next, owner, fingerprint, drafts[..n], job)
        [next + n := DraftRow(owner, fingerprint, drafts[n], job, n)]
  }

  lemma WithDraftsSnoc(recipes: map<RecipeId, Recipe>, next: nat, owner: UserId, fingerprint: Option<string>,
                       drafts: seq<RecipeIn>, data: RecipeIn, job: JobId)
    ensures WithDrafts(recipes, next, owner, fingerprint, drafts + [data], job) ==
            WithDrafts(recipes, next, owner, fingerprint, drafts, job)
              [next + |drafts| := DraftRow(owner, fingerprint, data, job, |drafts|)]
  {
    assert (drafts + [data])[..|drafts|] == drafts;
  }

  /** Creating drafts adds exactly the new rows and disturbs no row below `next`. */
  lemma {:induction false} WithDraftsRows(recipes: map<RecipeId, Recipe>, next: nat, owner: UserId,
                                          fingerprint: Option<string>, drafts: seq<RecipeIn>, job: JobId)
    requires forall r :: r in recipes ==> r < next
    ensures var rows := WithDrafts(recipes, next, owner, fingerprint, drafts, job);
            && (forall r :: r in rows <==> r in recipes || next <= r < next + |drafts|)
            && (forall r :: r in recipes ==> rows[r] == recipes[r])
            && (forall r :: next <= r < next + |drafts| ==>
                  rows[r] == DraftRow(owner, fingerprint, drafts[r - next], job, r - next))
  {
    if drafts != [] {
      WithDraftsRows(recipes, next, owner, fingerprint, drafts[..|drafts| - 1], job);
    }
  }

  datatype Persisted =
    | Created(ids: seq<RecipeId>)
    | AlreadyImported
    | CapTripped

  class RecipeTable {
    var rows: map<RecipeId, Recipe>
    /** Every id at or above `next` is unused, and was never used. */
    var next: RecipeId

    constructor ()
      ensures rows == map[] && next == 0
    {
      rows := map[];
      next := 0;
    }

    ghost predicate Valid()
      reads this
    {
      forall r :: r in rows ==> r < next
    }

    method CreateRecipe(owner: UserId, data: RecipeIn, fingerprint: Option<string>, origin: Origin)
      returns (id: Option<RecipeId>)
      requires Valid()
      modifies this
      ensures Valid()
      ensures id.None? <==> Taken(old(rows), owner, fingerprint)
      ensures id.None? ==> rows == old(rows) && next == old(next)
      ensures id.Some? ==>
                && id.value == old(next)
                && next == old(next) + 1
                && rows == old(rows)[old(next) := Recipe(owner, fingerprint, false, data, origin)]
    {
      if Taken(rows, owner, fingerprint) {
        return None;
      }
      id := Some(next);
      rows := rows[next := Recipe(owner, fingerprint, false, data, origin)];
      next := next + 1;
    }

    /** Creates the next draft of a result whose drafts so far are `done`, made
        from the rows `before` with the ids from `first` on. */
    method CreateDraft(owner: UserId, job: JobId, fingerprint: Option<string>, data: RecipeIn, count: nat,
                       ghost before: map<RecipeId, Recipe>, ghost first: RecipeId, ghost done: seq<RecipeIn>)
      returns (id: Option<RecipeId>)
      requires Valid() && |done| == count && next == first + count
      requires rows == WithDrafts(before, first, owner, fingerprint, done, job)
      modifies this
      ensures Valid()
      ensures id.None? <==> count == 0 && Taken(before, owner, fingerprint)
      ensures id.None? ==> rows == old(rows) && next == old(next)
      ensures id.Some? ==>
                && id.value == first + count
                && next == first + count + 1
                && rows == WithDrafts(before, first, owner, fingerprint, done + [data], job)
    {
      id := CreateRecipe(owner, data, if count == 0 then fingerprint else None, Draft(job, count));
      WithDraftsSnoc(before, first, owner, fingerprint, done, data, job);
    }

    /** Creates a draft per distinct usable recipe. `tripAt` is the draft at which
        catalog matching hits the cost cap, if it does; the rows made before it
        are left for the caller's savepoint to undo. */
    method PersistDrafts(owner: UserId, job: JobId, fingerprint: Option<string>, result: seq<NormalizedRecipe>,
                         tripAt: Option<nat>)
      returns (outcome: Persisted)
      requires Valid()
      modifies this
      ensures Valid()
      ensures old(next) <= next
      ensures outcome.Created? ==>
                && outcome.ids == DraftIds(old(next), |Plan(result, 0, {})|)
                && next == old(next) + |outcome.ids|
                && rows == WithDrafts(old(rows), old(next), owner, fingerprint, Plan(result, 0, {}), job)
                && (tripAt.Some? ==> tripAt.value >= |outcome.ids|)
      ensures outcome.Created? && outcome.ids != [] ==> !Taken(old(rows), owner, fingerprint)
      ensures outcome.AlreadyImported? ==> Plan(result, 0, {}) != [] && Taken(old(rows), owner, fingerprint)
      ensures outcome.CapTripped? ==> tripAt.Some? && tripAt.value < |Plan(result, 0, {})|
      ensures outcome.CapTripped? ==> !Taken(old(rows), owner, fingerprint)
    {
      ghost var before, plan := rows, Plan(result, 0, {});
      var first, count, seen: set<string> := next, 0, {};
      ghost var done: seq<RecipeIn> := [];
      for i := 0 to |result|
        invariant Valid()
        invariant |done| == count && next == first + count
        invariant plan == done + Plan(result, i, seen)
        invariant rows == WithDrafts(before, first, owner, fingerprint, done, job)
        invariant count > 0 ==> !Taken(before, owner, fingerprint)
        invariant tripAt.Some? ==> count <= tripAt.value
      {
        var data, seen' := NextDraft(result, i, seen);
        seen := seen';
        if data.Some? {
          ConcatAssociates(done, [data.value], Plan(result, i + 1, seen));
          var id := CreateDraft(owner, job, fingerprint, data.value, count, before, first, done);
          if id.None? {
            return AlreadyImported;
          }
          if tripAt == Some(count) {
            return CapTripped;
          }
          count := count + 1;
          done := done + [data.value];
        }
      }
      assert plan == done;
      return Created(DraftIds(first, count));
    }
  }
}
