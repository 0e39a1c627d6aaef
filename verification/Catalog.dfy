/** The ingredient catalog as a pointer graph: following merged ingredients to the
    live one, and merging. */
module Catalog {
  import opened Options
  import Drafts

  type IngredientId = nat
  type LineId = nat

  datatype Ingredient = Ingredient(name: string, into: Option<IngredientId>)
  datatype Alias = Alias(text: string, ingredient: IngredientId)

  /** `lines` are the recipe lines that are matched to an ingredient; ids from `next`
      on are unused. */
  datatype Catalog = Catalog(
    ingredients: map<IngredientId, Ingredient>,
    aliases: seq<Alias>,
    lines: map<LineId, IngredientId>,
    next: IngredientId)

  function Words(s: string, word: string): seq<string>
    decreases |s|
  {
    if s == "" then
      if word == "" then [] else [word]
    else if Drafts.IsSpace(s[0]) then
      if word == "" then Words(s[1..], "") else [word] + Words(s[1..], "")
    else Words(s[1..], word + [s[0]])
  }

  /** Stripped, inner whitespace collapsed, lower-cased. */
  function Normalise(s: string): string {
    Drafts.Folded(Drafts.Joined(Words(s, ""), " "))
  }

  // ---------------------------------------------------------------------------
  // Merge chains
  // ---------------------------------------------------------------------------

  predicate Live(ingredients: map<IngredientId, Ingredient>, i: IngredientId) {
    i in ingredients && ingredients[i].into.None?
  }

  /** The ingredient `k` merges after `i`, if the chain is that long. */
  function Nth(ingredients: map<IngredientId, Ingredient>, i: IngredientId, k: nat): Option<IngredientId>
    decreases k
  {
    if i !in ingredients then None
    else if k == 0 then Some(i)
    else if ingredients[i].into.None? then None
    else Nth(ingredients, ingredients[i].into.value, k - 1)
  }

  ghost predicate ReachesIn(ingredients: map<IngredientId, Ingredient>, i: IngredientId, k: nat, t: IngredientId) {
    Nth(ingredients, i, k) == Some(t) && Live(ingredients, t)
  }

  /** The chain from `i` ends at the live ingredient `t`. */
  ghost predicate Reaches(ingredients: map<IngredientId, Ingredient>, i: IngredientId, t: IngredientId) {
    exists k :: ReachesIn(ingredients, i, k, t)
  }

  /** The live ingredient at the end of the chain, if there is one. */
  ghost function Resolve(ingredients: map<IngredientId, Ingredient>, i: IngredientId): (r: Option<IngredientId>)
    ensures r.Some? ==> Reaches(ingredients, i, r.value)
    ensures r.None? ==> forall t :: !Reaches(ingredients, i, t)
  {
    if exists t :: Reaches(ingredients, i, t) then
      var t :| Reaches(ingredients, i, t);
      Some(t)
    else None
  }

  lemma {:induction false} NthAdds(ingredients: map<IngredientId, Ingredient>, i: IngredientId, k: nat, m: nat)
    requires Nth(ingredients, i, k).Some?
    ensures Nth(ingredients, i, k + m) == Nth(ingredients, Nth(ingredients, i, k).value, m)
    decreases k
  {
    if k > 0 {
      NthAdds(ingredients, ingredients[i].into.value, k - 1, m);
    }
  }

  /** A chain reaches at most one live ingredient. */
  lemma ReachesOnce(ingredients: map<IngredientId, Ingredient>, i: IngredientId, s: IngredientId, t: IngredientId)
    requires Reaches(ingredients, i, s) && Reaches(ingredients, i, t)
    ensures s == t
  {
    var k: nat :| ReachesIn(ingredients, i, k, s);
    var m: nat :| ReachesIn(ingredients, i, m, t);
    if k <= m {
      NthAdds(ingredients, i, k, m - k);
    } else {
      NthAdds(ingredients, i, m, k - m);
    }
  }

  lemma ResolveIs(ingredients: map<IngredientId, Ingredient>, i: IngredientId, t: IngredientId)
    requires Reaches(ingredients, i, t)
    ensures Resolve(ingredients, i) == Some(t)
  {
    ReachesOnce(ingredients, i, Resolve(ingredients, i).value, t);
  }

  /** One step along the chain changes nothing about where it ends. */
  lemma ReachesThrough(ingredients: map<IngredientId, Ingredient>, i: IngredientId, t: IngredientId)
    requires i in ingredients && ingredients[i].into.Some?
    ensures Reaches(ingredients, i, t) <==> Reaches(ingredients, ingredients[i].into.value, t)
  {
    var next := ingredients[i].into.value;
    if Reaches(ingredients, i, t) {
      var k: nat :| ReachesIn(ingredients, i, k, t);
      assert k > 0;
      assert ReachesIn(ingredients, next, k - 1, t);
    }
    if Reaches(ingredients, next, t) {
      var k: nat :| ReachesIn(ingredients, next, k, t);
      assert ReachesIn(ingredients, i, k + 1, t);
    }
  }

  lemma ReachesItself(ingredients: map<IngredientId, Ingredient>, i: IngredientId)
    requires Live(ingredients, i)
    ensures Reaches(ingredients, i, i)
  {
    assert ReachesIn(ingredients, i, 0, i);
  }

  /** Merged ingredients that point only at each other reach nothing live. */
  lemma {:induction false} ClosedReachesNothing(ingredients: map<IngredientId, Ingredient>, closed: set<IngredientId>,
                                                i: IngredientId, k: nat, t: IngredientId)
    requires i in closed
    requires forall v :: v in closed ==>
               v in ingredients && ingredients[v].into.Some? && ingredients[v].into.value in closed
    ensures !ReachesIn(ingredients, i, k, t)
    decreases k
  {
    if k > 0 {
      ClosedReachesNothing(ingredients, closed, ingredients[i].into.value, k - 1, t);
    }
  }

  /** Follows the chain with a visited set: on every pointer graph it ends, and with
      the live ingredient exactly when the chain reaches one. */
  method FollowMergeChain(ingredients: map<IngredientId, Ingredient>, start: IngredientId)
    returns (found: Option<IngredientId>)
    ensures found == Resolve(ingredients, start)
  {
    if start !in ingredients {
      return None;
    }
    var current := start;
    var visited := {start};
    while ingredients[current].into.Some?
      invariant current in ingredients && current in visited && visited <= ingredients.Keys
      invariant forall t :: Reaches(ingredients, start, t) <==> Reaches(ingredients, current, t)
      invariant forall v :: v in visited && v != current ==>
                  ingredients[v].into.Some? && ingredients[v].into.value in visited
      decreases ingredients.Keys - visited
    {
      var next := ingredients[current].into.value;
      forall t
        ensures Reaches(ingredients, current, t) <==> Reaches(ingredients, next, t)
      {
        ReachesThrough(ingredients, current, t);
      }
      if next in visited {
        forall k, t
          ensures !ReachesIn(ingredients, current, k, t)
        {
          ClosedReachesNothing(ingredients, visited, current, k, t);
        }
        return None;
      }
      visited := visited + {next};
      if next !in ingredients {
        return None;
      }
      current := next;
    }
    ReachesItself(ingredients, current);
    ResolveIs(ingredients, start, current);
    return Some(current);
  }

  // ---------------------------------------------------------------------------
  // Merging
  // ---------------------------------------------------------------------------

  /** Every chain ends at a live ingredient: there is no cycle and no dangling pointer. */
  ghost predicate AllReachLive(ingredients: map<IngredientId, Ingredient>) {
    forall i :: i in ingredients ==> Resolve(ingredients, i).Some?
  }

  function MergeRefusal(cat: Catalog, source: IngredientId, target: IngredientId): Option<ApiError> {
    if source == target then Some(InvalidMerge)
    else if source !in cat.ingredients || target !in cat.ingredients then Some(NotFound)
    else if cat.ingredients[source].into.Some? then Some(AlreadyMerged)
    else None
  }

  /** Merging is refused exactly into itself, of or into a row that does not exist, and
      of one that is merged already. */
  lemma MergeRefusedExactly(cat: Catalog, source: IngredientId, target: IngredientId)
    ensures MergeRefusal(cat, source, target).None? <==>
            source != target && Live(cat.ingredients, source) && target in cat.ingredients
    ensures MergeRefusal(cat, source, target) == Some(InvalidMerge) <==> source == target
    ensures MergeRefusal(cat, source, target) == Some(NotFound) <==>
            source != target && !(source in cat.ingredients && target in cat.ingredients)
  {
  }

  /** The aliases with those of `source` moved to `target`. */
  function Repointed(aliases: seq<Alias>, source: IngredientId, target: IngredientId): (moved: seq<Alias>)
    ensures |moved| == |aliases|
    ensures forall k :: 0 <= k < |aliases| ==>
              moved[k] == if aliases[k].ingredient == source then aliases[k].(ingredient := target) else aliases[k]
  {
    if aliases == [] then []
    else
      var last := aliases[|aliases| - 1];
      Repointed(aliases[..|aliases| - 1], source, target)
      + [if last.ingredient == source then last.(ingredient := target) else last]
  }

  /** `i` carries the name `s` among its aliases, up to normalisation. */
  predicate Carries(aliases: seq<Alias>, i: IngredientId, s: string) {
    exists k :: 0 <= k < |aliases| && aliases[k].ingredient == i && Normalise(aliases[k].text) == Normalise(s)
  }

  function MergedInto(ingredients: map<IngredientId, Ingredient>, source: IngredientId, target: IngredientId):
    map<IngredientId, Ingredient>
    requires source in ingredients
  {
    ingredients[source := ingredients[source].(into := Some(target))]
  }

  function Merged(cat: Catalog, source: IngredientId, target: IngredientId): Catalog
    requires source in cat.ingredients
  {
    var name := cat.ingredients[source].name;
    var moved := Repointed(cat.aliases, source, target);
    cat.(ingredients := MergedInto(cat.ingredients, source, target),
         aliases := if Carries(moved, target, name) then moved else moved + [Alias(name, target)],
         lines := map l | l in cat.lines :: if cat.lines[l] == source then target else cat.lines[l])
  }

  lemma {:induction false} UntouchedChain(ingredients: map<IngredientId, Ingredient>, source: IngredientId,
                                          target: IngredientId, i: IngredientId, k: nat, t: IngredientId)
    requires Live(ingredients, source) && ReachesIn(ingredients, i, k, t) && t != source
    ensures ReachesIn(MergedInto(ingredients, source, target), i, k, t)
    decreases k
  {
    if k > 0 {
      UntouchedChain(ingredients, source, target, ingredients[i].into.value, k - 1, t);
    }
  }

  lemma {:induction false} ChainThroughSource(ingredients: map<IngredientId, Ingredient>, source: IngredientId,
                                              target: IngredientId, i: IngredientId, k: nat)
    requires Live(ingredients, source) && Nth(ingredients, i, k) == Some(source)
    ensures Nth(MergedInto(ingredients, source, target), i, k) == Some(source)
    decreases k
  {
    if k > 0 {
      ChainThroughSource(ingredients, source, target, ingredients[i].into.value, k - 1);
    }
  }

  /** Where a chain ends after a merge: what did not end at the source ends where it
      did, and what did ends where the target does. */
  lemma MergeReroots(ingredients: map<IngredientId, Ingredient>, source: IngredientId, target: IngredientId,
                     i: IngredientId, t: IngredientId)
    requires Live(ingredients, source) && Reaches(ingredients, i, t)
    ensures t != source ==> Reaches(MergedInto(ingredients, source, target), i, t)
    ensures t == source ==> forall u :: Reaches(MergedInto(ingredients, source, target), i, u) <==>
                                        Reaches(MergedInto(ingredients, source, target), target, u)
  {
    var k: nat :| ReachesIn(ingredients, i, k, t);
    var after := MergedInto(ingredients, source, target);
    if t != source {
      UntouchedChain(ingredients, source, target, i, k, t);
    } else {
      ChainThroughSource(ingredients, source, target, i, k);
      forall u
        ensures Reaches(after, i, u) <==> Reaches(after, target, u)
      {
        ReachesFromNth(after, i, k, source, u);
        ReachesThrough(after, source, u);
      }
    }
  }

  lemma {:induction false} ReachesFromNth(ingredients: map<IngredientId, Ingredient>, i: IngredientId, k: nat,
                                          s: IngredientId, u: IngredientId)
    requires Nth(ingredients, i, k) == Some(s)
    ensures Reaches(ingredients, i, u) <==> Reaches(ingredients, s, u)
    decreases k
  {
    if k > 0 {
      ReachesThrough(ingredients, i, u);
      ReachesFromNth(ingredients, ingredients[i].into.value, k - 1, s, u);
    }
  }

  /** A merge into what already ends at the source makes a cycle through it. */
  lemma MergeIntoOwnChainIsDead(ingredients: map<IngredientId, Ingredient>, source: IngredientId, target: IngredientId,
                                k: nat, u: IngredientId)
    requires Live(ingredients, source) && Nth(ingredients, target, k) == Some(source)
    ensures !Reaches(MergedInto(ingredients, source, target), source, u)
  {
    var after := MergedInto(ingredients, source, target);
    var closed := ChainNodes(ingredients, source, target, k);
    forall m
      ensures !ReachesIn(after, source, m, u)
    {
      ClosedReachesNothing(after, closed, source, m, u);
    }
  }

  /** The nodes from `i` to the source, all merged once the source is. */
  lemma {:induction false} ChainNodes(ingredients: map<IngredientId, Ingredient>, source: IngredientId, i: IngredientId,
                                      k: nat)
    returns (nodes: set<IngredientId>)
    requires Live(ingredients, source) && Nth(ingredients, i, k) == Some(source)
    ensures i in nodes && source in nodes
    ensures forall v :: v in nodes ==> v in ingredients
    ensures forall v :: v in nodes && v != source ==> ingredients[v].into.Some? && ingredients[v].into.value in nodes
    decreases k
  {
    if k == 0 {
      nodes := {source};
    } else {
      var rest := ChainNodes(ingredients, source, ingredients[i].into.value, k - 1);
      nodes := rest + {i};
    }
  }

  /** The target ends elsewhere than at the source: re-rooted are exactly the chains
      that ended at the source. */
  lemma MergeResolves(ingredients: map<IngredientId, Ingredient>, source: IngredientId, target: IngredientId,
                      t: IngredientId, i: IngredientId, u: IngredientId)
    requires Live(ingredients, source) && Reaches(ingredients, target, t) && t != source && Reaches(ingredients, i, u)
    ensures Resolve(MergedInto(ingredients, source, target), i) == Some(if u == source then t else u)
  {
    var after := MergedInto(ingredients, source, target);
    MergeReroots(ingredients, source, target, target, t);
    MergeReroots(ingredients, source, target, i, u);
    ResolveIs(after, i, if u == source then t else u);
  }

  /** The target ends at the source: the source has no live ingredient any more. */
  lemma MergeKillsOwnChain(ingredients: map<IngredientId, Ingredient>, source: IngredientId, target: IngredientId)
    requires Live(ingredients, source) && Reaches(ingredients, target, source)
    ensures !AllReachLive(MergedInto(ingredients, source, target))
  {
    var k: nat :| ReachesIn(ingredients, target, k, source);
    var after := MergedInto(ingredients, source, target);
    assert source in after;
    if Resolve(after, source).Some? {
      MergeIntoOwnChainIsDead(ingredients, source, target, k, Resolve(after, source).value);
    }
  }

  /** Merging keeps every chain ending at a live ingredient if and only if the target
      does not itself end at the source; the merge checks neither that nor whether
      the target is live. Then re-rooted are exactly the chains that ended at the
      source. */
  lemma MergeKeepsChains(ingredients: map<IngredientId, Ingredient>, source: IngredientId, target: IngredientId)
    requires AllReachLive(ingredients) && Live(ingredients, source) && target in ingredients
    ensures AllReachLive(MergedInto(ingredients, source, target)) <==> Resolve(ingredients, target) != Some(source)
    ensures Resolve(ingredients, target) != Some(source) ==>
              forall i :: i in ingredients ==>
                Resolve(MergedInto(ingredients, source, target), i) ==
                if Resolve(ingredients, i) == Some(source) then Resolve(ingredients, target)
                  else Resolve(ingredients, i)
  {
    var t := Resolve(ingredients, target).value;
    assert source in ingredients && target in ingredients;
    if t == source {
      MergeKillsOwnChain(ingredients, source, target);
    } else {
      forall i | i in ingredients
        ensures Resolve(MergedInto(ingredients, source, target), i) ==
                if Resolve(ingredients, i) == Some(source) then Some(t) else Resolve(ingredients, i)
      {
        MergeResolves(ingredients, source, target, t, i, Resolve(ingredients, i).value);
      }
      assert AllReachLive(MergedInto(ingredients, source, target));
    }
  }

  function TwoIngredients(): Catalog {
    Catalog(map[0 := Ingredient("a", None), 1 := Ingredient("b", None)], [], map[], 2)
  }

  lemma FirstMergeIsFine()
    ensures AllReachLive(TwoIngredients().ingredients) && MergeRefusal(TwoIngredients(), 0, 1).None?
    ensures var once := Merged(TwoIngredients(), 0, 1);
            && AllReachLive(once.ingredients)
            && MergeRefusal(once, 1, 0).None?
            && Resolve(once.ingredients, 0) == Some(1)
  {
    var ingredients := TwoIngredients().ingredients;
    ReachesItself(ingredients, 0);
    ReachesItself(ingredients, 1);
    ResolveIs(ingredients, 0, 0);
    ResolveIs(ingredients, 1, 1);
    MergeKeepsChains(ingredients, 0, 1);
  }

  /** Two merges that the guards allow and that leave nothing live. */
  lemma MergesCanMakeACycle(once: Catalog)
    requires once == Merged(TwoIngredients(), 0, 1)
    ensures AllReachLive(once.ingredients) && MergeRefusal(once, 1, 0).None?
    ensures !AllReachLive(Merged(once, 1, 0).ingredients)
  {
    FirstMergeIsFine();
    MergeKeepsChains(once.ingredients, 1, 0);
  }

  // ---------------------------------------------------------------------------
  // Aliases and lines
  // ---------------------------------------------------------------------------

  /** Aliases of existing ingredients only. */
  predicate AliasesOk(cat: Catalog) {
    && (forall k :: 0 <= k < |cat.aliases| ==> cat.aliases[k].ingredient in cat.ingredients)
    && (forall i :: i in cat.ingredients ==> i < cat.next)
  }

  predicate LinesLive(cat: Catalog) {
    forall l :: l in cat.lines ==> Live(cat.ingredients, cat.lines[l])
  }

  /** Merging loses no alias: each keeps its place and text, the source's now name the
      target, and the source's name is added exactly when the target does not carry
      it; in the end the target always does. */
  lemma MergeConservesAliases(cat: Catalog, source: IngredientId, target: IngredientId)
    requires MergeRefusal(cat, source, target).None?
    ensures var after, name := Merged(cat, source, target), cat.ingredients[source].name;
            && |cat.aliases| <= |after.aliases| <= |cat.aliases| + 1
            && (forall k :: 0 <= k < |cat.aliases| ==>
                  && after.aliases[k].text == cat.aliases[k].text
                  && after.aliases[k].ingredient ==
                     if cat.aliases[k].ingredient == source then target else cat.aliases[k].ingredient)
            && (|after.aliases| == |cat.aliases| <==>
                 Carries(cat.aliases, source, name) || Carries(cat.aliases, target, name))
            && Carries(after.aliases, target, name)
            && (forall k :: 0 <= k < |after.aliases| ==> after.aliases[k].ingredient != source)
  {
    var after, name := Merged(cat, source, target), cat.ingredients[source].name;
    var moved := Repointed(cat.aliases, source, target);
    if Carries(moved, target, name) {
      var k :| 0 <= k < |moved| && moved[k].ingredient == target && Normalise(moved[k].text) == Normalise(name);
      assert cat.aliases[k].text == moved[k].text;
    } else {
      assert after.aliases[|moved|] == Alias(name, target);
      forall k | 0 <= k < |cat.aliases| && (cat.aliases[k].ingredient == source || cat.aliases[k].ingredient == target)
        ensures Normalise(cat.aliases[k].text) != Normalise(name)
      {
        assert moved[k].ingredient == target;
      }
    }
  }

  /** After a merge no line is on a merged ingredient, if none was before, exactly when
      the target is live or the source had no line. */
  lemma MergeKeepsLinesLive(cat: Catalog, source: IngredientId, target: IngredientId)
    requires MergeRefusal(cat, source, target).None? && LinesLive(cat)
    ensures LinesLive(Merged(cat, source, target)) <==>
            Live(cat.ingredients, target) || forall l :: l in cat.lines ==> cat.lines[l] != source
    ensures forall l :: l in cat.lines ==>
              l in Merged(cat, source, target).lines
              && Merged(cat, source, target).lines[l] == if cat.lines[l] == source then target else cat.lines[l]
  {
    var after := Merged(cat, source, target);
    if l :| l in cat.lines && cat.lines[l] == source {
      assert after.lines[l] == target;
    }
  }
}
