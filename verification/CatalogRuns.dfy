/** Runs of the catalog: names matched or created through a shared corpus, merges and
    renames, in any order. */
module CatalogRuns {
  import opened Options
  import opened Catalog
  import opened CatalogMatching

  // ---------------------------------------------------------------------------
  // What keeps merged names answered
  // ---------------------------------------------------------------------------

  /** A live ingredient other than `without` has an alias that is the name, up to
      normalisation. */
  ghost predicate CarriedBeside(cat: Catalog, name: string, without: Option<IngredientId>) {
    exists k: nat :: CarriesAt(cat, name, without, k)
  }

  predicate CarriesAt(cat: Catalog, name: string, without: Option<IngredientId>, k: nat) {
    && k < |cat.aliases|
    && Live(cat.ingredients, cat.aliases[k].ingredient)
    && Some(cat.aliases[k].ingredient) != without
    && Normalise(cat.aliases[k].text) == Normalise(name)
  }

  ghost predicate Carried(cat: Catalog, name: string) {
    CarriedBeside(cat, name, None)
  }

  /** Every merged row has a name that is not blank and that a live ingredient carries. */
  ghost predicate Covered(cat: Catalog) {
    forall i :: i in cat.ingredients && !Live(cat.ingredients, i) ==> NameCovered(cat, cat.ingredients[i].name)
  }

  ghost predicate NameCovered(cat: Catalog, name: string) {
    Normalise(name) != "" && Carried(cat, name)
  }

  /** What holds before every call of a run. */
  ghost predicate Good(s: State) {
    AliasesOk(s.cat) && Covered(s.cat) && Synced(s)
  }

  // ---------------------------------------------------------------------------
  // Calls
  // ---------------------------------------------------------------------------

  /** The name of a merged row is in the corpus, so the search hits something live. */
  lemma MergedNameIsHit(s: State, name: string, search: Search)
    requires Good(s) && Fits(search, Built(s), name) && NameCovered(s.cat, name)
    ensures Hit(s.cat, search).Some?
  {
    var k: nat :| CarriesAt(s.cat, name, None, k);
    var e: Entry := (Normalise(s.cat.aliases[k].text), s.cat.aliases[k].ingredient);
    assert FromAlias(s.cat, k, e);
    Listed(s.cat, e);
    assert e in Built(s) && e.0 == Normalise(name) && e.0 != "";
    var best := search.best.value;
    assert best in LivePairs(s.cat);
    ListedIsLive(s.cat, best.1);
    ReachesItself(s.cat.ingredients, best.1);
    ResolveIs(s.cat.ingredients, best.1, best.1);
  }

  lemma CallsReturnLive(s: State, name: string, search: Search, t: State, result: IngredientId)
    requires Good(s) && Steps(s, name, search, t, result)
    ensures Live(t.cat.ingredients, result)
  {
    if Matches(s.cat, name, Some(result)) && t == s {
      MatchIsLive(s.cat, name, result);
    } else if Hit(s.cat, search).Some? {
      HitIsLive(s.cat, search);
    } else if exists i :: IsExactly(s.cat, name, i) {
      if !Live(s.cat.ingredients, result) {
        MergedNameIsHit(s, name, search);
      }
    }
  }

  lemma CoveredWithNew(cat: Catalog, name: string)
    requires AliasesOk(cat) && Covered(cat)
    ensures AliasesOk(WithNew(cat, name)) && Covered(WithNew(cat, name))
  {
    var after := WithNew(cat, name);
    forall i | i in after.ingredients && !Live(after.ingredients, i)
      ensures NameCovered(after, after.ingredients[i].name)
    {
      var k: nat :| CarriesAt(cat, cat.ingredients[i].name, None, k);
      assert CarriesAt(after, cat.ingredients[i].name, None, k);
    }
  }

  lemma CallKeepsGood(s: State, name: string, search: Search, t: State, result: IngredientId)
    requires Good(s) && Steps(s, name, search, t, result)
    ensures Good(t) && Live(t.cat.ingredients, result)
  {
    CallsReturnLive(s, name, search, t, result);
    CorpusStaysSynced(s, name, search, t, result);
    if t.cat != s.cat {
      CoveredWithNew(s.cat, name);
    }
  }

  // ---------------------------------------------------------------------------
  // Merges and renames
  // ---------------------------------------------------------------------------

  lemma CarriedInTarget(cat: Catalog, source: IngredientId, target: IngredientId, name: string)
    requires MergeRefusal(cat, source, target).None? && Live(cat.ingredients, target)
    ensures Carried(Merged(cat, source, target), name) <==>
            Carried(cat, name) || Normalise(name) == Normalise(cat.ingredients[source].name)
  {
    var after, sourceName := Merged(cat, source, target), cat.ingredients[source].name;
    MergeConservesAliases(cat, source, target);
    if k: nat :| CarriesAt(after, name, None, k) {
      assert k < |cat.aliases| ==> CarriesAt(cat, name, None, k);
    }
    if k: nat :| CarriesAt(cat, name, None, k) {
      assert CarriesAt(after, name, None, k);
    }
    if Normalise(name) == Normalise(sourceName) {
      var k :| 0 <= k < |after.aliases| && after.aliases[k].ingredient == target
               && Normalise(after.aliases[k].text) == Normalise(sourceName);
      assert CarriesAt(after, name, None, k);
    }
  }

  lemma CarriedBesideSource(cat: Catalog, source: IngredientId, target: IngredientId, name: string)
    requires MergeRefusal(cat, source, target).None? && !Live(cat.ingredients, target)
    ensures Carried(Merged(cat, source, target), name) <==> CarriedBeside(cat, name, Some(source))
  {
    var after := Merged(cat, source, target);
    MergeConservesAliases(cat, source, target);
    if k: nat :| CarriesAt(after, name, None, k) {
      assert CarriesAt(cat, name, Some(source), k);
    }
    if k: nat :| CarriesAt(cat, name, Some(source), k) {
      assert CarriesAt(after, name, None, k);
    }
  }

  /** The merge leaves the source's name and every merged name with a live carrier: its
      target is live, or others carry them all. */
  ghost predicate SafeMerge(cat: Catalog, source: IngredientId, target: IngredientId)
    requires MergeRefusal(cat, source, target).None?
  {
    && Normalise(cat.ingredients[source].name) != ""
    && (Live(cat.ingredients, target)
        || forall i :: i in cat.ingredients && (i == source || !Live(cat.ingredients, i)) ==>
             CarriedBeside(cat, cat.ingredients[i].name, Some(source)))
  }

  lemma MergedStaysOk(cat: Catalog, source: IngredientId, target: IngredientId)
    requires MergeRefusal(cat, source, target).None? && AliasesOk(cat)
    ensures AliasesOk(Merged(cat, source, target))
  {
    MergeConservesAliases(cat, source, target);
  }

  /** The rows that are merged afterwards. */
  lemma MergedRows(cat: Catalog, source: IngredientId, target: IngredientId, i: IngredientId)
    requires MergeRefusal(cat, source, target).None?
    ensures var after := Merged(cat, source, target).ingredients;
            && (i in after <==> i in cat.ingredients)
            && (i in after ==> after[i].name == cat.ingredients[i].name)
            && (i in after ==> (Live(after, i) <==> Live(cat.ingredients, i) && i != source))
  {
  }

  lemma MergeIntoLiveCovers(cat: Catalog, source: IngredientId, target: IngredientId)
    requires MergeRefusal(cat, source, target).None? && Covered(cat) && Live(cat.ingredients, target)
    ensures Covered(Merged(cat, source, target)) <==> Normalise(cat.ingredients[source].name) != ""
  {
    var after := Merged(cat, source, target);
    forall i | i in cat.ingredients && (i == source || !Live(cat.ingredients, i))
      ensures i in after.ingredients && !Live(after.ingredients, i)
      ensures NameCovered(after, after.ingredients[i].name) <==> Normalise(cat.ingredients[i].name) != ""
    {
      MergedRows(cat, source, target, i);
      CarriedInTarget(cat, source, target, cat.ingredients[i].name);
    }
    if Normalise(cat.ingredients[source].name) != "" {
      forall i | i in after.ingredients && !Live(after.ingredients, i)
        ensures NameCovered(after, after.ingredients[i].name)
      {
        MergedRows(cat, source, target, i);
      }
    }
  }

  lemma MergeIntoMergedCovers(cat: Catalog, source: IngredientId, target: IngredientId)
    requires MergeRefusal(cat, source, target).None? && Covered(cat) && !Live(cat.ingredients, target)
    ensures Covered(Merged(cat, source, target)) <==> SafeMerge(cat, source, target)
  {
    var after := Merged(cat, source, target);
    forall i | i in cat.ingredients && (i == source || !Live(cat.ingredients, i))
      ensures i in after.ingredients && !Live(after.ingredients, i)
      ensures NameCovered(after, after.ingredients[i].name) <==>
                Normalise(cat.ingredients[i].name) != "" && CarriedBeside(cat, cat.ingredients[i].name, Some(source))
    {
      MergedRows(cat, source, target, i);
      CarriedBesideSource(cat, source, target, cat.ingredients[i].name);
    }
    if SafeMerge(cat, source, target) {
      forall i | i in after.ingredients && !Live(after.ingredients, i)
        ensures NameCovered(after, after.ingredients[i].name)
      {
        MergedRows(cat, source, target, i);
      }
    }
  }

  /** Merged names stay carried by live ingredients through a merge exactly when it is
      safe, in particular whenever its target is live and its name is not blank. */
  lemma MergeKeepsCovered(cat: Catalog, source: IngredientId, target: IngredientId)
    requires MergeRefusal(cat, source, target).None? && Covered(cat)
    ensures Covered(Merged(cat, source, target)) <==> SafeMerge(cat, source, target)
  {
    if Live(cat.ingredients, target) {
      MergeIntoLiveCovers(cat, source, target);
    } else {
      MergeIntoMergedCovers(cat, source, target);
    }
  }

  ghost predicate SafeRename(cat: Catalog, i: IngredientId, name: string) {
    Live(cat.ingredients, i) || NameCovered(cat, name)
  }

  lemma CarriedAfterRename(cat: Catalog, i: IngredientId, name: string, carried: string)
    requires i in cat.ingredients
    ensures Carried(WithName(cat, i, name), carried) <==> Carried(cat, carried)
  {
    var after := WithName(cat, i, name);
    forall k: nat
      ensures CarriesAt(after, carried, None, k) <==> CarriesAt(cat, carried, None, k)
    {
    }
  }

  /** And through a rename exactly when the row is live or its new name is carried. */
  lemma RenameKeepsCovered(cat: Catalog, i: IngredientId, name: string)
    requires i in cat.ingredients && AliasesOk(cat) && Covered(cat)
    ensures Covered(WithName(cat, i, name)) <==> SafeRename(cat, i, name)
    ensures AliasesOk(WithName(cat, i, name))
  {
    var after := WithName(cat, i, name);
    forall j | j in cat.ingredients
      ensures NameCovered(after, after.ingredients[j].name) <==> NameCovered(cat, after.ingredients[j].name)
    {
      CarriedAfterRename(cat, i, name, after.ingredients[j].name);
    }
  }

  // ---------------------------------------------------------------------------
  // Runs
  // ---------------------------------------------------------------------------

  /** A call, with what its search found and its result; a merge; a rename; or a new
      operation, which starts with an unbuilt corpus. */
  datatype Event =
    | Call(name: string, search: Search, result: IngredientId)
    | MergeInto(source: IngredientId, target: IngredientId)
    | Rename(ingredient: IngredientId, name: string)
    | NewOperation

  /** The event takes `s` to `t`. A corpus lives within one operation of calls. */
  ghost predicate Moves(s: State, e: Event, t: State) {
    match e
    case Call(name, search, result) => Steps(s, name, search, t, result)
    case MergeInto(source, target) =>
      MergeRefusal(s.cat, source, target).None? && t == State(Merged(s.cat, source, target), None)
    case Rename(i, name) => i in s.cat.ingredients && t == State(WithName(s.cat, i, name), None)
    case NewOperation => t == State(s.cat, None)
  }

  ghost predicate Safe(s: State, e: Event) {
    match e
    case MergeInto(source, target) =>
      MergeRefusal(s.cat, source, target).None? && SafeMerge(s.cat, source, target)
    case Rename(i, name) => SafeRename(s.cat, i, name)
    case _ => true
  }

  /** One event keeps what the calls rely on if and only if it is safe; every call is. */
  lemma SafeEventsKeepGood(s: State, e: Event, t: State)
    requires Good(s) && Moves(s, e, t)
    ensures Good(t) <==> Safe(s, e)
  {
    match e
    case Call(name, search, result) => CallKeepsGood(s, name, search, t, result);
    case MergeInto(source, target) =>
      MergeKeepsCovered(s.cat, source, target);
      MergedStaysOk(s.cat, source, target);
    case Rename(i, name) => RenameKeepsCovered(s.cat, i, name);
    case NewOperation =>
  }

  /** Nothing is merged yet, as in an empty or newly seeded catalog. */
  ghost predicate NothingMerged(cat: Catalog) {
    AliasesOk(cat) && forall i :: i in cat.ingredients ==> Live(cat.ingredients, i)
  }

  ghost predicate RunOf(states: seq<State>, events: seq<Event>) {
    && |states| == |events| + 1
    && NothingMerged(states[0].cat) && states[0].corpus.None?
    && forall n :: 0 <= n < |events| ==> Moves(states[n], events[n], states[n + 1])
  }

  ghost predicate AllSafe(states: seq<State>, events: seq<Event>, n: nat)
    requires n <= |events| < |states|
  {
    forall m :: 0 <= m < n ==> Safe(states[m], events[m])
  }

  /** Over any run of calls, merges and renames that starts with nothing merged, as long
      as the merges and renames are safe: the shared corpus always lists what a fresh
      load would. */
  lemma {:induction false} SharedCorpusAgrees(states: seq<State>, events: seq<Event>, n: nat)
    requires RunOf(states, events) && n <= |events| && AllSafe(states, events, n)
    ensures Good(states[n])
    decreases n
  {
    if n > 0 {
      SharedCorpusAgrees(states, events, n - 1);
      SafeEventsKeepGood(states[n - 1], events[n - 1], states[n]);
    }
  }

  /** And every call of the run returns a live ingredient. */
  lemma EveryNameGetsALiveIngredient(states: seq<State>, events: seq<Event>, n: nat)
    requires RunOf(states, events) && n < |events| && AllSafe(states, events, n) && events[n].Call?
    ensures Live(states[n + 1].cat.ingredients, events[n].result)
  {
    SharedCorpusAgrees(states, events, n);
    CallsReturnLive(states[n], events[n].name, events[n].search, states[n + 1], events[n].result);
  }
}
