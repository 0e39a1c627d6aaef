/** Matching a name against the catalog, and the shared corpus that must agree with
    a fresh load. Fuzzy scores are not modelled: what the search and the model pick
    are inputs. */
module CatalogMatching {
  import opened Options
  import opened Catalog
  import Drafts

  // ---------------------------------------------------------------------------
  // Exact and alias matches
  // ---------------------------------------------------------------------------

  predicate IsAliasHit(cat: Catalog, norm: string, k: nat) {
    && k < |cat.aliases|
    && Drafts.Folded(cat.aliases[k].text) == norm
    && forall m :: 0 <= m < k ==> Drafts.Folded(cat.aliases[m].text) != norm
  }

  predicate HasAlias(cat: Catalog, norm: string) {
    exists k :: 0 <= k < |cat.aliases| && Drafts.Folded(cat.aliases[k].text) == norm
  }

  predicate IsNamed(cat: Catalog, norm: string, i: IngredientId) {
    i in cat.ingredients && Drafts.Folded(cat.ingredients[i].name) == norm
  }

  /** `match` may answer `r` for `text`: nothing for a blank text; or else where the
      first alias row with the text leads; or where a row of that name leads. */
  ghost predicate Matches(cat: Catalog, text: string, r: Option<IngredientId>) {
    var norm := Normalise(text);
    if norm == "" then r == None
    else if HasAlias(cat, norm) then
      exists k: nat :: IsAliasHit(cat, norm, k) && r == Resolve(cat.ingredients, cat.aliases[k].ingredient)
    else if exists i :: IsNamed(cat, norm, i) then
      exists i :: IsNamed(cat, norm, i) && r == Resolve(cat.ingredients, i)
    else r == None
  }

  method FindAlias(cat: Catalog, norm: string) returns (found: Option<nat>)
    ensures found.Some? ==> IsAliasHit(cat, norm, found.value)
    ensures found.None? ==> !HasAlias(cat, norm)
  {
    for k := 0 to |cat.aliases|
      invariant forall m :: 0 <= m < k ==> Drafts.Folded(cat.aliases[m].text) != norm
    {
      if Drafts.Folded(cat.aliases[k].text) == norm {
        return Some(k);
      }
    }
    return None;
  }

  method FindNamed(cat: Catalog, norm: string) returns (found: Option<IngredientId>)
    ensures found.Some? ==> IsNamed(cat, norm, found.value)
    ensures found.None? ==> forall i :: !IsNamed(cat, norm, i)
  {
    if i :| i in cat.ingredients && Drafts.Folded(cat.ingredients[i].name) == norm {
      return Some(i);
    }
    return None;
  }

  method Match(cat: Catalog, text: string) returns (r: Option<IngredientId>)
    ensures Matches(cat, text, r)
  {
    var norm := Normalise(text);
    if norm == "" {
      return None;
    }
    var k := FindAlias(cat, norm);
    if k.Some? {
      r := FollowMergeChain(cat.ingredients, cat.aliases[k.value].ingredient);
      assert HasAlias(cat, norm);
      return;
    }
    var i := FindNamed(cat, norm);
    if i.None? {
      return None;
    }
    r := FollowMergeChain(cat.ingredients, i.value);
  }

  /** Nothing but `source` and `target` answers to the name, as an alias or as a name. */
  ghost predicate Undisputed(cat: Catalog, norm: string, source: IngredientId, target: IngredientId) {
    && (forall k :: 0 <= k < |cat.aliases| && Drafts.Folded(cat.aliases[k].text) == norm ==>
          cat.aliases[k].ingredient == source || cat.aliases[k].ingredient == target)
    && (forall i :: IsNamed(cat, norm, i) ==> i == source || i == target)
  }

  /** Some alias or some row answers to the name. */
  ghost predicate Answered(cat: Catalog, norm: string) {
    norm != "" && (HasAlias(cat, norm) || exists i :: IsNamed(cat, norm, i))
  }

  lemma MergedResolve(ingredients: map<IngredientId, Ingredient>, source: IngredientId, target: IngredientId)
    requires AllReachLive(ingredients) && Live(ingredients, source) && target in ingredients
    requires Resolve(ingredients, target) != Some(source)
    ensures Resolve(MergedInto(ingredients, source, target), source) == Resolve(ingredients, target)
    ensures Resolve(MergedInto(ingredients, source, target), target) == Resolve(ingredients, target)
  {
    MergeKeepsChains(ingredients, source, target);
    ReachesItself(ingredients, source);
    ResolveIs(ingredients, source, source);
  }

  /** When only `a` and `b` answer to a name and both lead to the same end, so does it. */
  lemma MatchesOneOf(cat: Catalog, text: string, a: IngredientId, b: IngredientId, end: Option<IngredientId>,
                     r: Option<IngredientId>)
    requires Matches(cat, text, r)
    requires forall k :: 0 <= k < |cat.aliases| && Drafts.Folded(cat.aliases[k].text) == Normalise(text) ==>
               cat.aliases[k].ingredient == b
    requires forall i :: IsNamed(cat, Normalise(text), i) ==> i == a || i == b
    requires Resolve(cat.ingredients, a) == end && Resolve(cat.ingredients, b) == end
    ensures r == if Answered(cat, Normalise(text)) then end else None
  {
  }

  /** A merge takes no name away and adds none but the source's. */
  lemma MergeKeepsAnswers(cat: Catalog, source: IngredientId, target: IngredientId, norm: string)
    requires MergeRefusal(cat, source, target).None?
    ensures Answered(Merged(cat, source, target), norm) <==> Answered(cat, norm)
  {
    var after := Merged(cat, source, target);
    MergeConservesAliases(cat, source, target);
    forall i
      ensures IsNamed(after, norm, i) <==> IsNamed(cat, norm, i)
    {
    }
    if k :| 0 <= k < |cat.aliases| && Drafts.Folded(cat.aliases[k].text) == norm {
      assert Drafts.Folded(after.aliases[k].text) == norm;
    }
    if k :| 0 <= k < |after.aliases| && Drafts.Folded(after.aliases[k].text) == norm {
      if k == |cat.aliases| {
        assert IsNamed(cat, norm, source);
      } else {
        assert Drafts.Folded(cat.aliases[k].text) == norm;
      }
    }
  }

  /** After a merge the source's name leads where the target leads, unless some other
      ingredient answers to it too, if and only if anything answers to it at all:
      matching folds case but compares stored white space as it is. */
  lemma SourceNameResolvesToTarget(cat: Catalog, source: IngredientId, target: IngredientId, r: Option<IngredientId>)
    requires AllReachLive(cat.ingredients) && MergeRefusal(cat, source, target).None?
    requires Resolve(cat.ingredients, target) != Some(source)
    requires Undisputed(cat, Normalise(cat.ingredients[source].name), source, target)
    requires Matches(Merged(cat, source, target), cat.ingredients[source].name, r)
    ensures r == Resolve(cat.ingredients, target) <==> Answered(cat, Normalise(cat.ingredients[source].name))
    ensures r.Some? ==> r == Resolve(cat.ingredients, target)
  {
    var name := cat.ingredients[source].name;
    MergedResolve(cat.ingredients, source, target);
    MergeKeepsAnswers(cat, source, target, Normalise(name));
    AnswersAreTheirs(cat, source, target);
    MatchesOneOf(Merged(cat, source, target), name, source, target, Resolve(cat.ingredients, target), r);
  }

  lemma AnswersAreTheirs(cat: Catalog, source: IngredientId, target: IngredientId)
    requires MergeRefusal(cat, source, target).None?
    requires Undisputed(cat, Normalise(cat.ingredients[source].name), source, target)
    ensures var after, norm := Merged(cat, source, target), Normalise(cat.ingredients[source].name);
            && (forall i :: IsNamed(after, norm, i) ==> i == source || i == target)
            && (forall k :: 0 <= k < |after.aliases| && Drafts.Folded(after.aliases[k].text) == norm ==>
                  after.aliases[k].ingredient == target)
  {
    var after, norm := Merged(cat, source, target), Normalise(cat.ingredients[source].name);
    forall i | IsNamed(after, norm, i)
      ensures i == source || i == target
    {
      assert IsNamed(cat, norm, i);
    }
    forall k | 0 <= k < |after.aliases| && Drafts.Folded(after.aliases[k].text) == norm
      ensures after.aliases[k].ingredient == target
    {
      AliasIsTargets(cat, source, target, k);
    }
  }

  lemma AliasIsTargets(cat: Catalog, source: IngredientId, target: IngredientId, k: nat)
    requires MergeRefusal(cat, source, target).None? && k < |Merged(cat, source, target).aliases|
    requires var norm := Normalise(cat.ingredients[source].name);
             && Undisputed(cat, norm, source, target)
             && Drafts.Folded(Merged(cat, source, target).aliases[k].text) == norm
    ensures Merged(cat, source, target).aliases[k].ingredient == target
  {
    MergeConservesAliases(cat, source, target);
  }

  // ---------------------------------------------------------------------------
  // The corpus
  // ---------------------------------------------------------------------------

  type Entry = (string, IngredientId)

  ghost function AliasPairs(cat: Catalog, n: nat): set<Entry>
    requires n <= |cat.aliases|
  {
    set k | 0 <= k < n && Live(cat.ingredients, cat.aliases[k].ingredient)
      :: (Normalise(cat.aliases[k].text), cat.aliases[k].ingredient)
  }

  ghost function NamePairs(cat: Catalog, ids: set<IngredientId>): set<Entry> {
    set i | i in ids && Live(cat.ingredients, i) :: (Normalise(cat.ingredients[i].name), i)
  }

  /** What a fresh load lists: the aliases and the name of every live ingredient. */
  ghost function LivePairs(cat: Catalog): set<Entry> {
    AliasPairs(cat, |cat.aliases|) + NamePairs(cat, cat.ingredients.Keys)
  }

  /** The entry comes from alias row `k`. */
  predicate FromAlias(cat: Catalog, k: nat, e: Entry) {
    && k < |cat.aliases|
    && Live(cat.ingredients, cat.aliases[k].ingredient)
    && e == (Normalise(cat.aliases[k].text), cat.aliases[k].ingredient)
  }

  predicate FromName(cat: Catalog, e: Entry) {
    Live(cat.ingredients, e.1) && e.0 == Normalise(cat.ingredients[e.1].name)
  }

  lemma Listed(cat: Catalog, e: Entry)
    ensures e in LivePairs(cat) <==> FromName(cat, e) || exists k: nat :: FromAlias(cat, k, e)
  {
    if k: nat :| FromAlias(cat, k, e) {
      assert 0 <= k < |cat.aliases|;
    }
    if e in AliasPairs(cat, |cat.aliases|) {
      var k :| 0 <= k < |cat.aliases| && Live(cat.ingredients, cat.aliases[k].ingredient)
        && (Normalise(cat.aliases[k].text), cat.aliases[k].ingredient) == e;
      assert FromAlias(cat, k, e);
    }
  }

  ghost function EntrySet(entries: seq<Entry>): set<Entry> {
    set k | 0 <= k < |entries| :: entries[k]
  }

  lemma EntrySetSnoc(entries: seq<Entry>, last: Entry)
    ensures EntrySet(entries + [last]) == EntrySet(entries) + {last}
  {
    var all := entries + [last];
    forall e
      ensures e in EntrySet(all) <==> e in EntrySet(entries) || e == last
    {
      if e in EntrySet(entries) {
        var k :| 0 <= k < |entries| && entries[k] == e;
        assert all[k] == e;
      }
      assert all[|entries|] == last;
    }
  }

  method LoadAliases(cat: Catalog) returns (entries: seq<Entry>)
    ensures EntrySet(entries) == AliasPairs(cat, |cat.aliases|)
  {
    entries := [];
    for k := 0 to |cat.aliases|
      invariant EntrySet(entries) == AliasPairs(cat, k)
    {
      var a := cat.aliases[k];
      if Live(cat.ingredients, a.ingredient) {
        EntrySetSnoc(entries, (Normalise(a.text), a.ingredient));
        entries := entries + [(Normalise(a.text), a.ingredient)];
        assert AliasPairs(cat, k + 1) == AliasPairs(cat, k) + {(Normalise(a.text), a.ingredient)};
      } else {
        assert AliasPairs(cat, k + 1) == AliasPairs(cat, k);
      }
    }
  }

  method LoadCorpus(cat: Catalog) returns (entries: seq<Entry>)
    ensures EntrySet(entries) == LivePairs(cat)
  {
    entries := LoadAliases(cat);
    ghost var done: set<IngredientId> := {};
    var pending := cat.ingredients.Keys;
    while pending != {}
      invariant pending <= cat.ingredients.Keys && done == cat.ingredients.Keys - pending
      invariant EntrySet(entries) == AliasPairs(cat, |cat.aliases|) + NamePairs(cat, done)
      decreases pending
    {
      var i :| i in pending;
      if Live(cat.ingredients, i) {
        var e: Entry := (Normalise(cat.ingredients[i].name), i);
        EntrySetSnoc(entries, e);
        entries := entries + [e];
        assert NamePairs(cat, done + {i}) == NamePairs(cat, done) + {e};
      } else {
        assert NamePairs(cat, done + {i}) == NamePairs(cat, done);
      }
      done, pending := done + {i}, pending - {i};
    }
  }

  /** The corpus after recording a row: nothing if its id is already listed. */
  ghost function WithEntry(entries: set<Entry>, i: IngredientId, text: string): set<Entry> {
    if exists e :: e in entries && e.1 == i then entries else entries + {(Normalise(text), i)}
  }

  class FuzzyCorpus {
    var built: bool
    var entries: seq<Entry>
    var seen: set<IngredientId>

    constructor ()
      ensures Valid() && !built
    {
      built, entries, seen := false, [], {};
    }

    ghost predicate Valid()
      reads this
    {
      built ==> forall i :: i in seen <==> exists e :: e in EntrySet(entries) && e.1 == i
    }

    /** Loads on first use. */
    method Entries(cat: Catalog)
      requires Valid()
      modifies this
      ensures Valid() && built
      ensures old(built) ==> entries == old(entries)
      ensures !old(built) ==> EntrySet(entries) == LivePairs(cat)
    {
      if !built {
        entries := LoadCorpus(cat);
        seen := set k | 0 <= k < |entries| :: entries[k].1;
        built := true;
        forall i
          ensures i in seen <==> exists e :: e in EntrySet(entries) && e.1 == i
        {
          if i in seen {
            var k :| 0 <= k < |entries| && entries[k].1 == i;
            assert entries[k] in EntrySet(entries);
          }
        }
      }
    }

    method Add(i: IngredientId, text: string)
      requires Valid()
      modifies this
      ensures Valid() && built == old(built)
      ensures built ==> EntrySet(entries) == WithEntry(old(EntrySet(entries)), i, text)
      ensures !built ==> entries == old(entries)
    {
      if !built || i in seen {
        return;
      }
      var e: Entry := (Normalise(text), i);
      EntrySetSnoc(entries, e);
      entries := entries + [e];
      seen := seen + {i};
    }
  }

  // ---------------------------------------------------------------------------
  // Matching or creating
  // ---------------------------------------------------------------------------

  /** The row of exactly this name, if there is one; names are unique. */
  predicate IsExactly(cat: Catalog, name: string, i: IngredientId) {
    i in cat.ingredients && cat.ingredients[i].name == name
  }

  function WithNew(cat: Catalog, name: string): Catalog {
    cat.(ingredients := cat.ingredients[cat.next := Ingredient(name, None)],
         aliases := cat.aliases + [Alias(name, cat.next)],
         next := cat.next + 1)
  }

  /** `best` is the entry the search found above the cut-off, `chosen` the one the
      model picked from the band below it. */
  datatype Search = Search(best: Option<Entry>, chosen: Option<Entry>)

  /** The search looks at the corpus, and an equal string scores full marks. */
  ghost predicate Fits(search: Search, corpus: set<Entry>, name: string) {
    && (search.best.Some? ==> search.best.value in corpus)
    && (search.chosen.Some? ==> search.chosen.value in corpus)
    && ((exists e :: e in corpus && e.0 == Normalise(name) && e.0 != "") ==> search.best.Some?)
  }

  /** The catalog and the corpus as a set; `None` before it is built. */
  datatype State = State(cat: Catalog, corpus: Option<set<Entry>>)

  ghost function Built(s: State): set<Entry> {
    if s.corpus.Some? then s.corpus.value else LivePairs(s.cat)
  }

  /** The live ingredient a search result leads to. */
  ghost function Hit(cat: Catalog, search: Search): Option<IngredientId> {
    var best := if search.best.Some? then Resolve(cat.ingredients, search.best.value.1) else None;
    if best.Some? then best
    else if search.chosen.Some? then Resolve(cat.ingredients, search.chosen.value.1)
    else None
  }

  /** One call may go from `s` to `t` with this result. */
  ghost predicate Steps(s: State, name: string, search: Search, t: State, result: IngredientId) {
    || (Matches(s.cat, name, Some(result)) && t == s)
    || (&& Matches(s.cat, name, None)
        && Fits(search, Built(s), name)
        && match Hit(s.cat, search)
           case Some(found) => result == found && t == State(s.cat, Some(Built(s)))
           case None =>
             if exists i :: IsExactly(s.cat, name, i) then
               IsExactly(s.cat, name, result) && t == State(s.cat, Some(WithEntry(Built(s), result, name)))
             else
               result == s.cat.next && t == State(WithNew(s.cat, name), Some(WithEntry(Built(s), result, name))))
  }

  class CatalogStore {
    var cat: Catalog
    const corpus: FuzzyCorpus

    constructor (cat: Catalog, corpus: FuzzyCorpus)
      ensures this.cat == cat && this.corpus == corpus
    {
      this.cat := cat;
      this.corpus := corpus;
    }

    ghost function View(): State
      reads this, corpus
    {
      State(cat, if corpus.built then Some(EntrySet(corpus.entries)) else None)
    }

    /** Moves the source's aliases, adds its name, marks it merged, and repoints the
        lines, which is what the registered hook does. */
    method Merge(source: IngredientId, target: IngredientId) returns (refusal: Option<ApiError>)
      modifies this
      ensures refusal == MergeRefusal(old(cat), source, target)
      ensures cat == if refusal.None? then Merged(old(cat), source, target) else old(cat)
    {
      if source == target {
        return Some(InvalidMerge);
      }
      if source !in cat.ingredients || target !in cat.ingredients {
        return Some(NotFound);
      }
      var row := cat.ingredients[source];
      if row.into.Some? {
        return Some(AlreadyMerged);
      }
      var aliases := Repoint(cat.aliases, source, target);
      if !Carries(aliases, target, row.name) {
        aliases := aliases + [Alias(row.name, target)];
      }
      var lines := map l | l in cat.lines :: if cat.lines[l] == source then target else cat.lines[l];
      cat := cat.(ingredients := cat.ingredients[source := row.(into := Some(target))], aliases := aliases,
        lines := lines);
      return None;
    }

    method Repoint(aliases: seq<Alias>, source: IngredientId, target: IngredientId) returns (moved: seq<Alias>)
      ensures moved == Repointed(aliases, source, target)
    {
      moved := [];
      for k := 0 to |aliases|
        invariant moved == Repointed(aliases[..k], source, target)
      {
        assert aliases[..k + 1][..k] == aliases[..k];
        moved := moved + [if aliases[k].ingredient == source then aliases[k].(ingredient := target) else aliases[k]];
      }
      assert aliases[..|aliases|] == aliases;
    }

    /** The row of this name, or a new one whose name is also its alias. */
    method CreateUnreviewed(name: string) returns (i: IngredientId)
      requires AliasesOk(cat)
      modifies this
      ensures AliasesOk(cat)
      ensures (exists k :: IsExactly(old(cat), name, k)) ==> cat == old(cat) && IsExactly(cat, name, i)
      ensures (forall k :: !IsExactly(old(cat), name, k)) ==> cat == WithNew(old(cat), name) && i == old(cat).next
    {
      if k :| k in cat.ingredients && cat.ingredients[k].name == name {
        assert IsExactly(cat, name, k);
        return k;
      }
      i := cat.next;
      cat := WithNew(cat, name);
    }

    /** The live ingredient a corpus entry leads to. */
    method Follow(entry: Option<Entry>) returns (found: Option<IngredientId>)
      ensures found == if entry.Some? then Resolve(cat.ingredients, entry.value.1) else None
    {
      if entry.None? {
        return None;
      }
      found := FollowMergeChain(cat.ingredients, entry.value.1);
    }

    method MatchOrCreate(name: string, search: Search) returns (result: IngredientId)
      requires AliasesOk(cat) && corpus.Valid() && Fits(search, Built(View()), name)
      modifies this, corpus
      ensures AliasesOk(cat) && corpus.Valid()
      ensures Steps(old(View()), name, search, View(), result)
    {
      var exact := Match(cat, name);
      if exact.Some? {
        return exact.value;
      }
      corpus.Entries(cat);
      var found := Follow(search.best);
      if found.None? {
        found := Follow(search.chosen);
      }
      if found.Some? {
        return found.value;
      }
      result := CreateUnreviewed(name);
      corpus.Add(result, name);
    }
  }

  // ---------------------------------------------------------------------------
  // The corpus agrees with a fresh load
  // ---------------------------------------------------------------------------

  /** The corpus, once built, lists exactly what a fresh load would. */
  ghost predicate Synced(s: State) {
    Built(s) == LivePairs(s.cat)
  }

  lemma LivePairsOfNew(cat: Catalog, name: string)
    requires AliasesOk(cat)
    ensures LivePairs(WithNew(cat, name)) == LivePairs(cat) + {(Normalise(name), cat.next)}
  {
    forall e
      ensures e in LivePairs(WithNew(cat, name)) <==> e in LivePairs(cat) || e == (Normalise(name), cat.next)
    {
      PairOfNew(cat, name, e);
    }
  }

  lemma PairOfNew(cat: Catalog, name: string, e: Entry)
    requires AliasesOk(cat)
    ensures e in LivePairs(WithNew(cat, name)) <==> e in LivePairs(cat) || e == (Normalise(name), cat.next)
  {
    var after := WithNew(cat, name);
    Listed(cat, e);
    Listed(after, e);
    forall k: nat
      ensures FromAlias(after, k, e) <==>
                FromAlias(cat, k, e) || (k == |cat.aliases| && e == (Normalise(name), cat.next))
    {
    }
    if e.1 in cat.ingredients {
      assert FromName(after, e) <==> FromName(cat, e);
    }
  }

  /** A fresh load lists an ingredient exactly when it is live. */
  lemma ListedIsLive(cat: Catalog, i: IngredientId)
    ensures (exists e :: e in LivePairs(cat) && e.1 == i) <==> Live(cat.ingredients, i)
  {
    if Live(cat.ingredients, i) {
      Listed(cat, (Normalise(cat.ingredients[i].name), i));
    }
    if e :| e in LivePairs(cat) && e.1 == i {
      Listed(cat, e);
    }
  }

  lemma ResolvedIsLive(ingredients: map<IngredientId, Ingredient>, i: IngredientId)
    ensures Resolve(ingredients, i).Some? ==> Live(ingredients, Resolve(ingredients, i).value)
  {
    if Resolve(ingredients, i).Some? {
      var k: nat :| ReachesIn(ingredients, i, k, Resolve(ingredients, i).value);
    }
  }

  /** The shared corpus stays in step with a fresh load through a call if and only if
      the call returns a live ingredient, whether or not the corpus was built. */
  lemma CorpusStaysSynced(s: State, name: string, search: Search, t: State, result: IngredientId)
    requires AliasesOk(s.cat) && Synced(s) && Steps(s, name, search, t, result)
    ensures Synced(t) <==> Live(t.cat.ingredients, result)
    ensures AliasesOk(t.cat)
  {
    if Matches(s.cat, name, Some(result)) && t == s {
      MatchIsLive(s.cat, name, result);
    } else if Hit(s.cat, search).Some? {
      HitIsLive(s.cat, search);
    } else if exists i :: IsExactly(s.cat, name, i) {
      ListedIsLive(s.cat, result);
    } else {
      LivePairsOfNew(s.cat, name);
      ListedIsLive(s.cat, result);
    }
  }

  lemma MatchIsLive(cat: Catalog, text: string, result: IngredientId)
    requires Matches(cat, text, Some(result))
    ensures Live(cat.ingredients, result)
  {
    var norm := Normalise(text);
    if HasAlias(cat, norm) {
      var k: nat :| IsAliasHit(cat, norm, k) && Some(result) == Resolve(cat.ingredients, cat.aliases[k].ingredient);
      ResolvedIsLive(cat.ingredients, cat.aliases[k].ingredient);
    } else {
      var i :| IsNamed(cat, norm, i) && Some(result) == Resolve(cat.ingredients, i);
      ResolvedIsLive(cat.ingredients, i);
    }
  }

  lemma HitIsLive(cat: Catalog, search: Search)
    requires Hit(cat, search).Some?
    ensures Live(cat.ingredients, Hit(cat, search).value)
  {
    if search.best.Some? {
      ResolvedIsLive(cat.ingredients, search.best.value.1);
    }
    if search.chosen.Some? {
      ResolvedIsLive(cat.ingredients, search.chosen.value.1);
    }
  }

  /** Row names are unique. */
  ghost predicate NamesUnique(cat: Catalog) {
    forall i, k :: i in cat.ingredients && k in cat.ingredients && i != k ==>
      cat.ingredients[i].name != cat.ingredients[k].name
  }

  /** A call returns a merged ingredient exactly when nothing matches or hits and a
      merged row has exactly the name. */
  lemma MergedRowComesBack(s: State, name: string, search: Search, t: State, result: IngredientId)
    requires AliasesOk(s.cat) && NamesUnique(s.cat) && Steps(s, name, search, t, result)
    ensures !Live(t.cat.ingredients, result) <==>
            && !Matches(s.cat, name, Some(result))
            && Hit(s.cat, search).None?
            && exists i :: IsExactly(s.cat, name, i) && !Live(s.cat.ingredients, i)
  {
    if Matches(s.cat, name, Some(result)) {
      MatchIsLive(s.cat, name, result);
    } else if Hit(s.cat, search).Some? {
      HitIsLive(s.cat, search);
    }
  }

  /** Some call for this name leaves the corpus other than a fresh load. */
  ghost predicate MayFallOutOfStep(s: State, name: string, search: Search) {
    exists t, result :: Steps(s, name, search, t, result) && !Synced(t)
  }

  /** In terms of the state before the call alone: the corpus can fall out of step if
      and only if nothing matches the name, the search hits nothing that is live, and a
      merged row has exactly the name. */
  lemma CorpusFallsOutOfStep(s: State, name: string, search: Search)
    requires AliasesOk(s.cat) && NamesUnique(s.cat) && Synced(s) && Fits(search, Built(s), name)
    ensures MayFallOutOfStep(s, name, search) <==>
            && Matches(s.cat, name, None)
            && Hit(s.cat, search).None?
            && exists i :: IsExactly(s.cat, name, i) && !Live(s.cat.ingredients, i)
  {
    if t, result :| Steps(s, name, search, t, result) && !Synced(t) {
      CorpusStaysSynced(s, name, search, t, result);
      MergedRowComesBack(s, name, search, t, result);
    }
    if Matches(s.cat, name, None) && Hit(s.cat, search).None? {
      if i :| IsExactly(s.cat, name, i) && !Live(s.cat.ingredients, i) {
        var t := State(s.cat, Some(WithEntry(Built(s), i, name)));
        assert Steps(s, name, search, t, i);
        CorpusStaysSynced(s, name, search, t, i);
      }
    }
  }

  function Empty(): Catalog {
    Catalog(map[], [], map[], 0)
  }

  /** A row renamed by hand, merged or not. */
  function WithName(cat: Catalog, i: IngredientId, name: string): Catalog
    requires i in cat.ingredients
  {
    cat.(ingredients := cat.ingredients[i := cat.ingredients[i].(name := name)])
  }

  /** "x" was merged into "c" and then renamed to a name with two spaces: matching does
      not find it, and no other row or alias resembles it. */
  function Renamed(): Catalog {
    Catalog(map[0 := Ingredient("a  b", Some(1)), 1 := Ingredient("c", None)], [Alias("x", 1), Alias("c", 1)], map[], 2)
  }

  /** What calls for "x" and "c" create. */
  function XAndC(): Catalog {
    Catalog(map[0 := Ingredient("x", None), 1 := Ingredient("c", None)], [Alias("x", 0), Alias("c", 1)], map[], 2)
  }

  lemma XAndCAreCreated()
    ensures WithNew(WithNew(Empty(), "x"), "c") == XAndC()
  {
  }

  lemma XAndCMerge()
    ensures Repointed(XAndC().aliases, 0, 1) == Renamed().aliases
    ensures Carries(Renamed().aliases, 1, "x")
  {
    assert Renamed().aliases[0] == Alias("x", 1);
  }

  lemma RenamedComesAbout()
    ensures MergeRefusal(XAndC(), 0, 1).None?
    ensures Renamed() == WithName(Merged(XAndC(), 0, 1), 0, "a  b")
  {
    XAndCMerge();
  }

  lemma OneLetter(c: char)
    requires !Drafts.IsSpace(c)
    ensures Words([c], "") == [[c]]
  {
    assert [c][1..] == "" && "" + [c] == [c];
  }

  lemma RenamedIsUnmatched()
    ensures Normalise("a  b") == "a b"
    ensures Matches(Renamed(), "a  b", None)
  {
    OneLetter('b');
    assert " b"[1..] == "b" && "  b"[1..] == " b" && "a  b"[1..] == "  b" && "" + ['a'] == "a";
    assert Words(" b", "") == ["b"];
    assert Words("  b", "a") == ["a"] + ["b"];
    assert Drafts.Joined(["a", "b"], " ") == "a" + " " + "b";
    assert |Drafts.Folded("a  b")| == 4 && |Drafts.Folded("c")| == 1 && |Drafts.Folded("x")| == 1;
  }

  lemma NothingIsAB()
    ensures forall e :: e in LivePairs(Renamed()) ==> e.0 != "a b"
  {
    forall e | e in LivePairs(Renamed())
      ensures e.0 == "c" || e.0 == "x"
    {
      Listed(Renamed(), e);
      OthersAreNotAB();
    }
  }

  lemma RenamedReachesLive()
    ensures AllReachLive(Renamed().ingredients)
  {
    var ingredients := Renamed().ingredients;
    ReachesItself(ingredients, 1);
    ReachesThrough(ingredients, 0, 1);
  }

  lemma RenamedIsReturned(s: State, t: State)
    requires s == State(Renamed(), None)
    requires t == State(Renamed(), Some(WithEntry(LivePairs(Renamed()), 0, "a  b")))
    ensures Steps(s, "a  b", Search(None, None), t, 0)
  {
    RenamedIsUnmatched();
    NothingIsAB();
    assert IsExactly(s.cat, "a  b", 0);
    assert Hit(s.cat, Search(None, None)) == None;
  }

  lemma RenamedFallsOut(s: State, name: string, search: Search, t: State)
    requires s == State(Renamed(), None) && t.cat == Renamed() && Steps(s, name, search, t, 0)
    ensures !Synced(t)
  {
    CorpusStaysSynced(s, name, search, t, 0);
  }

  /** On a catalog without cycles the shared corpus can still come to list what a
      fresh load would not. */
  lemma CorpusCanDisagree(s: State, t: State)
    requires s == State(Renamed(), None)
    requires t == State(Renamed(), Some(WithEntry(LivePairs(Renamed()), 0, "a  b")))
    ensures AllReachLive(s.cat.ingredients) && Synced(s)
    ensures Steps(s, "a  b", Search(None, None), t, 0) && !Synced(t)
  {
    RenamedReachesLive();
    RenamedIsReturned(s, t);
    RenamedFallsOut(s, "a  b", Search(None, None), t);
  }

  lemma OthersAreNotAB()
    ensures Normalise("c") == "c" && Normalise("x") == "x"
  {
    OneLetter('c');
    OneLetter('x');
    assert Drafts.Joined(["c"], " ") == "c" && Drafts.Joined(["x"], " ") == "x";
  }
}
