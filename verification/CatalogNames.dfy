/** Which texts a catalog name answers to: the same words, whatever the case of their
    letters and the white space around and between them. */
module CatalogNames {
  import opened Options
  import opened Catalog
  import opened CatalogMatching
  import opened TextLaws
  import Drafts

  // ---------------------------------------------------------------------------
  // Words
  // ---------------------------------------------------------------------------

  predicate SpaceChar(c: char) {
    c == ' ' || c == '\t' || c == '\n' || c == '\r'
  }

  predicate IsPad(pad: string) {
    forall i :: 0 <= i < |pad| ==> SpaceChar(pad[i])
  }

  predicate IsWord(word: string) {
    word != "" && forall i :: 0 <= i < |word| ==> !SpaceChar(word[i])
  }

  /** Words, white space between each two, and any white space around them. */
  predicate Proper(words: seq<string>, pads: seq<string>) {
    && |pads| == |words| + 1
    && (forall k :: 0 <= k < |words| ==> IsWord(words[k]))
    && (forall k :: 0 <= k < |pads| ==> IsPad(pads[k]))
    && (forall k :: 0 < k < |words| ==> pads[k] != "")
  }

  /** The text made of them. */
  function Spelled(words: seq<string>, pads: seq<string>): string
    requires |pads| == |words| + 1
  {
    pads[0] + if words == [] then "" else words[0] + Spelled(words[1..], pads[1..])
  }

  lemma {:induction false} PadIsSkipped(pad: string, rest: string)
    requires IsPad(pad)
    ensures Words(pad + rest, "") == Words(rest, "")
  {
    if pad == "" {
      assert pad + rest == rest;
    } else {
      PadIsSkipped(pad[1..], rest);
      assert (pad + rest)[1..] == pad[1..] + rest;
    }
  }

  lemma {:induction false} WordIsRead(word: string, rest: string, read: string)
    requires forall i :: 0 <= i < |word| ==> !SpaceChar(word[i])
    ensures Words(word + rest, read) == Words(rest, read + word)
  {
    if word == "" {
      assert word + rest == rest && read + word == read;
    } else {
      WordIsRead(word[1..], rest, read + [word[0]]);
      assert (word + rest)[1..] == word[1..] + rest;
      assert read + [word[0]] + word[1..] == read + word;
    }
  }

  lemma PadEndsWord(pad: string, rest: string, read: string)
    requires IsPad(pad) && pad != "" && read != ""
    ensures Words(pad + rest, read) == [read] + Words(rest, "")
  {
    assert (pad + rest)[1..] == pad[1..] + rest;
    PadIsSkipped(pad[1..], rest);
  }

  lemma {:induction false} WordsAfter(words: seq<string>, pads: seq<string>, read: string)
    requires Proper(words, pads) && read != "" && (words != [] ==> pads[0] != "")
    ensures Words(Spelled(words, pads), read) == [read] + words
    decreases |words|
  {
    if words == [] {
      if pads[0] != "" {
        PadEndsWord(pads[0], "", read);
      }
      assert [read] + [] == [read];
    } else {
      var rest := Spelled(words[1..], pads[1..]);
      PadEndsWord(pads[0], words[0] + rest, read);
      WordIsRead(words[0], rest, "");
      assert "" + words[0] == words[0];
      WordsAfter(words[1..], pads[1..], words[0]);
      assert [words[0]] + words[1..] == words;
    }
  }

  /** The words of a text are the words it is made of. */
  lemma WordsAre(words: seq<string>, pads: seq<string>)
    requires Proper(words, pads)
    ensures Words(Spelled(words, pads), "") == words
  {
    if words == [] {
      PadIsSkipped(pads[0], "");
    } else {
      var rest := Spelled(words[1..], pads[1..]);
      PadIsSkipped(pads[0], words[0] + rest);
      WordIsRead(words[0], rest, "");
      assert "" + words[0] == words[0];
      WordsAfter(words[1..], pads[1..], words[0]);
      assert [words[0]] + words[1..] == words;
    }
  }

  // ---------------------------------------------------------------------------
  // Names and their variants
  // ---------------------------------------------------------------------------

  /** Word by word the same but for case. */
  predicate SameWords(a: seq<string>, b: seq<string>) {
    |a| == |b| && forall k :: 0 <= k < |a| ==> SameLetters(a[k], b[k])
  }

  /** `text` has the words of `name`, in any case and spacing; `name` has them with one
      space between each two. */
  ghost predicate Variant(text: string, name: string) {
    exists words, pads, nameWords ::
      words != [] && Proper(words, pads) && text == Spelled(words, pads)
      && SameWords(words, nameWords) && name == Chained(nameWords, " ")
  }

  lemma SameConcat(a: string, b: string, c: string, d: string)
    requires SameLetters(a, b) && SameLetters(c, d)
    ensures SameLetters(a + c, b + d)
  {
  }

  lemma {:induction false} SameChained(a: seq<string>, b: seq<string>)
    requires SameWords(a, b)
    ensures SameLetters(Chained(a, " "), Chained(b, " "))
  {
    if |a| > 1 {
      var n := |a| - 1;
      SameChained(a[..n], b[..n]);
      SameConcat(Chained(a[..n], " "), Chained(b[..n], " "), " ", " ");
      SameConcat(Chained(a[..n], " ") + " ", Chained(b[..n], " ") + " ", a[n], b[n]);
    }
  }

  lemma {:induction false} ChainedIsLonger(words: seq<string>)
    requires words != [] && forall k :: 0 <= k < |words| ==> words[k] != ""
    ensures Chained(words, " ") != ""
  {
  }

  /** A variant is normalised to the name, folded. */
  lemma VariantNormalises(text: string, name: string)
    requires Variant(text, name)
    ensures Normalise(text) == Drafts.Folded(name) != ""
  {
    var words, pads, nameWords :|
      words != [] && Proper(words, pads) && text == Spelled(words, pads)
      && SameWords(words, nameWords) && name == Chained(nameWords, " ");
    WordsAre(words, pads);
    JoinedIsChained(words, " ");
    SameChained(words, nameWords);
    FoldedCompares(Chained(words, " "), name);
    ChainedIsLonger(words);
    assert |Drafts.Folded(name)| == |Chained(words, " ")|;
  }

  /** No alias and no row but `i` has the name, in any case. */
  ghost predicate OnlyAnswer(cat: Catalog, name: string, i: IngredientId) {
    && (forall k :: 0 <= k < |cat.aliases| && SameLetters(cat.aliases[k].text, name) ==> cat.aliases[k].ingredient == i)
    && (forall q :: q in cat.ingredients && SameLetters(cat.ingredients[q].name, name) ==> q == i)
  }

  lemma AnswersCompare(cat: Catalog, text: string, name: string)
    requires Variant(text, name)
    ensures forall k :: 0 <= k < |cat.aliases| ==>
              (Drafts.Folded(cat.aliases[k].text) == Normalise(text) <==> SameLetters(cat.aliases[k].text, name))
    ensures forall q :: IsNamed(cat, Normalise(text), q) <==>
                        q in cat.ingredients && SameLetters(cat.ingredients[q].name, name)
  {
    VariantNormalises(text, name);
    forall k | 0 <= k < |cat.aliases|
      ensures Drafts.Folded(cat.aliases[k].text) == Normalise(text) <==> SameLetters(cat.aliases[k].text, name)
    {
      FoldedCompares(cat.aliases[k].text, name);
    }
    forall q
      ensures IsNamed(cat, Normalise(text), q) <==> q in cat.ingredients && SameLetters(cat.ingredients[q].name, name)
    {
      if q in cat.ingredients {
        FoldedCompares(cat.ingredients[q].name, name);
      }
    }
  }

  lemma LiveResolves(ingredients: map<IngredientId, Ingredient>, i: IngredientId)
    requires Live(ingredients, i)
    ensures Resolve(ingredients, i) == Some(i)
  {
    ReachesItself(ingredients, i);
    ResolveIs(ingredients, i, i);
  }

  /** A live row is found under its name in any case and spacing of the text, if nothing
      else has the name. */
  lemma MatchFindsVariants(cat: Catalog, i: IngredientId, text: string, r: Option<IngredientId>)
    requires Live(cat.ingredients, i) && Variant(text, cat.ingredients[i].name)
    requires OnlyAnswer(cat, cat.ingredients[i].name, i)
    requires Matches(cat, text, r)
    ensures r == Some(i)
  {
    var name := cat.ingredients[i].name;
    AnswersCompare(cat, text, name);
    VariantNormalises(text, name);
    LiveResolves(cat.ingredients, i);
    FoldedCompares(name, name);
    assert IsNamed(cat, Normalise(text), i);
  }

  /** And nothing is found when nothing has the name in any case. */
  lemma MatchFindsNothingElse(cat: Catalog, text: string, name: string, r: Option<IngredientId>)
    requires Variant(text, name) && Matches(cat, text, r)
    requires forall k :: 0 <= k < |cat.aliases| ==> !SameLetters(cat.aliases[k].text, name)
    requires forall q :: q in cat.ingredients ==> !SameLetters(cat.ingredients[q].name, name)
    ensures r == None
  {
    AnswersCompare(cat, text, name);
  }

  /** Of the aliases that have the name, the first row decides, before any name. */
  lemma MatchTakesFirstAlias(cat: Catalog, text: string, name: string, k: nat, r: Option<IngredientId>)
    requires Variant(text, name) && Matches(cat, text, r)
    requires k < |cat.aliases| && SameLetters(cat.aliases[k].text, name)
    requires forall m :: 0 <= m < k ==> !SameLetters(cat.aliases[m].text, name)
    ensures r == Resolve(cat.ingredients, cat.aliases[k].ingredient)
    ensures Live(cat.ingredients, cat.aliases[k].ingredient) ==> r == Some(cat.aliases[k].ingredient)
  {
    VariantNormalises(text, name);
    AnswersCompare(cat, text, name);
    assert IsAliasHit(cat, Normalise(text), k);
    if Live(cat.ingredients, cat.aliases[k].ingredient) {
      LiveResolves(cat.ingredients, cat.aliases[k].ingredient);
    }
  }

  /** When no alias and no row answers, what the search found above the cut-off decides,
      then what the model picked, if they are live; nothing is added. */
  lemma SearchDecides(s: State, name: string, search: Search, t: State, result: IngredientId)
    requires Steps(s, name, search, t, result) && forall r :: Matches(s.cat, name, r) ==> r == None
    ensures search.best.Some? && Live(s.cat.ingredients, search.best.value.1) ==>
              result == search.best.value.1 && t.cat == s.cat
    ensures search.best.None? && search.chosen.Some? && Live(s.cat.ingredients, search.chosen.value.1) ==>
              result == search.chosen.value.1 && t.cat == s.cat
    ensures search.best.None? && search.chosen.None? ==>
              result in t.cat.ingredients && t.cat.ingredients[result].name == name
  {
    if search.best.Some? && Live(s.cat.ingredients, search.best.value.1) {
      LiveResolves(s.cat.ingredients, search.best.value.1);
    }
    if search.chosen.Some? && Live(s.cat.ingredients, search.chosen.value.1) {
      LiveResolves(s.cat.ingredients, search.chosen.value.1);
    }
  }

  /** The row that a call creates for a name is the one that every later call returns
      for each variant of it, and such a call changes nothing. */
  lemma CreatedIsFound(s: State, name: string, search: Search, t: State, result: IngredientId, text: string,
                       again: Search, u: State, found: IngredientId)
    requires AliasesOk(s.cat) && Steps(s, name, search, t, result) && result !in s.cat.ingredients
    requires forall k :: 0 <= k < |s.cat.aliases| ==> !SameLetters(s.cat.aliases[k].text, name)
    requires forall q :: q in s.cat.ingredients ==> !SameLetters(s.cat.ingredients[q].name, name)
    requires Variant(text, name) && Steps(t, text, again, u, found)
    ensures found == result && u == t
  {
    CreatedRow(s, name, search, t, result);
    assert OnlyAnswer(t.cat, name, result);
    if Matches(t.cat, text, Some(found)) && u == t {
      MatchFindsVariants(t.cat, result, text, Some(found));
    } else {
      MatchFindsVariants(t.cat, result, text, None);
    }
  }

  lemma CreatedRow(s: State, name: string, search: Search, t: State, result: IngredientId)
    requires AliasesOk(s.cat) && Steps(s, name, search, t, result) && result !in s.cat.ingredients
    ensures result == s.cat.next && t.cat == WithNew(s.cat, name)
    ensures Live(t.cat.ingredients, result) && t.cat.ingredients[result].name == name
    ensures t.cat.aliases == s.cat.aliases + [Alias(name, result)]
    ensures forall i :: i in s.cat.ingredients ==> t.cat.ingredients[i] == s.cat.ingredients[i]
  {
    if Matches(s.cat, name, Some(result)) && t == s {
      MatchIsLive(s.cat, name, result);
    } else if Hit(s.cat, search).Some? {
      HitIsLive(s.cat, search);
    }
  }
}
