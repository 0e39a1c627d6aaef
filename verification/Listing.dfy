/** The flat recipe list: which recipes it holds for a user, in what order, and
    what its pages add up to. */
module Listing {
  import opened Options
  import opened Boards
  import opened BoardTheorems

  datatype Meta = Meta(createdAt: int, favorite: bool)

  /** `matching` are the recipes that pass the text, vocabulary, dietary, time and
      source filters; `dietaryKnown` is false for an unknown dietary filter. */
  datatype Filter = Filter(matching: set<RecipeId>, favorites: Option<bool>, dietaryKnown: bool)

  datatype Page = Page(items: seq<RecipeId>, total: nat)

  /** Cookbooks the user owns or is a member of; merely public ones do not count. */
  predicate OnShelf(b: Board, user: UserId, c: CookbookId) {
    c in b.cookbooks && (b.cookbooks[c].owner == user || (c, user) in b.members)
  }

  predicate InScope(b: Board, user: UserId, r: RecipeId)
    requires r in b.recipes
  {
    b.recipes[r] == user || exists p :: p in b.placements && p.1 == r && OnShelf(b, user, p.0)
  }

  predicate Passes(b: Board, rows: map<RecipeId, Meta>, user: UserId, filter: Filter, r: RecipeId)
    requires r in b.recipes && r in rows
  {
    && r in filter.matching
    && (filter.favorites.Some? ==> b.recipes[r] == user && rows[r].favorite == filter.favorites.value)
  }

  function Selected(b: Board, rows: map<RecipeId, Meta>, user: UserId, filter: Filter): set<RecipeId>
    requires rows.Keys == b.recipes.Keys
  {
    set r | r in b.recipes && InScope(b, user, r) && Passes(b, rows, user, filter, r)
  }

  /** Newest first; the id breaks ties. */
  predicate Before(rows: map<RecipeId, Meta>, q: RecipeId, r: RecipeId)
    requires q in rows && r in rows
  {
    rows[q].createdAt > rows[r].createdAt || (rows[q].createdAt == rows[r].createdAt && q > r)
  }

  predicate IsFirst(rows: map<RecipeId, Meta>, ids: set<RecipeId>, r: RecipeId)
    requires ids <= rows.Keys
  {
    r in ids && forall q :: q in ids && q != r ==> Before(rows, r, q)
  }

  lemma {:induction false} FirstExists(rows: map<RecipeId, Meta>, ids: set<RecipeId>) returns (r: RecipeId)
    requires ids <= rows.Keys && ids != {}
    ensures IsFirst(rows, ids, r)
    decreases ids
  {
    r :| r in ids;
    var rest := ids - {r};
    assert forall q :: q in ids && q != r ==> q in rest;
    if rest != {} {
      var q := FirstExists(rows, rest);
      if Before(rows, q, r) {
        r := q;
      } else {
        assert Before(rows, r, q);
        assert forall x :: x in rest && x != q ==> Before(rows, q, x);
      }
    }
  }

  ghost function InOrder(rows: map<RecipeId, Meta>, ids: set<RecipeId>): seq<RecipeId>
    requires ids <= rows.Keys
    decreases ids
  {
    if ids == {} then []
    else
      assert exists r :: IsFirst(rows, ids, r) by { var r := FirstExists(rows, ids); }
      var r :| IsFirst(rows, ids, r);
      [r] + InOrder(rows, ids - {r})
  }

  predicate Sorted(rows: map<RecipeId, Meta>, list: seq<RecipeId>) {
    && (forall i :: 0 <= i < |list| ==> list[i] in rows)
    && forall i, k :: 0 <= i < k < |list| ==> Before(rows, list[i], list[k])
  }

  function PageOf(list: seq<RecipeId>, limit: nat, offset: nat): seq<RecipeId> {
    if offset >= |list| then []
    else if offset + limit >= |list| then list[offset..]
    else list[offset..offset + limit]
  }

  ghost function ListRecipes(b: Board, rows: map<RecipeId, Meta>, user: UserId, filter: Filter, limit: nat,
                             offset: nat):
    Result<Page>
    requires rows.Keys == b.recipes.Keys
  {
    if !filter.dietaryKnown then Failure(ValidationError)
    else
      var selected := Selected(b, rows, user, filter);
      Success(Page(PageOf(InOrder(rows, selected), limit, offset), |selected|))
  }

  /** The list holds each selected recipe once, newest first. */
  lemma {:induction false} InOrderIsSorted(rows: map<RecipeId, Meta>, ids: set<RecipeId>)
    requires ids <= rows.Keys
    ensures Sorted(rows, InOrder(rows, ids))
    ensures forall r :: r in InOrder(rows, ids) <==> r in ids
    ensures |InOrder(rows, ids)| == |ids|
    decreases ids
  {
    if ids != {} {
      var r := FirstExists(rows, ids);
      var list := InOrder(rows, ids);
      assert IsFirst(rows, ids, list[0]);
      var rest := ids - {list[0]};
      InOrderIsSorted(rows, rest);
      assert list == [list[0]] + InOrder(rows, rest);
      forall i, k | 0 <= i < k < |list|
        ensures Before(rows, list[i], list[k])
      {
        assert list[k] in InOrder(rows, rest);
      }
    }
  }

  /** The order is total: two sorted lists of the same recipes are equal, so every
      page query sees the same list. */
  lemma {:induction false} SortedIsUnique(rows: map<RecipeId, Meta>, a: seq<RecipeId>, b: seq<RecipeId>)
    requires Sorted(rows, a) && Sorted(rows, b)
    requires forall r :: r in a <==> r in b
    ensures a == b
    decreases |a|
  {
    assert |b| > 0 ==> b[0] in a;
    if a != [] {
      assert a[0] in b;
      assert a[0] == b[0] by {
        var i :| 0 <= i < |b| && b[i] == a[0];
        var k :| 0 <= k < |a| && a[k] == b[0];
      }
      forall r
        ensures r in a[1..] <==> r in b[1..]
      {
        if r in a[1..] { assert r in a && r != a[0]; }
        if r in b[1..] { assert r in b && r != b[0]; }
      }
      SortedIsUnique(rows, a[1..], b[1..]);
    }
  }

  /** What a client reads that asks for page after page from `offset` on. */
  function AllPages(list: seq<RecipeId>, limit: nat, offset: nat): seq<RecipeId>
    requires limit > 0
    decreases |list| - offset
  {
    if offset >= |list| then [] else PageOf(list, limit, offset) + AllPages(list, limit, offset + limit)
  }

  lemma NextPage(list: seq<RecipeId>, limit: nat, offset: nat)
    requires limit > 0 && offset < |list|
    ensures AllPages(list, limit, offset) == PageOf(list, limit, offset) + AllPages(list, limit, offset + limit)
  {
  }

  lemma PageEnds(list: seq<RecipeId>, limit: nat, offset: nat)
    requires limit > 0 && offset < |list|
    ensures PageOf(list, limit, offset) + (if offset + limit < |list| then list[offset + limit..] else []) ==
            list[offset..]
  {
  }

  lemma {:induction false} PagesConcatenate(list: seq<RecipeId>, limit: nat, offset: nat)
    requires limit > 0 && offset <= |list|
    ensures AllPages(list, limit, offset) == list[offset..]
    decreases |list| - offset
  {
    if offset < |list| {
      NextPage(list, limit, offset);
      PageEnds(list, limit, offset);
      if offset + limit < |list| {
        PagesConcatenate(list, limit, offset + limit);
      }
    }
  }

  ghost function PagesRead(b: Board, rows: map<RecipeId, Meta>, user: UserId, filter: Filter, limit: nat, offset: nat):
    seq<RecipeId>
    requires rows.Keys == b.recipes.Keys && limit > 0 && filter.dietaryKnown
    decreases |Selected(b, rows, user, filter)| - offset
  {
    var page := ListRecipes(b, rows, user, filter, limit, offset).value;
    if offset >= page.total then [] else page.items + PagesRead(b, rows, user, filter, limit, offset + limit)
  }

  lemma PageIsRead(b: Board, rows: map<RecipeId, Meta>, user: UserId, filter: Filter, limit: nat, offset: nat)
    requires rows.Keys == b.recipes.Keys && limit > 0 && filter.dietaryKnown
    requires offset < |Selected(b, rows, user, filter)|
    ensures PagesRead(b, rows, user, filter, limit, offset) ==
            PageOf(InOrder(rows, Selected(b, rows, user, filter)), limit, offset)
            + PagesRead(b, rows, user, filter, limit, offset + limit)
  {
  }

  lemma {:induction false} PagesReadAre(b: Board, rows: map<RecipeId, Meta>, user: UserId, filter: Filter, limit: nat,
                                        offset: nat)
    requires rows.Keys == b.recipes.Keys && limit > 0 && filter.dietaryKnown
    ensures PagesRead(b, rows, user, filter, limit, offset) ==
            AllPages(InOrder(rows, Selected(b, rows, user, filter)), limit, offset)
    decreases |Selected(b, rows, user, filter)| - offset
  {
    var selected := Selected(b, rows, user, filter);
    var list := InOrder(rows, selected);
    InOrderIsSorted(rows, selected);
    if offset < |list| {
      PageIsRead(b, rows, user, filter, limit, offset);
      PagesReadAre(b, rows, user, filter, limit, offset + limit);
      NextPage(list, limit, offset);
    }
  }

  /** Reading page after page gives every selected recipe exactly once, newest
      first, as many as the reported total. */
  lemma PagesGiveTheWholeList(b: Board, rows: map<RecipeId, Meta>, user: UserId, filter: Filter, limit: nat)
    requires rows.Keys == b.recipes.Keys && limit > 0 && filter.dietaryKnown
    ensures var read := PagesRead(b, rows, user, filter, limit, 0);
            && Sorted(rows, read)
            && (forall r :: r in read <==> r in Selected(b, rows, user, filter))
            && |read| == ListRecipes(b, rows, user, filter, limit, 0).value.total
            && forall i, k :: 0 <= i < k < |read| ==> read[i] != read[k]
  {
    var list := InOrder(rows, Selected(b, rows, user, filter));
    InOrderIsSorted(rows, Selected(b, rows, user, filter));
    PagesReadAre(b, rows, user, filter, limit, 0);
    PagesConcatenate(list, limit, 0);
    assert list[0..] == list;
  }

  /** Nothing is listed that the access rule would not let the user read; and what a
      placement in an own or joined cookbook, or owning the recipe, makes readable is
      listed whenever it passes the filters. */
  lemma ListedIsReadable(b: Board, rows: map<RecipeId, Meta>, user: UserId, filter: Filter, r: RecipeId)
    requires rows.Keys == b.recipes.Keys && r in b.recipes
    ensures r in Selected(b, rows, user, filter) ==> Rank(RecipeAccess(b, Some(user), r)) >= Rank(Reads)
    ensures Passes(b, rows, user, filter, r) ==>
              (r in Selected(b, rows, user, filter) <==> InScope(b, user, r))
    ensures filter.favorites.Some? && r in Selected(b, rows, user, filter) ==> b.recipes[r] == user
  {
    if r in Selected(b, rows, user, filter) && b.recipes[r] != user {
      var p :| p in b.placements && p.1 == r && OnShelf(b, user, p.0);
      assert (p.0, r) in b.placements;
      AccessAtLeast(b, Some(user), r, p.0);
      if (p.0, user) in b.members {
        var role := b.members[(p.0, user)];
        assert role.Viewer? || role.Editor?;
      }
      assert Rank(CookbookAccess(b, Some(user), p.0)) >= Rank(Reads);
    }
  }

  // ---------------------------------------------------------------------------
  // What is listed, and in what order
  // ---------------------------------------------------------------------------

  /** The recipe is the user's own, or in a cookbook they own or have a row in. */
  ghost predicate OwnOrShelved(b: Board, user: UserId, r: RecipeId) {
    && r in b.recipes
    && (|| b.recipes[r] == user
        || exists c: CookbookId :: (c, r) in b.placements && c in b.cookbooks
             && (b.cookbooks[c].owner == user || (c, user) in b.members))
  }

  lemma ScopeIs(b: Board, user: UserId, r: RecipeId)
    requires r in b.recipes
    ensures InScope(b, user, r) <==> OwnOrShelved(b, user, r)
  {
    if p :| p in b.placements && p.1 == r && OnShelf(b, user, p.0) {
      assert (p.0, r) in b.placements;
    }
    if c: CookbookId :| (c, r) in b.placements && c in b.cookbooks
                        && (b.cookbooks[c].owner == user || (c, user) in b.members) {
      var p: Placement := (c, r);
      assert p in b.placements && p.1 == r && OnShelf(b, user, p.0);
    }
  }

  /** A recipe is listed exactly when it is that, passes the other filters and, if
      favorites are asked for or asked away, is the user's own and marked so. */
  lemma ListedExactly(b: Board, rows: map<RecipeId, Meta>, user: UserId, filter: Filter, r: RecipeId)
    requires rows.Keys == b.recipes.Keys
    ensures r in Selected(b, rows, user, filter) <==>
            && OwnOrShelved(b, user, r)
            && r in filter.matching
            && (filter.favorites == Some(true) ==> b.recipes[r] == user && rows[r].favorite)
            && (filter.favorites == Some(false) ==> b.recipes[r] == user && !rows[r].favorite)
  {
    if r in b.recipes {
      ScopeIs(b, user, r);
    }
  }

  /** In a sorted list a newer recipe comes before an older one, and of two made at the
      same time the one with the greater id. */
  lemma SortedIsNewestFirst(rows: map<RecipeId, Meta>, list: seq<RecipeId>, i: nat, k: nat)
    requires Sorted(rows, list) && i < k < |list|
    ensures rows[list[i]].createdAt >= rows[list[k]].createdAt
    ensures rows[list[i]].createdAt == rows[list[k]].createdAt ==> list[i] > list[k]
  {
  }

  /** A page holds the next recipes from its offset on, as many as the limit if there are. */
  lemma PageIs(list: seq<RecipeId>, limit: nat, offset: nat)
    ensures var page := PageOf(list, limit, offset);
            && |page| == (if offset >= |list| then 0 else if |list| - offset < limit then |list| - offset else limit)
            && forall k :: 0 <= k < |page| ==> page[k] == list[offset + k]
  {
  }

  /** An unknown dietary filter is refused, and nothing else is. */
  lemma RefusedExactly(b: Board, rows: map<RecipeId, Meta>, user: UserId, filter: Filter, limit: nat, offset: nat)
    requires rows.Keys == b.recipes.Keys
    ensures ListRecipes(b, rows, user, filter, limit, offset) == Failure(ValidationError) <==> !filter.dietaryKnown
    ensures filter.dietaryKnown <==> ListRecipes(b, rows, user, filter, limit, offset).Success?
  {
  }
}
