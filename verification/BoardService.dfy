/** The board operations on the rows themselves. Every method ends in exactly the
    state and with exactly the refusal that `Boards` gives its operation. */
module BoardService {
  import opened Options
  import opened Boards
  import opened BoardTheorems

  function Answer(refusal: Option<ApiError>): Result<()> {
    if refusal.Some? then Failure(refusal.value) else Success(())
  }

  class BoardStore {
    var cookbooks: map<CookbookId, Cookbook>
    var members: map<(CookbookId, UserId), Role>
    var placements: set<Placement>
    var recipes: map<RecipeId, UserId>
    var nextCookbook: CookbookId
    var nextRecipe: RecipeId

    constructor ()
      ensures State() == Empty()
    {
      cookbooks, members, placements, recipes, nextCookbook, nextRecipe := map[], map[], {}, map[], 0, 0;
    }

    function State(): Board
      reads this
    {
      Board(cookbooks, members, placements, recipes, nextCookbook, nextRecipe)
    }

    /** The highest access over the cookbooks holding the recipe. */
    method ResolveRecipeAccess(user: Option<UserId>, r: RecipeId) returns (access: Access)
      ensures access == RecipeAccess(State(), user, r)
    {
      if r !in recipes {
        return NoAccess;
      }
      if user == Some(recipes[r]) {
        return Owns;
      }
      var best := NoAccess;
      var pending := set p | p in placements && p.1 == r;
      while pending != {}
        invariant pending <= placements && forall p :: p in pending ==> p.1 == r
        invariant best != NoAccess ==> Grants(State(), user, r, best)
        invariant forall p :: p in placements && p.1 == r && p !in pending ==>
                    Rank(CookbookAccess(State(), user, p.0)) <= Rank(best)
        decreases pending
      {
        var p :| p in pending;
        var level := CookbookAccess(State(), user, p.0);
        if Rank(level) > Rank(best) {
          best := level;
          assert p in placements && p.1 == r && Rank(CookbookAccess(State(), user, p.0)) >= Rank(best);
        }
        pending := pending - {p};
      }
      RankedExactly(State(), user, r, best);
      return best;
    }

    method SelectDefault(user: UserId) returns (found: Option<CookbookId>)
      ensures found.Some? ==> IsDefault(State(), user, found.value)
      ensures found.None? ==> !HasDefault(State(), user)
    {
      var pending := cookbooks.Keys;
      while pending != {}
        invariant pending <= cookbooks.Keys
        invariant forall c :: c in cookbooks && c !in pending ==> !IsDefault(State(), user, c)
        decreases pending
      {
        var c :| c in pending;
        if cookbooks[c].owner == user && cookbooks[c].isDefault {
          return Some(c);
        }
        pending := pending - {c};
      }
      return None;
    }

    method EnsureDefault(user: UserId) returns (c: CookbookId)
      requires RowsOk(State())
      modifies this
      ensures State() == WithDefault(old(State()), user)
      ensures c == DefaultOf(State(), user)
    {
      WithDefaultKeeps(State(), user);
      var existing := SelectDefault(user);
      if existing.Some? {
        assert IsDefault(State(), user, existing.value);
        return existing.value;
      }
      c := nextCookbook;
      cookbooks := cookbooks[c := NewDefault(user)];
      nextCookbook := c + 1;
      assert IsDefault(State(), user, c);
    }

    /** The cached defaults are the owners' own. */
    ghost predicate CacheOk(cache: map<UserId, CookbookId>)
      reads this
    {
      forall user :: user in cache ==> IsDefault(State(), user, cache[user])
    }

    /** Looks up the owner's default unless it is cached. */
    method CacheDefault(cache: map<UserId, CookbookId>, owner: UserId) returns (cache': map<UserId, CookbookId>)
      requires RowsOk(State()) && CacheOk(cache)
      modifies this
      ensures State() == WithDefault(old(State()), owner)
      ensures CacheOk(cache') && owner in cache'
    {
      if owner in cache {
        assert HasDefault(State(), owner);
        return cache;
      }
      var c := EnsureDefault(owner);
      cache' := cache[owner := c];
    }

    /** Adds the owner's default cookbook as a home for each of the recipes,
        looking up each owner's default once. */
    method Rescue(order: seq<RecipeId>)
      requires RowsOk(State()) && forall r :: r in order ==> r in recipes
      modifies this
      ensures State() == Rescued(old(State()), order)
    {
      ghost var before := State();
      var defaultFor: map<UserId, CookbookId> := map[];
      for i := 0 to |order|
        invariant RowsOk(State())
        invariant State() == Rescued(before, order[..i])
        invariant CacheOk(defaultFor)
      {
        var r := order[i];
        assert order[..i + 1][..i] == order[..i];
        RescuedOneFacts(State(), r);
        defaultFor := CacheDefault(defaultFor, recipes[r]);
        placements := placements + {(defaultFor[recipes[r]], r)};
      }
      assert order[..|order|] == order;
    }

    /** Deletes the row; its member rows and placements go with it. */
    method Drop(c: CookbookId)
      modifies this
      ensures State() == Dropped(old(State()), c)
    {
      cookbooks := cookbooks - {c};
      members := map k | k in members && k.0 != c :: members[k];
      placements := set p | p in placements && p.0 != c;
    }

    method DeleteCookbook(user: UserId, c: CookbookId, order: seq<RecipeId>) returns (result: Result<()>)
      requires Inv(State()) && ListsSolelyPlaced(State(), c, order)
      modifies this
      ensures Inv(State())
      ensures result == Answer(Refusal(old(State()), Op.DeleteCookbook(user, c, order)))
      ensures State() == Step(old(State()), Op.DeleteCookbook(user, c, order))
    {
      StepKeeps(State(), Op.DeleteCookbook(user, c, order));
      if !MayOnCookbook(State(), user, c, Owns) {
        return Failure(NotFound);
      }
      if cookbooks[c].isDefault {
        return Failure(CannotDeleteDefault);
      }
      Rescue(order);
      Drop(c);
      return Success(());
    }

    method SetVisibility(user: UserId, c: CookbookId, visibility: Visibility, minted: LinkToken)
      returns (result: Result<()>)
      requires Inv(State())
      modifies this
      ensures Inv(State())
      ensures result == Answer(Refusal(old(State()), Op.SetVisibility(user, c, visibility, minted)))
      ensures State() == Step(old(State()), Op.SetVisibility(user, c, visibility, minted))
    {
      StepKeeps(State(), Op.SetVisibility(user, c, visibility, minted));
      if !MayOnCookbook(State(), user, c, Owns) {
        return Failure(NotFound);
      }
      var cookbook := cookbooks[c].(visibility := visibility);
      if visibility != Private {
        if cookbook.link.None? {
          cookbook := cookbook.(link := Some(minted));
        }
      } else {
        cookbook := cookbook.(link := None);
      }
      cookbooks := cookbooks[c := cookbook];
      return Success(());
    }

    method Invite(user: UserId, c: CookbookId, invitee: Option<UserId>, role: Role) returns (result: Result<()>)
      requires Inv(State())
      modifies this
      ensures Inv(State())
      ensures result == Answer(Refusal(old(State()), Op.Invite(user, c, invitee, role)))
      ensures State() == Step(old(State()), Op.Invite(user, c, invitee, role))
    {
      StepKeeps(State(), Op.Invite(user, c, invitee, role));
      if !MayOnCookbook(State(), user, c, Owns) {
        return Failure(NotFound);
      }
      if invitee.None? {
        return Failure(RecipientNotFound);
      }
      if invitee.value == cookbooks[c].owner {
        return Failure(ValidationError);
      }
      members := members[(c, invitee.value) := role];
      return Success(());
    }

    method AddRecipe(user: UserId, r: RecipeId, c: CookbookId) returns (result: Result<()>)
      requires Inv(State())
      modifies this
      ensures Inv(State())
      ensures result == Answer(Refusal(old(State()), Op.AddRecipe(user, r, c)))
      ensures State() == Step(old(State()), Op.AddRecipe(user, r, c))
    {
      StepKeeps(State(), Op.AddRecipe(user, r, c));
      if !MayOnCookbook(State(), user, c, Edits) || r !in recipes {
        return Failure(NotFound);
      }
      var access := ResolveRecipeAccess(Some(user), r);
      if access == NoAccess {
        return Failure(NotFound);
      }
      placements := placements + {(c, r)};
      return Success(());
    }

    method RemoveRecipe(user: UserId, r: RecipeId, c: CookbookId) returns (result: Result<()>)
      requires Inv(State())
      modifies this
      ensures Inv(State())
      ensures result == Answer(Refusal(old(State()), Op.RemoveRecipe(user, r, c)))
      ensures State() == Step(old(State()), Op.RemoveRecipe(user, r, c))
    {
      StepKeeps(State(), Op.RemoveRecipe(user, r, c));
      if !MayOnCookbook(State(), user, c, Edits) {
        return Failure(NotFound);
      }
      var holding := set p | p in placements && p.1 == r;
      if (c, r) !in holding {
        return Failure(NotFound);
      }
      if |holding| == 1 {
        SingletonHolds(holding, (c, r));
        return Failure(LastPlacement);
      }
      assert exists p :: p in placements && p.1 == r && p.0 != c by {
        assert holding != {(c, r)};
      }
      placements := placements - {(c, r)};
      return Success(());
    }

    /** A new recipe row with its placement. */
    method FileRecipe(owner: UserId, target: Option<CookbookId>) returns (r: RecipeId)
      requires Inv(State()) && (target.Some? ==> target.value in cookbooks)
      modifies this
      ensures Inv(State()) && State() == Filed(old(State()), owner, target)
      ensures r == old(nextRecipe)
    {
      FiledKeeps(State(), owner, target);
      var c;
      if target.None? {
        c := EnsureDefault(owner);
      } else {
        c := target.value;
      }
      r := nextRecipe;
      recipes := recipes[r := owner];
      placements := placements + {(c, r)};
      nextRecipe := r + 1;
    }

    method CreateRecipe(user: UserId, target: Option<CookbookId>) returns (result: Result<()>)
      requires Inv(State())
      modifies this
      ensures Inv(State())
      ensures result == Answer(Refusal(old(State()), Op.CreateRecipe(user, target)))
      ensures State() == Step(old(State()), Op.CreateRecipe(user, target))
    {
      if target.Some? && !MayOnCookbook(State(), user, target.value, Edits) {
        return Failure(NotFound);
      }
      var _ := FileRecipe(user, target);
      return Success(());
    }

    method SaveCopy(user: UserId, r: RecipeId, c: CookbookId) returns (result: Result<()>)
      requires Inv(State()) && r in recipes && recipes[r] != user
      modifies this
      ensures Inv(State())
      ensures result == Answer(Refusal(old(State()), Op.SaveRecipe(user, r, c)))
      ensures State() == Step(old(State()), Op.SaveRecipe(user, r, c))
    {
      var access := ResolveRecipeAccess(Some(user), r);
      if access == NoAccess || !MayOnCookbook(State(), user, c, Edits) {
        return Failure(NotFound);
      }
      var _ := FileRecipe(user, Some(c));
      return Success(());
    }

    /** A reference for the caller's own recipe, a copy of anyone else's. */
    method SaveRecipe(user: UserId, r: RecipeId, c: CookbookId) returns (result: Result<()>)
      requires Inv(State())
      modifies this
      ensures Inv(State())
      ensures result == Answer(Refusal(old(State()), Op.SaveRecipe(user, r, c)))
      ensures State() == Step(old(State()), Op.SaveRecipe(user, r, c))
    {
      if r !in recipes {
        return Failure(NotFound);
      }
      if recipes[r] == user {
        result := AddRecipe(user, r, c);
        return;
      }
      result := SaveCopy(user, r, c);
    }

    method DeleteRecipe(user: UserId, r: RecipeId) returns (result: Result<()>)
      requires Inv(State())
      modifies this
      ensures Inv(State())
      ensures result == Answer(Refusal(old(State()), Op.DeleteRecipe(user, r)))
      ensures State() == Step(old(State()), Op.DeleteRecipe(user, r))
    {
      StepKeeps(State(), Op.DeleteRecipe(user, r));
      if r !in recipes || recipes[r] != user {
        return Failure(NotFound);
      }
      recipes := recipes - {r};
      placements := set p | p in placements && p.1 != r;
      return Success(());
    }
  }

  lemma SingletonHolds<T>(s: set<T>, x: T)
    requires |s| == 1 && x in s
    ensures s == {x}
  {
    assert |s - {x}| == 0;
  }

  /** A level that some cookbook grants and none exceeds is the recipe's access. */
  lemma RankedExactly(b: Board, user: Option<UserId>, r: RecipeId, best: Access)
    requires r in b.recipes && user != Some(b.recipes[r])
    requires best != NoAccess ==> Grants(b, user, r, best)
    requires forall p :: p in b.placements && p.1 == r ==> Rank(CookbookAccess(b, user, p.0)) <= Rank(best)
    ensures RecipeAccess(b, user, r) == best
  {
    AccessAtMost(b, user, r, Rank(best));
    if best != NoAccess {
      RecipeAccessIsMaximum(b, user, r, best);
    }
  }
}
