/** The three migrations run one after the other, with what the application writes
    in between. */
module MigrationChain {
  import opened MigrationPivot
  import opened MigrationBoards

  /** What the database enforces once the sweep is done: every recipe has a home. */
  ghost predicate Settled(w: World) {
    WorldOk(w) && w.home.Keys == w.recipes.Keys
  }

  /** One run of the chain: the pivot to `w`, homeless inserts to `v`, the sweep to
      `swept`, any writes the constraints allow to `u`, and the boards `b`. */
  ghost predicate Chain(legacy: Legacy, defaultIds: seq<CookbookId>, sharedIds: seq<CookbookId>, w: World, v: World,
                        swept: World, u: World, collections: seq<Collection>, ids: seq<CookbookId>,
                        listings: set<Listing>, now: Time, b: Boarded)
  {
    && WellFormed(legacy) && FreshIds(legacy, defaultIds, sharedIds) && PivotsTo(legacy, defaultIds, sharedIds, w)
    && InsertedHomeless(w, v)
    && SweptTo(v, swept)
    && Settled(u)
    && |ids| == |collections| && Unused(u.cookbooks, ids)
    && b == BoardedOf(u, collections, ids, listings, now)
  }

  /** Writes between the second and third migration that the constraints allow, and
      that take none of the ids the third will use. */
  ghost predicate Writes(write: World -> World, ids: seq<CookbookId>) {
    forall w :: Settled(w) && Unused(w.cookbooks, ids) ==> Settled(write(w)) && Unused(write(w).cookbooks, ids)
  }

  /** Of distinct ids, the last ones are not among the first. */
  lemma SpareIsNew(taken: seq<CookbookId>, spare: seq<CookbookId>, i: nat)
    requires Distinct(taken + spare) && i < |spare|
    ensures spare[i] !in taken
  {
    var all := taken + spare;
    assert all[|taken| + i] == spare[i];
    assert forall k :: 0 <= k < |taken| ==> all[k] == taken[k];
  }

  lemma DistinctPrefix(a: seq<CookbookId>, b: seq<CookbookId>)
    requires Distinct(a + b)
    ensures Distinct(a)
  {
    forall i, k | 0 <= i < k < |a|
      ensures a[i] != a[k]
    {
      assert (a + b)[i] == a[i] && (a + b)[k] == a[k];
    }
  }

  /** What the sweep leaves uses none of the ids the last migration will. */
  lemma SweepLeavesIds(used: seq<CookbookId>, spare: seq<CookbookId>, n: nat, ids: seq<CookbookId>, v: World,
                       swept: World)
    requires Distinct(used + spare + ids) && n <= |spare|
    requires forall c :: c in v.cookbooks ==> c in used
    requires forall c :: c in swept.cookbooks ==> c in v.cookbooks || c in spare[..n]
    ensures Unused(swept.cookbooks, ids)
  {
    DistinctSuffix(used + spare, ids);
    forall i | 0 <= i < |ids|
      ensures ids[i] !in swept.cookbooks
    {
      SpareIsNew(used + spare, ids, i);
    }
  }

  lemma PivotLeavesSpare(legacy: Legacy, defaultIds: seq<CookbookId>, sharedIds: seq<CookbookId>, w: World,
                         spare: seq<CookbookId>, n: nat)
    requires WellFormed(legacy) && FreshIds(legacy, defaultIds, sharedIds) && PivotsTo(legacy, defaultIds, sharedIds, w)
    requires Distinct(defaultIds + sharedIds + spare) && n <= |spare|
    ensures Unused(w.cookbooks, spare[..n])
    ensures forall c :: c in w.cookbooks ==> c in defaultIds + sharedIds
  {
    PivotCookbooksAre(legacy.users, defaultIds, Creators(legacy.shared), sharedIds);
    DistinctSuffix(defaultIds + sharedIds, spare);
    forall i | 0 <= i < n
      ensures spare[i] !in w.cookbooks
    {
      SpareIsNew(defaultIds + sharedIds, spare, i);
    }
  }

  /** Runs the chain. Each migration is given what the one before it left. */
  method Migrate(legacy: Legacy, defaultIds: seq<CookbookId>, sharedIds: seq<CookbookId>,
                 inserted: map<RecipeId, UserId>, spare: seq<CookbookId>, write: World -> World,
                 collections: seq<Collection>, ids: seq<CookbookId>, listings: set<Listing>, now: Time)
    returns (w: World, v: World, swept: World, u: World, b: Boarded)
    requires WellFormed(legacy) && FreshIds(legacy, defaultIds, sharedIds)
    requires inserted.Keys !! legacy.recipes.Keys && |inserted| <= |spare|
    requires Distinct(defaultIds + sharedIds + spare + ids)
    requires Writes(write, ids) && |ids| == |collections| && CollectionsOk(collections)
    ensures v.recipes == legacy.recipes + inserted && u == write(swept)
    ensures Chain(legacy, defaultIds, sharedIds, w, v, swept, u, collections, ids, listings, now, b)
  {
    w := Pivot(legacy, defaultIds, sharedIds);
    v := World(w.recipes + inserted, w.cookbooks, w.rows, w.home);
    SweepCanFollowPivot(legacy, defaultIds, sharedIds, w, v);
    var owners := FindOwnerless(v);
    DistinctPrefix(defaultIds + sharedIds + spare, ids);
    PivotLeavesSpare(legacy, defaultIds, sharedIds, w, spare, |owners|);
    swept := Sweep(v, owners, spare[..|owners|]);
    SweepLeavesIds(defaultIds + sharedIds, spare, |owners|, ids, v, swept);
    u := write(swept);
    b := UpgradeToBoards(u, collections, ids, listings, now);
  }

  /** A recipe is on a board that its owner owns or has an editor row in. */
  ghost predicate OnOwnersBoard(u: World, b: Boarded, r: RecipeId) {
    exists c: CookbookId ::
      && (c, r) in b.placements && c in b.cookbooks && r in b.recipes
      && (b.cookbooks[c].owner == b.recipes[r] || HasKey(u.rows, c, b.recipes[r]))
  }

  /** Cookbooks made of collections are no defaults and leave the others as they are. */
  lemma BoardsAreProper(u: World, collections: seq<Collection>, ids: seq<CookbookId>, listings: set<Listing>, now: Time)
    requires Settled(u) && |ids| == |collections| && Unused(u.cookbooks, ids)
    ensures var b := BoardedOf(u, collections, ids, listings, now);
            && BoardedOk(b)
            && (forall c :: c in u.cookbooks ==> c in b.cookbooks && b.cookbooks[c] == u.cookbooks[c])
  {
    var b := BoardedOf(u, collections, ids, listings, now);
    UpgradePlaces(u, collections, ids, listings, now);
    AddCookbooksAre(u.cookbooks, Owners(collections), ids, false);
    assert forall user, c :: IsDefault(b.cookbooks, user, c) ==> IsDefault(u.cookbooks, user, c);
  }

  /** Over the whole chain: after the sweep every recipe, old or inserted, is in a
      cookbook its owner owns or edits. At the end every recipe is on the board it
      lived in, one its owner owns or edits if that was so before the last migration,
      and the boards are fit for the way back. */
  lemma ChainPlacesEveryRecipe(legacy: Legacy, defaultIds: seq<CookbookId>, sharedIds: seq<CookbookId>, w: World,
                               v: World, swept: World, u: World, collections: seq<Collection>, ids: seq<CookbookId>,
                               listings: set<Listing>, now: Time, b: Boarded, r: RecipeId)
    requires Chain(legacy, defaultIds, sharedIds, w, v, swept, u, collections, ids, listings, now, b)
    ensures r in v.recipes ==> OwnerReaches(swept, r)
    ensures r in u.recipes ==> (u.home[r], r) in b.placements
    ensures OwnerReaches(u, r) ==> OnOwnersBoard(u, b, r)
    ensures BoardedOk(b)
  {
    if r in v.recipes {
      forall q | q in w.recipes
        ensures OwnerReaches(w, q)
      {
        PivotKeepsOwnersAccess(legacy, defaultIds, sharedIds, w, q);
      }
      SweepKeepsOwnersAccess(w, v, swept, r);
    }
    BoardsAreProper(u, collections, ids, listings, now);
    if r in u.recipes {
      UpgradePlaces(u, collections, ids, listings, now);
      var p: Placement := (u.home[r], r);
      assert p.1 in u.home && u.home[p.1] == p.0;
    }
  }
}
