/** The two later migrations: the sweep that files every recipe still without a
    cookbook, the move of recipe homes and collections into placements, and the
    way back. */
module MigrationBoards {
  import opened Options
  import opened MigrationPivot

  type CollectionId = nat
  type Placement = (CookbookId, RecipeId)

  datatype Collection = Collection(id: CollectionId, owner: UserId)
  /** A listing of recipe `recipe` in a collection. */
  type Listing = (CollectionId, RecipeId)

  predicate IsDefault(cookbooks: map<CookbookId, Cookbook>, user: UserId, c: CookbookId) {
    c in cookbooks && cookbooks[c] == Cookbook(user, true)
  }

  predicate HasDefault(cookbooks: map<CookbookId, Cookbook>, user: UserId) {
    exists c :: c in cookbooks && IsDefault(cookbooks, user, c)
  }

  /** The unique index: at most one default cookbook per owner. */
  ghost predicate OneDefault(cookbooks: map<CookbookId, Cookbook>) {
    forall user, c, d :: IsDefault(cookbooks, user, c) && IsDefault(cookbooks, user, d) ==> c == d
  }

  /** Foreign keys and the unique index; recipes may be without a home. */
  ghost predicate WorldOk(w: World) {
    && (forall r :: r in w.home ==> r in w.recipes && w.home[r] in w.cookbooks)
    && OneDefault(w.cookbooks)
  }

  // ---------------------------------------------------------------------------
  // The sweep
  // ---------------------------------------------------------------------------

  /** The owner of a recipe without a home, who has no default cookbook. */
  predicate Ownerless(w: World, user: UserId) {
    !HasDefault(w.cookbooks, user) && exists r :: r in w.recipes && r !in w.home && w.recipes[r] == user
  }

  ghost predicate ListsOwnerless(w: World, owners: seq<UserId>) {
    Distinct(owners) && forall user: UserId :: user in owners <==> Ownerless(w, user)
  }

  /** The owners the sweep must give a default cookbook. */
  method FindOwnerless(w: World) returns (owners: seq<UserId>)
    ensures ListsOwnerless(w, owners)
    ensures |owners| <= |w.recipes.Keys - w.home.Keys|
  {
    owners := [];
    var pending := w.recipes.Keys - w.home.Keys;
    while pending != {}
      invariant pending <= w.recipes.Keys - w.home.Keys
      invariant Distinct(owners) && |owners| + |pending| <= |w.recipes.Keys - w.home.Keys|
      invariant forall user :: user in owners ==> Ownerless(w, user)
      invariant forall r ::
                  r in w.recipes && r !in w.home && r !in pending && !HasDefault(w.cookbooks, w.recipes[r]) ==>
                  w.recipes[r] in owners
      decreases pending
    {
      var r :| r in pending;
      var owner := w.recipes[r];
      if owner !in owners && !HasDefault(w.cookbooks, owner) {
        owners := owners + [owner];
      }
      pending := pending - {r};
    }
  }

  ghost predicate Unused(cookbooks: map<CookbookId, Cookbook>, ids: seq<CookbookId>) {
    Distinct(ids) && forall i :: 0 <= i < |ids| ==> ids[i] !in cookbooks
  }

  /** What the sweep leaves: old homes untouched, every other recipe in its owner's
      default, and new cookbooks only as missing defaults. */
  ghost predicate SweptTo(w: World, w': World) {
    && w'.recipes == w.recipes
    && w'.rows == w.rows
    && (forall c :: c in w.cookbooks ==> c in w'.cookbooks && w'.cookbooks[c] == w.cookbooks[c])
    && (forall c :: c in w'.cookbooks && c !in w.cookbooks ==>
          w'.cookbooks[c].isDefault && Ownerless(w, w'.cookbooks[c].owner))
    && w'.home.Keys == w.recipes.Keys
    && (forall r :: r in w.home ==> r in w'.home && w'.home[r] == w.home[r])
    && (forall r :: r in w.recipes && r !in w.home ==> IsDefault(w'.cookbooks, w.recipes[r], w'.home[r]))
  }

  /** Missing defaults make every owner of a homeless recipe have exactly one. */
  lemma DefaultsCompleted(w: World, owners: seq<UserId>, ids: seq<CookbookId>)
    requires WorldOk(w) && ListsOwnerless(w, owners) && |ids| == |owners| && Unused(w.cookbooks, ids)
    ensures var cookbooks := AddCookbooks(w.cookbooks, owners, ids, true);
            && OneDefault(cookbooks)
            && (forall c :: c in w.cookbooks ==> c in cookbooks && cookbooks[c] == w.cookbooks[c])
            && (forall c :: c in cookbooks && c !in w.cookbooks ==>
                  cookbooks[c].isDefault && Ownerless(w, cookbooks[c].owner))
            && (forall r :: r in w.recipes && r !in w.home ==> HasDefault(cookbooks, w.recipes[r]))
  {
    AddCookbooksAre(w.cookbooks, owners, ids, true);
    var cookbooks := AddCookbooks(w.cookbooks, owners, ids, true);
    forall c | c in cookbooks && c !in w.cookbooks
      ensures cookbooks[c].isDefault && Ownerless(w, cookbooks[c].owner)
    {
      var i :| 0 <= i < |ids| && ids[i] == c;
      assert owners[i] in owners;
    }
    forall user, c, d | IsDefault(cookbooks, user, c) && IsDefault(cookbooks, user, d)
      ensures c == d
    {
      DefaultIsUnique(w, owners, ids, user, c, d);
    }
    forall r | r in w.recipes && r !in w.home
      ensures HasDefault(cookbooks, w.recipes[r])
    {
      if HasDefault(w.cookbooks, w.recipes[r]) {
        var c :| c in w.cookbooks && IsDefault(w.cookbooks, w.recipes[r], c);
        assert IsDefault(cookbooks, w.recipes[r], c);
      } else {
        assert Ownerless(w, w.recipes[r]);
        var i :| 0 <= i < |owners| && owners[i] == w.recipes[r];
        assert IsDefault(cookbooks, w.recipes[r], ids[i]);
      }
    }
  }

  lemma DefaultIsUnique(w: World, owners: seq<UserId>, ids: seq<CookbookId>, user: UserId, c: CookbookId, d: CookbookId)
    requires WorldOk(w) && ListsOwnerless(w, owners) && |ids| == |owners| && Unused(w.cookbooks, ids)
    requires var cookbooks := AddCookbooks(w.cookbooks, owners, ids, true);
             IsDefault(cookbooks, user, c) && IsDefault(cookbooks, user, d)
    ensures c == d
  {
    AddCookbooksAre(w.cookbooks, owners, ids, true);
    if c in w.cookbooks && d in w.cookbooks {
      assert IsDefault(w.cookbooks, user, c) && IsDefault(w.cookbooks, user, d);
    } else {
      assert user in owners;
      assert Ownerless(w, user);
      assert c in ids && d in ids by {
        assert c in w.cookbooks ==> IsDefault(w.cookbooks, user, c);
        assert d in w.cookbooks ==> IsDefault(w.cookbooks, user, d);
      }
      var i :| 0 <= i < |ids| && ids[i] == c;
      var k :| 0 <= k < |ids| && ids[k] == d;
      assert owners[i] == owners[k];
    }
  }

  method SelectDefault(cookbooks: map<CookbookId, Cookbook>, user: UserId) returns (c: CookbookId)
    requires HasDefault(cookbooks, user)
    ensures IsDefault(cookbooks, user, c)
  {
    c :| c in cookbooks && IsDefault(cookbooks, user, c);
  }

  /** Gives every recipe without a home its owner's default. */
  method AssignDefaults(w: World, cookbooks: map<CookbookId, Cookbook>) returns (home: map<RecipeId, CookbookId>)
    requires forall r :: r in w.home ==> r in w.recipes
    requires forall r :: r in w.recipes && r !in w.home ==> HasDefault(cookbooks, w.recipes[r])
    ensures home.Keys == w.recipes.Keys
    ensures forall r :: r in w.home ==> home[r] == w.home[r]
    ensures forall r :: r in w.recipes && r !in w.home ==> IsDefault(cookbooks, w.recipes[r], home[r])
  {
    home := w.home;
    var pending := w.recipes.Keys - w.home.Keys;
    while pending != {}
      invariant pending <= w.recipes.Keys - w.home.Keys
      invariant home.Keys == w.recipes.Keys - pending
      invariant forall r :: r in w.home ==> r in home && home[r] == w.home[r]
      invariant forall r :: r in home && r !in w.home ==> IsDefault(cookbooks, w.recipes[r], home[r])
      decreases pending
    {
      var r :| r in pending;
      var c := SelectDefault(cookbooks, w.recipes[r]);
      home := home[r := c];
      pending := pending - {r};
    }
  }

  /** Files every recipe without a home in its owner's default, making those missing. */
  method Sweep(w: World, owners: seq<UserId>, ids: seq<CookbookId>) returns (w': World)
    requires WorldOk(w) && ListsOwnerless(w, owners) && |ids| == |owners| && Unused(w.cookbooks, ids)
    ensures SweptTo(w, w') && WorldOk(w')
    ensures forall c :: c in w'.cookbooks ==> c in w.cookbooks || c in ids
  {
    AddCookbooksAre(w.cookbooks, owners, ids, true);
    DefaultsCompleted(w, owners, ids);
    var cookbooks := InsertCookbooks(w.cookbooks, owners, ids, true);
    var home := AssignDefaults(w, cookbooks);
    w' := World(w.recipes, cookbooks, w.rows, home);
  }

  /** Rows written between the migrations by code that knows no cookbooks: recipes
      without a home, and nothing else changed. */
  ghost predicate InsertedHomeless(w: World, v: World) {
    && (forall r :: r in w.recipes ==> r in v.recipes && v.recipes[r] == w.recipes[r])
    && v.cookbooks == w.cookbooks && v.rows == w.rows && v.home == w.home
  }

  /** Whatever was inserted in between, after the sweep every recipe is in a cookbook
      that its owner owns or edits, if that held of the recipes that had one. */
  lemma SweepKeepsOwnersAccess(w: World, v: World, w': World, r: RecipeId)
    requires forall q :: q in w.recipes ==> OwnerReaches(w, q)
    requires w.home.Keys == w.recipes.Keys
    requires InsertedHomeless(w, v) && SweptTo(v, w') && r in v.recipes
    ensures OwnerReaches(w', r)
  {
    if r in w.recipes {
      assert OwnerReaches(w, r);
    }
  }

  /** What the pivot leaves, with whatever was inserted since, is fit for the sweep. */
  lemma SweepCanFollowPivot(legacy: Legacy, defaultIds: seq<CookbookId>, sharedIds: seq<CookbookId>, w: World, v: World)
    requires WellFormed(legacy) && FreshIds(legacy, defaultIds, sharedIds) && PivotsTo(legacy, defaultIds, sharedIds, w)
    requires InsertedHomeless(w, v)
    ensures WorldOk(v)
  {
    PivotCookbooksAre(legacy.users, defaultIds, Creators(legacy.shared), sharedIds);
    forall r | r in w.home
      ensures w.home[r] in w.cookbooks
    {
      PivotKeepsOwnersAccess(legacy, defaultIds, sharedIds, w, r);
    }
  }

  // ---------------------------------------------------------------------------
  // Homes and collections become placements
  // ---------------------------------------------------------------------------

  datatype Boarded = Boarded(recipes: map<RecipeId, UserId>, cookbooks: map<CookbookId, Cookbook>,
                             placements: map<Placement, Time>)

  /** One placement per recipe, all with the same time. */
  function Backfilled(home: map<RecipeId, CookbookId>, now: Time): map<Placement, Time> {
    map r | r in home :: (home[r], r) := now
  }

  function Owners(collections: seq<Collection>): (owners: seq<UserId>)
    ensures |owners| == |collections|
  {
    if collections == [] then []
    else Owners(collections[..|collections| - 1]) + [collections[|collections| - 1].owner]
  }

  lemma {:induction false} OwnersAre(collections: seq<Collection>)
    ensures forall i :: 0 <= i < |collections| ==> Owners(collections)[i] == collections[i].owner
  {
    if collections != [] {
      OwnersAre(collections[..|collections| - 1]);
    }
  }

  /** The recipes of the collection's owner that it lists. */
  function OwnRecipes(collection: Collection, listings: set<Listing>, recipes: map<RecipeId, UserId>): set<RecipeId> {
    set l | l in listings && l.0 == collection.id && l.1 in recipes && recipes[l.1] == collection.owner :: l.1
  }

  /** The listings that are folded: of one of the collections, and of its owner's recipe. */
  function Folded(collections: seq<Collection>, listings: set<Listing>, recipes: map<RecipeId, UserId>): set<Listing> {
    set l | l in listings && exists i :: 0 <= i < |collections| && collections[i].id == l.0
                                         && l.1 in OwnRecipes(collections[i], listings, recipes)
  }

  lemma FoldedSnoc(collections: seq<Collection>, last: Collection, listings: set<Listing>,
                   recipes: map<RecipeId, UserId>)
    requires forall i :: 0 <= i < |collections| ==> collections[i].id != last.id
    ensures |Folded(collections + [last], listings, recipes)| ==
            |Folded(collections, listings, recipes)| + |OwnRecipes(last, listings, recipes)|
  {
    var all := collections + [last];
    var more := set l | l in listings && l.0 == last.id && l.1 in OwnRecipes(last, listings, recipes);
    forall l
      ensures l in Folded(all, listings, recipes) <==> l in Folded(collections, listings, recipes) || l in more
    {
      if l in Folded(collections, listings, recipes) {
        var i :| 0 <= i < |collections| && collections[i].id == l.0
                   && l.1 in OwnRecipes(collections[i], listings, recipes);
        assert all[i] == collections[i];
      }
      if l in more {
        assert all[|collections|] == last;
      }
    }
    assert Folded(all, listings, recipes) == Folded(collections, listings, recipes) + more;
    assert Folded(collections, listings, recipes) !! more;
    PairedWithSame(more, OwnRecipes(last, listings, recipes), last.id);
  }

  /** Pairs with one first half are as many as their second halves. */
  lemma {:induction false} PairedWithSame(pairs: set<Listing>, seconds: set<RecipeId>, first: CollectionId)
    requires forall p :: p in pairs ==> p.0 == first && p.1 in seconds
    requires forall r :: r in seconds ==> (first, r) in pairs
    ensures |pairs| == |seconds|
    decreases seconds
  {
    if seconds == {} {
      assert pairs == {};
    } else {
      var r :| r in seconds;
      PairedWithSame(pairs - {(first, r)}, seconds - {r}, first);
    }
  }

  /** The placements with every collection's own recipes in its new cookbook. */
  function WithCollections(placements: map<Placement, Time>, collections: seq<Collection>, ids: seq<CookbookId>,
                           listings: set<Listing>, recipes: map<RecipeId, UserId>, now: Time): map<Placement, Time>
    requires |ids| == |collections|
  {
    if collections == [] then placements
    else
      var n := |collections| - 1;
      WithCollections(placements, collections[..n], ids[..n], listings, recipes, now)
      + map r | r in OwnRecipes(collections[n], listings, recipes) :: (ids[n], r) := now
  }

  /** Some collection's new cookbook `c` takes recipe `r`. */
  ghost predicate FoldsInto(collections: seq<Collection>, ids: seq<CookbookId>, listings: set<Listing>,
                            recipes: map<RecipeId, UserId>, c: CookbookId, r: RecipeId)
    requires |ids| == |collections|
  {
    exists i :: 0 <= i < |collections| && ids[i] == c && r in OwnRecipes(collections[i], listings, recipes)
  }

  lemma FoldsIntoSnoc(collections: seq<Collection>, ids: seq<CookbookId>, last: Collection, id: CookbookId,
                      listings: set<Listing>, recipes: map<RecipeId, UserId>, c: CookbookId, r: RecipeId)
    requires |ids| == |collections|
    ensures FoldsInto(collections + [last], ids + [id], listings, recipes, c, r) <==>
            FoldsInto(collections, ids, listings, recipes, c, r)
              || (id == c && r in OwnRecipes(last, listings, recipes))
  {
    var all, allIds := collections + [last], ids + [id];
    if FoldsInto(collections, ids, listings, recipes, c, r) {
      var i :| 0 <= i < |collections| && ids[i] == c && r in OwnRecipes(collections[i], listings, recipes);
      assert allIds[i] == c && all[i] == collections[i];
    }
    if id == c && r in OwnRecipes(last, listings, recipes) {
      assert allIds[|ids|] == c && all[|collections|] == last;
    }
  }

  lemma {:induction false} WithCollectionsAre(placements: map<Placement, Time>, collections: seq<Collection>,
                                              ids: seq<CookbookId>,
                                              listings: set<Listing>, recipes: map<RecipeId, UserId>, now: Time)
    requires |ids| == |collections| && forall p :: p in placements ==> placements[p] == now
    ensures var after := WithCollections(placements, collections, ids, listings, recipes, now);
            && (forall p: Placement :: p in after <==>
                  p in placements || FoldsInto(collections, ids, listings, recipes, p.0, p.1))
            && (forall p :: p in after ==> after[p] == now)
  {
    if collections != [] {
      var n := |collections| - 1;
      WithCollectionsAre(placements, collections[..n], ids[..n], listings, recipes, now);
      assert collections[..n] + [collections[n]] == collections && ids[..n] + [ids[n]] == ids;
      forall p: Placement
        ensures p in WithCollections(placements, collections, ids, listings, recipes, now) <==>
                p in placements || FoldsInto(collections, ids, listings, recipes, p.0, p.1)
      {
        FoldsIntoSnoc(collections[..n], ids[..n], collections[n], ids[n], listings, recipes, p.0, p.1);
      }
    }
  }

  ghost predicate CollectionsOk(collections: seq<Collection>) {
    forall i, k :: 0 <= i < k < |collections| ==> collections[i].id != collections[k].id
  }

  /** One more collection. */
  lemma WithCollectionsSnoc(placements: map<Placement, Time>, collections: seq<Collection>, ids: seq<CookbookId>,
                            last: Collection, id: CookbookId, listings: set<Listing>, recipes: map<RecipeId, UserId>,
                            now: Time)
    requires |ids| == |collections|
    ensures WithCollections(placements, collections + [last], ids + [id], listings, recipes, now) ==
            WithCollections(placements, collections, ids, listings, recipes, now)
            + map r | r in OwnRecipes(last, listings, recipes) :: (id, r) := now
  {
    assert (collections + [last])[..|collections|] == collections && (ids + [id])[..|ids|] == ids;
  }

  /** Makes each collection a cookbook holding those of its recipes that its owner
      owns; what is not placed is exactly the listings of other people's recipes. */
  method FoldCollections(placements: map<Placement, Time>, collections: seq<Collection>, ids: seq<CookbookId>,
                         listings: set<Listing>, recipes: map<RecipeId, UserId>, now: Time)
    returns (after: map<Placement, Time>, placed: nat)
    requires |ids| == |collections| && CollectionsOk(collections)
    ensures after == WithCollections(placements, collections, ids, listings, recipes, now)
    ensures placed == |Folded(collections, listings, recipes)|
  {
    after, placed := placements, 0;
    assert Folded([], listings, recipes) == {};
    assert collections[..0] == [];
    for i := 0 to |collections|
      invariant after == WithCollections(placements, collections[..i], ids[..i], listings, recipes, now)
      invariant placed == |Folded(collections[..i], listings, recipes)|
    {
      assert collections[..i + 1] == collections[..i] + [collections[i]] && ids[..i + 1] == ids[..i] + [ids[i]];
      FoldedSnoc(collections[..i], collections[i], listings, recipes);
      WithCollectionsSnoc(placements, collections[..i], ids[..i], collections[i], ids[i], listings, recipes, now);
      var own := OwnRecipes(collections[i], listings, recipes);
      after := after + map r | r in own :: (ids[i], r) := now;
      placed := placed + |own|;
    }
    assert collections[..|collections|] == collections && ids[..|ids|] == ids;
  }

  /** The state after the last migration. */
  function BoardedOf(w: World, collections: seq<Collection>, ids: seq<CookbookId>, listings: set<Listing>,
                     now: Time): Boarded
    requires |ids| == |collections|
  {
    Boarded(w.recipes, AddCookbooks(w.cookbooks, Owners(collections), ids, false),
            WithCollections(Backfilled(w.home, now), collections, ids, listings, w.recipes, now))
  }

  method UpgradeToBoards(w: World, collections: seq<Collection>, ids: seq<CookbookId>, listings: set<Listing>,
                         now: Time)
    returns (b: Boarded)
    requires |ids| == |collections| && CollectionsOk(collections)
    ensures b == BoardedOf(w, collections, ids, listings, now)
  {
    var cookbooks := InsertCookbooks(w.cookbooks, Owners(collections), ids, false);
    var placements, _ := FoldCollections(Backfilled(w.home, now), collections, ids, listings, w.recipes, now);
    b := Boarded(w.recipes, cookbooks, placements);
  }

  lemma BackfilledIs(home: map<RecipeId, CookbookId>, now: Time)
    ensures forall p: Placement :: p in Backfilled(home, now) <==> p.1 in home && home[p.1] == p.0
    ensures forall p :: p in Backfilled(home, now) ==> Backfilled(home, now)[p] == now
  {
  }

  /** A recipe's placements after the upgrade: its home, and the cookbook of each
      collection of its own owner that listed it. */
  lemma UpgradePlaces(w: World, collections: seq<Collection>, ids: seq<CookbookId>, listings: set<Listing>, now: Time)
    requires WorldOk(w) && |ids| == |collections| && Unused(w.cookbooks, ids)
    ensures var b := BoardedOf(w, collections, ids, listings, now);
            && (forall p: Placement :: p in b.placements <==>
                  (p.1 in w.home && w.home[p.1] == p.0) || FoldsInto(collections, ids, listings, w.recipes, p.0, p.1))
            && (forall p :: p in b.placements ==> b.placements[p] == now && p.0 in b.cookbooks && p.1 in b.recipes)
            && (forall i :: 0 <= i < |ids| ==>
                  ids[i] in b.cookbooks && b.cookbooks[ids[i]] == Cookbook(collections[i].owner, false))
  {
    OwnersAre(collections);
    BackfilledIs(w.home, now);
    WithCollectionsAre(Backfilled(w.home, now), collections, ids, listings, w.recipes, now);
    AddCookbooksAre(w.cookbooks, Owners(collections), ids, false);
    var b := BoardedOf(w, collections, ids, listings, now);
    forall p | p in b.placements
      ensures p.0 in b.cookbooks && p.1 in b.recipes
    {
      if FoldsInto(collections, ids, listings, w.recipes, p.0, p.1) {
        var i :| 0 <= i < |collections| && ids[i] == p.0 && p.1 in OwnRecipes(collections[i], listings, w.recipes);
      } else {
        assert w.home[p.1] !in ids;
      }
    }
  }

  /** With the foreign keys in force, the listings left out are exactly those of
      other people's recipes. */
  lemma SkippedAreForeign(collections: seq<Collection>, listings: set<Listing>, recipes: map<RecipeId, UserId>, k: nat,
                          l: Listing)
    requires CollectionsOk(collections) && k < |collections|
    requires l in listings && l.0 == collections[k].id && l.1 in recipes
    ensures l in Folded(collections, listings, recipes) <==> recipes[l.1] == collections[k].owner
  {
    if l in Folded(collections, listings, recipes) {
      var i :| 0 <= i < |collections| && collections[i].id == l.0
                 && l.1 in OwnRecipes(collections[i], listings, recipes);
      assert i == k;
    }
    if recipes[l.1] == collections[k].owner {
      assert l.1 in OwnRecipes(collections[k], listings, recipes);
    }
  }

  // ---------------------------------------------------------------------------
  // The way back
  // ---------------------------------------------------------------------------

  /** `c` holds `r`, and no other cookbook held it earlier, or as early with a smaller id. */
  predicate IsOldest(placements: map<Placement, Time>, r: RecipeId, c: CookbookId) {
    && (c, r) in placements
    && forall p :: p in placements && p.1 == r ==>
         placements[(c, r)] < placements[p] || (placements[(c, r)] == placements[p] && c <= p.0)
  }

  lemma NoneIsOlder(placements: map<Placement, Time>, r: RecipeId, c: CookbookId, d: CookbookId)
    requires IsOldest(placements, r, c) && (d, r) in placements
    ensures (c, r) in placements && placements[(c, r)] <= placements[(d, r)]
    ensures placements[(c, r)] == placements[(d, r)] ==> c <= d
  {
    var p: Placement := (d, r);
    assert p in placements && p.1 == r;
  }

  predicate PlacedSomewhere(placements: map<Placement, Time>, r: RecipeId) {
    exists p :: p in placements && p.1 == r
  }

  method OldestPlacement(placements: map<Placement, Time>, r: RecipeId) returns (oldest: Option<CookbookId>)
    ensures oldest.Some? ==> IsOldest(placements, r, oldest.value)
    ensures oldest.None? ==> !PlacedSomewhere(placements, r)
  {
    var pending := set p | p in placements && p.1 == r;
    oldest := None;
    while pending != {}
      invariant forall p :: p in pending ==> p in placements && p.1 == r
      invariant oldest.None? ==> forall p :: p in placements && p.1 == r ==> p in pending
      invariant oldest.Some? ==> (oldest.value, r) in placements
      invariant oldest.Some? ==> forall p :: p in placements && p.1 == r && p !in pending ==>
                  placements[(oldest.value, r)] < placements[p]
                  || (placements[(oldest.value, r)] == placements[p] && oldest.value <= p.0)
      decreases pending
    {
      var p :| p in pending;
      if oldest.None?
         || placements[p] < placements[(oldest.value, r)]
         || (placements[p] == placements[(oldest.value, r)] && p.0 < oldest.value) {
        oldest := Some(p.0);
        assert p == (p.0, r);
      }
      pending := pending - {p};
    }
  }

  /** Every placed recipe goes home to its oldest placement. */
  method RestoreHomes(b: Boarded) returns (home: map<RecipeId, CookbookId>)
    ensures forall r :: r in home <==> r in b.recipes && PlacedSomewhere(b.placements, r)
    ensures forall r :: r in home ==> IsOldest(b.placements, r, home[r])
  {
    home := map[];
    var pending := b.recipes.Keys;
    while pending != {}
      invariant pending <= b.recipes.Keys
      invariant forall r :: r in home <==> r in b.recipes && r !in pending && PlacedSomewhere(b.placements, r)
      invariant forall r :: r in home ==> IsOldest(b.placements, r, home[r])
      decreases pending
    {
      var r :| r in pending;
      var oldest := OldestPlacement(b.placements, r);
      if oldest.Some? {
        var p := (oldest.value, r);
        assert p in b.placements;
        home := home[r := oldest.value];
      }
      pending := pending - {r};
    }
  }

  /** Placements of existing recipes in existing cookbooks. */
  ghost predicate BoardedOk(b: Boarded) {
    && (forall p :: p in b.placements ==> p.0 in b.cookbooks && p.1 in b.recipes)
    && OneDefault(b.cookbooks)
  }

  /** The world between restoring the homes and the sweep. */
  ghost predicate RestoredTo(b: Boarded, v: World) {
    && v.recipes == b.recipes && v.cookbooks == b.cookbooks
    && (forall r :: r in v.home <==> r in b.recipes && PlacedSomewhere(b.placements, r))
    && (forall r :: r in v.home ==> IsOldest(b.placements, r, v.home[r]))
  }

  /** The state that the sweep then completes. */
  method Restore(b: Boarded, rows: seq<Row>) returns (v: World)
    requires BoardedOk(b)
    ensures RestoredTo(b, v) && WorldOk(v)
  {
    var home := RestoreHomes(b);
    v := World(b.recipes, b.cookbooks, rows, home);
    forall r | r in home
      ensures home[r] in b.cookbooks
    {
      assert IsOldest(b.placements, r, home[r]);
      var p := (home[r], r);
      assert p in b.placements;
    }
  }

  /** After a downgrade every recipe has a home, and one that was on a single board is
      back in it. */
  lemma DowngradeIsTotal(b: Boarded, v: World, w: World, r: RecipeId, c: CookbookId)
    requires BoardedOk(b) && RestoredTo(b, v) && SweptTo(v, w) && r in b.recipes
    ensures r in w.home
    ensures (c, r) in b.placements && (forall p :: p in b.placements && p.1 == r ==> p.0 == c) ==> w.home[r] == c
  {
    if (c, r) in b.placements {
      var p := (c, r);
      assert p in b.placements && p.1 == r;
      assert PlacedSomewhere(b.placements, r);
      assert IsOldest(b.placements, r, v.home[r]);
      var q := (v.home[r], r);
      assert q in b.placements;
    }
  }

  /** Among placements of one time, the oldest is the one with the smallest id. */
  lemma OldestIsSmallest(placements: map<Placement, Time>, now: Time, r: RecipeId, c: CookbookId, home: CookbookId)
    requires (forall p :: p in placements ==> placements[p] == now) && IsOldest(placements, r, c)
    requires (home, r) in placements
    ensures (c, r) in placements
    ensures c == home <==> forall d: CookbookId :: (d, r) in placements ==> home <= d
  {
    var p: Placement := (home, r);
    assert p in placements && p.1 == r;
    forall d: CookbookId | (d, r) in placements
      ensures c <= d
    {
      var q: Placement := (d, r);
      assert q in placements && q.1 == r;
    }
  }

  /** A collection of the owner that listed the recipe became a cookbook with a
      smaller id than the recipe's home. */
  ghost predicate ComesBackElsewhere(w: World, collections: seq<Collection>, ids: seq<CookbookId>,
                                     listings: set<Listing>, r: RecipeId)
    requires |ids| == |collections|
  {
    r in w.home && exists c :: FoldsInto(collections, ids, listings, w.recipes, c, r) && c < w.home[r]
  }

  /** Up and down again: a recipe is back in its home if and only if no cookbook its
      collections were turned into has a smaller id, because all placements made by
      the upgrade have the same time. */
  lemma RoundTripRestores(w: World, collections: seq<Collection>, ids: seq<CookbookId>, listings: set<Listing>,
                          now: Time, v: World, w': World, r: RecipeId)
    requires WorldOk(w) && w.home.Keys == w.recipes.Keys && r in w.recipes
    requires |ids| == |collections| && Unused(w.cookbooks, ids)
    requires RestoredTo(BoardedOf(w, collections, ids, listings, now), v) && SweptTo(v, w')
    ensures r in w'.home
    ensures w'.home[r] == w.home[r] <==> !ComesBackElsewhere(w, collections, ids, listings, r)
  {
    var placements := BoardedOf(w, collections, ids, listings, now).placements;
    UpgradePlaces(w, collections, ids, listings, now);
    PlacementsOfRecipe(w, collections, ids, listings, now, r);
    var home: Placement := (w.home[r], r);
    assert home in placements && home.1 == r;
    assert PlacedSomewhere(placements, r);
    OldestIsSmallest(placements, now, r, v.home[r], w.home[r]);
  }

  lemma PlacementsOfRecipe(w: World, collections: seq<Collection>, ids: seq<CookbookId>, listings: set<Listing>,
                           now: Time, r: RecipeId)
    requires WorldOk(w) && |ids| == |collections| && Unused(w.cookbooks, ids) && r in w.home
    ensures forall c: CookbookId :: (c, r) in BoardedOf(w, collections, ids, listings, now).placements <==>
              w.home[r] == c || FoldsInto(collections, ids, listings, w.recipes, c, r)
  {
    UpgradePlaces(w, collections, ids, listings, now);
    forall c: CookbookId
      ensures (c, r) in BoardedOf(w, collections, ids, listings, now).placements <==>
              w.home[r] == c || FoldsInto(collections, ids, listings, w.recipes, c, r)
    {
      var p: Placement := (c, r);
      assert p.1 in w.home;
    }
  }

  /** One recipe at home in its owner's default cookbook. */
  function OneRecipe(): World {
    World(map[0 := 7], map[5 := Cookbook(7, true)], [], map[0 := 5])
  }

  /** The condition can fail: a recipe whose collection becomes a cookbook with a
      smaller id than its home comes back there instead. */
  lemma SomeRecipesComeBackElsewhere()
    ensures WorldOk(OneRecipe()) && Unused(OneRecipe().cookbooks, [3])
    ensures ComesBackElsewhere(OneRecipe(), [Collection(1, 7)], [3], {(1, 0)}, 0)
  {
    var listings: set<Listing> := {(1, 0)};
    var l: Listing := (1, 0);
    assert l in listings && l.1 in OneRecipe().recipes;
    assert 0 in OwnRecipes([Collection(1, 7)][0], listings, OneRecipe().recipes);
    assert FoldsInto([Collection(1, 7)], [3], listings, OneRecipe().recipes, 3, 0);
  }
}
