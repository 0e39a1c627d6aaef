/** What every run of the board operations keeps, and how access moves with them. */
module BoardTheorems {
  import opened Options
  import opened Boards

  // ---------------------------------------------------------------------------
  // The invariant
  // ---------------------------------------------------------------------------

  predicate IdsOk(b: Board) {
    && (forall c :: c in b.cookbooks ==> c < b.nextCookbook)
    && (forall r :: r in b.recipes ==> r < b.nextRecipe)
    && (forall p :: p in b.placements ==> p.0 in b.cookbooks && p.1 in b.recipes)
  }

  /** No recipe is on no board. */
  ghost predicate AllPlaced(b: Board) {
    forall r :: r in b.recipes ==> Placed(b, r)
  }

  /** At most one default cookbook per user. */
  predicate DefaultsOk(b: Board) {
    forall c, d ::
      c in b.cookbooks && d in b.cookbooks && c != d && b.cookbooks[c].isDefault && b.cookbooks[d].isDefault ==>
      b.cookbooks[c].owner != b.cookbooks[d].owner
  }

  /** Member rows are of existing cookbooks and never of their owner. */
  predicate MembersOk(b: Board) {
    forall k :: k in b.members ==> k.0 in b.cookbooks && b.cookbooks[k.0].owner != k.1
  }

  /** A cookbook has a link exactly while it is not private. */
  predicate LinksOk(b: Board) {
    forall c :: c in b.cookbooks ==> (b.cookbooks[c].link.Some? <==> b.cookbooks[c].visibility != Private)
  }

  /** All of it but the placement of every recipe. */
  predicate RowsOk(b: Board) {
    IdsOk(b) && DefaultsOk(b) && MembersOk(b) && LinksOk(b)
  }

  ghost predicate Inv(b: Board) {
    RowsOk(b) && AllPlaced(b)
  }

  // ---------------------------------------------------------------------------
  // Default cookbooks and the rescue
  // ---------------------------------------------------------------------------

  lemma WithDefaultKeeps(b: Board, user: UserId)
    requires RowsOk(b)
    ensures RowsOk(WithDefault(b, user))
  {
  }

  /** What cookbooks a rescue may add: private, default, without a link, fresh. */
  predicate OnlyDefaultsAdded(before: Board, after: Board) {
    && before.nextCookbook <= after.nextCookbook
    && (forall c :: c in before.cookbooks ==> c in after.cookbooks && after.cookbooks[c] == before.cookbooks[c])
    && (forall c :: c in after.cookbooks && c !in before.cookbooks ==>
          c >= before.nextCookbook && after.cookbooks[c] == NewDefault(after.cookbooks[c].owner))
    && after.members == before.members
    && after.recipes == before.recipes
    && after.nextRecipe == before.nextRecipe
  }

  lemma DefaultStays(before: Board, after: Board, user: UserId, c: CookbookId)
    requires OnlyDefaultsAdded(before, after) && IsDefault(before, user, c)
    ensures IsDefault(after, user, c)
  {
  }

  lemma RescuedOneFacts(b: Board, r: RecipeId)
    requires RowsOk(b) && r in b.recipes
    ensures var b' := RescuedOne(b, r);
            && RowsOk(b') && OnlyDefaultsAdded(b, b')
            && forall p :: p in b'.placements <==> p in b.placements || (p.1 == r && IsDefault(b', b.recipes[r], p.0))
  {
    var owner := b.recipes[r];
    WithDefaultKeeps(b, owner);
    var b' := RescuedOne(b, r);
    var home := DefaultOf(WithDefault(b, owner), owner);
    assert IsDefault(b', owner, home);
    assert forall c :: IsDefault(b', owner, c) ==> c == home;
  }

  lemma DefaultIsOld(before: Board, after: Board, user: UserId, c: CookbookId)
    requires OnlyDefaultsAdded(before, after) && DefaultsOk(after)
    requires HasDefault(before, user) && IsDefault(after, user, c)
    ensures IsDefault(before, user, c)
  {
    var d :| d in before.cookbooks && IsDefault(before, user, d);
    DefaultStays(before, after, user, d);
  }

  /** The placements a rescue of `order` owes: each recipe in its owner's default. */
  predicate Owed(b': Board, order: seq<RecipeId>, p: Placement) {
    p.1 in order && p.1 in b'.recipes && IsDefault(b', b'.recipes[p.1], p.0)
  }

  lemma OwedSnoc(earlier: Board, b': Board, order: seq<RecipeId>, r: RecipeId, p: Placement)
    requires OnlyDefaultsAdded(earlier, b') && DefaultsOk(b')
    requires forall q :: q in order ==> q in earlier.recipes && HasDefault(earlier, earlier.recipes[q])
    ensures Owed(b', order + [r], p) <==>
            Owed(earlier, order, p) || (p.1 == r && r in b'.recipes && IsDefault(b', b'.recipes[r], p.0))
  {
    if p.1 in order {
      if IsDefault(b', b'.recipes[p.1], p.0) {
        DefaultIsOld(earlier, b', b'.recipes[p.1], p.0);
      }
    }
  }

  /** The rescue adds to the placements exactly the default of its owner for each
      recipe of `order`, and to the cookbooks only missing defaults. */
  lemma {:induction false} RescuedFacts(b: Board, order: seq<RecipeId>)
    requires RowsOk(b) && forall r :: r in order ==> r in b.recipes
    ensures var b' := Rescued(b, order);
            && RowsOk(b') && OnlyDefaultsAdded(b, b')
            && (forall r :: r in order ==> HasDefault(b', b.recipes[r]))
            && (forall p :: p in b'.placements <==> p in b.placements || Owed(b', order, p))
  {
    if order != [] {
      var n := |order| - 1;
      var earlier, b' := Rescued(b, order[..n]), Rescued(b, order);
      RescuedFacts(b, order[..n]);
      RescuedOneFacts(earlier, order[n]);
      assert b' == RescuedOne(earlier, order[n]);
      assert order[..n] + [order[n]] == order;
      forall p: Placement
        ensures p in b'.placements <==> p in b.placements || Owed(b', order, p)
      {
        OwedSnoc(earlier, b', order[..n], order[n], p);
      }
      forall r | r in order
        ensures HasDefault(b', b.recipes[r])
      {
        RescueKeepsDefaults(earlier, b', order[n], b.recipes[r]);
      }
    }
  }

  lemma RescueKeepsDefaults(earlier: Board, b': Board, last: RecipeId, user: UserId)
    requires last in earlier.recipes && b' == RescuedOne(earlier, last) && OnlyDefaultsAdded(earlier, b')
    requires HasDefault(earlier, user) || earlier.recipes[last] == user
    ensures HasDefault(b', user)
  {
    if HasDefault(earlier, user) {
      var d :| d in earlier.cookbooks && IsDefault(earlier, user, d);
      DefaultStays(earlier, b', user, d);
    } else {
      var d := DefaultOf(WithDefault(earlier, user), user);
      assert IsDefault(b', user, d);
    }
  }

  // ---------------------------------------------------------------------------
  // Every operation keeps the invariant
  // ---------------------------------------------------------------------------

  lemma PlacedMonotone(before: Board, after: Board)
    requires AllPlaced(before) && before.placements <= after.placements
    requires forall r :: r in after.recipes ==> r in before.recipes || Placed(after, r)
    ensures AllPlaced(after)
  {
    forall r | r in after.recipes
      ensures Placed(after, r)
    {
      if r in before.recipes {
        var p :| p in before.placements && p.1 == r;
        assert p in after.placements;
      }
    }
  }

  lemma FiledKeeps(b: Board, owner: UserId, target: Option<CookbookId>)
    requires Inv(b) && (target.Some? ==> target.value in b.cookbooks)
    ensures Inv(Filed(b, owner, target))
  {
    if target.None? {
      WithDefaultKeeps(b, owner);
    }
    var b' := Filed(b, owner, target);
    forall r | r in b'.recipes
      ensures r in b.recipes || Placed(b', r)
    {
      if r !in b.recipes {
        var c := if target.None? then DefaultOf(WithDefault(b, owner), owner) else target.value;
        assert (c, r) in b'.placements;
      }
    }
    PlacedMonotone(b, b');
  }

  lemma AddKeeps(b: Board, r: RecipeId, c: CookbookId)
    requires Inv(b) && r in b.recipes && c in b.cookbooks
    ensures Inv(b.(placements := b.placements + {(c, r)}))
  {
    PlacedMonotone(b, b.(placements := b.placements + {(c, r)}));
  }

  lemma RemoveKeeps(b: Board, r: RecipeId, c: CookbookId)
    requires Inv(b) && !SolelyPlaced(b, c, r) && (c, r) in b.placements
    ensures Inv(b.(placements := b.placements - {(c, r)}))
  {
    var b' := b.(placements := b.placements - {(c, r)});
    forall q | q in b'.recipes
      ensures Placed(b', q)
    {
      var p :| p in b.placements && p.1 == q && (q == r ==> p.0 != c);
      assert p in b'.placements;
    }
  }

  lemma DeleteRecipeKeeps(b: Board, r: RecipeId)
    requires Inv(b) && r in b.recipes
    ensures Inv(b.(recipes := b.recipes - {r}, placements := set p | p in b.placements && p.1 != r))
  {
    var b' := b.(recipes := b.recipes - {r}, placements := set p | p in b.placements && p.1 != r);
    forall q | q in b'.recipes
      ensures Placed(b', q)
    {
      var p :| p in b.placements && p.1 == q;
      assert p in b'.placements;
    }
  }

  /** Deleting a cookbook: the recipes stay, and the placements left are exactly
      those elsewhere, plus the owner's default for each solely placed recipe. */
  lemma DeleteCookbookFacts(b: Board, c: CookbookId, order: seq<RecipeId>)
    requires Inv(b) && c in b.cookbooks && !b.cookbooks[c].isDefault && ListsSolelyPlaced(b, c, order)
    ensures var b' := Dropped(Rescued(b, order), c);
            && b'.recipes == b.recipes
            && c !in b'.cookbooks
            && DefaultsOk(b')
            && (forall d :: d in b.cookbooks && d != c ==> d in b'.cookbooks && b'.cookbooks[d] == b.cookbooks[d])
            && (forall d, r :: (d, r) in b'.placements <==>
                  || ((d, r) in b.placements && d != c)
                  || (SolelyPlaced(b, c, r) && IsDefault(b', b.recipes[r], d)))
            && (forall r :: SolelyPlaced(b, c, r) ==> HasDefault(b', b.recipes[r]))
  {
    RescuedFacts(b, order);
    var s, b' := Rescued(b, order), Dropped(Rescued(b, order), c);
    forall d, user
      ensures IsDefault(s, user, d) <==> IsDefault(b', user, d)
    {
    }
    forall d, r
      ensures (d, r) in b'.placements <==>
              || ((d, r) in b.placements && d != c)
              || (SolelyPlaced(b, c, r) && IsDefault(b', b.recipes[r], d))
    {
      assert Owed(s, order, (d, r)) <==> r in order && IsDefault(s, b.recipes[r], d);
    }
    forall r | SolelyPlaced(b, c, r)
      ensures HasDefault(b', b.recipes[r])
    {
      var d :| d in s.cookbooks && IsDefault(s, b.recipes[r], d);
      assert IsDefault(b', b.recipes[r], d);
    }
  }

  lemma DeleteCookbookKeeps(b: Board, c: CookbookId, order: seq<RecipeId>)
    requires Inv(b) && c in b.cookbooks && !b.cookbooks[c].isDefault && ListsSolelyPlaced(b, c, order)
    ensures Inv(Dropped(Rescued(b, order), c))
  {
    RescuedFacts(b, order);
    DeleteCookbookFacts(b, c, order);
    var b' := Dropped(Rescued(b, order), c);
    forall r | r in b'.recipes
      ensures Placed(b', r)
    {
      if SolelyPlaced(b, c, r) {
        var d :| d in b'.cookbooks && IsDefault(b', b.recipes[r], d);
        assert (d, r) in b'.placements;
      } else {
        var p :| p in b.placements && p.1 == r;
        var q :| q in b.placements && q.1 == r && q.0 != c;
        assert (q.0, r) in b'.placements;
      }
    }
  }

  predicate MemberOp(op: Op) {
    op.Invite? || op.SetRole? || op.RemoveMember? || op.Leave?
  }

  predicate CookbookOp(op: Op) {
    op.EnsureDefault? || op.CreateCookbook? || op.SetVisibility?
  }

  lemma MemberOpKeeps(b: Board, op: Op)
    requires Inv(b) && Fits(b, op) && Refusal(b, op).None? && MemberOp(op)
    ensures Inv(After(b, op))
  {
    PlacedMonotone(b, After(b, op));
  }

  lemma CookbookOpKeeps(b: Board, op: Op)
    requires Inv(b) && Fits(b, op) && Refusal(b, op).None? && CookbookOp(op)
    ensures Inv(After(b, op))
  {
    PlacedMonotone(b, After(b, op));
  }

  /** Every operation keeps the invariant. */
  lemma StepKeeps(b: Board, op: Op)
    requires Inv(b) && Fits(b, op)
    ensures Inv(Step(b, op))
  {
    if Refusal(b, op).None? {
      match op
      case AddRecipe(_, r, c) => AddKeeps(b, r, c);
      case RemoveRecipe(_, r, c) => RemoveKeeps(b, r, c);
      case SaveRecipe(user, r, c) =>
        if b.recipes[r] == user { AddKeeps(b, r, c); } else { FiledKeeps(b, user, Some(c)); }
      case CreateRecipe(user, target) => FiledKeeps(b, user, target);
      case ShareRecipe(_, _, recipient) => FiledKeeps(b, recipient.value, None);
      case DeleteCookbook(_, c, order) => DeleteCookbookKeeps(b, c, order);
      case DeleteRecipe(_, r) => DeleteRecipeKeeps(b, r);
      case _ => if MemberOp(op) { MemberOpKeeps(b, op); } else { CookbookOpKeeps(b, op); }
    }
  }

  // ---------------------------------------------------------------------------
  // Runs
  // ---------------------------------------------------------------------------

  function Empty(): Board {
    Board(map[], map[], {}, map[], 0, 0)
  }

  ghost predicate Runs(b: Board, ops: seq<Op>)
    decreases |ops|
  {
    ops == [] || (Fits(b, ops[0]) && Runs(Step(b, ops[0]), ops[1..]))
  }

  ghost function Final(b: Board, ops: seq<Op>): Board
    requires Runs(b, ops)
    decreases |ops|
  {
    if ops == [] then b else Final(Step(b, ops[0]), ops[1..])
  }

  lemma {:induction false} RunKeeps(b: Board, ops: seq<Op>)
    requires Inv(b) && Runs(b, ops)
    ensures Inv(Final(b, ops))
    decreases |ops|
  {
    if ops != [] {
      StepKeeps(b, ops[0]);
      RunKeeps(Step(b, ops[0]), ops[1..]);
    }
  }

  /** Over every sequence of operations: no recipe is ever without a board, nobody
      has two default cookbooks, no owner has a member row, and a cookbook has a
      link exactly while it is not private. */
  lemma BoardsStayConsistent(ops: seq<Op>)
    requires Runs(Empty(), ops)
    ensures var b := Final(Empty(), ops);
            && (forall r :: r in b.recipes ==> Placed(b, r))
            && (forall user, c, d :: IsDefault(b, user, c) && IsDefault(b, user, d) ==> c == d)
            && (forall c, user :: (c, user) in b.members ==> c in b.cookbooks && b.cookbooks[c].owner != user)
            && (forall c :: c in b.cookbooks ==> (b.cookbooks[c].link.Some? <==> b.cookbooks[c].visibility != Private))
  {
    RunKeeps(Empty(), ops);
    var b := Final(Empty(), ops);
    forall c, user | (c, user) in b.members
      ensures c in b.cookbooks && b.cookbooks[c].owner != user
    {
      var k := (c, user);
      assert k in b.members;
    }
  }

  /** What no step takes from a cookbook: its owner and whether it is the default. */
  ghost predicate CookbookPersists(before: Board, after: Board, c: CookbookId) {
    c in before.cookbooks ==>
      && c in after.cookbooks
      && after.cookbooks[c].owner == before.cookbooks[c].owner
      && after.cookbooks[c].isDefault == before.cookbooks[c].isDefault
  }

  lemma FiledPersists(b: Board, owner: UserId, target: Option<CookbookId>, c: CookbookId)
    requires Inv(b) && (target.Some? ==> target.value in b.cookbooks) && c in b.cookbooks
    ensures CookbookPersists(b, Filed(b, owner, target), c)
  {
  }

  /** Operations other than the deletion of a cookbook keep all cookbooks. */
  lemma OthersKeepCookbooks(b: Board, op: Op, c: CookbookId)
    requires Inv(b) && Fits(b, op) && Refusal(b, op).None? && !op.DeleteCookbook? && c in b.cookbooks
    ensures CookbookPersists(b, After(b, op), c)
  {
    match op
    case SaveRecipe(user, r, d) => if b.recipes[r] != user { FiledPersists(b, user, Some(d), c); }
    case CreateRecipe(user, target) => FiledPersists(b, user, target, c);
    case ShareRecipe(_, _, recipient) => FiledPersists(b, recipient.value, None, c);
    case _ =>
  }

  /** A cookbook goes only when its owner deletes it, and the default never does. */
  lemma CookbooksLeaveByOwner(b: Board, op: Op, c: CookbookId)
    requires Inv(b) && Fits(b, op) && c in b.cookbooks
    ensures CookbookPersists(b, Step(b, op), c)
            || (op.DeleteCookbook? && op.cookbook == c && op.user == b.cookbooks[c].owner && !b.cookbooks[c].isDefault)
  {
    if Refusal(b, op).None? {
      if op.DeleteCookbook? {
        DeleteCookbookFacts(b, op.cookbook, op.order);
      } else {
        OthersKeepCookbooks(b, op, c);
      }
    }
  }

  /** Once a user has a default cookbook, it stays theirs and the default for good. */
  lemma {:induction false} DefaultForGood(b: Board, ops: seq<Op>, user: UserId, c: CookbookId)
    requires Inv(b) && Runs(b, ops) && IsDefault(b, user, c)
    ensures IsDefault(Final(b, ops), user, c)
    decreases |ops|
  {
    if ops != [] {
      StepKeeps(b, ops[0]);
      CookbooksLeaveByOwner(b, ops[0], c);
      DefaultForGood(Step(b, ops[0]), ops[1..], user, c);
    }
  }

  /** Operations other than the deletion of a recipe keep all recipes. */
  lemma OthersKeepRecipes(b: Board, op: Op, r: RecipeId)
    requires Inv(b) && Fits(b, op) && Refusal(b, op).None? && !op.DeleteRecipe? && r in b.recipes
    ensures var b' := After(b, op); r in b'.recipes && b'.recipes[r] == b.recipes[r]
  {
    if op.DeleteCookbook? {
      DeleteCookbookFacts(b, op.cookbook, op.order);
    }
  }

  /** A recipe goes only when its owner deletes the recipe, whoever deletes a
      cookbook or a placement; and it never changes hands. */
  lemma RecipesLeaveByOwner(b: Board, op: Op, r: RecipeId)
    requires Inv(b) && Fits(b, op) && r in b.recipes
    ensures var b' := Step(b, op);
            && (r !in b'.recipes <==> op.DeleteRecipe? && op.recipe == r && op.user == b.recipes[r])
            && (r in b'.recipes ==> b'.recipes[r] == b.recipes[r])
  {
    if Refusal(b, op).None? && !op.DeleteRecipe? {
      OthersKeepRecipes(b, op, r);
    }
  }

  // ---------------------------------------------------------------------------
  // Access
  // ---------------------------------------------------------------------------

  function Higher(a: nat, b: nat): nat {
    if a >= b then a else b
  }

  lemma GrantsLess(b: Board, user: Option<UserId>, r: RecipeId, need: Access, less: Access)
    requires Grants(b, user, r, need) && Rank(less) <= Rank(need)
    ensures Grants(b, user, r, less)
  {
    var p :| p in b.placements && p.1 == r && Rank(CookbookAccess(b, user, p.0)) >= Rank(need);
    assert Rank(CookbookAccess(b, user, p.0)) >= Rank(less);
  }

  /** The access to a recipe is owner, or the maximum of the single-cookbook rule
      over the cookbooks holding it. */
  lemma RecipeAccessIsMaximum(b: Board, user: Option<UserId>, r: RecipeId, need: Access)
    requires need != NoAccess
    ensures Rank(RecipeAccess(b, user, r)) >= Rank(need) <==>
            r in b.recipes && (user == Some(b.recipes[r]) || Grants(b, user, r, need))
  {
    if Grants(b, user, r, Owns) {
      GrantsLess(b, user, r, Owns, need);
      GrantsLess(b, user, r, Owns, Edits);
    }
    if Grants(b, user, r, Edits) {
      GrantsLess(b, user, r, Edits, Reads);
    }
  }

  /** To bound an access, bound the owner's case and each cookbook's. */
  lemma AccessAtMost(b: Board, user: Option<UserId>, r: RecipeId, bound: nat)
    requires r in b.recipes && user == Some(b.recipes[r]) ==> bound >= 3
    requires forall p :: p in b.placements && p.1 == r ==> Rank(CookbookAccess(b, user, p.0)) <= bound
    ensures Rank(RecipeAccess(b, user, r)) <= bound
  {
    var access := RecipeAccess(b, user, r);
    if access != NoAccess {
      RecipeAccessIsMaximum(b, user, r, access);
    }
  }

  lemma AccessAtLeast(b: Board, user: Option<UserId>, r: RecipeId, c: CookbookId)
    requires r in b.recipes && (c, r) in b.placements
    ensures Rank(RecipeAccess(b, user, r)) >= Rank(CookbookAccess(b, user, c))
  {
    var access := CookbookAccess(b, user, c);
    if access != NoAccess {
      var p: Placement := (c, r);
      assert p in b.placements && p.1 == r && Rank(CookbookAccess(b, user, p.0)) >= Rank(access);
      RecipeAccessIsMaximum(b, user, r, access);
    }
  }

  /** The two states treat every cookbook holding `r` in the first alike. */
  ghost predicate SameRules(before: Board, after: Board, r: RecipeId) {
    && r in before.recipes && r in after.recipes && before.recipes[r] == after.recipes[r]
    && (forall p :: p in before.placements && p.1 == r ==>
          && p.0 in before.cookbooks && p.0 in after.cookbooks && before.cookbooks[p.0] == after.cookbooks[p.0]
          && forall user :: RoleOf(before.members, user, p.0) == RoleOf(after.members, user, p.0))
  }

  /** Access only grows with placements. */
  lemma MorePlacementsMoreAccess(before: Board, after: Board, user: Option<UserId>, r: RecipeId)
    requires SameRules(before, after, r)
    requires forall p :: p in before.placements && p.1 == r ==> p in after.placements
    ensures Rank(RecipeAccess(before, user, r)) <= Rank(RecipeAccess(after, user, r))
  {
    var bound := Rank(RecipeAccess(after, user, r));
    forall p | p in before.placements && p.1 == r
      ensures Rank(CookbookAccess(before, user, p.0)) <= bound
    {
      AccessAtLeast(after, user, r, p.0);
      assert RoleOf(before.members, user, p.0) == RoleOf(after.members, user, p.0);
    }
    AccessAtMost(before, user, r, bound);
  }

  lemma SamePlacementsSameAccess(before: Board, after: Board, user: Option<UserId>, r: RecipeId)
    requires SameRules(before, after, r) && SameRules(after, before, r)
    requires forall p: Placement :: p.1 == r ==> (p in before.placements <==> p in after.placements)
    ensures RecipeAccess(before, user, r) == RecipeAccess(after, user, r)
  {
    MorePlacementsMoreAccess(before, after, user, r);
    MorePlacementsMoreAccess(after, before, user, r);
  }

  /** Adding a recipe to a cookbook raises everyone's access to it to at least their
      access to that cookbook, and changes no access to any other recipe. */
  lemma AddRaisesToCookbook(b: Board, op: Op, user: Option<UserId>, q: RecipeId)
    requires Inv(b) && op.AddRecipe? && Refusal(b, op).None? && q in b.recipes
    ensures var b' := After(b, op);
            && (q == op.recipe ==>
                  Rank(RecipeAccess(b', user, q)) ==
                    Higher(Rank(RecipeAccess(b, user, q)), Rank(CookbookAccess(b, user, op.cookbook))))
            && (q != op.recipe ==> RecipeAccess(b', user, q) == RecipeAccess(b, user, q))
  {
    var b' := After(b, op);
    if q != op.recipe {
      SamePlacementsSameAccess(b, b', user, q);
    } else {
      MorePlacementsMoreAccess(b, b', user, q);
      AccessAtLeast(b', user, q, op.cookbook);
      var bound := Higher(Rank(RecipeAccess(b, user, q)), Rank(CookbookAccess(b, user, op.cookbook)));
      forall p | p in b'.placements && p.1 == q
        ensures Rank(CookbookAccess(b', user, p.0)) <= bound
      {
        if p in b.placements {
          AccessAtLeast(b, user, q, p.0);
        }
      }
      AccessAtMost(b', user, q, bound);
    }
  }

  /** So whoever can add a recipe they may only read can edit it afterwards. */
  lemma AddedRecipesBecomeEditable(b: Board, op: Op)
    requires Inv(b) && op.AddRecipe? && Refusal(b, op).None?
    ensures Rank(RecipeAccess(After(b, op), Some(op.user), op.recipe)) >= Rank(Edits)
  {
    AddRaisesToCookbook(b, op, Some(op.user), op.recipe);
  }

  /** Removing a placement raises no access, and never the owner's own. */
  lemma RemoveRaisesNothing(b: Board, op: Op, user: Option<UserId>, q: RecipeId)
    requires Inv(b) && op.RemoveRecipe? && Refusal(b, op).None? && q in b.recipes
    ensures var b' := After(b, op);
            && Rank(RecipeAccess(b', user, q)) <= Rank(RecipeAccess(b, user, q))
            && RecipeAccess(b', Some(b.recipes[q]), q) == Owns
            && Placed(b', q)
  {
    StepKeeps(b, op);
    MorePlacementsMoreAccess(After(b, op), b, user, q);
  }

  /** Saving someone else's recipe makes an owned copy in exactly the chosen
      cookbook and changes nobody's access to any recipe that existed. */
  lemma SaveLeavesOriginalsAlone(b: Board, op: Op, user: Option<UserId>, q: RecipeId)
    requires Inv(b) && op.SaveRecipe? && Refusal(b, op).None? && b.recipes[op.recipe] != op.user
    requires q in b.recipes
    ensures var b', copy := After(b, op), b.nextRecipe;
            && copy !in b.recipes && copy in b'.recipes && b'.recipes[copy] == op.user
            && (forall c :: (c, copy) in b'.placements <==> c == op.cookbook)
            && RecipeAccess(b', user, q) == RecipeAccess(b, user, q)
  {
    var b' := After(b, op);
    assert forall c :: (c, b.nextRecipe) in b.placements ==> (c, b.nextRecipe).1 in b.recipes;
    SamePlacementsSameAccess(b, b', user, q);
  }

  /** A recipe placed elsewhere too: its placements shrink, under the same rules. */
  lemma KeptPlacements(b: Board, c: CookbookId, order: seq<RecipeId>, user: Option<UserId>, r: RecipeId)
    requires Inv(b) && c in b.cookbooks && !b.cookbooks[c].isDefault && ListsSolelyPlaced(b, c, order)
    requires r in b.recipes && !SolelyPlaced(b, c, r)
    ensures Rank(RecipeAccess(Dropped(Rescued(b, order), c), user, r)) <= Rank(RecipeAccess(b, user, r))
  {
    var b' := Dropped(Rescued(b, order), c);
    DeleteCookbookFacts(b, c, order);
    RescuedFacts(b, order);
    forall p | p in b'.placements && p.1 == r
      ensures p in b.placements && p.0 != c
    {
      assert (p.0, r) in b'.placements;
    }
    MorePlacementsMoreAccess(b', b, user, r);
  }

  /** The access to a recipe that is placed only in its owner's default. */
  lemma AccessThroughDefault(b: Board, user: Option<UserId>, r: RecipeId, before: nat)
    requires DefaultsOk(b) && r in b.recipes && HasDefault(b, b.recipes[r])
    requires forall p :: p in b.placements && p.1 == r ==> IsDefault(b, b.recipes[r], p.0)
    requires user == Some(b.recipes[r]) ==> before >= 3
    ensures Rank(RecipeAccess(b, user, r)) <= Higher(before, Rank(CookbookAccess(b, user, DefaultOf(b, b.recipes[r]))))
  {
    AccessAtMost(b, user, r, Higher(before, Rank(CookbookAccess(b, user, DefaultOf(b, b.recipes[r])))));
  }

  lemma OwnersOwn(b: Board, user: Option<UserId>, r: RecipeId)
    requires r in b.recipes && user == Some(b.recipes[r])
    ensures RecipeAccess(b, user, r) == Owns
  {
  }

  /** A recipe placed nowhere else is only in its owner's default now. */
  lemma RehomedPlacements(b: Board, c: CookbookId, order: seq<RecipeId>, r: RecipeId)
    requires Inv(b) && c in b.cookbooks && !b.cookbooks[c].isDefault && ListsSolelyPlaced(b, c, order)
    requires SolelyPlaced(b, c, r)
    ensures var b' := Dropped(Rescued(b, order), c);
            && b'.recipes == b.recipes && DefaultsOk(b') && HasDefault(b', b.recipes[r])
            && forall p :: p in b'.placements && p.1 == r ==> IsDefault(b', b.recipes[r], p.0)
  {
    var b' := Dropped(Rescued(b, order), c);
    DeleteCookbookFacts(b, c, order);
    forall p | p in b'.placements && p.1 == r
      ensures IsDefault(b', b.recipes[r], p.0)
    {
      assert (p.0, r) in b'.placements;
    }
  }

  /** So only that default grants access to it. */
  lemma RehomedAccess(b: Board, c: CookbookId, order: seq<RecipeId>, user: Option<UserId>, r: RecipeId)
    requires Inv(b) && c in b.cookbooks && !b.cookbooks[c].isDefault && ListsSolelyPlaced(b, c, order)
    requires SolelyPlaced(b, c, r)
    ensures var b' := Dropped(Rescued(b, order), c);
            && HasDefault(b', b.recipes[r])
            && Rank(RecipeAccess(b', user, r)) <=
               Higher(Rank(RecipeAccess(b, user, r)), Rank(CookbookAccess(b', user, DefaultOf(b', b.recipes[r]))))
  {
    RehomedPlacements(b, c, order, r);
    if user == Some(b.recipes[r]) {
      OwnersOwn(b, user, r);
    }
    AccessThroughDefault(Dropped(Rescued(b, order), c), user, r, Rank(RecipeAccess(b, user, r)));
  }

  /** Deleting a cookbook keeps every recipe and its owner, re-homes exactly the
      recipes placed only there, each into its own owner's default cookbook, and
      gives nobody more access to a recipe than they had or than that default grants. */
  lemma DeleteCookbookRehomes(b: Board, op: Op, user: Option<UserId>, r: RecipeId)
    requires Inv(b) && Fits(b, op) && op.DeleteCookbook? && Refusal(b, op).None? && r in b.recipes
    ensures var b', c := After(b, op), op.cookbook;
            && b'.recipes == b.recipes
            && (forall d :: (d, r) in b'.placements <==>
                  ((d, r) in b.placements && d != c) || (SolelyPlaced(b, c, r) && IsDefault(b', b.recipes[r], d)))
            && RecipeAccess(b', Some(b.recipes[r]), r) == Owns
            && (!SolelyPlaced(b, c, r) ==> Rank(RecipeAccess(b', user, r)) <= Rank(RecipeAccess(b, user, r)))
            && (SolelyPlaced(b, c, r) ==>
                  && HasDefault(b', b.recipes[r])
                  && Rank(RecipeAccess(b', user, r)) <=
                     Higher(Rank(RecipeAccess(b, user, r)),
                       Rank(CookbookAccess(b', user, DefaultOf(b', b.recipes[r])))))
  {
    DeleteCookbookFacts(b, op.cookbook, op.order);
    if SolelyPlaced(b, op.cookbook, r) {
      RehomedAccess(b, op.cookbook, op.order, user, r);
    } else {
      KeptPlacements(b, op.cookbook, op.order, user, r);
    }
  }
}
