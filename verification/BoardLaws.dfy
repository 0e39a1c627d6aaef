/** What owners, editors, viewers and everyone else may do, said by ownership, member
    rows and visibility, and what each operation leaves in the rows. */
module BoardLaws {
  import opened Options
  import opened Boards
  import opened BoardTheorems

  // ---------------------------------------------------------------------------
  // Access to a cookbook
  // ---------------------------------------------------------------------------

  predicate OwnsCookbook(b: Board, user: UserId, c: CookbookId) {
    c in b.cookbooks && b.cookbooks[c].owner == user
  }

  predicate HasRow(b: Board, user: UserId, c: CookbookId, role: Role) {
    c in b.cookbooks && (c, user) in b.members && b.members[(c, user)] == role
  }

  /** Anyone with the link, or anyone at all, may read. */
  predicate OpenToAll(b: Board, c: CookbookId) {
    c in b.cookbooks && (b.cookbooks[c].visibility == Unlisted || b.cookbooks[c].visibility == Public)
  }

  predicate EditsCookbook(b: Board, user: UserId, c: CookbookId) {
    OwnsCookbook(b, user, c) || HasRow(b, user, c, Editor)
  }

  predicate ReadsCookbook(b: Board, user: UserId, c: CookbookId) {
    EditsCookbook(b, user, c) || HasRow(b, user, c, Viewer) || OpenToAll(b, c)
  }

  /** Owning takes ownership, editing an editor's row besides, and reading any row or an
      open cookbook. */
  lemma CookbookAccessExactly(b: Board, user: UserId, c: CookbookId)
    ensures MayOnCookbook(b, user, c, Owns) <==> OwnsCookbook(b, user, c)
    ensures MayOnCookbook(b, user, c, Edits) <==> EditsCookbook(b, user, c)
    ensures MayOnCookbook(b, user, c, Reads) <==> ReadsCookbook(b, user, c)
  {
  }

  /** Without an account one reads exactly the open cookbooks, and never more. */
  lemma AnonymousReadsExactly(b: Board, c: CookbookId)
    ensures CookbookAccess(b, None, c) == if OpenToAll(b, c) then Reads else NoAccess
  {
  }

  /** Nor does a user who neither owns nor joined it. */
  lemma StrangersReadExactly(b: Board, user: UserId, c: CookbookId)
    requires !OwnsCookbook(b, user, c) && (c, user) !in b.members
    ensures CookbookAccess(b, Some(user), c) == if OpenToAll(b, c) then Reads else NoAccess
  {
  }

  // ---------------------------------------------------------------------------
  // Access to a recipe
  // ---------------------------------------------------------------------------

  ghost predicate ReadsRecipe(b: Board, user: UserId, r: RecipeId) {
    && r in b.recipes
    && (b.recipes[r] == user || exists c: CookbookId :: (c, r) in b.placements && ReadsCookbook(b, user, c))
  }

  ghost predicate EditsRecipe(b: Board, user: UserId, r: RecipeId) {
    && r in b.recipes
    && (b.recipes[r] == user || exists c: CookbookId :: (c, r) in b.placements && EditsCookbook(b, user, c))
  }

  lemma GrantsExactly(b: Board, user: Option<UserId>, r: RecipeId, need: Access)
    ensures Grants(b, user, r, need) <==>
            exists c: CookbookId :: (c, r) in b.placements && Rank(CookbookAccess(b, user, c)) >= Rank(need)
  {
    if p :| p in b.placements && p.1 == r && Rank(CookbookAccess(b, user, p.0)) >= Rank(need) {
      assert (p.0, r) in b.placements;
    }
    if c: CookbookId :| (c, r) in b.placements && Rank(CookbookAccess(b, user, c)) >= Rank(need) {
      var p: Placement := (c, r);
      assert p in b.placements && p.1 == r;
    }
  }

  lemma GrantsReads(b: Board, user: UserId, r: RecipeId)
    requires IdsOk(b)
    ensures Grants(b, Some(user), r, Reads) <==>
            exists c: CookbookId :: (c, r) in b.placements && ReadsCookbook(b, user, c)
  {
    GrantsExactly(b, Some(user), r, Reads);
    forall c: CookbookId | (c, r) in b.placements
      ensures Rank(CookbookAccess(b, Some(user), c)) >= Rank(Reads) <==> ReadsCookbook(b, user, c)
    {
      InCookbooks(b, c, r);
      CookbookAccessExactly(b, user, c);
    }
  }

  lemma GrantsEdits(b: Board, user: UserId, r: RecipeId)
    requires IdsOk(b)
    ensures Grants(b, Some(user), r, Edits) <==>
            exists c: CookbookId :: (c, r) in b.placements && EditsCookbook(b, user, c)
  {
    GrantsExactly(b, Some(user), r, Edits);
    forall c: CookbookId | (c, r) in b.placements
      ensures Rank(CookbookAccess(b, Some(user), c)) >= Rank(Edits) <==> EditsCookbook(b, user, c)
    {
      InCookbooks(b, c, r);
      CookbookAccessExactly(b, user, c);
    }
  }

  lemma InCookbooks(b: Board, c: CookbookId, r: RecipeId)
    requires IdsOk(b) && (c, r) in b.placements
    ensures c in b.cookbooks && r in b.recipes
  {
    var p: Placement := (c, r);
    assert p in b.placements;
  }

  /** A recipe is read by its owner and by whoever reads a cookbook holding it, and
      edited by its owner and by whoever edits one. */
  lemma RecipeAccessExactly(b: Board, user: UserId, r: RecipeId)
    requires IdsOk(b)
    ensures MayRead(b, user, r) <==> ReadsRecipe(b, user, r)
    ensures Rank(RecipeAccess(b, Some(user), r)) >= Rank(Edits) <==> EditsRecipe(b, user, r)
  {
    RecipeAccessIsMaximum(b, Some(user), r, Reads);
    RecipeAccessIsMaximum(b, Some(user), r, Edits);
    GrantsReads(b, user, r);
    GrantsEdits(b, user, r);
  }

  /** Without an account it is read exactly while some open cookbook holds it. */
  lemma AnonymousRecipeExactly(b: Board, r: RecipeId)
    requires IdsOk(b)
    ensures RecipeAccess(b, None, r) ==
            if exists c: CookbookId :: (c, r) in b.placements && OpenToAll(b, c) then Reads else NoAccess
  {
    RecipeAccessIsMaximum(b, None, r, Reads);
    RecipeAccessIsMaximum(b, None, r, Edits);
    GrantsExactly(b, None, r, Reads);
    GrantsExactly(b, None, r, Edits);
    forall c: CookbookId | (c, r) in b.placements
      ensures Rank(CookbookAccess(b, None, c)) >= Rank(Reads) <==> OpenToAll(b, c)
      ensures Rank(CookbookAccess(b, None, c)) < Rank(Edits) && r in b.recipes
    {
      InCookbooks(b, c, r);
      AnonymousReadsExactly(b, c);
    }
  }

  // ---------------------------------------------------------------------------
  // What each operation takes
  // ---------------------------------------------------------------------------

  /** The operation is allowed. */
  ghost predicate Allowed(b: Board, op: Op) {
    match op
    case EnsureDefault(_) => true
    case CreateCookbook(_) => true
    case SetVisibility(user, c, _, _) => OwnsCookbook(b, user, c)
    case Invite(user, c, invitee, _) => OwnsCookbook(b, user, c) && invitee.Some? && invitee.value != user
    case SetRole(user, c, member, _) => OwnsCookbook(b, user, c) && (c, member) in b.members
    case RemoveMember(user, c, _) => OwnsCookbook(b, user, c)
    case Leave(_, _) => true
    case AddRecipe(user, r, c) => EditsCookbook(b, user, c) && ReadsRecipe(b, user, r)
    case RemoveRecipe(user, r, c) =>
      EditsCookbook(b, user, c) && (c, r) in b.placements && exists d: CookbookId :: d != c && (d, r) in b.placements
    case SaveRecipe(user, r, c) => EditsCookbook(b, user, c) && ReadsRecipe(b, user, r)
    case CreateRecipe(user, target) => target.Some? ==> EditsCookbook(b, user, target.value)
    case ShareRecipe(user, r, recipient) =>
      r in b.recipes && b.recipes[r] == user && recipient.Some? && recipient.value != user
    case DeleteCookbook(user, c, _) => OwnsCookbook(b, user, c) && !b.cookbooks[c].isDefault
    case DeleteRecipe(user, r) => r in b.recipes && b.recipes[r] == user
  }

  lemma AnotherPlacement(b: Board, r: RecipeId, c: CookbookId)
    ensures (forall p :: p in b.placements && p.1 == r ==> p.0 == c) <==>
            !exists d: CookbookId :: d != c && (d, r) in b.placements
  {
    if p :| p in b.placements && p.1 == r && p.0 != c {
      assert (p.0, r) in b.placements;
    }
    if d: CookbookId :| d != c && (d, r) in b.placements {
      var p: Placement := (d, r);
      assert p in b.placements && p.1 == r;
    }
  }

  /** An operation goes through exactly when it is allowed. */
  lemma RefusedExactly(b: Board, op: Op)
    requires IdsOk(b)
    ensures Refusal(b, op).None? <==> Allowed(b, op)
  {
    match op
    case SetVisibility(user, c, _, _) => CookbookAccessExactly(b, user, c);
    case Invite(user, c, _, _) => CookbookAccessExactly(b, user, c);
    case SetRole(user, c, _, _) => CookbookAccessExactly(b, user, c);
    case RemoveMember(user, c, _) => CookbookAccessExactly(b, user, c);
    case AddRecipe(user, r, c) =>
      CookbookAccessExactly(b, user, c);
      RecipeAccessExactly(b, user, r);
    case RemoveRecipe(user, r, c) =>
      CookbookAccessExactly(b, user, c);
      AnotherPlacement(b, r, c);
    case SaveRecipe(user, r, c) =>
      CookbookAccessExactly(b, user, c);
      RecipeAccessExactly(b, user, r);
    case CreateRecipe(user, target) => if target.Some? { CookbookAccessExactly(b, user, target.value); }
    case DeleteCookbook(user, c, _) => CookbookAccessExactly(b, user, c);
    case _ =>
  }

  /** Everything but these four cases is refused as not found, so that nobody learns of
      what they cannot see. */
  lemma RefusalsTell(b: Board, op: Op)
    requires IdsOk(b) && Refusal(b, op).Some? && Refusal(b, op) != Some(NotFound)
    ensures || (op.RemoveRecipe? && Refusal(b, op) == Some(LastPlacement) && EditsCookbook(b, op.user, op.cookbook)
                && (op.cookbook, op.recipe) in b.placements)
            || (op.DeleteCookbook? && Refusal(b, op) == Some(CannotDeleteDefault)
                && OwnsCookbook(b, op.user, op.cookbook))
            || (op.Invite? && OwnsCookbook(b, op.user, op.cookbook)
                && Refusal(b, op) == Some(if op.invitee.None? then RecipientNotFound else ValidationError))
            || (op.ShareRecipe? && op.recipe in b.recipes && b.recipes[op.recipe] == op.user
                && Refusal(b, op) == Some(if op.recipient.None? then RecipientNotFound else ValidationError))
  {
    match op
    case RemoveRecipe(user, _, c) => CookbookAccessExactly(b, user, c);
    case DeleteCookbook(user, c, _) => CookbookAccessExactly(b, user, c);
    case Invite(user, c, _, _) => CookbookAccessExactly(b, user, c);
    case _ =>
  }

  /** And in those four it is not. */
  lemma RefusalsAreTold(b: Board, user: UserId, c: CookbookId, r: RecipeId, order: seq<RecipeId>)
    requires IdsOk(b)
    ensures EditsCookbook(b, user, c) && (c, r) in b.placements && !Allowed(b, RemoveRecipe(user, r, c)) ==>
              Refusal(b, RemoveRecipe(user, r, c)) == Some(LastPlacement)
    ensures OwnsCookbook(b, user, c) ==>
              && (b.cookbooks[c].isDefault ==> Refusal(b, DeleteCookbook(user, c, order)) == Some(CannotDeleteDefault))
              && forall role :: Refusal(b, Invite(user, c, None, role)) == Some(RecipientNotFound)
                                && Refusal(b, Invite(user, c, Some(user), role)) == Some(ValidationError)
    ensures r in b.recipes && b.recipes[r] == user ==>
              && Refusal(b, ShareRecipe(user, r, None)) == Some(RecipientNotFound)
              && Refusal(b, ShareRecipe(user, r, Some(user))) == Some(ValidationError)
  {
    CookbookAccessExactly(b, user, c);
    AnotherPlacement(b, r, c);
  }

  // ---------------------------------------------------------------------------
  // What members may do once they have a role
  // ---------------------------------------------------------------------------

  /** The operation gives `member` the role in `c`. */
  predicate GivesRole(op: Op, c: CookbookId, member: UserId, role: Role) {
    || (op.Invite? && op.cookbook == c && op.invitee == Some(member) && op.role == role)
    || (op.SetRole? && op.cookbook == c && op.member == member && op.role == role)
  }

  lemma RoleIsGiven(b: Board, op: Op, c: CookbookId, member: UserId, role: Role)
    requires Inv(b) && Fits(b, op) && Refusal(b, op).None? && GivesRole(op, c, member, role)
    ensures var b' := After(b, op); Inv(b') && HasRow(b', member, c, role) && !OwnsCookbook(b', member, c)
  {
    StepKeeps(b, op);
    RefusedExactly(b, op);
    var k := (c, member);
    assert op.SetRole? ==> k in b.members;
  }

  predicate ViewerMayNot(b: Board, c: CookbookId, member: UserId, r: RecipeId) {
    && Refusal(b, AddRecipe(member, r, c)).Some?
    && Refusal(b, RemoveRecipe(member, r, c)).Some?
    && Refusal(b, SaveRecipe(member, r, c)).Some?
    && Refusal(b, CreateRecipe(member, Some(c))).Some?
  }

  lemma ViewersMayNot(b: Board, c: CookbookId, member: UserId, r: RecipeId)
    requires IdsOk(b) && HasRow(b, member, c, Viewer) && !OwnsCookbook(b, member, c)
    ensures ViewerMayNot(b, c, member, r)
  {
    RefusedExactly(b, AddRecipe(member, r, c));
    RefusedExactly(b, RemoveRecipe(member, r, c));
    RefusedExactly(b, SaveRecipe(member, r, c));
    RefusedExactly(b, CreateRecipe(member, Some(c)));
  }

  lemma ViewersReadRecipes(b: Board, c: CookbookId, member: UserId, r: RecipeId)
    requires IdsOk(b) && HasRow(b, member, c, Viewer) && (c, r) in b.placements
    ensures MayRead(b, member, r)
  {
    InCookbooks(b, c, r);
    RecipeAccessExactly(b, member, r);
  }

  /** A new viewer reads every recipe of the cookbook, and can neither add, remove, save
      nor create one in it. */
  lemma ViewersOnlyRead(b: Board, op: Op, c: CookbookId, member: UserId, r: RecipeId)
    requires Inv(b) && Fits(b, op) && Refusal(b, op).None? && GivesRole(op, c, member, Viewer)
    ensures ViewerMayNot(After(b, op), c, member, r)
    ensures (c, r) in After(b, op).placements ==> MayRead(After(b, op), member, r)
  {
    RoleIsGiven(b, op, c, member, Viewer);
    ViewersMayNot(After(b, op), c, member, r);
    if (c, r) in After(b, op).placements {
      ViewersReadRecipes(After(b, op), c, member, r);
    }
  }

  predicate EditorMay(b: Board, c: CookbookId, member: UserId, r: RecipeId) {
    && Refusal(b, CreateRecipe(member, Some(c))).None?
    && (MayRead(b, member, r) ==> Refusal(b, AddRecipe(member, r, c)).None?)
    && ((c, r) in b.placements && !SolelyPlaced(b, c, r) ==> Refusal(b, RemoveRecipe(member, r, c)).None?)
  }

  lemma EditorsMay(b: Board, c: CookbookId, member: UserId, r: RecipeId)
    requires IdsOk(b) && HasRow(b, member, c, Editor)
    ensures EditorMay(b, c, member, r)
  {
    RecipeAccessExactly(b, member, r);
    RefusedExactly(b, CreateRecipe(member, Some(c)));
    RefusedExactly(b, AddRecipe(member, r, c));
    if (c, r) in b.placements {
      InCookbooks(b, c, r);
      AnotherPlacement(b, r, c);
      RefusedExactly(b, RemoveRecipe(member, r, c));
    }
  }

  lemma EditorsEditRecipes(b: Board, c: CookbookId, member: UserId, r: RecipeId)
    requires IdsOk(b) && HasRow(b, member, c, Editor) && (c, r) in b.placements
    ensures Rank(RecipeAccess(b, Some(member), r)) >= Rank(Edits)
  {
    InCookbooks(b, c, r);
    RecipeAccessExactly(b, member, r);
  }

  /** A new editor can create a recipe in it, add one they may read, remove one that is
      placed elsewhere too, and edit those it holds. */
  lemma EditorsEdit(b: Board, op: Op, c: CookbookId, member: UserId, r: RecipeId)
    requires Inv(b) && Fits(b, op) && Refusal(b, op).None? && GivesRole(op, c, member, Editor)
    ensures EditorMay(After(b, op), c, member, r)
    ensures (c, r) in After(b, op).placements ==> Rank(RecipeAccess(After(b, op), Some(member), r)) >= Rank(Edits)
  {
    RoleIsGiven(b, op, c, member, Editor);
    EditorsMay(After(b, op), c, member, r);
    if (c, r) in After(b, op).placements {
      EditorsEditRecipes(After(b, op), c, member, r);
    }
  }

  /** The operation is one on the cookbook that its owner alone may do. */
  predicate OwnersOnly(op: Op, user: UserId, c: CookbookId) {
    (op.SetVisibility? || op.Invite? || op.SetRole? || op.RemoveMember? || op.DeleteCookbook?)
    && op.user == user && op.cookbook == c
  }

  /** Neither role lets a member change the visibility, invite, change or remove members,
      or delete the cookbook. */
  lemma MembersDoNotManage(b: Board, op: Op, c: CookbookId, member: UserId, role: Role, next: Op)
    requires Inv(b) && Fits(b, op) && Refusal(b, op).None? && GivesRole(op, c, member, role)
    requires OwnersOnly(next, member, c)
    ensures Refusal(After(b, op), next).Some?
  {
    RoleIsGiven(b, op, c, member, role);
    RefusedExactly(After(b, op), next);
  }

  // ---------------------------------------------------------------------------
  // What each operation leaves
  // ---------------------------------------------------------------------------

  predicate SameRecipes(before: Board, after: Board) {
    after.recipes == before.recipes && after.placements == before.placements && after.nextRecipe == before.nextRecipe
  }

  predicate SameShelves(before: Board, after: Board) {
    && after.cookbooks == before.cookbooks && after.members == before.members
    && after.nextCookbook == before.nextCookbook
  }

  /** A new cookbook is private, without a link, and its maker's. */
  lemma CreateCookbookAdds(b: Board, user: UserId)
    ensures var b' := After(b, CreateCookbook(user));
            && SameRecipes(b, b') && b'.members == b.members
            && b'.cookbooks.Keys == b.cookbooks.Keys + {b.nextCookbook}
            && (forall c :: c in b.cookbooks && c != b.nextCookbook ==> b'.cookbooks[c] == b.cookbooks[c])
            && var made := b'.cookbooks[b.nextCookbook];
               made.owner == user && made.visibility == Private && made.link.None? && !made.isDefault
  {
  }

  /** A missing default is added likewise; one that is there is left alone. */
  lemma EnsureDefaultAdds(b: Board, user: UserId)
    requires IdsOk(b)
    ensures var b' := After(b, EnsureDefault(user));
            && SameRecipes(b, b') && b'.members == b.members
            && (forall c :: c in b.cookbooks ==> c in b'.cookbooks && b'.cookbooks[c] == b.cookbooks[c])
            && (if exists c :: c in b.cookbooks && b.cookbooks[c].owner == user && b.cookbooks[c].isDefault then b' == b
                else
                  && b'.cookbooks.Keys == b.cookbooks.Keys + {b.nextCookbook}
                  && var made := b'.cookbooks[b.nextCookbook];
                     made.owner == user && made.visibility == Private && made.link.None? && made.isDefault)
  {
    if c :| c in b.cookbooks && b.cookbooks[c].owner == user && b.cookbooks[c].isDefault {
      assert IsDefault(b, user, c);
    }
  }

  /** A change of visibility drops the link of what becomes private, keeps a link there
      is, and otherwise mints one. */
  lemma SetVisibilityLinks(b: Board, user: UserId, c: CookbookId, visibility: Visibility, minted: LinkToken)
    requires Refusal(b, SetVisibility(user, c, visibility, minted)).None?
    ensures var b' := After(b, SetVisibility(user, c, visibility, minted));
            && SameRecipes(b, b') && b'.members == b.members && b'.cookbooks.Keys == b.cookbooks.Keys
            && (forall d :: d in b.cookbooks && d != c ==> b'.cookbooks[d] == b.cookbooks[d])
            && var old', new' := b.cookbooks[c], b'.cookbooks[c];
               && new'.owner == old'.owner && new'.isDefault == old'.isDefault && new'.visibility == visibility
               && (visibility == Private ==> new'.link.None?)
               && (visibility != Private && old'.link.Some? ==> new'.link == old'.link)
               && (visibility != Private && old'.link.None? ==> new'.link == Some(minted))
  {
  }

  /** Invitations and role changes set that one member's role. */
  lemma RolesAreSet(b: Board, op: Op, c: CookbookId, member: UserId, role: Role)
    requires Fits(b, op) && Refusal(b, op).None? && GivesRole(op, c, member, role)
    ensures var b' := After(b, op);
            && SameRecipes(b, b') && b'.cookbooks == b.cookbooks
            && b'.members.Keys == b.members.Keys + {(c, member)} && b'.members[(c, member)] == role
            && forall k :: k in b.members && k != (c, member) ==> b'.members[k] == b.members[k]
  {
  }

  /** Removing a member and leaving take that one row. */
  lemma RowsAreTaken(b: Board, op: Op, c: CookbookId, member: UserId)
    requires Fits(b, op) && Refusal(b, op).None?
    requires (op.RemoveMember? && op.cookbook == c && op.member == member)
             || (op.Leave? && op.cookbook == c && op.user == member)
    ensures var b' := After(b, op);
            && SameRecipes(b, b') && b'.cookbooks == b.cookbooks
            && b'.members.Keys == b.members.Keys - {(c, member)}
            && forall k :: k in b'.members ==> b'.members[k] == b.members[k]
  {
  }

  /** Adding and removing change that one placement. */
  lemma PlacementsChange(b: Board, user: UserId, r: RecipeId, c: CookbookId)
    ensures Refusal(b, AddRecipe(user, r, c)).None? ==>
              var b' := After(b, AddRecipe(user, r, c));
              && SameShelves(b, b') && b'.recipes == b.recipes
              && forall p: Placement :: p in b'.placements <==> p in b.placements || p == (c, r)
    ensures Refusal(b, RemoveRecipe(user, r, c)).None? ==>
              var b' := After(b, RemoveRecipe(user, r, c));
              && SameShelves(b, b') && b'.recipes == b.recipes
              && forall p: Placement :: p in b'.placements <==> p in b.placements && p != (c, r)
  {
  }

  /** One new recipe of `owner`, in exactly one cookbook: the given one, or else a default
      of the owner's. */
  ghost predicate FiledAs(b: Board, b': Board, owner: UserId, target: Option<CookbookId>) {
    && b'.members == b.members
    && (forall c :: c in b.cookbooks ==> c in b'.cookbooks && b'.cookbooks[c] == b.cookbooks[c])
    && (target.Some? ==> b'.cookbooks == b.cookbooks)
    && b'.recipes.Keys == b.recipes.Keys + {b.nextRecipe} && b'.recipes[b.nextRecipe] == owner
    && (forall r :: r in b.recipes && r != b.nextRecipe ==> b'.recipes[r] == b.recipes[r])
    && exists c: CookbookId ::
         && (forall p: Placement :: p in b'.placements <==> p in b.placements || p == (c, b.nextRecipe))
         && c in b'.cookbooks
         && if target.Some? then c == target.value
            else b'.cookbooks[c].owner == owner && b'.cookbooks[c].isDefault
  }

  lemma FilingFiles(b: Board, owner: UserId, target: Option<CookbookId>)
    requires IdsOk(b) && (target.Some? ==> target.value in b.cookbooks)
    ensures FiledAs(b, Filed(b, owner, target), owner, target)
  {
    var b' := Filed(b, owner, target);
    var c := if target.None? then DefaultOf(WithDefault(b, owner), owner) else target.value;
    assert forall p: Placement :: p in b'.placements <==> p in b.placements || p == (c, b.nextRecipe);
  }

  /** Creating files a recipe of the user, sharing one of the recipient in their default,
      and saving another's recipe one of the saver in the chosen cookbook; saving an own
      one only places it. */
  lemma RecipesAreFiled(b: Board, op: Op)
    requires Inv(b) && Fits(b, op) && Refusal(b, op).None?
    ensures op.CreateRecipe? ==> FiledAs(b, After(b, op), op.user, op.target)
    ensures op.ShareRecipe? ==> FiledAs(b, After(b, op), op.recipient.value, None)
    ensures op.SaveRecipe? && b.recipes[op.recipe] != op.user ==>
              FiledAs(b, After(b, op), op.user, Some(op.cookbook))
    ensures op.SaveRecipe? && b.recipes[op.recipe] == op.user ==>
              After(b, op) == After(b, AddRecipe(op.user, op.recipe, op.cookbook))
  {
    RefusedExactly(b, op);
    match op
    case CreateRecipe(user, target) => FilingFiles(b, user, target);
    case ShareRecipe(_, _, recipient) => FilingFiles(b, recipient.value, None);
    case SaveRecipe(user, r, c) => if b.recipes[r] != user { FilingFiles(b, user, Some(c)); }
    case _ =>
  }

  /** Deleting a recipe takes its placements and no others. */
  lemma DeletionTakesPlacements(b: Board, user: UserId, r: RecipeId)
    requires Refusal(b, DeleteRecipe(user, r)).None?
    ensures var b' := After(b, DeleteRecipe(user, r));
            && SameShelves(b, b') && b'.recipes == b.recipes - {r}
            && forall p :: p in b'.placements <==> p in b.placements && p.1 != r
  {
  }

  /** Deleting a cookbook takes its member rows and no others. */
  lemma DeletionTakesRows(b: Board, op: Op)
    requires Inv(b) && Fits(b, op) && op.DeleteCookbook? && Refusal(b, op).None?
    ensures var b' := After(b, op);
            && op.cookbook !in b'.cookbooks
            && (forall k :: k in b'.members <==> k in b.members && k.0 != op.cookbook)
            && forall k :: k in b'.members ==> b'.members[k] == b.members[k]
  {
    RefusedExactly(b, op);
    RescuedFacts(b, op.order);
  }
}
