/** Cookbooks as boards: who owns and joins them, which recipes are placed on
    them, and what access follows.

    `Refusal` and `After` say when an operation is refused and what it does to the
    state; the class `BoardStore` carries the operations out on its rows, as the
    service does, and is proved against them. */
module Boards {
  import opened Options

  type UserId = nat
  type CookbookId = nat
  type RecipeId = nat
  type LinkToken = nat
  type Placement = (CookbookId, RecipeId)

  datatype Role = Viewer | Editor
  datatype Visibility = Private | Unlisted | Public
  datatype Access = NoAccess | Reads | Edits | Owns
  datatype Cookbook = Cookbook(owner: UserId, visibility: Visibility, link: Option<LinkToken>, isDefault: bool)

  /** The rows. `recipes` maps each recipe to its owner; ids from `nextCookbook`
      and `nextRecipe` on are unused. */
  datatype Board = Board(
    cookbooks: map<CookbookId, Cookbook>,
    members: map<(CookbookId, UserId), Role>,
    placements: set<Placement>,
    recipes: map<RecipeId, UserId>,
    nextCookbook: CookbookId,
    nextRecipe: RecipeId)

  function Rank(access: Access): nat {
    match access
    case NoAccess => 0
    case Reads => 1
    case Edits => 2
    case Owns => 3
  }

  // ---------------------------------------------------------------------------
  // Access
  // ---------------------------------------------------------------------------

  /** The rule for one cookbook; `user` is `None` for an anonymous reader. */
  function AccessFromParts(user: Option<UserId>, owner: UserId, visibility: Visibility, role: Option<Role>): Access {
    if user == Some(owner) then Owns
    else if role == Some(Editor) then Edits
    else if role == Some(Viewer) then Reads
    else if visibility != Private then Reads
    else NoAccess
  }

  function RoleOf(members: map<(CookbookId, UserId), Role>, user: Option<UserId>, c: CookbookId): Option<Role> {
    if user.Some? && (c, user.value) in members then Some(members[(c, user.value)]) else None
  }

  function CookbookAccess(b: Board, user: Option<UserId>, c: CookbookId): Access {
    if c !in b.cookbooks then NoAccess
    else AccessFromParts(user, b.cookbooks[c].owner, b.cookbooks[c].visibility, RoleOf(b.members, user, c))
  }

  /** Some cookbook holding `r` grants `user` at least `need`. */
  predicate Grants(b: Board, user: Option<UserId>, r: RecipeId, need: Access) {
    exists p :: p in b.placements && p.1 == r && Rank(CookbookAccess(b, user, p.0)) >= Rank(need)
  }

  /** The rule for a recipe: its owner owns it; anyone else has the highest access
      that a cookbook holding it grants. */
  function RecipeAccess(b: Board, user: Option<UserId>, r: RecipeId): Access {
    if r !in b.recipes then NoAccess
    else if user == Some(b.recipes[r]) || Grants(b, user, r, Owns) then Owns
    else if Grants(b, user, r, Edits) then Edits
    else if Grants(b, user, r, Reads) then Reads
    else NoAccess
  }

  predicate MayOnCookbook(b: Board, user: UserId, c: CookbookId, need: Access) {
    c in b.cookbooks && Rank(CookbookAccess(b, Some(user), c)) >= Rank(need)
  }

  predicate MayRead(b: Board, user: UserId, r: RecipeId) {
    RecipeAccess(b, Some(user), r) != NoAccess
  }

  // ---------------------------------------------------------------------------
  // Placements and default cookbooks
  // ---------------------------------------------------------------------------

  predicate IsDefault(b: Board, user: UserId, c: CookbookId) {
    c in b.cookbooks && b.cookbooks[c].owner == user && b.cookbooks[c].isDefault
  }

  predicate HasDefault(b: Board, user: UserId) {
    exists c :: c in b.cookbooks && IsDefault(b, user, c)
  }

  function NewDefault(user: UserId): Cookbook {
    Cookbook(user, Private, None, true)
  }

  function WithDefault(b: Board, user: UserId): (b': Board)
    ensures HasDefault(b', user)
  {
    if HasDefault(b, user) then b
    else
      var b' := b.(cookbooks := b.cookbooks[b.nextCookbook := NewDefault(user)], nextCookbook := b.nextCookbook + 1);
      assert IsDefault(b', user, b.nextCookbook);
      b'
  }

  ghost function DefaultOf(b: Board, user: UserId): (c: CookbookId)
    requires HasDefault(b, user)
    ensures IsDefault(b, user, c)
  {
    var c :| c in b.cookbooks && IsDefault(b, user, c);
    c
  }

  predicate Placed(b: Board, r: RecipeId) {
    exists p :: p in b.placements && p.1 == r
  }

  /** `c` is the only cookbook holding `r`. */
  predicate SolelyPlaced(b: Board, c: CookbookId, r: RecipeId) {
    && r in b.recipes
    && (c, r) in b.placements
    && forall p :: p in b.placements && p.1 == r ==> p.0 == c
  }

  /** A new recipe of `owner`, placed in `target` or else in the owner's default. */
  ghost function Filed(b: Board, owner: UserId, target: Option<CookbookId>): Board {
    var b' := if target.None? then WithDefault(b, owner) else b;
    var c := if target.None? then DefaultOf(b', owner) else target.value;
    b'.(recipes := b'.recipes[b'.nextRecipe := owner],
        placements := b'.placements + {(c, b'.nextRecipe)},
        nextRecipe := b'.nextRecipe + 1)
  }

  /** One recipe placed in its owner's default cookbook, which is made if missing. */
  ghost function RescuedOne(b: Board, r: RecipeId): Board
    requires r in b.recipes
  {
    var owner := b.recipes[r];
    var b' := WithDefault(b, owner);
    b'.(placements := b'.placements + {(DefaultOf(b', owner), r)})
  }

  ghost function Rescued(b: Board, order: seq<RecipeId>): (b': Board)
    requires forall r :: r in order ==> r in b.recipes
    ensures b'.recipes == b.recipes
  {
    if order == [] then b else RescuedOne(Rescued(b, order[..|order| - 1]), order[|order| - 1])
  }

  /** The deletion of a cookbook takes its member rows and its placements with it. */
  function Dropped(b: Board, c: CookbookId): Board {
    b.(cookbooks := b.cookbooks - {c},
       members := map k | k in b.members && k.0 != c :: b.members[k],
       placements := set p | p in b.placements && p.0 != c)
  }

  // ---------------------------------------------------------------------------
  // Operations
  // ---------------------------------------------------------------------------

  /** `minted` is the fresh link token; an invitee or recipient is `None` when no
      account has the given address; `order` is the order in which the rows of the
      solely placed recipes come back. */
  datatype Op =
    | EnsureDefault(user: UserId)
    | CreateCookbook(user: UserId)
    | SetVisibility(user: UserId, cookbook: CookbookId, visibility: Visibility, minted: LinkToken)
    | Invite(user: UserId, cookbook: CookbookId, invitee: Option<UserId>, role: Role)
    | SetRole(user: UserId, cookbook: CookbookId, member: UserId, role: Role)
    | RemoveMember(user: UserId, cookbook: CookbookId, member: UserId)
    | Leave(user: UserId, cookbook: CookbookId)
    | AddRecipe(user: UserId, recipe: RecipeId, cookbook: CookbookId)
    | RemoveRecipe(user: UserId, recipe: RecipeId, cookbook: CookbookId)
    | SaveRecipe(user: UserId, recipe: RecipeId, cookbook: CookbookId)
    | CreateRecipe(user: UserId, target: Option<CookbookId>)
    | ShareRecipe(user: UserId, recipe: RecipeId, recipient: Option<UserId>)
    | DeleteCookbook(user: UserId, cookbook: CookbookId, order: seq<RecipeId>)
    | DeleteRecipe(user: UserId, recipe: RecipeId)

  function AddRefusal(b: Board, user: UserId, r: RecipeId, c: CookbookId): Option<ApiError> {
    if !MayOnCookbook(b, user, c, Edits) || r !in b.recipes || !MayRead(b, user, r) then Some(NotFound) else None
  }

  function Refusal(b: Board, op: Op): Option<ApiError> {
    match op
    case EnsureDefault(_) => None
    case CreateCookbook(_) => None
    case SetVisibility(user, c, _, _) => if MayOnCookbook(b, user, c, Owns) then None else Some(NotFound)
    case Invite(user, c, invitee, _) =>
      if !MayOnCookbook(b, user, c, Owns) then Some(NotFound)
      else if invitee.None? then Some(RecipientNotFound)
      else if invitee.value == b.cookbooks[c].owner then Some(ValidationError)
      else None
    case SetRole(user, c, member, _) =>
      if !MayOnCookbook(b, user, c, Owns) || (c, member) !in b.members then Some(NotFound) else None
    case RemoveMember(user, c, _) => if MayOnCookbook(b, user, c, Owns) then None else Some(NotFound)
    case Leave(_, _) => None
    case AddRecipe(user, r, c) => AddRefusal(b, user, r, c)
    case RemoveRecipe(user, r, c) =>
      if !MayOnCookbook(b, user, c, Edits) || (c, r) !in b.placements then Some(NotFound)
      else if forall p :: p in b.placements && p.1 == r ==> p.0 == c then Some(LastPlacement)
      else None
    case SaveRecipe(user, r, c) =>
      if r !in b.recipes then Some(NotFound)
      else if b.recipes[r] == user then AddRefusal(b, user, r, c)
      else if !MayRead(b, user, r) || !MayOnCookbook(b, user, c, Edits) then Some(NotFound)
      else None
    case CreateRecipe(user, target) =>
      if target.Some? && !MayOnCookbook(b, user, target.value, Edits) then Some(NotFound) else None
    case ShareRecipe(user, r, recipient) =>
      if r !in b.recipes || b.recipes[r] != user then Some(NotFound)
      else if recipient.None? then Some(RecipientNotFound)
      else if recipient.value == user then Some(ValidationError)
      else None
    case DeleteCookbook(user, c, _) =>
      if !MayOnCookbook(b, user, c, Owns) then Some(NotFound)
      else if b.cookbooks[c].isDefault then Some(CannotDeleteDefault)
      else None
    case DeleteRecipe(user, r) => if r in b.recipes && b.recipes[r] == user then None else Some(NotFound)
  }

  /** `order` lists exactly the recipes placed only in `c`, each once. */
  ghost predicate ListsSolelyPlaced(b: Board, c: CookbookId, order: seq<RecipeId>) {
    && (forall i, k :: 0 <= i < k < |order| ==> order[i] != order[k])
    && (forall r :: r in order <==> SolelyPlaced(b, c, r))
  }

  /** The operation's bookkeeping input fits the state. */
  ghost predicate Fits(b: Board, op: Op) {
    op.DeleteCookbook? ==> ListsSolelyPlaced(b, op.cookbook, op.order)
  }

  function Relinked(cookbook: Cookbook, visibility: Visibility, minted: LinkToken): Cookbook {
    var link := if visibility == Private then None else if cookbook.link.Some? then cookbook.link else Some(minted);
    cookbook.(visibility := visibility, link := link)
  }

  ghost function After(b: Board, op: Op): Board
    requires Fits(b, op) && Refusal(b, op).None?
  {
    match op
    case EnsureDefault(user) => WithDefault(b, user)
    case CreateCookbook(user) =>
      b.(cookbooks := b.cookbooks[b.nextCookbook := Cookbook(user, Private, None, false)],
        nextCookbook := b.nextCookbook + 1)
    case SetVisibility(_, c, visibility, minted) =>
      b.(cookbooks := b.cookbooks[c := Relinked(b.cookbooks[c], visibility, minted)])
    case Invite(_, c, invitee, role) => b.(members := b.members[(c, invitee.value) := role])
    case SetRole(_, c, member, role) => b.(members := b.members[(c, member) := role])
    case RemoveMember(_, c, member) => b.(members := b.members - {(c, member)})
    case Leave(user, c) => b.(members := b.members - {(c, user)})
    case AddRecipe(_, r, c) => b.(placements := b.placements + {(c, r)})
    case RemoveRecipe(_, r, c) => b.(placements := b.placements - {(c, r)})
    case SaveRecipe(user, r, c) =>
      if b.recipes[r] == user then b.(placements := b.placements + {(c, r)}) else Filed(b, user, Some(c))
    case CreateRecipe(user, target) => Filed(b, user, target)
    case ShareRecipe(_, _, recipient) => Filed(b, recipient.value, None)
    case DeleteCookbook(_, c, order) => Dropped(Rescued(b, order), c)
    case DeleteRecipe(_, r) =>
      b.(recipes := b.recipes - {r}, placements := set p | p in b.placements && p.1 != r)
  }

  /** A refused operation changes nothing. */
  ghost function Step(b: Board, op: Op): Board
    requires Fits(b, op)
  {
    if Refusal(b, op).None? then After(b, op) else b
  }
}
