/** The first migration into cookbooks: a default cookbook per user, one cookbook
    per shared cookbook with its recipes and members, and every other recipe into
    its owner's default. Fresh ids are random, so they are inputs. */
module MigrationPivot {
  import opened Options

  type UserId = nat
  type CookbookId = nat
  type RecipeId = nat
  type SharedId = nat
  type Time = int

  datatype Shared = Shared(id: SharedId, creator: UserId, createdAt: Time)
  datatype SharedMember = SharedMember(shared: SharedId, user: UserId, addedBy: Option<UserId>)
  datatype Link = Link(shared: SharedId, recipe: RecipeId)
  datatype Claim = Claim(cookbook: CookbookId, recipe: RecipeId, owner: UserId)
  /** A member row of a cookbook; every one is an editor. */
  datatype Row = Row(cookbook: CookbookId, user: UserId, addedBy: Option<UserId>)

  /** The tables before the migration, in the order its queries return them. */
  datatype Legacy = Legacy(
    users: seq<UserId>,
    recipes: map<RecipeId, UserId>,
    shared: seq<Shared>,
    members: seq<SharedMember>,
    links: seq<Link>)

  datatype Cookbook = Cookbook(owner: UserId, isDefault: bool)

  /** The tables after it. A recipe without a `home` is in no cookbook. */
  datatype World = World(
    recipes: map<RecipeId, UserId>,
    cookbooks: map<CookbookId, Cookbook>,
    rows: seq<Row>,
    home: map<RecipeId, CookbookId>)

  predicate Distinct<T(==)>(s: seq<T>) {
    forall i, k :: 0 <= i < k < |s| ==> s[i] != s[k]
  }

  /** The position of `x` in `s`. */
  function IndexOf<T(==)>(s: seq<T>, x: T): (i: nat)
    requires x in s
    ensures i < |s| && s[i] == x
  {
    if s[0] == x then 0 else 1 + IndexOf(s[1..], x)
  }

  function Creators(shared: seq<Shared>): (s: seq<UserId>)
    ensures |s| == |shared|
  {
    if shared == [] then [] else Creators(shared[..|shared| - 1]) + [shared[|shared| - 1].creator]
  }

  function SharedIds(shared: seq<Shared>): (s: seq<SharedId>)
    ensures |s| == |shared|
  {
    if shared == [] then [] else SharedIds(shared[..|shared| - 1]) + [shared[|shared| - 1].id]
  }

  /** Keys and foreign keys of the old tables, and the order of the link query:
      oldest shared cookbook first, ties by its id, then by recipe. */
  ghost predicate WellFormed(legacy: Legacy) {
    && Distinct(legacy.users)
    && (forall r :: r in legacy.recipes ==> legacy.recipes[r] in legacy.users)
    && Distinct(SharedIds(legacy.shared))
    && MembersFit(legacy.members, legacy.shared)
    && LinksFit(legacy.links, SharedIds(legacy.shared), legacy.recipes)
    && InLinkOrder(legacy.shared, legacy.links)
  }

  ghost predicate InLinkOrder(shared: seq<Shared>, links: seq<Link>) {
    forall i, k :: 0 <= i < k < |links| ==> Precedes(shared, links[i], links[k])
  }

  ghost predicate Older(shared: seq<Shared>, a: SharedId, b: SharedId) {
    exists i, k :: 0 <= i < |shared| && 0 <= k < |shared| && shared[i].id == a && shared[k].id == b
      && (shared[i].createdAt < shared[k].createdAt || (shared[i].createdAt == shared[k].createdAt && a < b))
  }

  ghost predicate Precedes(shared: seq<Shared>, a: Link, b: Link) {
    Older(shared, a.shared, b.shared) || (a.shared == b.shared && a.recipe < b.recipe)
  }

  // ---------------------------------------------------------------------------
  // New cookbooks
  // ---------------------------------------------------------------------------

  /** `before` with a cookbook for each owner, `ids[i]` for the owner `owners[i]`. */
  function AddCookbooks(before: map<CookbookId, Cookbook>, owners: seq<UserId>, ids: seq<CookbookId>, isDefault: bool):
    map<CookbookId, Cookbook>
    requires |ids| == |owners|
  {
    if owners == [] then before
    else
      var n := |owners| - 1;
      AddCookbooks(before, owners[..n], ids[..n], isDefault)[ids[n] := Cookbook(owners[n], isDefault)]
  }

  lemma {:induction false} AddCookbooksAre(before: map<CookbookId, Cookbook>, owners: seq<UserId>, ids: seq<CookbookId>,
                                           isDefault: bool)
    requires |ids| == |owners| && Distinct(ids)
    ensures var after := AddCookbooks(before, owners, ids, isDefault);
            && (forall i :: 0 <= i < |ids| ==> ids[i] in after && after[ids[i]] == Cookbook(owners[i], isDefault))
            && (forall c :: c !in ids ==> (c in after <==> c in before) && (c in after ==> after[c] == before[c]))
  {
    if owners != [] {
      var n := |owners| - 1;
      AddCookbooksAre(before, owners[..n], ids[..n], isDefault);
    }
  }

  method InsertCookbooks(before: map<CookbookId, Cookbook>, owners: seq<UserId>, ids: seq<CookbookId>, isDefault: bool)
    returns (after: map<CookbookId, Cookbook>)
    requires |ids| == |owners|
    ensures after == AddCookbooks(before, owners, ids, isDefault)
  {
    after := before;
    for i := 0 to |owners|
      invariant after == AddCookbooks(before, owners[..i], ids[..i], isDefault)
    {
      assert owners[..i + 1][..i] == owners[..i] && ids[..i + 1][..i] == ids[..i];
      after := after[ids[i] := Cookbook(owners[i], isDefault)];
    }
    assert owners[..|owners|] == owners && ids[..|ids|] == ids;
  }

  // ---------------------------------------------------------------------------
  // Claiming: the oldest shared cookbook wins
  // ---------------------------------------------------------------------------

  predicate Mentions(links: seq<Link>, r: RecipeId) {
    exists i :: 0 <= i < |links| && links[i].recipe == r
  }

  /** The links that win their recipe: none before them has it. */
  function Firsts(links: seq<Link>): seq<Link> {
    if links == [] then []
    else
      var n := |links| - 1;
      var earlier := Firsts(links[..n]);
      if Mentions(links[..n], links[n].recipe) then earlier else earlier + [links[n]]
  }

  /** Each linked recipe is won once, by the first link that has it. */
  lemma {:induction false} FirstsAre(links: seq<Link>)
    ensures forall r :: Mentions(Firsts(links), r) <==> Mentions(links, r)
    ensures forall i, k :: 0 <= i < k < |Firsts(links)| ==> Firsts(links)[i].recipe != Firsts(links)[k].recipe
    ensures forall f :: f in Firsts(links) ==>
              exists i :: 0 <= i < |links| && links[i] == f && !Mentions(links[..i], f.recipe)
  {
    if links != [] {
      var n := |links| - 1;
      FirstsAre(links[..n]);
      var earlier, firsts := Firsts(links[..n]), Firsts(links);
      forall r
        ensures Mentions(firsts, r) <==> Mentions(links, r)
      {
        MentionsSnoc(links[..n], links[n], r);
        MentionsSnoc(earlier, links[n], r);
        assert links[..n] + [links[n]] == links;
      }
      forall f | f in firsts
        ensures exists i :: 0 <= i < |links| && links[i] == f && !Mentions(links[..i], f.recipe)
      {
        if f in earlier {
          var i :| 0 <= i < n && links[..n][i] == f && !Mentions(links[..n][..i], f.recipe);
          assert links[..n][..i] == links[..i];
          assert links[i] == f;
        } else {
          assert links[n] == f;
        }
      }
      if !Mentions(links[..n], links[n].recipe) {
        assert forall i :: 0 <= i < |earlier| ==> Mentions(earlier, earlier[i].recipe);
      }
    }
  }

  lemma MentionsSnoc(links: seq<Link>, last: Link, r: RecipeId)
    ensures Mentions(links + [last], r) <==> Mentions(links, r) || last.recipe == r
  {
    var all := links + [last];
    if Mentions(links, r) {
      var i :| 0 <= i < |links| && links[i].recipe == r;
      assert all[i].recipe == r;
    }
    if last.recipe == r {
      assert all[|links|].recipe == r;
    }
  }

  lemma MentionedBefore(links: seq<Link>, k: nat, i: nat)
    requires k < i <= |links|
    ensures Mentions(links[..i], links[k].recipe)
  {
    assert links[..i][k] == links[k];
  }

  /** The winner of a recipe is its oldest shared cookbook. */
  lemma OldestWins(shared: seq<Shared>, links: seq<Link>, f: Link, other: Link)
    requires InLinkOrder(shared, links)
    requires f in Firsts(links) && other in links && other.recipe == f.recipe
    ensures f.shared == other.shared || Older(shared, f.shared, other.shared)
  {
    FirstsAre(links);
    var i :| 0 <= i < |links| && links[i] == f && !Mentions(links[..i], f.recipe);
    var k :| 0 <= k < |links| && links[k] == other;
    if i < k {
      assert Precedes(shared, links[i], links[k]);
    } else if k < i {
      MentionedBefore(links, k, i);
    }
  }

  /** The claim a winning link makes. */
  function ClaimOf(link: Link, sharedIds: seq<SharedId>, ids: seq<CookbookId>, recipes: map<RecipeId, UserId>): Claim
    requires link.shared in sharedIds && |ids| == |sharedIds| && link.recipe in recipes
  {
    Claim(ids[IndexOf(sharedIds, link.shared)], link.recipe, recipes[link.recipe])
  }

  function ClaimsOf(firsts: seq<Link>, sharedIds: seq<SharedId>, ids: seq<CookbookId>, recipes: map<RecipeId, UserId>):
    (claims: seq<Claim>)
    requires |ids| == |sharedIds|
    requires forall i :: 0 <= i < |firsts| ==> firsts[i].shared in sharedIds && firsts[i].recipe in recipes
    ensures |claims| == |firsts|
    ensures forall i :: 0 <= i < |claims| ==> claims[i] == ClaimOf(firsts[i], sharedIds, ids, recipes)
  {
    if firsts == [] then []
    else
      var n := |firsts| - 1;
      ClaimsOf(firsts[..n], sharedIds, ids, recipes) + [ClaimOf(firsts[n], sharedIds, ids, recipes)]
  }

  lemma {:induction false} FirstsAreLinks(links: seq<Link>)
    ensures forall i :: 0 <= i < |Firsts(links)| ==> Firsts(links)[i] in links
    ensures |Firsts(links)| <= |links|
  {
    if links != [] {
      FirstsAreLinks(links[..|links| - 1]);
    }
  }

  predicate LinksFit(links: seq<Link>, sharedIds: seq<SharedId>, recipes: map<RecipeId, UserId>) {
    forall i :: 0 <= i < |links| ==> links[i].shared in sharedIds && links[i].recipe in recipes
  }

  /** What the first links claim: each linked recipe is seen, the winners' claims are
      made, and every other link is contested. */
  ghost predicate Claimed(links: seq<Link>, names: seq<SharedId>, ids: seq<CookbookId>,
                          recipes: map<RecipeId, UserId>, seen: set<RecipeId>, claims: seq<Claim>, contested: nat)
    requires |ids| == |names|
  {
    && (forall r :: r in seen <==> Mentions(links, r))
    && LinksFit(Firsts(links), names, recipes)
    && claims == ClaimsOf(Firsts(links), names, ids, recipes)
    && |claims| + contested == |links|
  }

  /** The recipes of the first links and of one more. */
  lemma SeenNext(links: seq<Link>, link: Link, seen: set<RecipeId>)
    requires forall r :: r in seen <==> Mentions(links, r)
    ensures forall r :: r in seen + {link.recipe} <==> Mentions(links + [link], r)
  {
    forall r
      ensures Mentions(links + [link], r) <==> Mentions(links, r) || link.recipe == r
    {
      MentionsSnoc(links, link, r);
    }
  }

  lemma FirstsSnoc(links: seq<Link>, link: Link)
    ensures Firsts(links + [link]) == if Mentions(links, link.recipe) then Firsts(links) else Firsts(links) + [link]
  {
    assert (links + [link])[..|links|] == links;
  }

  lemma ClaimsSnoc(firsts: seq<Link>, link: Link, names: seq<SharedId>, ids: seq<CookbookId>,
                   recipes: map<RecipeId, UserId>)
    requires |ids| == |names| && LinksFit(firsts, names, recipes) && link.shared in names && link.recipe in recipes
    ensures LinksFit(firsts + [link], names, recipes)
    ensures ClaimsOf(firsts + [link], names, ids, recipes) ==
            ClaimsOf(firsts, names, ids, recipes) + [ClaimOf(link, names, ids, recipes)]
  {
    assert (firsts + [link])[..|firsts|] == firsts;
  }

  /** A link of a recipe seen before is contested. */
  lemma ContestedNext(links: seq<Link>, link: Link, names: seq<SharedId>, ids: seq<CookbookId>,
                      recipes: map<RecipeId, UserId>, seen: set<RecipeId>, claims: seq<Claim>, contested: nat)
    requires |ids| == |names| && Claimed(links, names, ids, recipes, seen, claims, contested)
    requires link.recipe in seen
    ensures Claimed(links + [link], names, ids, recipes, seen, claims, contested + 1)
  {
    FirstsSnoc(links, link);
    SeenNext(links, link, seen);
    assert seen + {link.recipe} == seen;
  }

  /** And any other link wins its recipe. */
  lemma ClaimedNext(links: seq<Link>, link: Link, names: seq<SharedId>, ids: seq<CookbookId>,
                    recipes: map<RecipeId, UserId>, seen: set<RecipeId>, claims: seq<Claim>, contested: nat)
    requires |ids| == |names| && Claimed(links, names, ids, recipes, seen, claims, contested)
    requires link.recipe !in seen && link.shared in names && link.recipe in recipes
    ensures Claimed(links + [link], names, ids, recipes, seen + {link.recipe},
                    claims + [ClaimOf(link, names, ids, recipes)], contested)
  {
    FirstsSnoc(links, link);
    ClaimsSnoc(Firsts(links), link, names, ids, recipes);
    SeenNext(links, link, seen);
  }

  /** Claims each linked recipe once; claims and contested links make up all links. */
  method ClaimShared(links: seq<Link>, sharedIds: seq<SharedId>, ids: seq<CookbookId>, recipes: map<RecipeId, UserId>)
    returns (claims: seq<Claim>, contested: nat)
    requires |ids| == |sharedIds| && LinksFit(links, sharedIds, recipes)
    ensures LinksFit(Firsts(links), sharedIds, recipes)
    ensures claims == ClaimsOf(Firsts(links), sharedIds, ids, recipes)
    ensures |claims| + contested == |links|
  {
    var seen: set<RecipeId> := {};
    claims, contested := [], 0;
    ghost var done: seq<Link> := [];
    for i := 0 to |links|
      invariant done == links[..i]
      invariant Claimed(done, sharedIds, ids, recipes, seen, claims, contested)
    {
      var link := links[i];
      if link.recipe in seen {
        ContestedNext(done, link, sharedIds, ids, recipes, seen, claims, contested);
        contested := contested + 1;
      } else {
        ClaimedNext(done, link, sharedIds, ids, recipes, seen, claims, contested);
        seen := seen + {link.recipe};
        claims := claims + [ClaimOf(link, sharedIds, ids, recipes)];
      }
      done := done + [link];
    }
    assert done == links;
  }

  // ---------------------------------------------------------------------------
  // Member rows: carried over, plus the owner of each claimed recipe
  // ---------------------------------------------------------------------------

  predicate HasKey(rows: seq<Row>, cookbook: CookbookId, user: UserId) {
    exists i :: 0 <= i < |rows| && rows[i].cookbook == cookbook && rows[i].user == user
  }

  /** The candidate joins the rows unless it is of the owner or its person is already there. */
  predicate Joins(rows: seq<Row>, cookbooks: map<CookbookId, Cookbook>, row: Row) {
    && !(row.cookbook in cookbooks && cookbooks[row.cookbook].owner == row.user)
    && !HasKey(rows, row.cookbook, row.user)
  }

  /** The candidates that become rows. */
  function Kept(candidates: seq<Row>, cookbooks: map<CookbookId, Cookbook>): seq<Row> {
    if candidates == [] then []
    else
      var n := |candidates| - 1;
      var earlier := Kept(candidates[..n], cookbooks);
      if Joins(earlier, cookbooks, candidates[n]) then earlier + [candidates[n]] else earlier
  }

  lemma HasKeySnoc(rows: seq<Row>, last: Row, cookbook: CookbookId, user: UserId)
    ensures HasKey(rows + [last], cookbook, user) <==>
            HasKey(rows, cookbook, user) || (last.cookbook == cookbook && last.user == user)
  {
    var all := rows + [last];
    if HasKey(rows, cookbook, user) {
      var i :| 0 <= i < |rows| && rows[i].cookbook == cookbook && rows[i].user == user;
      assert all[i] == rows[i];
    }
    if last.cookbook == cookbook && last.user == user {
      assert all[|rows|] == last;
    }
  }

  predicate Owned(cookbooks: map<CookbookId, Cookbook>, cookbook: CookbookId, user: UserId) {
    cookbook in cookbooks && cookbooks[cookbook].owner == user
  }

  /** Rows have distinct cookbook and user, never of the owner; and they have exactly
      the keys of the other candidates. */
  lemma {:induction false} KeptKeys(candidates: seq<Row>, cookbooks: map<CookbookId, Cookbook>)
    ensures forall i, k :: 0 <= i < k < |Kept(candidates, cookbooks)| ==>
              Kept(candidates, cookbooks)[i].cookbook != Kept(candidates, cookbooks)[k].cookbook
              || Kept(candidates, cookbooks)[i].user != Kept(candidates, cookbooks)[k].user
    ensures forall c, u :: HasKey(Kept(candidates, cookbooks), c, u) <==>
              HasKey(candidates, c, u) && !Owned(cookbooks, c, u)
  {
    if candidates != [] {
      var n := |candidates| - 1;
      KeptKeys(candidates[..n], cookbooks);
      var earlier := Kept(candidates[..n], cookbooks);
      forall c, u
        ensures HasKey(Kept(candidates, cookbooks), c, u) <==> HasKey(candidates, c, u) && !Owned(cookbooks, c, u)
      {
        HasKeySnoc(candidates[..n], candidates[n], c, u);
        HasKeySnoc(earlier, candidates[n], c, u);
        assert candidates[..n] + [candidates[n]] == candidates;
      }
      assert forall i :: 0 <= i < n && i < |earlier| ==> HasKey(earlier, earlier[i].cookbook, earlier[i].user);
    }
  }

  /** A row is the first candidate with its key. */
  lemma {:induction false} KeptIsFirst(candidates: seq<Row>, cookbooks: map<CookbookId, Cookbook>, row: Row)
    returns (i: nat)
    requires row in Kept(candidates, cookbooks)
    ensures i < |candidates| && candidates[i] == row
    ensures !HasKey(candidates[..i], row.cookbook, row.user)
  {
    var n := |candidates| - 1;
    var earlier := Kept(candidates[..n], cookbooks);
    if row in earlier {
      i := KeptIsFirst(candidates[..n], cookbooks, row);
      assert candidates[..n][..i] == candidates[..i];
    } else {
      i := n;
      KeptKeys(candidates[..n], cookbooks);
    }
  }

  ghost predicate AreKeys(seen: set<(CookbookId, UserId)>, rows: seq<Row>) {
    forall c: CookbookId, u: UserId :: (c, u) in seen <==> HasKey(rows, c, u)
  }

  lemma KeptSnoc(candidates: seq<Row>, cookbooks: map<CookbookId, Cookbook>, row: Row)
    ensures var earlier := Kept(candidates, cookbooks);
            Kept(candidates + [row], cookbooks) == if Joins(earlier, cookbooks, row) then earlier + [row] else earlier
  {
    assert (candidates + [row])[..|candidates|] == candidates;
  }

  /** Adds the candidate if it joins, remembering that it is there. */
  method AddOne(row: Row, cookbooks: map<CookbookId, Cookbook>, rows: seq<Row>, seen: set<(CookbookId, UserId)>)
    returns (rows': seq<Row>, seen': set<(CookbookId, UserId)>, added: bool)
    requires AreKeys(seen, rows)
    ensures added == Joins(rows, cookbooks, row)
    ensures rows' == if added then rows + [row] else rows
    ensures AreKeys(seen', rows')
  {
    rows', seen' := rows, seen;
    added := !Owned(cookbooks, row.cookbook, row.user) && (row.cookbook, row.user) !in seen;
    if added {
      forall c: CookbookId, u: UserId
        ensures HasKey(rows + [row], c, u) <==> HasKey(rows, c, u) || (row.cookbook == c && row.user == u)
      {
        HasKeySnoc(rows, row, c, u);
      }
      seen' := seen + {(row.cookbook, row.user)};
      rows' := rows + [row];
    }
  }

  lemma ConcatPrefix<T>(a: seq<T>, b: seq<T>, i: nat)
    requires i < |b|
    ensures a + b[..i + 1] == a + b[..i] + [b[i]]
  {
  }

  /** Adds each candidate that joins. */
  method AddEach(before: seq<Row>, more: seq<Row>, cookbooks: map<CookbookId, Cookbook>, rows: seq<Row>,
                 seen: set<(CookbookId, UserId)>)
    returns (rows': seq<Row>, seen': set<(CookbookId, UserId)>, added: nat)
    requires rows == Kept(before, cookbooks) && AreKeys(seen, rows)
    ensures rows' == Kept(before + more, cookbooks) && AreKeys(seen', rows')
    ensures added == |rows'| - |rows|
  {
    rows', seen', added := rows, seen, 0;
    assert before + more[..0] == before;
    for i := 0 to |more|
      invariant rows' == Kept(before + more[..i], cookbooks) && AreKeys(seen', rows')
      invariant added == |rows'| - |rows|
    {
      ConcatPrefix(before, more, i);
      KeptSnoc(before + more[..i], cookbooks, more[i]);
      var joined;
      rows', seen', joined := AddOne(more[i], cookbooks, rows', seen');
      if joined {
        added := added + 1;
      }
    }
    assert more[..|more|] == more;
  }

  /** The shared members of the cookbooks, but for each creator's own row. */
  function Carried(members: seq<SharedMember>, shared: seq<Shared>, ids: seq<CookbookId>): seq<Row>
    requires |ids| == |shared|
    requires forall i :: 0 <= i < |members| ==> members[i].shared in SharedIds(shared)
  {
    if members == [] then []
    else
      var n := |members| - 1;
      var earlier := Carried(members[..n], shared, ids);
      var at := IndexOf(SharedIds(shared), members[n].shared);
      if members[n].user == shared[at].creator then earlier
      else earlier + [Row(ids[at], members[n].user, members[n].addedBy)]
  }

  predicate ClaimsExist(claims: seq<Claim>, cookbooks: map<CookbookId, Cookbook>) {
    forall i :: 0 <= i < |claims| ==> claims[i].cookbook in cookbooks
  }

  /** A row for the owner of each claimed recipe, added by the cookbook's owner. */
  function Synthesized(claims: seq<Claim>, cookbooks: map<CookbookId, Cookbook>): (rows: seq<Row>)
    requires ClaimsExist(claims, cookbooks)
    ensures |rows| == |claims|
    ensures forall i :: 0 <= i < |claims| ==>
              rows[i] == Row(claims[i].cookbook, claims[i].owner, Some(cookbooks[claims[i].cookbook].owner))
  {
    if claims == [] then []
    else
      var last := claims[|claims| - 1];
      Synthesized(claims[..|claims| - 1], cookbooks)
      + [Row(last.cookbook, last.owner, Some(cookbooks[last.cookbook].owner))]
  }

  method BuildMemberRows(members: seq<SharedMember>, shared: seq<Shared>, ids: seq<CookbookId>,
                         cookbooks: map<CookbookId, Cookbook>, claims: seq<Claim>)
    returns (rows: seq<Row>, synthesized: nat)
    requires |ids| == |shared|
    requires forall i :: 0 <= i < |members| ==> members[i].shared in SharedIds(shared)
    requires ClaimsExist(claims, cookbooks)
    ensures rows == Kept(Carried(members, shared, ids) + Synthesized(claims, cookbooks), cookbooks)
    ensures synthesized == |rows| - |Kept(Carried(members, shared, ids), cookbooks)|
  {
    var carried, added: nat, seen: set<(CookbookId, UserId)> := Carried(members, shared, ids), 0, {};
    assert [] + carried == carried;
    rows, seen, added := AddEach([], carried, cookbooks, [], seen);
    rows, seen, synthesized := AddEach(carried, Synthesized(claims, cookbooks), cookbooks, rows, seen);
  }

  lemma HasKeyIn(rows: seq<Row>, row: Row)
    requires row in rows
    ensures HasKey(rows, row.cookbook, row.user)
  {
    var i :| 0 <= i < |rows| && rows[i] == row;
  }

  lemma KeyBefore(rows: seq<Row>, at: nat, i: nat)
    requires at < i <= |rows|
    ensures HasKey(rows[..i], rows[at].cookbook, rows[at].user)
  {
    assert rows[..i][at] == rows[at];
  }

  /** A real row wins over a synthesized one: the kept row of a carried member is
      the carried row itself, with who really added them. */
  lemma RealRowsWin(carried: seq<Row>, synthesized: seq<Row>, cookbooks: map<CookbookId, Cookbook>, row: Row)
    requires forall i, k :: 0 <= i < k < |carried| ==>
               carried[i].cookbook != carried[k].cookbook || carried[i].user != carried[k].user
    requires row in carried && !Owned(cookbooks, row.cookbook, row.user)
    ensures row in Kept(carried + synthesized, cookbooks)
  {
    var all := carried + synthesized;
    HasKeyIn(all, row);
    KeptKeys(all, cookbooks);
    var k :| 0 <= k < |Kept(all, cookbooks)|
      && Kept(all, cookbooks)[k].cookbook == row.cookbook && Kept(all, cookbooks)[k].user == row.user;
    var kept := Kept(all, cookbooks)[k];
    var i := KeptIsFirst(all, cookbooks, kept);
    var at :| 0 <= at < |carried| && carried[at] == row;
    if at < i {
      KeyBefore(all, at, i);
    }
  }

  // ---------------------------------------------------------------------------
  // The whole migration
  // ---------------------------------------------------------------------------

  /** Where each claimed recipe goes. */
  function ClaimedHomes(claims: seq<Claim>): map<RecipeId, CookbookId> {
    if claims == [] then map[]
    else ClaimedHomes(claims[..|claims| - 1])[claims[|claims| - 1].recipe := claims[|claims| - 1].cookbook]
  }

  lemma {:induction false} ClaimedHomesAre(claims: seq<Claim>)
    requires forall i, k :: 0 <= i < k < |claims| ==> claims[i].recipe != claims[k].recipe
    ensures forall i :: 0 <= i < |claims| ==>
              claims[i].recipe in ClaimedHomes(claims) && ClaimedHomes(claims)[claims[i].recipe] == claims[i].cookbook
    ensures forall r :: r in ClaimedHomes(claims) ==> exists i :: 0 <= i < |claims| && claims[i].recipe == r
  {
    if claims != [] {
      ClaimedHomesAre(claims[..|claims| - 1]);
    }
  }

  lemma {:induction false} SharedIdsAre(shared: seq<Shared>)
    ensures forall i :: 0 <= i < |shared| ==>
              SharedIds(shared)[i] == shared[i].id && Creators(shared)[i] == shared[i].creator
  {
    if shared != [] {
      SharedIdsAre(shared[..|shared| - 1]);
    }
  }

  /** The random ids of the migration: distinct, one per user and shared cookbook. */
  ghost predicate FreshIds(legacy: Legacy, defaultIds: seq<CookbookId>, sharedIds: seq<CookbookId>) {
    |defaultIds| == |legacy.users| && |sharedIds| == |legacy.shared| && Distinct(defaultIds + sharedIds)
  }

  /** The default cookbooks and the ones made of shared cookbooks. */
  function PivotCookbooks(users: seq<UserId>, defaultIds: seq<CookbookId>, creators: seq<UserId>,
                          sharedIds: seq<CookbookId>):
    map<CookbookId, Cookbook>
    requires |defaultIds| == |users| && |sharedIds| == |creators|
  {
    AddCookbooks(AddCookbooks(map[], users, defaultIds, true), creators, sharedIds, false)
  }

  lemma PivotCookbooksAre(users: seq<UserId>, defaultIds: seq<CookbookId>, creators: seq<UserId>,
                          sharedIds: seq<CookbookId>)
    requires |defaultIds| == |users| && |sharedIds| == |creators| && Distinct(defaultIds + sharedIds)
    ensures var cookbooks := PivotCookbooks(users, defaultIds, creators, sharedIds);
            && (forall i :: 0 <= i < |sharedIds| ==>
                  sharedIds[i] in cookbooks && cookbooks[sharedIds[i]] == Cookbook(creators[i], false))
            && (forall i :: 0 <= i < |defaultIds| ==>
                  defaultIds[i] in cookbooks && cookbooks[defaultIds[i]] == Cookbook(users[i], true))
            && (forall c :: c in cookbooks ==> c in defaultIds || c in sharedIds)
  {
    var all := defaultIds + sharedIds;
    assert forall i :: 0 <= i < |defaultIds| ==> all[i] == defaultIds[i];
    assert forall i :: 0 <= i < |sharedIds| ==> all[|defaultIds| + i] == sharedIds[i];
    AddCookbooksAre(map[], users, defaultIds, true);
    AddCookbooksAre(AddCookbooks(map[], users, defaultIds, true), creators, sharedIds, false);
  }

  lemma FirstsFit(links: seq<Link>, sharedIds: seq<SharedId>, recipes: map<RecipeId, UserId>)
    requires LinksFit(links, sharedIds, recipes)
    ensures LinksFit(Firsts(links), sharedIds, recipes)
  {
    FirstsAreLinks(links);
  }

  /** The claims of the migration. */
  ghost function AllClaims(links: seq<Link>, names: seq<SharedId>, ids: seq<CookbookId>,
                           recipes: map<RecipeId, UserId>):
    seq<Claim>
    requires |ids| == |names| && LinksFit(links, names, recipes)
  {
    FirstsFit(links, names, recipes);
    ClaimsOf(Firsts(links), names, ids, recipes)
  }

  /** Where a recipe goes: to the cookbook that claimed it, or to its owner's default. */
  ghost predicate Settles(claims: seq<Claim>, users: seq<UserId>, defaultIds: seq<CookbookId>,
                          recipes: map<RecipeId, UserId>, home: map<RecipeId, CookbookId>)
    requires |defaultIds| == |users| && forall r :: r in recipes ==> recipes[r] in users
  {
    && home.Keys == recipes.Keys
    && forall r :: r in recipes ==>
         home[r] ==
         if r in ClaimedHomes(claims) then ClaimedHomes(claims)[r] else defaultIds[IndexOf(users, recipes[r])]
  }

  /** The new tables. */
  ghost predicate PivotsTo(legacy: Legacy, defaultIds: seq<CookbookId>, sharedIds: seq<CookbookId>, w: World)
    requires WellFormed(legacy) && |defaultIds| == |legacy.users| && |sharedIds| == |legacy.shared|
  {
    var claims := AllClaims(legacy.links, SharedIds(legacy.shared), sharedIds, legacy.recipes);
    && w.recipes == legacy.recipes
    && w.cookbooks == PivotCookbooks(legacy.users, defaultIds, Creators(legacy.shared), sharedIds)
    && ClaimsExist(claims, w.cookbooks)
    && w.rows == Kept(Carried(legacy.members, legacy.shared, sharedIds) + Synthesized(claims, w.cookbooks), w.cookbooks)
    && Settles(claims, legacy.users, defaultIds, legacy.recipes, w.home)
  }

  lemma AllClaimsExist(links: seq<Link>, names: seq<SharedId>, ids: seq<CookbookId>, recipes: map<RecipeId, UserId>,
                       cookbooks: map<CookbookId, Cookbook>)
    requires |ids| == |names| && LinksFit(links, names, recipes)
    requires forall i :: 0 <= i < |ids| ==> ids[i] in cookbooks
    ensures ClaimsExist(AllClaims(links, names, ids, recipes), cookbooks)
  {
  }

  method AssignRemaining(claims: seq<Claim>, users: seq<UserId>, defaultIds: seq<CookbookId>,
                         recipes: map<RecipeId, UserId>)
    returns (home: map<RecipeId, CookbookId>)
    requires |defaultIds| == |users| && forall r :: r in recipes ==> recipes[r] in users
    requires forall r :: r in ClaimedHomes(claims) ==> r in recipes
    ensures Settles(claims, users, defaultIds, recipes, home)
  {
    var claimed := ClaimedHomes(claims);
    home := map r | r in recipes :: if r in claimed then claimed[r] else defaultIds[IndexOf(users, recipes[r])];
  }

  /** One claim for each of some links of different recipes. */
  lemma ClaimedLikeLinks(claims: seq<Claim>, firsts: seq<Link>)
    requires |claims| == |firsts| && forall i :: 0 <= i < |claims| ==> claims[i].recipe == firsts[i].recipe
    requires forall i, k :: 0 <= i < k < |firsts| ==> firsts[i].recipe != firsts[k].recipe
    ensures forall r :: r in ClaimedHomes(claims) <==> Mentions(firsts, r)
    ensures forall i :: 0 <= i < |claims| ==>
              claims[i].recipe in ClaimedHomes(claims) && ClaimedHomes(claims)[claims[i].recipe] == claims[i].cookbook
    ensures forall r :: r in ClaimedHomes(claims) ==> exists i :: 0 <= i < |claims| && claims[i].recipe == r
  {
    ClaimedHomesAre(claims);
  }

  lemma AllClaimsAre(links: seq<Link>, names: seq<SharedId>, ids: seq<CookbookId>, recipes: map<RecipeId, UserId>)
    requires |ids| == |names| && LinksFit(links, names, recipes)
    ensures var claims := AllClaims(links, names, ids, recipes);
            && (forall r :: r in ClaimedHomes(claims) ==> r in recipes)
            && (forall r :: r in ClaimedHomes(claims) <==> Mentions(links, r))
            && (forall i :: 0 <= i < |claims| ==>
                  claims[i].recipe in ClaimedHomes(claims)
                    && ClaimedHomes(claims)[claims[i].recipe] == claims[i].cookbook)
            && (forall r :: r in ClaimedHomes(claims) ==> exists i :: 0 <= i < |claims| && claims[i].recipe == r)
  {
    FirstsFit(links, names, recipes);
    FirstsAre(links);
    ClaimedLikeLinks(AllClaims(links, names, ids, recipes), Firsts(links));
  }

  /** Runs the migration: defaults, shared cookbooks, claims, members, and the rest
      into the owners' defaults. */
  method Pivot(legacy: Legacy, defaultIds: seq<CookbookId>, sharedIds: seq<CookbookId>) returns (w: World)
    requires WellFormed(legacy) && FreshIds(legacy, defaultIds, sharedIds)
    ensures PivotsTo(legacy, defaultIds, sharedIds, w)
  {
    var names, creators := SharedIds(legacy.shared), Creators(legacy.shared);
    var defaults := InsertCookbooks(map[], legacy.users, defaultIds, true);
    var cookbooks := InsertCookbooks(defaults, creators, sharedIds, false);
    PivotCookbooksAre(legacy.users, defaultIds, creators, sharedIds);
    AllClaimsExist(legacy.links, names, sharedIds, legacy.recipes, cookbooks);
    AllClaimsAre(legacy.links, names, sharedIds, legacy.recipes);
    var claims, _ := ClaimShared(legacy.links, names, sharedIds, legacy.recipes);
    var rows, _ := BuildMemberRows(legacy.members, legacy.shared, sharedIds, cookbooks, claims);
    var home := AssignRemaining(claims, legacy.users, defaultIds, legacy.recipes);
    w := World(legacy.recipes, cookbooks, rows, home);
  }

  /** A recipe is in a cookbook its owner owns or has an editor row in. */
  ghost predicate OwnerReaches(w: World, r: RecipeId) {
    && r in w.recipes && r in w.home && w.home[r] in w.cookbooks
    && (w.cookbooks[w.home[r]].owner == w.recipes[r] || HasKey(w.rows, w.home[r], w.recipes[r]))
  }

  lemma SynthesizedRow(carried: seq<Row>, claims: seq<Claim>, cookbooks: map<CookbookId, Cookbook>, i: nat)
    requires ClaimsExist(claims, cookbooks) && i < |claims|
    ensures cookbooks[claims[i].cookbook].owner == claims[i].owner
            || HasKey(Kept(carried + Synthesized(claims, cookbooks), cookbooks), claims[i].cookbook, claims[i].owner)
  {
    var all := carried + Synthesized(claims, cookbooks);
    assert all[|carried| + i].cookbook == claims[i].cookbook && all[|carried| + i].user == claims[i].owner;
    assert HasKey(all, claims[i].cookbook, claims[i].owner);
    KeptKeys(all, cookbooks);
  }

  /** The owner of a claimed recipe owns its cookbook or has a row in it. */
  lemma ClaimReachesOwner(links: seq<Link>, names: seq<SharedId>, ids: seq<CookbookId>, recipes: map<RecipeId, UserId>,
                          carried: seq<Row>, cookbooks: map<CookbookId, Cookbook>, r: RecipeId)
    requires |ids| == |names| && LinksFit(links, names, recipes)
    requires forall i :: 0 <= i < |ids| ==> ids[i] in cookbooks
    requires r in recipes && r in ClaimedHomes(AllClaims(links, names, ids, recipes))
    ensures var claims := AllClaims(links, names, ids, recipes);
            var c := ClaimedHomes(claims)[r];
            && ClaimsExist(claims, cookbooks)
            && c in cookbooks
            && (|| cookbooks[c].owner == recipes[r]
                || HasKey(Kept(carried + Synthesized(claims, cookbooks), cookbooks), c, recipes[r]))
  {
    var claims := AllClaims(links, names, ids, recipes);
    AllClaimsAre(links, names, ids, recipes);
    AllClaimsExist(links, names, ids, recipes, cookbooks);
    FirstsFit(links, names, recipes);
    var i :| 0 <= i < |claims| && claims[i].recipe == r;
    assert claims[i] == ClaimOf(Firsts(links)[i], names, ids, recipes);
    SynthesizedRow(carried, claims, cookbooks, i);
  }

  /** After the pivot every recipe is in a cookbook, and in one that its own owner
      owns or edits. */
  lemma PivotKeepsOwnersAccess(legacy: Legacy, defaultIds: seq<CookbookId>, sharedIds: seq<CookbookId>, w: World,
                               r: RecipeId)
    requires WellFormed(legacy) && FreshIds(legacy, defaultIds, sharedIds)
    requires PivotsTo(legacy, defaultIds, sharedIds, w) && r in legacy.recipes
    ensures OwnerReaches(w, r)
  {
    var names := SharedIds(legacy.shared);
    PivotCookbooksAre(legacy.users, defaultIds, Creators(legacy.shared), sharedIds);
    if r in ClaimedHomes(AllClaims(legacy.links, names, sharedIds, legacy.recipes)) {
      ClaimReachesOwner(legacy.links, names, sharedIds, legacy.recipes,
                        Carried(legacy.members, legacy.shared, sharedIds), w.cookbooks, r);
    }
  }

  predicate CreatedBefore(a: Shared, b: Shared) {
    a.createdAt < b.createdAt || (a.createdAt == b.createdAt && a.id < b.id)
  }

  /** The shared cookbook at position `k` holds `r`, and any other that does was created
      later, or at the same time with a larger id. */
  ghost predicate OldestHolder(shared: seq<Shared>, links: seq<Link>, k: nat, r: RecipeId) {
    && k < |shared|
    && Link(shared[k].id, r) in links
    && forall i :: 0 <= i < |shared| && i != k && Link(shared[i].id, r) in links ==> CreatedBefore(shared[k], shared[i])
  }

  lemma SamePosition(shared: seq<Shared>, i: nat, k: nat)
    requires Distinct(SharedIds(shared)) && i < |shared| && k < |shared| && shared[i].id == shared[k].id
    ensures i == k
  {
    SharedIdsAre(shared);
    assert SharedIds(shared)[i] == SharedIds(shared)[k];
  }

  lemma OlderByPosition(shared: seq<Shared>, k: nat, i: nat)
    requires Distinct(SharedIds(shared)) && i < |shared| && k < |shared| && Older(shared, shared[k].id, shared[i].id)
    ensures CreatedBefore(shared[k], shared[i])
  {
    var a, b := OlderPositions(shared, shared[k].id, shared[i].id);
    SamePosition(shared, a, k);
    SamePosition(shared, b, i);
  }

  lemma OlderPositions(shared: seq<Shared>, a: SharedId, b: SharedId) returns (i: nat, k: nat)
    requires Older(shared, a, b)
    ensures i < |shared| && k < |shared| && shared[i].id == a && shared[k].id == b
    ensures CreatedBefore(shared[i], shared[k])
  {
    i, k :| 0 <= i < |shared| && 0 <= k < |shared| && shared[i].id == a && shared[k].id == b
      && (shared[i].createdAt < shared[k].createdAt || (shared[i].createdAt == shared[k].createdAt && a < b));
  }

  /** The link that wins a recipe comes from its oldest holder. */
  lemma FirstIsOldest(shared: seq<Shared>, links: seq<Link>, f: Link)
    requires Distinct(SharedIds(shared))
    requires InLinkOrder(shared, links) && f in Firsts(links) && f.shared in SharedIds(shared)
    ensures OldestHolder(shared, links, IndexOf(SharedIds(shared), f.shared), f.recipe)
  {
    var k := IndexOf(SharedIds(shared), f.shared);
    FirstsAreLinks(links);
    SharedIdsAre(shared);
    forall i | 0 <= i < |shared| && i != k && Link(shared[i].id, f.recipe) in links
      ensures CreatedBefore(shared[k], shared[i])
    {
      OldestWins(shared, links, f, Link(shared[i].id, f.recipe));
      if f.shared == shared[i].id {
        SamePosition(shared, i, k);
      } else {
        OlderByPosition(shared, k, i);
      }
    }
  }

  /** A linked recipe is where the link that won it took it. */
  lemma ClaimedByFirst(names: seq<SharedId>, links: seq<Link>, ids: seq<CookbookId>, recipes: map<RecipeId, UserId>,
                       r: RecipeId)
    returns (f: Link)
    requires |ids| == |names| && LinksFit(links, names, recipes) && Mentions(links, r)
    ensures f in Firsts(links) && f.recipe == r && f.shared in names
    ensures var homes := ClaimedHomes(AllClaims(links, names, ids, recipes));
            r in homes && homes[r] == ids[IndexOf(names, f.shared)]
  {
    var claims, firsts := AllClaims(links, names, ids, recipes), Firsts(links);
    FirstsFit(links, names, recipes);
    AllClaimsAre(links, names, ids, recipes);
    var i :| 0 <= i < |claims| && claims[i].recipe == r;
    assert claims[i] == ClaimOf(firsts[i], names, ids, recipes);
    f := firsts[i];
  }

  /** A claimed recipe goes where its oldest shared cookbook went. */
  lemma ClaimedByOldest(shared: seq<Shared>, links: seq<Link>, ids: seq<CookbookId>, recipes: map<RecipeId, UserId>,
                        r: RecipeId)
    returns (k: nat)
    requires |ids| == |shared| && LinksFit(links, SharedIds(shared), recipes) && InLinkOrder(shared, links)
    requires Distinct(SharedIds(shared)) && Mentions(links, r)
    ensures OldestHolder(shared, links, k, r)
    ensures var homes := ClaimedHomes(AllClaims(links, SharedIds(shared), ids, recipes));
            r in homes && homes[r] == ids[k]
  {
    var f := ClaimedByFirst(SharedIds(shared), links, ids, recipes, r);
    FirstIsOldest(shared, links, f);
    k := IndexOf(SharedIds(shared), f.shared);
  }

  /** A recipe that was shared is in the cookbook made of the oldest shared cookbook
      that held it, and any other in its owner's default. */
  ghost predicate PlacedByAge(legacy: Legacy, sharedIds: seq<CookbookId>, w: World, r: RecipeId) {
    && r in legacy.recipes && r in w.home
    && (Mentions(legacy.links, r) ==>
          exists k: nat :: OldestHolder(legacy.shared, legacy.links, k, r) && k < |sharedIds|
            && w.home[r] == sharedIds[k])
    && (!Mentions(legacy.links, r) ==>
          w.home[r] in w.cookbooks && w.cookbooks[w.home[r]] == Cookbook(legacy.recipes[r], true))
  }

  lemma PivotPlaces(legacy: Legacy, defaultIds: seq<CookbookId>, sharedIds: seq<CookbookId>, w: World, r: RecipeId)
    requires WellFormed(legacy) && FreshIds(legacy, defaultIds, sharedIds)
    requires PivotsTo(legacy, defaultIds, sharedIds, w) && r in legacy.recipes
    ensures PlacedByAge(legacy, sharedIds, w, r)
  {
    PivotCookbooksAre(legacy.users, defaultIds, Creators(legacy.shared), sharedIds);
    AllClaimsAre(legacy.links, SharedIds(legacy.shared), sharedIds, legacy.recipes);
    if Mentions(legacy.links, r) {
      var k := ClaimedByOldest(legacy.shared, legacy.links, sharedIds, legacy.recipes, r);
    }
  }

  predicate MembersFit(members: seq<SharedMember>, shared: seq<Shared>) {
    && (forall i :: 0 <= i < |members| ==> members[i].shared in SharedIds(shared))
    && (forall i, k :: 0 <= i < k < |members| ==>
          members[i].shared != members[k].shared || members[i].user != members[k].user)
  }

  /** The row a member carries over. */
  function RowOf(member: SharedMember, shared: seq<Shared>, ids: seq<CookbookId>): Row
    requires |ids| == |shared| && member.shared in SharedIds(shared)
  {
    Row(ids[IndexOf(SharedIds(shared), member.shared)], member.user, member.addedBy)
  }

  lemma RowsOfMembersDiffer(a: SharedMember, b: SharedMember, shared: seq<Shared>, ids: seq<CookbookId>)
    requires |ids| == |shared| && Distinct(ids)
    requires a.shared in SharedIds(shared) && b.shared in SharedIds(shared)
               && (a.shared != b.shared || a.user != b.user)
    ensures RowOf(a, shared, ids).cookbook != RowOf(b, shared, ids).cookbook
              || RowOf(a, shared, ids).user != RowOf(b, shared, ids).user
  {
    var i, k := IndexOf(SharedIds(shared), a.shared), IndexOf(SharedIds(shared), b.shared);
    if i == k {
      assert a.shared == b.shared;
    }
  }

  /** The carried rows are the rows of the members that are not creators. */
  lemma {:induction false} CarriedAre(members: seq<SharedMember>, shared: seq<Shared>, ids: seq<CookbookId>)
    requires |ids| == |shared| && Distinct(ids) && MembersFit(members, shared)
    ensures forall m :: m in members && m.user != shared[IndexOf(SharedIds(shared), m.shared)].creator ==>
              RowOf(m, shared, ids) in Carried(members, shared, ids)
    ensures forall row :: row in Carried(members, shared, ids) ==>
              exists m :: m in members && row == RowOf(m, shared, ids)
    ensures forall i, k :: 0 <= i < k < |Carried(members, shared, ids)| ==>
              Carried(members, shared, ids)[i].cookbook != Carried(members, shared, ids)[k].cookbook
              || Carried(members, shared, ids)[i].user != Carried(members, shared, ids)[k].user
  {
    if members != [] {
      var n := |members| - 1;
      CarriedAre(members[..n], shared, ids);
      var earlier := Carried(members[..n], shared, ids);
      forall row | row in earlier
        ensures row.cookbook != RowOf(members[n], shared, ids).cookbook
                  || row.user != RowOf(members[n], shared, ids).user
      {
        var m :| m in members[..n] && row == RowOf(m, shared, ids);
        RowsOfMembersDiffer(m, members[n], shared, ids);
      }
      forall row | row in Carried(members, shared, ids)
        ensures exists m :: m in members && row == RowOf(m, shared, ids)
      {
        if row in earlier {
          var m :| m in members[..n] && row == RowOf(m, shared, ids);
          assert m in members;
        } else {
          assert members[n] in members;
        }
      }
    }
  }

  /** Every shared member but a creator stays an editor, with the same record of who
      added them, though a row was also wanted for them as a recipe's owner. */
  lemma MembersStayEditors(legacy: Legacy, defaultIds: seq<CookbookId>, sharedIds: seq<CookbookId>, w: World,
                           member: SharedMember)
    requires WellFormed(legacy) && FreshIds(legacy, defaultIds, sharedIds)
    requires PivotsTo(legacy, defaultIds, sharedIds, w) && member in legacy.members
    ensures var k := IndexOf(SharedIds(legacy.shared), member.shared);
            member.user != legacy.shared[k].creator ==> Row(sharedIds[k], member.user, member.addedBy) in w.rows
  {
    var k := IndexOf(SharedIds(legacy.shared), member.shared);
    DistinctSuffix(defaultIds, sharedIds);
    CarriedAre(legacy.members, legacy.shared, sharedIds);
    PivotCookbooksAre(legacy.users, defaultIds, Creators(legacy.shared), sharedIds);
    SharedIdsAre(legacy.shared);
    if member.user != legacy.shared[k].creator {
      var claims := AllClaims(legacy.links, SharedIds(legacy.shared), sharedIds, legacy.recipes);
      RealRowsWin(Carried(legacy.members, legacy.shared, sharedIds), Synthesized(claims, w.cookbooks), w.cookbooks,
                  RowOf(member, legacy.shared, sharedIds));
    }
  }

  lemma DistinctSuffix<T>(a: seq<T>, b: seq<T>)
    requires Distinct(a + b)
    ensures Distinct(b)
  {
    forall i, k | 0 <= i < k < |b|
      ensures b[i] != b[k]
    {
      assert (a + b)[|a| + i] == b[i] && (a + b)[|a| + k] == b[k];
    }
  }

  /** No cookbook has two rows for one person, or a row for its own owner. */
  lemma RowsAreProper(legacy: Legacy, defaultIds: seq<CookbookId>, sharedIds: seq<CookbookId>, w: World, i: nat, k: nat)
    requires WellFormed(legacy) && FreshIds(legacy, defaultIds, sharedIds)
    requires PivotsTo(legacy, defaultIds, sharedIds, w) && i < |w.rows|
    ensures !Owned(w.cookbooks, w.rows[i].cookbook, w.rows[i].user)
    ensures i < k < |w.rows| ==> w.rows[i].cookbook != w.rows[k].cookbook || w.rows[i].user != w.rows[k].user
  {
    var claims := AllClaims(legacy.links, SharedIds(legacy.shared), sharedIds, legacy.recipes);
    KeptKeys(Carried(legacy.members, legacy.shared, sharedIds) + Synthesized(claims, w.cookbooks), w.cookbooks);
    assert HasKey(w.rows, w.rows[i].cookbook, w.rows[i].user);
  }

  /** Every user gets a default cookbook, every shared cookbook becomes one of its
      creator that is no default, and there are no others. */
  lemma PivotMakes(legacy: Legacy, defaultIds: seq<CookbookId>, sharedIds: seq<CookbookId>, w: World, c: CookbookId)
    requires WellFormed(legacy) && FreshIds(legacy, defaultIds, sharedIds)
    requires PivotsTo(legacy, defaultIds, sharedIds, w)
    ensures c in w.cookbooks <==> c in defaultIds || c in sharedIds
    ensures forall i :: 0 <= i < |defaultIds| && defaultIds[i] == c ==>
              c in w.cookbooks && w.cookbooks[c] == Cookbook(legacy.users[i], true)
    ensures forall k :: 0 <= k < |sharedIds| && sharedIds[k] == c ==>
              c in w.cookbooks && w.cookbooks[c] == Cookbook(legacy.shared[k].creator, false)
  {
    PivotCookbooksAre(legacy.users, defaultIds, Creators(legacy.shared), sharedIds);
    SharedIdsAre(legacy.shared);
  }

  /** The row is of a member of the shared cookbook that became this one. */
  ghost predicate IsMembersRow(legacy: Legacy, sharedIds: seq<CookbookId>, row: Row) {
    exists m, k: nat ::
      && m in legacy.members && k < |sharedIds| && k < |legacy.shared|
      && legacy.shared[k].id == m.shared && row.cookbook == sharedIds[k]
      && row.user == m.user && row.addedBy == m.addedBy
  }

  /** The row lets the owner of a recipe that went there edit, and counts as added by
      the owner of the cookbook. */
  ghost predicate IsRecipeOwnersRow(w: World, row: Row) {
    exists r ::
      && r in w.recipes && r in w.home && w.recipes[r] == row.user && w.home[r] == row.cookbook
      && row.cookbook in w.cookbooks && row.addedBy == Some(w.cookbooks[row.cookbook].owner)
  }

  /** There are no other rows. */
  lemma RowsComeFrom(legacy: Legacy, defaultIds: seq<CookbookId>, sharedIds: seq<CookbookId>, w: World, row: Row)
    requires WellFormed(legacy) && FreshIds(legacy, defaultIds, sharedIds)
    requires PivotsTo(legacy, defaultIds, sharedIds, w) && row in w.rows
    ensures IsMembersRow(legacy, sharedIds, row) || IsRecipeOwnersRow(w, row)
  {
    var names := SharedIds(legacy.shared);
    var claims := AllClaims(legacy.links, names, sharedIds, legacy.recipes);
    var carried, synthesized := Carried(legacy.members, legacy.shared, sharedIds), Synthesized(claims, w.cookbooks);
    var at := KeptIsFirst(carried + synthesized, w.cookbooks, row);
    if at < |carried| {
      assert row in carried;
      MembersRow(legacy, defaultIds, sharedIds, row);
    } else {
      var k := at - |carried|;
      AllClaimsAre(legacy.links, names, sharedIds, legacy.recipes);
      ClaimIs(legacy.links, names, sharedIds, legacy.recipes, k);
      assert w.home[claims[k].recipe] == claims[k].cookbook;
    }
  }

  lemma ClaimIs(links: seq<Link>, names: seq<SharedId>, ids: seq<CookbookId>, recipes: map<RecipeId, UserId>, k: nat)
    requires |ids| == |names| && LinksFit(links, names, recipes)
    requires k < |AllClaims(links, names, ids, recipes)|
    ensures var claim := AllClaims(links, names, ids, recipes)[k];
            claim.recipe in recipes && claim.owner == recipes[claim.recipe]
  {
    FirstsFit(links, names, recipes);
  }

  lemma MembersRow(legacy: Legacy, defaultIds: seq<CookbookId>, sharedIds: seq<CookbookId>, row: Row)
    requires WellFormed(legacy) && FreshIds(legacy, defaultIds, sharedIds)
    requires row in Carried(legacy.members, legacy.shared, sharedIds)
    ensures IsMembersRow(legacy, sharedIds, row)
  {
    DistinctSuffix(defaultIds, sharedIds);
    CarriedAre(legacy.members, legacy.shared, sharedIds);
    SharedIdsAre(legacy.shared);
    var m :| m in legacy.members && row == RowOf(m, legacy.shared, sharedIds);
    var k := IndexOf(SharedIds(legacy.shared), m.shared);
    assert legacy.shared[k].id == m.shared;
  }
}
