/**
 Users, organizations, memberships and invitations, and the repository calls on them.  A
 call that a constraint of the schema rejects gives None.  Accounts are those of the email
 provider, by their provider_account_id.

 `founders`, `ever`, `born`, `joins` and `acceptors` are history: who created each
 organization, every membership row ever inserted, every invitation as it was inserted,
 the memberships that were created from an invitation, and who each invitation was last
 marked accepted for.
 */
module Tenants {
  import opened Wrappers

  type UserId = nat
  type OrgId = nat
  type InvId = nat
  type Token = nat

  datatype Role = Admin | Member
  datatype InvStatus = Pending | Accepted | Expired | Cancelled

  datatype Org = Org(name: string, slug: string)

  datatype Invitation = Invitation(
    org: OrgId, email: string, role: Role, token: Token, status: InvStatus, invitedBy: UserId, expiresAt: int,
    createdAt: int)

  datatype Join = Join(inv: InvId, user: UserId, org: OrgId)

  datatype Db = Db(
    users: map<UserId, string>,
    orgs: map<OrgId, Org>,
    members: map<(UserId, OrgId), Role>,
    invs: map<InvId, Invitation>,
    accounts: map<string, UserId>,
    founders: map<OrgId, UserId>,
    ever: map<(UserId, OrgId), Role>,
    born: map<InvId, Invitation>,
    joins: seq<Join>,
    acceptors: map<InvId, UserId>)

  const EMPTY := Db(map[], map[], map[], map[], map[], map[], map[], map[], [], map[])

  // Inserts, checked against the constraints of the schema

  function InsertUser(db: Db, u: UserId, email: string): Option<Db> {
    if u in db.users || (exists v :: v in db.users && db.users[v] == email) then None
    else Some(db.(users := db.users[u := email]))
  }

  /** The account's provider_account_id is the user's email. */
  function InsertAccount(db: Db, u: UserId): Option<Db> {
    if u !in db.users || db.users[u] in db.accounts then None
    else Some(db.(accounts := db.accounts[db.users[u] := u]))
  }

  function InsertOrg(db: Db, o: OrgId, org: Org, founder: UserId): Option<Db> {
    if o in db.founders || (exists p :: p in db.orgs && db.orgs[p].slug == org.slug) then None
    else Some(db.(orgs := db.orgs[o := org], founders := db.founders[o := founder]))
  }

  function InsertMember(db: Db, u: UserId, o: OrgId, role: Role): Option<Db> {
    if u !in db.users || o !in db.orgs || (u, o) in db.members then None
    else Some(db.(members := db.members[(u, o) := role], ever := db.ever[(u, o) := role]))
  }

  /** The membership insert of an accepting handler, with its history. */
  function InsertJoin(db: Db, i: InvId, u: UserId, inv: Invitation): Option<Db> {
    match InsertMember(db, u, inv.org, inv.role)
    case None => None
    case Some(d) => Some(d.(joins := d.joins + [Join(i, u, inv.org)]))
  }

  predicate InvitationFits(db: Db, inv: Invitation) {
    && inv.org in db.orgs
    && inv.invitedBy in db.users
    && forall j :: j in db.invs ==> db.invs[j].token != inv.token && !(db.invs[j].org == inv.org && db.invs[j].email == inv.email)
  }

  function InsertInvitation(db: Db, i: InvId, inv: Invitation): Option<Db> {
    if i in db.born || !InvitationFits(db, inv) then None
    else Some(db.(invs := db.invs[i := inv], born := db.born[i := inv]))
  }

  // Updates and deletes; a missing row changes nothing

  function SetStatus(db: Db, i: InvId, st: InvStatus): Db {
    if i in db.invs then db.(invs := db.invs[i := db.invs[i].(status := st)]) else db
  }

  function SetAccepted(db: Db, i: InvId, u: UserId): Db {
    if i in db.invs then SetStatus(db, i, Accepted).(acceptors := db.acceptors[i := u]) else db
  }

  function DeleteInvitation(db: Db, i: InvId): Db {
    db.(invs := db.invs - {i})
  }

  /** Removes the organization and, by cascade, its memberships and invitations. */
  function DeleteOrg(db: Db, o: OrgId): Db {
    db.(orgs := db.orgs - {o},
        members := map k | k in db.members && k.1 != o :: db.members[k],
        invs := map i | i in db.invs && db.invs[i].org != o :: db.invs[i])
  }

  // Lookups

  ghost function UserByEmail(db: Db, email: string): Option<UserId> {
    if u :| u in db.users && db.users[u] == email then Some(u) else None
  }

  ghost function InvByToken(db: Db, token: Token): Option<InvId> {
    if i :| i in db.invs && db.invs[i].token == token then Some(i) else None
  }

  ghost function InvByOrgAndEmail(db: Db, o: OrgId, email: string): Option<InvId> {
    if i :| i in db.invs && db.invs[i].org == o && db.invs[i].email == email then Some(i) else None
  }

  // What every call keeps

  /** An invitation row differs from the inserted one in its status alone. */
  predicate SameInvitation(a: Invitation, b: Invitation) {
    a == b.(status := a.status)
  }

  /** The unique and foreign keys of the schema. */
  ghost predicate Keyed(db: Db) {
    && (forall u, v :: u in db.users && v in db.users && db.users[u] == db.users[v] ==> u == v)
    && (forall u, o :: (u, o) in db.members ==> u in db.users && o in db.orgs)
    && (forall i :: i in db.invs ==> db.invs[i].org in db.orgs)
    && (forall i, j :: i in db.invs && j in db.invs && db.invs[i].token == db.invs[j].token ==> i == j)
    && (forall i, j :: i in db.invs && j in db.invs && db.invs[i].org == db.invs[j].org && db.invs[i].email == db.invs[j].email ==> i == j)
  }

  /** Rows come from inserts, and a membership lasts as long as its organization. */
  ghost predicate Recorded(db: Db) {
    && db.orgs.Keys <= db.founders.Keys
    && (forall i :: i in db.invs ==> i in db.born && SameInvitation(db.invs[i], db.born[i]))
    && (forall u, o :: (u, o) in db.ever ==> u in db.users && o in db.founders)
    && (forall u, o :: (u, o) in db.ever && o in db.orgs ==> (u, o) in db.members)
    && (forall u, o :: (u, o) in db.members ==> (u, o) in db.ever && db.members[(u, o)] == db.ever[(u, o)])
  }

  /** `u` was made a member of `o` from invitation `i`. */
  predicate Explains(db: Db, i: InvId, u: UserId, o: OrgId) {
    && i in db.born && (u, o) in db.ever && u in db.users
    && db.born[i].org == o && db.born[i].email == db.users[u] && db.born[i].role == db.ever[(u, o)]
    && WasAdmin(db, db.born[i].invitedBy, o)
  }

  predicate WasAdmin(db: Db, u: UserId, o: OrgId) {
    (u, o) in db.ever && db.ever[(u, o)] == Admin
  }

  predicate Founded(db: Db, u: UserId, o: OrgId) {
    o in db.founders && db.founders[o] == u && WasAdmin(db, u, o)
  }

  ghost predicate Traced(db: Db) {
    && (forall i :: i in db.born ==> WasAdmin(db, db.born[i].invitedBy, db.born[i].org))
    && (forall u, o :: (u, o) in db.ever ==> Founded(db, u, o) || exists i :: Explains(db, i, u, o))
    && (forall u, o :: (u, o) in db.ever ==> o in db.founders && Founded(db, db.founders[o], o))
  }

  ghost predicate Joined(db: Db) {
    && (forall a :: 0 <= a < |db.joins| ==> Explains(db, db.joins[a].inv, db.joins[a].user, db.joins[a].org))
    && (forall a, b :: 0 <= a < b < |db.joins| ==> db.joins[a].inv != db.joins[b].inv)
  }

  ghost predicate AcceptedByMembers(db: Db) {
    forall i :: i in db.invs && db.invs[i].status == Accepted ==>
      && i in db.acceptors && db.acceptors[i] in db.users
      && db.users[db.acceptors[i]] == db.invs[i].email
      && (db.acceptors[i], db.invs[i].org) in db.members
  }

  /** No two organizations share a slug, and an account is that of the user with its email. */
  ghost predicate Unique(db: Db) {
    && (forall o, p :: o in db.orgs && p in db.orgs && db.orgs[o].slug == db.orgs[p].slug ==> o == p)
    && (forall e :: e in db.accounts ==> db.accounts[e] in db.users && db.users[db.accounts[e]] == e)
  }

  ghost predicate Consistent(db: Db) {
    Keyed(db) && Recorded(db) && Traced(db) && Joined(db) && AcceptedByMembers(db) && Unique(db)
  }

  /** History only grows. */
  ghost predicate Grows(db: Db, d: Db) {
    && (forall u :: u in db.users ==> u in d.users && d.users[u] == db.users[u])
    && (forall o :: o in db.founders ==> o in d.founders && d.founders[o] == db.founders[o])
    && (forall k :: k in db.ever ==> k in d.ever && d.ever[k] == db.ever[k])
    && (forall i :: i in db.born ==> i in d.born && d.born[i] == db.born[i])
  }

  /** What the history needs of the new entries of a call. */
  lemma HistoryGrows(db: Db, d: Db)
    requires Traced(db) && Joined(db) && Grows(db, d) && d.joins == db.joins
    requires forall i :: i in d.born && i !in db.born ==> WasAdmin(d, d.born[i].invitedBy, d.born[i].org)
    requires forall u, o :: (u, o) in d.ever && (u, o) !in db.ever ==> Founded(d, u, o)
    ensures Traced(d) && Joined(d)
  {
    forall u, o | (u, o) in d.ever && !Founded(d, u, o) ensures exists i :: Explains(d, i, u, o) {
      ExplainedStays(db, d, u, o);
    }
    forall u, o | (u, o) in d.ever ensures o in d.founders && Founded(d, d.founders[o], o) {
      if (u, o) in db.ever { assert Founded(db, db.founders[o], o); }
    }
  }

  lemma ExplainedStays(db: Db, d: Db, u: UserId, o: OrgId)
    requires Traced(db) && Grows(db, d) && (u, o) in db.ever && !Founded(d, u, o)
    ensures exists i :: Explains(d, i, u, o)
  {
    assert !Founded(db, u, o);
    var i :| Explains(db, i, u, o);
    assert Explains(d, i, u, o);
  }

  lemma UserKeepsRows(db: Db, u: UserId, email: string)
    requires Keyed(db) && Recorded(db) && AcceptedByMembers(db) && InsertUser(db, u, email).Some?
    ensures var d := InsertUser(db, u, email).value; Keyed(d) && Recorded(d) && AcceptedByMembers(d) && Grows(db, d)
  {
  }

  lemma InsertUserKeeps(db: Db, u: UserId, email: string)
    requires Consistent(db) && InsertUser(db, u, email).Some?
    ensures var d := InsertUser(db, u, email).value; Consistent(d) && Grows(db, d)
  {
    UserKeepsRows(db, u, email);
    HistoryGrows(db, InsertUser(db, u, email).value);
  }

  /** The accounts matter to nothing else. */
  lemma InsertAccountKeeps(db: Db, u: UserId)
    requires Consistent(db) && InsertAccount(db, u).Some?
    ensures var d := InsertAccount(db, u).value; Consistent(d) && Grows(db, d)
  {
    AccountKeepsRows(db, u);
    HistoryGrows(db, InsertAccount(db, u).value);
  }

  lemma AccountKeepsRows(db: Db, u: UserId)
    requires Keyed(db) && Recorded(db) && AcceptedByMembers(db) && Unique(db) && InsertAccount(db, u).Some?
    ensures var d := InsertAccount(db, u).value;
      Keyed(d) && Recorded(d) && AcceptedByMembers(d) && Unique(d) && Grows(db, d)
  {
  }

  lemma OrgKeepsRows(db: Db, o: OrgId, org: Org, founder: UserId)
    requires Keyed(db) && Recorded(db) && AcceptedByMembers(db) && InsertOrg(db, o, org, founder).Some?
    ensures var d := InsertOrg(db, o, org, founder).value; Keyed(d) && Recorded(d) && AcceptedByMembers(d) && Grows(db, d)
  {
  }

  lemma InsertOrgKeeps(db: Db, o: OrgId, org: Org, founder: UserId)
    requires Consistent(db) && InsertOrg(db, o, org, founder).Some?
    ensures var d := InsertOrg(db, o, org, founder).value; Consistent(d) && Grows(db, d)
  {
    OrgKeepsRows(db, o, org, founder);
    HistoryGrows(db, InsertOrg(db, o, org, founder).value);
  }

  lemma StatusKeepsKeys(db: Db, i: InvId, st: InvStatus)
    requires Keyed(db) && i in db.invs
    ensures Keyed(SetStatus(db, i, st))
  {
    var d := SetStatus(db, i, st);
    forall j | j in d.invs ensures SameInvitation(d.invs[j], db.invs[j]) {}
  }

  lemma StatusKeepsRecord(db: Db, i: InvId, st: InvStatus)
    requires Recorded(db) && i in db.invs
    ensures Recorded(SetStatus(db, i, st)) && Grows(db, SetStatus(db, i, st))
  {
  }

  lemma SetStatusKeeps(db: Db, i: InvId, st: InvStatus)
    requires Consistent(db) && st != Accepted
    ensures Consistent(SetStatus(db, i, st)) && Grows(db, SetStatus(db, i, st))
  {
    if i in db.invs {
      var d := SetStatus(db, i, st);
      assert Keyed(d) by { StatusKeepsKeys(db, i, st); }
      assert Recorded(d) && Grows(db, d) by { StatusKeepsRecord(db, i, st); }
      assert Traced(d) && Joined(d) by { HistoryGrows(db, d); }
      StatusKeepsAccepted(db, i, st);
    }
  }

  lemma StatusKeepsAccepted(db: Db, i: InvId, st: InvStatus)
    requires AcceptedByMembers(db) && i in db.invs && st != Accepted
    ensures AcceptedByMembers(SetStatus(db, i, st))
  {
  }

  lemma SetAcceptedKeeps(db: Db, i: InvId, u: UserId)
    requires Consistent(db)
    requires i in db.invs ==> u in db.users && db.users[u] == db.invs[i].email && (u, db.invs[i].org) in db.members
    ensures Consistent(SetAccepted(db, i, u)) && Grows(db, SetAccepted(db, i, u))
  {
    if i in db.invs {
      var d := SetStatus(db, i, Accepted);
      StatusKeepsKeys(db, i, Accepted);
      StatusKeepsRecord(db, i, Accepted);
      HistoryGrows(db, d);
      AcceptedFor(db, i, u);
      AcceptorOnly(d, db.acceptors[i := u]);
    }
  }

  lemma AcceptedFor(db: Db, i: InvId, u: UserId)
    requires AcceptedByMembers(db) && i in db.invs
    requires u in db.users && db.users[u] == db.invs[i].email && (u, db.invs[i].org) in db.members
    ensures AcceptedByMembers(SetAccepted(db, i, u))
  {
  }

  /** Who an invitation was accepted for matters to nothing else. */
  lemma AcceptorOnly(d: Db, acceptors: map<InvId, UserId>)
    requires Keyed(d) && Recorded(d) && Traced(d) && Joined(d)
    ensures var e := d.(acceptors := acceptors); Keyed(e) && Recorded(e) && Traced(e) && Joined(e) && Grows(d, e)
  {
    var e := d.(acceptors := acceptors);
    HistoryGrows(d, e);
  }

  lemma DeleteKeepsRows(db: Db, i: InvId)
    requires Keyed(db) && Recorded(db) && AcceptedByMembers(db)
    ensures var d := DeleteInvitation(db, i); Keyed(d) && Recorded(d) && AcceptedByMembers(d) && Grows(db, d)
  {
  }

  lemma DeleteInvitationKeeps(db: Db, i: InvId)
    requires Consistent(db)
    ensures Consistent(DeleteInvitation(db, i)) && Grows(db, DeleteInvitation(db, i))
  {
    DeleteKeepsRows(db, i);
    HistoryGrows(db, DeleteInvitation(db, i));
  }

  lemma DeleteOrgKeeps(db: Db, o: OrgId)
    requires Consistent(db)
    ensures Consistent(DeleteOrg(db, o)) && Grows(db, DeleteOrg(db, o))
  {
    var d := DeleteOrg(db, o);
    assert Keyed(d) by { CascadeKeepsKeys(db, o); }
    assert Recorded(d) && AcceptedByMembers(d) by { CascadeKeepsRows(db, o); }
    HistoryGrows(db, d);
  }

  lemma CascadeKeepsKeys(db: Db, o: OrgId)
    requires Keyed(db)
    ensures Keyed(DeleteOrg(db, o))
  {
  }

  lemma CascadeKeepsRows(db: Db, o: OrgId)
    requires Keyed(db) && Recorded(db) && AcceptedByMembers(db)
    ensures Recorded(DeleteOrg(db, o)) && AcceptedByMembers(DeleteOrg(db, o))
  {
  }

  lemma InsertInvitationKeeps(db: Db, i: InvId, inv: Invitation)
    requires Consistent(db) && InsertInvitation(db, i, inv).Some?
    requires WasAdmin(db, inv.invitedBy, inv.org) && inv.status == Pending
    ensures var d := InsertInvitation(db, i, inv).value; Consistent(d) && Grows(db, d)
  {
    var d := InsertInvitation(db, i, inv).value;
    assert Keyed(d) by { InvitationKeepsKeys(db, i, inv); }
    assert Recorded(d) && AcceptedByMembers(d) && Grows(db, d) by { InvitationKeepsRows(db, i, inv); }
    HistoryGrows(db, d);
  }

  lemma InvitationKeepsKeys(db: Db, i: InvId, inv: Invitation)
    requires Keyed(db) && InsertInvitation(db, i, inv).Some?
    ensures Keyed(InsertInvitation(db, i, inv).value)
  {
  }

  lemma InvitationKeepsRows(db: Db, i: InvId, inv: Invitation)
    requires Recorded(db) && AcceptedByMembers(db) && InsertInvitation(db, i, inv).Some? && inv.status == Pending
    ensures var d := InsertInvitation(db, i, inv).value; Recorded(d) && AcceptedByMembers(d) && Grows(db, d)
  {
  }

  lemma MemberKeepsRows(db: Db, u: UserId, o: OrgId, role: Role)
    requires Keyed(db) && Recorded(db) && AcceptedByMembers(db) && InsertMember(db, u, o, role).Some?
    ensures var d := InsertMember(db, u, o, role).value;
      Keyed(d) && Recorded(d) && AcceptedByMembers(d) && Grows(db, d) && (u, o) !in db.ever
  {
  }

  lemma FounderKeeps(db: Db, u: UserId, o: OrgId)
    requires Consistent(db) && InsertMember(db, u, o, Admin).Some? && o in db.founders && db.founders[o] == u
    ensures var d := InsertMember(db, u, o, Admin).value; Consistent(d) && Grows(db, d)
  {
    MemberKeepsRows(db, u, o, Admin);
    HistoryGrows(db, InsertMember(db, u, o, Admin).value);
  }

  lemma MembershipTraced(db: Db, i: InvId, u: UserId, inv: Invitation)
    requires Traced(db) && Joined(db) && Recorded(db) && Keyed(db) && InsertMember(db, u, inv.org, inv.role).Some?
    requires i in db.born && SameInvitation(inv, db.born[i]) && u in db.users && db.users[u] == inv.email
    requires Grows(db, InsertMember(db, u, inv.org, inv.role).value) && (u, inv.org) !in db.ever
    ensures var d := InsertMember(db, u, inv.org, inv.role).value;
      Traced(d) && Joined(d.(joins := d.joins + [Join(i, u, inv.org)]))
  {
    var d := InsertMember(db, u, inv.org, inv.role).value;
    JoinTraced(db, d, i, u, inv.org);
    JoinDistinct(db, d, i, u, inv.org);
  }

  /** Only one user has the invitation's email, and that user cannot be inserted twice. */
  lemma JoinKeeps(db: Db, i: InvId, u: UserId, inv: Invitation)
    requires Consistent(db) && InsertJoin(db, i, u, inv).Some?
    requires i in db.born && SameInvitation(inv, db.born[i]) && u in db.users && db.users[u] == inv.email
    ensures var d := InsertJoin(db, i, u, inv).value; Consistent(d) && Grows(db, d)
  {
    MemberKeepsRows(db, u, inv.org, inv.role);
    MembershipTraced(db, i, u, inv);
    var d := InsertMember(db, u, inv.org, inv.role).value;
    JoinRows(d, d.joins + [Join(i, u, inv.org)]);
  }

  lemma JoinTraced(db: Db, d: Db, i: InvId, u: UserId, o: OrgId)
    requires Traced(db) && Grows(db, d) && d.born == db.born
    requires d.ever.Keys == db.ever.Keys + {(u, o)} && (u, o) !in db.ever
    requires i in db.born && u in d.users && db.born[i].org == o && db.born[i].email == d.users[u] && db.born[i].role == d.ever[(u, o)]
    ensures Traced(d) && Explains(d, i, u, o)
  {
    assert WasAdmin(db, db.born[i].invitedBy, o);
    assert Explains(d, i, u, o);
    forall v, p | (v, p) in d.ever && !Founded(d, v, p) ensures exists j :: Explains(d, j, v, p) {
      if (v, p) != (u, o) { ExplainedStays(db, d, v, p); }
    }
    forall v, p | (v, p) in d.ever ensures p in d.founders && Founded(d, d.founders[p], p) {
      var x := if (v, p) == (u, o) then db.born[i].invitedBy else v;
      assert (x, p) in db.ever;
      assert Founded(db, db.founders[p], p);
    }
  }

  lemma JoinDistinct(db: Db, d: Db, i: InvId, u: UserId, o: OrgId)
    requires Keyed(db) && Joined(db) && Grows(db, d) && d.joins == db.joins
    requires (u, o) !in db.ever && u in db.users && Explains(d, i, u, o) && d.born == db.born && d.users == db.users
    ensures Joined(d.(joins := d.joins + [Join(i, u, o)]))
  {
    forall a | 0 <= a < |db.joins| ensures db.joins[a].inv != i && Explains(d, db.joins[a].inv, db.joins[a].user, db.joins[a].org) {
      assert Explains(db, db.joins[a].inv, db.joins[a].user, db.joins[a].org);
    }
    var e := d.(joins := d.joins + [Join(i, u, o)]);
    assert forall j, v, p :: Explains(d, j, v, p) ==> Explains(e, j, v, p);
  }

  /** The list of joins matters to nothing else. */
  lemma JoinRows(d: Db, joins: seq<Join>)
    requires Keyed(d) && Recorded(d) && Traced(d) && AcceptedByMembers(d)
    ensures var e := d.(joins := joins); Keyed(e) && Recorded(e) && Traced(e) && AcceptedByMembers(e) && Grows(d, e)
  {
    JoinsTraced(d, joins);
  }

  lemma JoinsTraced(d: Db, joins: seq<Join>)
    requires Traced(d)
    ensures Traced(d.(joins := joins))
  {
    var e := d.(joins := joins);
    forall u, o | (u, o) in e.ever && !Founded(e, u, o) ensures exists i :: Explains(e, i, u, o) {
      ExplainedStays(d, e, u, o);
    }
    forall u, o | (u, o) in e.ever ensures o in e.founders && Founded(e, e.founders[o], o) {
      assert Founded(d, d.founders[o], o);
    }
  }
}
