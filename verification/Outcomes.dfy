/**
 What each request does to the tables and what it answers, case by case, when no other request
 comes in between.  Everything is said in terms of the tables themselves.
 */
module Outcomes {
  import opened Wrappers
  import opened Tenants
  import opened Handlers
  import opened AtomicHandlers

  /** The tables without the history. */
  predicate TablesAre(d: Db, users: map<UserId, string>, accounts: map<string, UserId>, orgs: map<OrgId, Org>,
                      members: map<(UserId, OrgId), Role>, invs: map<InvId, Invitation>)
  {
    d.users == users && d.accounts == accounts && d.orgs == orgs && d.members == members && d.invs == invs
  }

  // Registration and organizations

  ghost predicate EmailTaken(db: Db, email: string) {
    exists v :: v in db.users && db.users[v] == email
  }

  ghost predicate SlugTaken(db: Db, slug: string) {
    exists p :: p in db.orgs && db.orgs[p].slug == slug
  }

  /** From the organization insert on, for a user that is there. */
  lemma OrgInserted(db: Db, user: UserId, org: Org, x: Draws)
    requires Keyed(db) && user in db.users && x.org !in db.founders && x.org !in db.orgs && !SlugTaken(db, org.slug)
    ensures var d := InsertOrg(db, x.org, org, user).value;
      && InsertOrg(db, x.org, org, user).Some?
      && var o := Finish(d, Founding(user, x.org), x);
         o.reply == Done
         && TablesAre(o.db, db.users, db.accounts, db.orgs[x.org := org], db.members[(user, x.org) := Admin], db.invs)
  {
    TurnsDrop(InsertOrg(db, x.org, org, user).value, Founding(user, x.org), x);
  }

  lemma AfterUser(db: Db, email: string, org: Org, x: Draws)
    requires !EmailTaken(db, email) && x.user !in db.users
    ensures var d := db.(users := db.users[x.user := email]);
      Handle(db, Register(email, org), x) == Finish(d, Registered(x.user, org), x)
  {
  }

  lemma AfterAccount(d: Db, user: UserId, org: Org, x: Draws)
    requires user in d.users
    ensures Finish(d, Registered(user, org), x) ==
      if d.users[user] in d.accounts then Outcome(d, Rejected)
      else Finish(d.(accounts := d.accounts[d.users[user] := user]), AccountMade(user, org), x)
  {
    TurnsDrop(d, Registered(user, org), x);
  }

  lemma AfterAccountMade(d: Db, user: UserId, org: Org, x: Draws)
    requires x.org !in d.founders
    ensures Finish(d, AccountMade(user, org), x) ==
      if SlugTaken(d, org.slug) then Outcome(d, Rejected)
      else Finish(InsertOrg(d, x.org, org, user).value, Founding(user, x.org), x)
  {
    TurnsDrop(d, AccountMade(user, org), x);
  }

  lemma KeyedWith(db: Db, u: UserId, email: string)
    requires Keyed(db) && !EmailTaken(db, email) && u !in db.users
    ensures Keyed(db.(users := db.users[u := email], accounts := db.accounts[email := u]))
  {
  }

  /** A registration adds a user, an account, an organization and an admin, if the email and the
      slug are free.  With the slug taken the user and the account stay behind. */
  lemma RegisterOutcome(db: Db, email: string, org: Org, x: Draws)
    requires Consistent(db) && x.user !in db.users && x.org !in db.founders
    ensures var o := Handle(db, Register(email, org), x);
      var users, accounts := db.users[x.user := email], db.accounts[email := x.user];
      if EmailTaken(db, email) then o == Outcome(db, Rejected)
      else if SlugTaken(db, org.slug) then
        o.reply == Rejected && TablesAre(o.db, users, accounts, db.orgs, db.members, db.invs)
      else
        && o.reply == Done
        && TablesAre(o.db, users, accounts, db.orgs[x.org := org], db.members[(x.user, x.org) := Admin], db.invs)
  {
    if !EmailTaken(db, email) {
      AfterUser(db, email, org, x);
      var d := db.(users := db.users[x.user := email]);
      AfterAccount(d, x.user, org, x);
      assert email !in db.accounts;
      var e := d.(accounts := d.accounts[email := x.user]);
      AfterAccountMade(e, x.user, org, x);
      assert SlugTaken(e, org.slug) <==> SlugTaken(db, org.slug);
      if !SlugTaken(db, org.slug) {
        KeyedWith(db, x.user, email);
        OrgInserted(e, x.user, org, x);
      }
    }
  }

  /** Creating an organization adds it with its admin, if the slug is free and the user is there. */
  lemma CreateOrgOutcome(db: Db, user: UserId, org: Org, x: Draws)
    requires Consistent(db) && user in db.users && x.org !in db.founders
    ensures var o := Handle(db, CreateOrg(user, org), x);
      if SlugTaken(db, org.slug) then o == Outcome(db, Rejected)
      else
        && o.reply == Done
        && TablesAre(o.db, db.users, db.accounts, db.orgs[x.org := org], db.members[(user, x.org) := Admin], db.invs)
  {
    if !SlugTaken(db, org.slug) { OrgInserted(db, user, org, x); }
  }

  /** Who may act for an organization. */
  predicate AdminOf(db: Db, u: UserId, o: OrgId) {
    (u, o) in db.members && db.members[(u, o)] == Admin
  }

  /** An organization is deleted if and only if an admin gives its name; its members and
      invitations go with it, and no others. */
  lemma RemoveOrgOutcome(db: Db, caller: UserId, o: OrgId, name: string, x: Draws)
    requires Keyed(db)
    ensures var out := Handle(db, RemoveOrg(caller, o, name), x);
      var removed := AdminOf(db, caller, o) && db.orgs[o].name == name;
      && (out.reply == Done <==> removed)
      && (!removed ==> out.db == db && out.reply == if AdminOf(db, caller, o) then NameMismatch else AccessDenied)
      && (removed ==>
           && out.db.users == db.users && out.db.accounts == db.accounts && out.db.orgs == db.orgs - {o}
           && (forall u, p :: (u, p) in out.db.members <==> (u, p) in db.members && p != o)
           && (forall k :: k in out.db.members ==> out.db.members[k] == db.members[k])
           && (forall i :: i in out.db.invs <==> i in db.invs && db.invs[i].org != o)
           && (forall i :: i in out.db.invs ==> out.db.invs[i] == db.invs[i]))
  {
    TurnsDrop(db, Removing(o), x);
  }

  // Invitations

  /** An invitation is cancelled, whatever its status was, if and only if an admin names one of
      the own organization. */
  lemma CancelOutcome(db: Db, caller: UserId, o: OrgId, i: InvId, x: Draws)
    ensures var out := Handle(db, CancelInvitation(caller, o, i), x);
      if !AdminOf(db, caller, o) then out == Outcome(db, AccessDenied)
      else if i !in db.invs || db.invs[i].org != o then out == Outcome(db, NotFound)
      else out == Outcome(db.(invs := db.invs[i := db.invs[i].(status := Cancelled)]), Done)
  {
    TurnsDrop(db, Cancelling(i), x);
  }

  /** Taking up an invitation at its end: somebody who is a member already changes only the
      invitation. */
  ghost predicate TakesUp(db: Db, o: Outcome, user: UserId, i: InvId)
    requires i in db.invs
  {
    var inv := db.invs[i];
    var invs := db.invs[i := inv.(status := Accepted)];
    if (user, inv.org) in db.members then
      o.reply == AlreadyMember && TablesAre(o.db, db.users, db.accounts, db.orgs, db.members, invs)
    else
      o.reply == JoinedOrg(inv.role)
      && TablesAre(o.db, db.users, db.accounts, db.orgs, db.members[(user, inv.org) := inv.role], invs)
  }

  lemma CheckedTakesUp(db: Db, user: UserId, i: InvId, x: Draws)
    requires Keyed(db) && i in db.invs && user in db.users
    ensures TakesUp(db, Finish(db, Checked(user, i, db.invs[i]), x), user, i)
  {
    if (user, db.invs[i].org) in db.members {
      MemberTakesUp(db, user, i, x);
    } else {
      CheckedIsJoining(db, user, i, x);
      JoiningJoins(db, user, i, x);
    }
  }

  lemma MemberTakesUp(db: Db, user: UserId, i: InvId, x: Draws)
    requires i in db.invs && (user, db.invs[i].org) in db.members
    ensures TakesUp(db, Finish(db, Checked(user, i, db.invs[i]), x), user, i)
  {
    TurnsDrop(db, Checked(user, i, db.invs[i]), x);
    TurnsDrop(db, MarkingAccepted(user, i, db.invs[i]), x);
  }

  lemma ExpiringOutcome(db: Db, i: InvId, x: Draws)
    requires i in db.invs
    ensures Finish(db, Expiring(i), x) == Outcome(db.(invs := db.invs[i := db.invs[i].(status := Expired)]), HasExpired)
  {
    TurnsDrop(db, Expiring(i), x);
  }

  lemma FoundOutcome(db: Db, user: UserId, i: InvId, x: Draws)
    requires Keyed(db) && i in db.invs
    ensures var o := Finish(db, Found(user, i, db.invs[i]), x);
      if user !in db.users then o == Outcome(db, Rejected)
      else if db.users[user] != db.invs[i].email then o == Outcome(db, WrongEmail)
      else TakesUp(db, o, user, i)
  {
    TurnsDrop(db, Found(user, i, db.invs[i]), x);
    if user in db.users { CheckedTakesUp(db, user, i, x); }
  }

  lemma TokenFinds(db: Db, i: InvId)
    requires Keyed(db) && i in db.invs
    ensures InvByToken(db, db.invs[i].token) == Some(i)
  {
  }

  lemma AcceptFound(db: Db, user: UserId, i: InvId, x: Draws)
    requires Keyed(db) && i in db.invs
    ensures var inv, o := db.invs[i], Handle(db, AcceptInvitation(user, db.invs[i].token), x);
      if inv.status != Pending then o == Outcome(db, NoLongerValid)
      else if x.now > inv.expiresAt then o == Outcome(db.(invs := db.invs[i := inv.(status := Expired)]), HasExpired)
      else if user !in db.users then o == Outcome(db, Rejected)
      else if db.users[user] != inv.email then o == Outcome(db, WrongEmail)
      else TakesUp(db, o, user, i)
  {
    TokenFinds(db, i);
    if db.invs[i].status == Pending {
      if x.now > db.invs[i].expiresAt { ExpiringOutcome(db, i, x); } else { FoundOutcome(db, user, i, x); }
    }
  }

  /** Accepting by token, in full; a token is that of one invitation at most. */
  lemma AcceptOutcome(db: Db, user: UserId, token: Token, x: Draws)
    requires Keyed(db)
    ensures var o := Handle(db, AcceptInvitation(user, token), x);
      && ((forall i :: i in db.invs ==> db.invs[i].token != token) ==> o == Outcome(db, NotFound))
      && forall i :: i in db.invs && db.invs[i].token == token ==>
           var inv := db.invs[i];
           if inv.status != Pending then o == Outcome(db, NoLongerValid)
           else if x.now > inv.expiresAt then o == Outcome(db.(invs := db.invs[i := inv.(status := Expired)]), HasExpired)
           else if user !in db.users then o == Outcome(db, Rejected)
           else if db.users[user] != inv.email then o == Outcome(db, WrongEmail)
           else TakesUp(db, o, user, i)
  {
    if i :| i in db.invs && db.invs[i].token == token {
      AcceptFound(db, user, i, x);
    }
  }

  /** Responding to an invitation by its id, in full; declining ends in an error. */
  lemma RespondOutcome(db: Db, user: UserId, i: InvId, accept: bool, x: Draws)
    requires Keyed(db)
    ensures var o := Handle(db, Respond(user, i, accept), x);
      if user !in db.users then o == Outcome(db, Rejected)
      else if i !in db.invs then o == Outcome(db, NotFound)
      else if db.users[user] != db.invs[i].email then o == Outcome(db, WrongEmail)
      else if db.invs[i].status != Pending then o == Outcome(db, NoLongerValid)
      else if x.now > db.invs[i].expiresAt then
        o == Outcome(db.(invs := db.invs[i := db.invs[i].(status := Expired)]), HasExpired)
      else if !accept then o == Outcome(db, Rejected)
      else TakesUp(db, o, user, i)
  {
    if user in db.users {
      TurnsDrop(db, Responding(user, db.users[user], i, accept), x);
      if i in db.invs && db.users[user] == db.invs[i].email && db.invs[i].status == Pending {
        if x.now > db.invs[i].expiresAt {
          ExpiringOutcome(db, i, x);
        } else if accept {
          CheckedTakesUp(db, user, i, x);
        } else {
          TurnsDrop(db, Declining(i), x);
        }
      }
    }
  }

  /** The invitations of an organization for an email; there is one at most. */
  ghost predicate IsFor(db: Db, j: InvId, o: OrgId, email: string) {
    j in db.invs && db.invs[j].org == o && db.invs[j].email == email
  }

  ghost predicate IsMember(db: Db, email: string, o: OrgId) {
    exists u :: u in db.users && db.users[u] == email && (u, o) in db.members
  }

  ghost predicate Stands(db: Db, o: OrgId, email: string, st: InvStatus) {
    exists j :: IsFor(db, j, o, email) && db.invs[j].status == st
  }

  /** The invitations once those of an organization for an email are replaced by a new one. */
  ghost predicate Replaces(db: Db, invs: map<InvId, Invitation>, o: OrgId, email: string, i: InvId, inv: Invitation) {
    && i in invs && invs[i] == inv
    && (forall j :: j in invs && j != i <==> j in db.invs && !IsFor(db, j, o, email))
    && (forall j :: j in invs && j != i ==> invs[j] == db.invs[j])
  }

  lemma BlockedBy(db: Db, o: OrgId, email: string)
    requires Keyed(db)
    ensures Blocked(db, o, email) <==> Stands(db, o, email, Pending) || Stands(db, o, email, Accepted)
    ensures !(Stands(db, o, email, Pending) && Stands(db, o, email, Accepted))
  {
    OneByOrgAndEmail(db, o, email);
    match InvByOrgAndEmail(db, o, email)
    case None =>
    case Some(i) => assert IsFor(db, i, o, email);
  }

  lemma ClearedReplaces(db: Db, o: OrgId, email: string, i: InvId, inv: Invitation)
    requires Keyed(db) && i !in db.invs
    ensures Replaces(db, Cleared(db, o, email).invs[i := inv], o, email, i, inv)
  {
    OneByOrgAndEmail(db, o, email);
  }

  /** Inviting, in full: only an admin, nobody who is a member, no invitation that is pending or
      accepted.  The new invitation is what was asked for, for seven days, and replaces an expired
      or cancelled one; nothing else changes. */
  lemma InviteInFull(db: Db, caller: UserId, o: OrgId, email: string, role: Option<Role>, x: Draws)
    requires Keyed(db) && Recorded(db) && x.inv !in db.born && forall j :: j in db.invs ==> db.invs[j].token != x.token
    ensures var out := Handle(db, CreateInvitation(caller, o, email, role), x);
      if !AdminOf(db, caller, o) then out == Outcome(db, AccessDenied)
      else if IsMember(db, email, o) then out == Outcome(db, AlreadyMember)
      else if Stands(db, o, email, Pending) then out == Outcome(db, InvitationPending)
      else if Stands(db, o, email, Accepted) then out == Outcome(db, InvitationAccepted)
      else
        var asked := if role.Some? then role.value else Member;
        var inv := Invitation(o, email, asked, x.token, Pending, caller, x.now + 7 * 24 * 3600, x.dbNow);
        && out.reply == Done && Replaces(db, out.db.invs, o, email, x.inv, inv)
        && out.db.users == db.users && out.db.accounts == db.accounts && out.db.orgs == db.orgs && out.db.members == db.members
  {
    if AdminOf(db, caller, o) {
      AskReachesLookup(db, caller, o, email, role, x);
      assert NoMember(db, email, o) <==> !IsMember(db, email, o);
      if !IsMember(db, email, o) { LookupInFull(db, Invite(caller, o, email, role.GetOr(Member)), x); }
    }
  }

  lemma LookupInFull(db: Db, ask: Invite, x: Draws)
    requires Keyed(db) && Recorded(db) && x.inv !in db.born && TokenUnused(db, x.token)
    requires ask.caller in db.users && ask.org in db.orgs
    ensures var out := Finish(db, InviteLookup(ask), x);
      if Stands(db, ask.org, ask.email, Pending) then out == Outcome(db, InvitationPending)
      else if Stands(db, ask.org, ask.email, Accepted) then out == Outcome(db, InvitationAccepted)
      else
        var inv := Invitation(ask.org, ask.email, ask.role, x.token, Pending, ask.caller, x.now + 7 * 24 * 3600, x.dbNow);
        && out.reply == Done && Replaces(db, out.db.invs, ask.org, ask.email, x.inv, inv)
        && out.db.users == db.users && out.db.accounts == db.accounts && out.db.orgs == db.orgs && out.db.members == db.members
  {
    BlockedBy(db, ask.org, ask.email);
    ClearedFits(db, ask, x);
    LookupProposes(db, ask, x);
    ClearedReplaces(db, ask.org, ask.email, x.inv, InvitationFor(ask, x));
    ClearedRows(db, ask.org, ask.email);
    if Blocked(db, ask.org, ask.email) { BlockedReply(db, ask, x); }
  }

  lemma BlockedReply(db: Db, ask: Invite, x: Draws)
    requires Keyed(db) && Blocked(db, ask.org, ask.email)
    ensures Finish(db, InviteLookup(ask), x) ==
      Outcome(db, if Stands(db, ask.org, ask.email, Pending) then InvitationPending else InvitationAccepted)
  {
    OneByOrgAndEmail(db, ask.org, ask.email);
    var i := InvByOrgAndEmail(db, ask.org, ask.email).value;
    assert IsFor(db, i, ask.org, ask.email);
    TurnsDrop(db, InviteLookup(ask), x);
  }

  // Over every interleaving: what the stored invitations were asked for

  /** An invite was started with this email, organization and role; no role asks for a member. */
  ghost predicate WasAsked(tr: Trace, caller: UserId, o: OrgId, email: string, role: Role) {
    tr.After? && (WasAsked(tr.prev, caller, o, email, role) ||
      (tr.event.Start? && AsksFor(tr.event.request, caller, o, email, role)))
  }

  predicate AsksFor(r: Request, caller: UserId, o: OrgId, email: string, role: Role) {
    && r.CreateInvitation? && r.caller == caller && r.org == o && r.email == email
    && role == if r.role.Some? then r.role.value else Member
  }

  ghost predicate AskIsAsked(tr: Trace, ask: Invite) {
    WasAsked(tr, ask.caller, ask.org, ask.email, ask.role)
  }

  predicate IsInvite(p: Proc) {
    p.InviteMember? || p.InviteLookup? || p.InviteDeleting? || p.Inviting?
  }

  ghost predicate AllAsked(tr: Trace, s: State) {
    && (forall pid :: pid in s.procs && IsInvite(s.procs[pid]) ==> AskIsAsked(tr, s.procs[pid].ask))
    && (forall i :: i in s.db.born ==>
          var inv := s.db.born[i]; WasAsked(tr, inv.invitedBy, inv.org, inv.email, inv.role))
  }

  /** A turn passes the ask on, and inserts nothing else. */
  lemma TurnPassesAsk(db: Db, p: Proc, x: Draws)
    ensures var t := Resume(db, p, x);
      && (t.progress.More? && IsInvite(t.progress.proc) ==> IsInvite(p) && t.progress.proc.ask == p.ask)
      && forall i :: i in t.db.born && !(i in db.born && t.db.born[i] == db.born[i]) ==>
           var inv := t.db.born[i];
           && p.Inviting? && inv.invitedBy == p.ask.caller
           && inv.org == p.ask.org && inv.email == p.ask.email && inv.role == p.ask.role
  {
  }

  lemma FirstTurnAsks(db: Db, r: Request, x: Draws)
    ensures var t := Begin(db, r, x);
      && (t.progress.More? && IsInvite(t.progress.proc) ==>
            var ask := t.progress.proc.ask; AsksFor(r, ask.caller, ask.org, ask.email, ask.role))
      && t.db.born == db.born
  {
  }

  /** Every invitation ever stored is one that was asked for. */
  lemma {:induction false} AlwaysAsked(tr: Trace)
    requires Possible(tr)
    ensures AllAsked(tr, StateOf(tr))
  {
    if tr.After? {
      var s, e := StateOf(tr.prev), tr.event;
      AlwaysAsked(tr.prev);
      match e
      case Start(_, r, x) => FirstTurnAsks(s.db, r, x);
      case Continue(pid, x) => TurnPassesAsk(s.db, s.procs[pid], x);
      case _ =>
    }
  }

  /** So a member that did not found the organization has the role that an admin asked for, for
      the member's email. */
  lemma MembersWereAskedFor(tr: Trace, u: UserId, o: OrgId)
    requires Possible(tr) && (u, o) in StateOf(tr).db.members
    ensures var db := StateOf(tr).db;
      && u in db.users && o in db.founders
      && (db.founders[o] == u
          || exists caller :: WasAdmin(db, caller, o) && WasAsked(tr, caller, o, db.users[u], db.members[(u, o)]))
  {
    MembershipProvenance(tr, u, o);
    AlwaysAsked(tr);
  }
}
