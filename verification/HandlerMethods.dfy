/**
 The handlers as they are written: methods that call the repositories one after another on
 a shared store.  Each is proved to end as its turns do when nothing comes in between.
 */
module HandlerMethods {
  import opened Wrappers
  import opened Tenants
  import opened Handlers
  import opened AtomicHandlers

  class Store {
    var db: Db

    constructor ()
      ensures db == EMPTY && Keyed(db)
    {
      db := EMPTY;
    }

    /** Runs an insert; a violated constraint leaves the tables alone. */
    method Try(d: Option<Db>) returns (ok: bool)
      modifies this
      ensures ok <==> d.Some?
      ensures db == if d.Some? then d.value else old(db)
    {
      if d.Some? { db := d.value; }
      return d.Some?;
    }

    method FindUserByEmail(email: string) returns (u: Option<UserId>)
      requires Keyed(db)
      ensures u == UserByEmail(db, email)
    {
      var found := set v | v in db.users && db.users[v] == email;
      assert forall v :: v in db.users && db.users[v] == email ==> v in found;
      if found == {} { return None; }
      var v :| v in found;
      return Some(v);
    }

    method FindByToken(token: Token) returns (i: Option<InvId>)
      requires Keyed(db)
      ensures i == InvByToken(db, token)
    {
      var found := set j | j in db.invs && db.invs[j].token == token;
      assert forall j :: j in db.invs && db.invs[j].token == token ==> j in found;
      if found == {} { return None; }
      var j :| j in found;
      return Some(j);
    }

    method FindByOrgAndEmail(o: OrgId, email: string) returns (i: Option<InvId>)
      requires Keyed(db)
      ensures i == InvByOrgAndEmail(db, o, email)
    {
      var found := set j | j in db.invs && db.invs[j].org == o && db.invs[j].email == email;
      assert forall j :: j in db.invs && db.invs[j].org == o && db.invs[j].email == email ==> j in found;
      if found == {} { return None; }
      var j :| j in found;
      return Some(j);
    }

    method UpdateStatus(i: InvId, st: InvStatus)
      modifies this
      ensures db == SetStatus(old(db), i, st)
    {
      db := SetStatus(db, i, st);
    }

    /** Marks an invitation accepted; who it was accepted for is recorded as history. */
    method MarkAccepted(i: InvId, user: UserId)
      modifies this
      ensures db == SetAccepted(old(db), i, user)
    {
      db := SetAccepted(db, i, user);
    }
  }

  class AuthHandler {
    const store: Store

    constructor (store: Store)
      ensures this.store == store
    {
      this.store := store;
    }

    method Register(email: string, org: Org, x: Draws) returns (reply: Reply)
      modifies store
      ensures Outcome(store.db, reply) == Handle(old(store.db), Request.Register(email, org), x)
    {
      var ok := store.Try(InsertUser(store.db, x.user, email));
      if !ok { return Rejected; }
      TurnsDrop(store.db, Registered(x.user, org), x);
      ok := store.Try(InsertAccount(store.db, x.user));
      if !ok { return Rejected; }
      TurnsDrop(store.db, AccountMade(x.user, org), x);
      ok := store.Try(InsertOrg(store.db, x.org, org, x.user));
      if !ok { return Rejected; }
      TurnsDrop(store.db, Founding(x.user, x.org), x);
      ok := store.Try(InsertMember(store.db, x.user, x.org, Admin));
      if !ok { return Rejected; }
      return Done;
    }
  }

  class OrganizationHandler {
    const store: Store

    constructor (store: Store)
      ensures this.store == store
    {
      this.store := store;
    }

    method CreateOrg(user: UserId, org: Org, x: Draws) returns (reply: Reply)
      modifies store
      ensures Outcome(store.db, reply) == Handle(old(store.db), Request.CreateOrg(user, org), x)
    {
      var ok := store.Try(InsertOrg(store.db, x.org, org, user));
      if !ok { return Rejected; }
      TurnsDrop(store.db, Founding(user, x.org), x);
      ok := store.Try(InsertMember(store.db, user, x.org, Admin));
      if !ok { return Rejected; }
      return Done;
    }

    method DeleteOrg(caller: UserId, o: OrgId, name: string, x: Draws) returns (reply: Reply)
      modifies store
      ensures Outcome(store.db, reply) == Handle(old(store.db), RemoveOrg(caller, o, name), x)
    {
      if !IsAdmin(store.db, caller, o) { return AccessDenied; }
      if o !in store.db.orgs { return NotFound; }
      if name != store.db.orgs[o].name { return NameMismatch; }
      TurnsDrop(store.db, Removing(o), x);
      store.db := Tenants.DeleteOrg(store.db, o);
      return Done;
    }
  }

  class InvitationHandler {
    const store: Store

    constructor (store: Store)
      ensures this.store == store
    {
      this.store := store;
    }

    method CreateInvitation(caller: UserId, o: OrgId, email: string, role: Option<Role>, x: Draws) returns (reply: Reply)
      requires Keyed(store.db)
      modifies store
      ensures Outcome(store.db, reply) == Handle(old(store.db), Request.CreateInvitation(caller, o, email, role), x)
    {
      if !IsAdmin(store.db, caller, o) { return AccessDenied; }
      var ask := Invite(caller, o, email, role.GetOr(Member));
      var existingUser := store.FindUserByEmail(email);
      if existingUser.Some? {
        TurnsDrop(store.db, InviteMember(ask, existingUser.value), x);
        if (existingUser.value, o) in store.db.members { return AlreadyMember; }
      }
      reply := Propose(ask, x);
    }

    /** From the check for an existing invitation on. */
    method Propose(ask: Invite, x: Draws) returns (reply: Reply)
      requires Keyed(store.db)
      modifies store
      ensures Outcome(store.db, reply) == Finish(old(store.db), InviteLookup(ask), x)
    {
      TurnsDrop(store.db, InviteLookup(ask), x);
      var existing := store.FindByOrgAndEmail(ask.org, ask.email);
      if existing.Some? {
        match store.db.invs[existing.value].status {
          case Pending => return InvitationPending;
          case Accepted => return InvitationAccepted;
          case _ =>
            TurnsDrop(store.db, InviteDeleting(ask, existing.value), x);
            store.db := DeleteInvitation(store.db, existing.value);
        }
      }
      TurnsDrop(store.db, Inviting(ask), x);
      var ok := store.Try(InsertInvitation(store.db, x.inv, InvitationFor(ask, x)));
      if !ok { return Rejected; }
      return Done;
    }

    method CancelInvitation(caller: UserId, o: OrgId, i: InvId, x: Draws) returns (reply: Reply)
      modifies store
      ensures Outcome(store.db, reply) == Handle(old(store.db), Request.CancelInvitation(caller, o, i), x)
    {
      if !IsAdmin(store.db, caller, o) { return AccessDenied; }
      var found := i in store.db.invs && store.db.invs[i].org == o;
      if !found { return NotFound; }
      TurnsDrop(store.db, Cancelling(i), x);
      store.UpdateStatus(i, Cancelled);
      return Done;
    }

    method AcceptInvitation(user: UserId, token: Token, x: Draws) returns (reply: Reply)
      requires Keyed(store.db)
      modifies store
      ensures Outcome(store.db, reply) == Handle(old(store.db), Request.AcceptInvitation(user, token), x)
    {
      var found := store.FindByToken(token);
      if found.None? { return NotFound; }
      var i := found.value;
      var invitation := store.db.invs[i];
      if invitation.status != Pending { return NoLongerValid; }
      if x.now > invitation.expiresAt {
        reply := Expire(i, x);
        return;
      }
      TurnsDrop(store.db, Found(user, i, invitation), x);
      if user !in store.db.users { return Rejected; }
      if store.db.users[user] != invitation.email { return WrongEmail; }
      reply := Join(user, i, invitation, x);
    }

    method RespondToInvitation(user: UserId, i: InvId, accept: bool, x: Draws) returns (reply: Reply)
      modifies store
      ensures Outcome(store.db, reply) == Handle(old(store.db), Respond(user, i, accept), x)
    {
      if user !in store.db.users { return Rejected; }
      var email := store.db.users[user];
      TurnsDrop(store.db, Responding(user, email, i, accept), x);
      if i !in store.db.invs { return NotFound; }
      var invitation := store.db.invs[i];
      if email != invitation.email { return WrongEmail; }
      if invitation.status != Pending { return NoLongerValid; }
      if x.now > invitation.expiresAt {
        reply := Expire(i, x);
        return;
      }
      if !accept {
        TurnsDrop(store.db, Declining(i), x);
        return Rejected;
      }
      reply := Join(user, i, invitation, x);
    }

    method Expire(i: InvId, x: Draws) returns (reply: Reply)
      modifies store
      ensures Outcome(store.db, reply) == Finish(old(store.db), Expiring(i), x)
    {
      TurnsDrop(store.db, Expiring(i), x);
      store.UpdateStatus(i, Expired);
      return HasExpired;
    }

    /** The end that accepting by token and responding by id share. */
    method Join(user: UserId, i: InvId, invitation: Invitation, x: Draws) returns (reply: Reply)
      modifies store
      ensures Outcome(store.db, reply) == Finish(old(store.db), Checked(user, i, invitation), x)
    {
      TurnsDrop(store.db, Checked(user, i, invitation), x);
      if (user, invitation.org) in store.db.members {
        TurnsDrop(store.db, MarkingAccepted(user, i, invitation), x);
        store.MarkAccepted(i, user);
        return AlreadyMember;
      }
      TurnsDrop(store.db, Joining(user, i, invitation), x);
      var ok := store.Try(InsertJoin(store.db, i, user, invitation));
      if !ok { return Rejected; }
      TurnsDrop(store.db, Accepting(user, i, invitation), x);
      store.MarkAccepted(i, user);
      return JoinedOrg(invitation.role);
    }

    /** The pending and unexpired invitations for a user's email, each once, the newest first. */
    method GetPendingInvitations(user: UserId, now: int) returns (pending: seq<InvId>)
      ensures forall i :: i in pending <==> IsListed(store.db, user, i, now)
      ensures forall i :: i in pending <==>
        && i in store.db.invs && user in store.db.users && store.db.invs[i].email == store.db.users[user]
        && store.db.invs[i].status == Pending && store.db.invs[i].expiresAt > now
      ensures forall a, b :: 0 <= a < b < |pending| ==>
        && pending[a] != pending[b] && pending[a] in store.db.invs && pending[b] in store.db.invs
        && store.db.invs[pending[a]].createdAt >= store.db.invs[pending[b]].createdAt
    {
      pending := [];
      if user !in store.db.users { return; }
      var left := store.db.invs.Keys;
      while left != {}
        invariant left <= store.db.invs.Keys
        invariant forall i :: i in pending <==> i !in left && IsListed(store.db, user, i, now)
        invariant forall a, b :: 0 <= a < b < |pending| ==> pending[a] != pending[b] && NoOlder(store.db, pending[a], pending[b])
        invariant forall a, i :: 0 <= a < |pending| && i in left ==> NoOlder(store.db, pending[a], i)
        decreases left
      {
        var i := Newest(store.db, left);
        left := left - {i};
        var inv := store.db.invs[i];
        if inv.email == store.db.users[user] && inv.status == Pending && inv.expiresAt > now {
          pending := pending + [i];
        }
      }
    }

    static method Newest(db: Db, of: set<InvId>) returns (i: InvId)
      requires of != {} && of <= db.invs.Keys
      ensures i in of && forall j :: j in of ==> NoOlder(db, i, j)
    {
      i :| i in of;
      var rest := of - {i};
      while rest != {}
        invariant i in of && rest <= of
        invariant forall j :: j in of && j !in rest ==> NoOlder(db, i, j)
        decreases rest
      {
        var j :| j in rest;
        rest := rest - {j};
        if db.invs[j].createdAt > db.invs[i].createdAt { i := j; }
      }
    }
  }

  predicate NoOlder(db: Db, i: InvId, j: InvId) {
    i in db.invs && j in db.invs && db.invs[i].createdAt >= db.invs[j].createdAt
  }
}
