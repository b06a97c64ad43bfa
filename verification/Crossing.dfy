/**
 When a pending invitation is for somebody who is a member already.  Over every interleaving
 of the handlers, with failed looks and aborted requests, this happens in three ways and no
 other: an invite or a join crossed the other, which can be seen just before its insert, or
 the accept that created the membership has not yet marked the invitation, or never will.
 */
module Crossing {
  import opened Tenants
  import opened Handlers
  import opened AtomicHandlers

  predicate Pends(db: Db, i: InvId) {
    i in db.invs && db.invs[i].status == Pending
  }

  /** Some user with the invitation's email is a member of its organization. */
  ghost predicate HasMember(db: Db, i: InvId)
    requires i in db.invs
  {
    !NoMember(db, db.invs[i].email, db.invs[i].org)
  }

  /** An invite is about to insert invitation i for somebody who is a member by now. */
  ghost predicate InvitesMember(db: Db, p: Proc, x: Draws, i: InvId) {
    && p.Inviting? && x.inv == i
    && InsertInvitation(db, i, InvitationFor(p.ask, x)).Some?
    && !NoMember(db, p.ask.email, p.ask.org)
  }

  /** An accept of another invitation is about to insert the membership that i offers. */
  predicate JoinsPast(db: Db, p: Proc, i: InvId) {
    && p.Joining? && p.inv != i && Pends(db, i)
    && db.invs[i].org == p.snap.org && db.invs[i].email == p.snap.email
    && InsertJoin(db, p.inv, p.user, p.snap).Some?
  }

  ghost predicate Crosses(s: State, e: Event, i: InvId) {
    && e.Continue? && e.pid in s.procs
    && (InvitesMember(s.db, s.procs[e.pid], e.x, i) || JoinsPast(s.db, s.procs[e.pid], i))
  }

  predicate IsAccepting(p: Proc, i: InvId) {
    p.Accepting? && p.inv == i
  }

  /** An accept of i has created the membership and is about to mark i. */
  predicate BeingAccepted(s: State, i: InvId) {
    exists pid :: pid in s.procs && IsAccepting(s.procs[pid], i)
  }

  /** Such an accept ends before it has marked i. */
  predicate Stops(s: State, e: Event, i: InvId) {
    e.Abort? && e.pid in s.procs && IsAccepting(s.procs[e.pid], i)
  }

  ghost predicate Crossed(tr: Trace, i: InvId) {
    tr.After? && (Crossed(tr.prev, i) || Crosses(StateOf(tr.prev), tr.event, i))
  }

  ghost predicate Stopped(tr: Trace, i: InvId) {
    tr.After? && (Stopped(tr.prev, i) || Stops(StateOf(tr.prev), tr.event, i))
  }

  // One turn

  /** A turn creates the membership of its own invitation. */
  predicate JoinsOwn(db: Db, p: Proc, i: InvId) {
    p.Joining? && p.inv == i && InsertJoin(db, i, p.user, p.snap).Some?
  }

  /** No invitation becomes pending, and who is a member stays as it is for those that are. */
  ghost predicate Calm(db: Db, d: Db) {
    forall i :: Pends(d, i) ==> Pends(db, i) && d.invs[i] == db.invs[i] && (HasMember(d, i) <==> HasMember(db, i))
  }

  ghost predicate NoneNewlyPending(db: Db, d: Db) {
    forall i :: Pends(d, i) ==> Pends(db, i) && d.invs[i] == db.invs[i]
  }

  lemma SameMembersCalm(db: Db, d: Db)
    requires d.users == db.users && d.members == db.members && NoneNewlyPending(db, d)
    ensures Calm(db, d)
  {
    forall i | Pends(d, i) ensures HasMember(d, i) <==> HasMember(db, i) {
      assert NoMember(d, d.invs[i].email, d.invs[i].org) <==> NoMember(db, db.invs[i].email, db.invs[i].org);
    }
  }

  lemma NewUserCalm(db: Db, u: UserId, email: string)
    requires Keyed(db) && InsertUser(db, u, email).Some?
    ensures Calm(db, InsertUser(db, u, email).value)
  {
  }

  lemma DeletedOrgCalm(db: Db, o: OrgId)
    ensures Calm(db, Tenants.DeleteOrg(db, o))
  {
  }

  /** Nobody has been invited to an organization before its founder is in it. */
  lemma FoundingCalm(db: Db, u: UserId, o: OrgId)
    requires Consistent(db) && InsertMember(db, u, o, Admin).Some? && o in db.founders && db.founders[o] == u
    ensures Calm(db, InsertMember(db, u, o, Admin).value)
  {
    var d := InsertMember(db, u, o, Admin).value;
    forall i | Pends(d, i) ensures HasMember(d, i) <==> HasMember(db, i) {
      assert WasAdmin(db, db.born[i].invitedBy, db.born[i].org);
      assert Founded(db, db.founders[db.invs[i].org], db.invs[i].org);
      assert db.invs[i].org != o;
    }
  }

  lemma NewOrgCalm(db: Db, o: OrgId, org: Org, founder: UserId)
    requires InsertOrg(db, o, org, founder).Some?
    ensures Calm(db, InsertOrg(db, o, org, founder).value)
  {
    SameMembersCalm(db, InsertOrg(db, o, org, founder).value);
  }

  lemma BeginCalm(db: Db, r: Request, x: Draws)
    requires Keyed(db) && Recorded(db)
    ensures Calm(db, Begin(db, r, x).db)
  {
    SameMembersCalm(db, db);
    match r
    case Register(email, _) => if InsertUser(db, x.user, email).Some? { NewUserCalm(db, x.user, email); }
    case CreateOrg(user, org) => if InsertOrg(db, x.org, org, user).Some? { NewOrgCalm(db, x.org, org, user); }
    case _ => BeginReads(db, r, x);
  }

  lemma OrgTurnCalm(db: Db, p: Proc, x: Draws)
    requires Consistent(db) && Relies(db, p) && OfOrg(p)
    ensures Calm(db, Resume(db, p, x).db)
  {
    SameMembersCalm(db, db);
    match p
    case Registered(u, _) => if InsertAccount(db, u).Some? { NewAccountCalm(db, u); }
    case AccountMade(u, org) => if InsertOrg(db, x.org, org, u).Some? { NewOrgCalm(db, x.org, org, u); }
    case Founding(u, o) => if InsertMember(db, u, o, Admin).Some? { FoundingCalm(db, u, o); }
    case Removing(o) => DeletedOrgCalm(db, o);
  }

  lemma NewAccountCalm(db: Db, u: UserId)
    requires InsertAccount(db, u).Some?
    ensures Calm(db, InsertAccount(db, u).value)
  {
    SameMembersCalm(db, InsertAccount(db, u).value);
  }

  lemma StatusCalm(db: Db, i: InvId, st: InvStatus)
    requires st != Pending
    ensures Calm(db, SetStatus(db, i, st))
  {
    SameMembersCalm(db, SetStatus(db, i, st));
  }

  lemma AcceptedCalm(db: Db, i: InvId, u: UserId)
    ensures Calm(db, SetAccepted(db, i, u))
  {
    AcceptedRows(db, i, u);
    SameMembersCalm(db, SetAccepted(db, i, u));
  }

  lemma DeletedCalm(db: Db, i: InvId)
    ensures Calm(db, DeleteInvitation(db, i))
  {
    SameMembersCalm(db, DeleteInvitation(db, i));
  }

  lemma StatusTurnCalm(db: Db, p: Proc, x: Draws)
    requires Writes(p) && !OfOrg(p) && !p.Inviting? && !p.Joining?
    ensures Calm(db, Resume(db, p, x).db)
  {
    match p
    case InviteDeleting(_, i) => DeletedCalm(db, i);
    case Cancelling(i) => StatusCalm(db, i, Cancelled);
    case Expiring(i) => StatusCalm(db, i, Expired);
    case Accepting(user, i, _) => AcceptedCalm(db, i, user);
    case MarkingAccepted(user, i, _) => AcceptedCalm(db, i, user);
  }

  lemma ResumeCalm(db: Db, p: Proc, x: Draws)
    requires Consistent(db) && Relies(db, p) && !p.Inviting? && !p.Joining?
    ensures Calm(db, Resume(db, p, x).db)
  {
    if !Writes(p) {
      ResumeReads(db, p, x);
      SameMembersCalm(db, db);
    } else if OfOrg(p) {
      OrgTurnCalm(db, p, x);
    } else {
      StatusTurnCalm(db, p, x);
    }
  }

  lemma InvitingEffect(db: Db, p: Proc, x: Draws, i: InvId)
    requires Recorded(db) && p.Inviting? && Pends(Resume(db, p, x).db, i)
    ensures var d := Resume(db, p, x).db;
      if Pends(db, i) then d.invs[i] == db.invs[i] && (HasMember(d, i) <==> HasMember(db, i)) && !InvitesMember(db, p, x, i)
      else i !in db.born && (HasMember(d, i) <==> InvitesMember(db, p, x, i))
  {
    var d := Resume(db, p, x).db;
    assert forall email, o :: NoMember(d, email, o) <==> NoMember(db, email, o);
  }

  /** Only the user of the invitation joins, and that is the user with its email. */
  lemma JoiningEffect(db: Db, p: Proc, x: Draws, i: InvId)
    requires Recorded(db) && Relies(db, p) && p.Joining? && Pends(Resume(db, p, x).db, i)
    ensures var d := Resume(db, p, x).db;
      && Pends(db, i) && d.invs[i] == db.invs[i]
      && (HasMember(d, i) <==> HasMember(db, i) || JoinsPast(db, p, i) || JoinsOwn(db, p, i))
  {
    var d := Resume(db, p, x).db;
    if InsertJoin(db, p.inv, p.user, p.snap).Some? {
      var inv := db.invs[i];
      assert d.members == db.members[(p.user, p.snap.org) := p.snap.role];
      if p.inv == i { assert SameInvitation(inv, db.born[i]); }
      if inv.email == p.snap.email && inv.org == p.snap.org {
        assert HasMember(d, i) by { assert p.user in d.users; }
      } else {
        assert forall u :: u in d.users && d.users[u] == inv.email ==>
          ((u, inv.org) in d.members <==> (u, inv.org) in db.members);
        assert NoMember(d, inv.email, inv.org) <==> NoMember(db, inv.email, inv.org);
      }
    }
  }

  /** The own join of a pending invitation. */
  predicate OwnJoin(s: State, e: Event, i: InvId) {
    e.Continue? && e.pid in s.procs && JoinsOwn(s.db, s.procs[e.pid], i)
  }

  lemma CalmEffect(s: State, e: Event)
    requires Safe(s) && CanHappen(s, e)
    requires e.Continue? ==> !s.procs[e.pid].Inviting? && !s.procs[e.pid].Joining?
    ensures Calm(s.db, Happen(s, e).db)
  {
    match e
    case Start(_, r, x) => BeginCalm(s.db, r, x);
    case Continue(pid, x) => ResumeCalm(s.db, s.procs[pid], x);
    case _ => SameMembersCalm(s.db, Happen(s, e).db);
  }

  lemma OldEffect(s: State, e: Event, i: InvId)
    requires Safe(s) && CanHappen(s, e) && Pends(s.db, i) && Pends(Happen(s, e).db, i)
    ensures HasMember(Happen(s, e).db, i) <==> HasMember(s.db, i) || Crosses(s, e, i) || OwnJoin(s, e, i)
  {
    if e.Continue? && s.procs[e.pid].Inviting? {
      InvitingEffect(s.db, s.procs[e.pid], e.x, i);
    } else if e.Continue? && s.procs[e.pid].Joining? {
      JoiningEffect(s.db, s.procs[e.pid], e.x, i);
    } else {
      CalmEffect(s, e);
    }
  }

  lemma NewEffect(s: State, e: Event, i: InvId)
    requires Safe(s) && CanHappen(s, e) && !Pends(s.db, i) && Pends(Happen(s, e).db, i)
    ensures e.Continue? && s.procs[e.pid].Inviting? && i !in s.db.born
    ensures HasMember(Happen(s, e).db, i) <==> Crosses(s, e, i)
  {
    if e.Continue? && s.procs[e.pid].Inviting? {
      InvitingEffect(s.db, s.procs[e.pid], e.x, i);
    } else if e.Continue? && s.procs[e.pid].Joining? {
      JoiningEffect(s.db, s.procs[e.pid], e.x, i);
    } else {
      CalmEffect(s, e);
    }
  }

  /** An accept begins with its own join, and ends by marking its invitation or stopped. */
  lemma AcceptingEffect(s: State, e: Event, i: InvId)
    requires CanHappen(s, e) && Pends(Happen(s, e).db, i)
    ensures OwnJoin(s, e, i) ==> BeingAccepted(Happen(s, e), i)
    ensures BeingAccepted(s, i) ==> BeingAccepted(Happen(s, e), i) || Stops(s, e, i)
    ensures BeingAccepted(Happen(s, e), i) ==> BeingAccepted(s, i) || OwnJoin(s, e, i)
    ensures Stops(s, e, i) ==> BeingAccepted(s, i)
  {
    var t := Happen(s, e);
    if OwnJoin(s, e, i) { assert IsAccepting(t.procs[e.pid], i); }
    if BeingAccepted(s, i) {
      var pid :| pid in s.procs && IsAccepting(s.procs[pid], i);
      assert pid != e.pid ==> pid in t.procs && t.procs[pid] == s.procs[pid];
    }
    if BeingAccepted(t, i) {
      var pid :| pid in t.procs && IsAccepting(t.procs[pid], i);
      assert pid != e.pid ==> pid in s.procs && t.procs[pid] == s.procs[pid];
    }
  }

  // Over every trace

  lemma HappenGrows(s: State, e: Event)
    requires Safe(s) && CanHappen(s, e)
    ensures Grows(s.db, Happen(s, e).db)
  {
    match e
    case Start(_, r, x) => BeginKeeps(s.db, r, x);
    case Continue(pid, x) => ResumeKeeps(s.db, s.procs[pid], x);
    case _ =>
  }

  lemma CrossesBorn(s: State, e: Event, i: InvId)
    requires Recorded(s.db) && CanHappen(s, e) && Crosses(s, e, i)
    ensures i in s.db.born || i in Happen(s, e).db.born
  {
    if !Pends(s.db, i) {
      var p := s.procs[e.pid];
      assert Resume(s.db, p, e.x).db.born == s.db.born[i := InvitationFor(p.ask, e.x)];
    }
  }

  lemma {:induction false} CrossedIsBorn(tr: Trace, i: InvId)
    requires Possible(tr) && (Crossed(tr, i) || Stopped(tr, i) || BeingAccepted(StateOf(tr), i))
    ensures i in StateOf(tr).db.born
  {
    AlwaysSafe(tr);
    if !BeingAccepted(StateOf(tr), i) {
      var s, e := StateOf(tr.prev), tr.event;
      AlwaysSafe(tr.prev);
      HappenGrows(s, e);
      if Crosses(s, e, i) {
        CrossesBorn(s, e, i);
      } else {
        assert Stops(s, e, i) ==> BeingAccepted(s, i);
        CrossedIsBorn(tr.prev, i);
      }
    }
  }

  /** A pending invitation is for a member exactly if it was crossed, or if the accept that made
      the membership is still about to mark it or was stopped before it could. */
  lemma {:induction false} PendingForMemberExactly(tr: Trace, i: InvId)
    requires Possible(tr) && Pends(StateOf(tr).db, i)
    ensures HasMember(StateOf(tr).db, i) <==> Crossed(tr, i) || BeingAccepted(StateOf(tr), i) || Stopped(tr, i)
  {
    if tr.After? {
      var s, e := StateOf(tr.prev), tr.event;
      AlwaysSafe(tr.prev);
      AcceptingEffect(s, e, i);
      if Pends(s.db, i) {
        PendingForMemberExactly(tr.prev, i);
        OldEffect(s, e, i);
      } else {
        NewEffect(s, e, i);
        if Crossed(tr.prev, i) || BeingAccepted(s, i) || Stopped(tr.prev, i) { CrossedIsBorn(tr.prev, i); }
      }
    }
  }

  predicate Extends(longer: Trace, tr: Trace) {
    longer == tr || (longer.After? && Extends(longer.prev, tr))
  }

  lemma {:induction false} CrossedForEver(longer: Trace, tr: Trace, i: InvId)
    requires Extends(longer, tr) && Crossed(tr, i)
    ensures Crossed(longer, i)
  {
    if longer != tr { CrossedForEver(longer.prev, tr, i); }
  }

  /** A crossed invitation stays one for a member for as long as it is pending. */
  lemma CrossedLasts(longer: Trace, tr: Trace, i: InvId)
    requires Possible(longer) && Extends(longer, tr) && Crossed(tr, i) && Pends(StateOf(longer).db, i)
    ensures HasMember(StateOf(longer).db, i)
  {
    CrossedForEver(longer, tr, i);
    PendingForMemberExactly(longer, i);
  }
}
