/**
 The HTTP handlers over users, organizations and invitations, cut at their repository
 calls.  A request runs as a sequence of turns, each with one call on the shared tables,
 and other requests may take turns in between.
 */
module Handlers {
  import opened Wrappers
  import opened Tenants

  const WEEK: int := 7 * 24 * 3600

  /** What a turn reads from outside the tables: the clocks of the server and of the database, and
      freshly drawn ids and tokens. */
  datatype Draws = Draws(now: int, dbNow: int, user: UserId, org: OrgId, inv: InvId, token: Token)

  /** The admin a request comes from, and what it asks for. */
  datatype Invite = Invite(caller: UserId, org: OrgId, email: string, role: Role)

  datatype Request =
    | Register(email: string, newOrg: Org)
    | CreateOrg(user: UserId, newOrg: Org)
    | RemoveOrg(caller: UserId, org: OrgId, name: string)
    | CreateInvitation(caller: UserId, org: OrgId, email: string, role: Option<Role>)
    | CancelInvitation(caller: UserId, org: OrgId, inv: InvId)
    | AcceptInvitation(user: UserId, token: Token)
    | Respond(user: UserId, inv: InvId, accept: bool)

  /** Where a request stands between two turns; `snap` is the invitation as it was read. */
  datatype Proc =
    | Registered(user: UserId, newOrg: Org)
    | AccountMade(user: UserId, newOrg: Org)
    | Founding(user: UserId, orgId: OrgId)
    | Removing(orgId: OrgId)
    | InviteMember(ask: Invite, existing: UserId)
    | InviteLookup(ask: Invite)
    | InviteDeleting(ask: Invite, inv: InvId)
    | Inviting(ask: Invite)
    | Cancelling(inv: InvId)
    | Found(user: UserId, inv: InvId, snap: Invitation)
    | Responding(user: UserId, email: string, inv: InvId, accept: bool)
    | Expiring(inv: InvId)
    | Declining(inv: InvId)
    | Checked(user: UserId, inv: InvId, snap: Invitation)
    | Joining(user: UserId, inv: InvId, snap: Invitation)
    | Accepting(user: UserId, inv: InvId, snap: Invitation)
    | MarkingAccepted(user: UserId, inv: InvId, snap: Invitation)

  datatype Reply =
    | Done
    | JoinedOrg(role: Role)
    | AlreadyMember
    | InvitationPending
    | InvitationAccepted
    | NoLongerValid
    | HasExpired
    | WrongEmail
    | NameMismatch
    | AccessDenied
    | NotFound
    | Rejected  // a constraint or a failed lookup, answered as an internal error

  datatype Progress = More(proc: Proc) | Ended(reply: Reply)

  datatype Turn = Turn(db: Db, progress: Progress)

  predicate IsAdmin(db: Db, u: UserId, o: OrgId) {
    (u, o) in db.members && db.members[(u, o)] == Admin
  }

  /** What the email check and the status and expiry checks make of an invitation read at `now`. */
  function Opened(inv: InvId, snap: Invitation, now: int, next: Proc): Progress {
    if snap.status != Pending then Ended(NoLongerValid)
    else if now > snap.expiresAt then More(Expiring(inv))
    else More(next)
  }

  function InvitationFor(ask: Invite, x: Draws): Invitation {
    Invitation(ask.org, ask.email, ask.role, x.token, Pending, ask.caller, x.now + WEEK, x.dbNow)
  }

  /** An insert that ends the request, one way or the other. */
  function Inserted(db: Db, d: Option<Db>): Turn {
    match d
    case None => Turn(db, Ended(Rejected))
    case Some(d) => Turn(d, Ended(Done))
  }

  function AfterJoin(db: Db, user: UserId, i: InvId, snap: Invitation): Turn {
    match InsertJoin(db, i, user, snap)
    case None => Turn(db, Ended(Rejected))
    case Some(d) => Turn(d, More(Accepting(user, i, snap)))
  }

  /** The first turn of a request; the admin check of the router goes before it. */
  ghost function Begin(db: Db, r: Request, x: Draws): Turn {
    match r
    case Register(email, org) =>
      (match InsertUser(db, x.user, email)
       case None => Turn(db, Ended(Rejected))
       case Some(d) => Turn(d, More(Registered(x.user, org))))
    case CreateOrg(user, org) =>
      (match InsertOrg(db, x.org, org, user)
       case None => Turn(db, Ended(Rejected))
       case Some(d) => Turn(d, More(Founding(user, x.org))))
    case RemoveOrg(caller, o, name) =>
      if !IsAdmin(db, caller, o) then Turn(db, Ended(AccessDenied))
      else if o !in db.orgs then Turn(db, Ended(NotFound))
      else if name != db.orgs[o].name then Turn(db, Ended(NameMismatch))
      else Turn(db, More(Removing(o)))
    case CreateInvitation(caller, o, email, role) =>
      if !IsAdmin(db, caller, o) then Turn(db, Ended(AccessDenied))
      else
        var ask := Invite(caller, o, email, role.GetOr(Member));
        (match UserByEmail(db, email)
         case Some(u) => Turn(db, More(InviteMember(ask, u)))
         case None => Turn(db, More(InviteLookup(ask))))
    case CancelInvitation(caller, o, i) =>
      if !IsAdmin(db, caller, o) then Turn(db, Ended(AccessDenied))
      else if i in db.invs && db.invs[i].org == o then Turn(db, More(Cancelling(i)))
      else Turn(db, Ended(NotFound))
    case AcceptInvitation(user, token) =>
      (match InvByToken(db, token)
       case None => Turn(db, Ended(NotFound))
       case Some(i) => Turn(db, Opened(i, db.invs[i], x.now, Found(user, i, db.invs[i]))))
    case Respond(user, i, accept) =>
      if user in db.users then Turn(db, More(Responding(user, db.users[user], i, accept)))
      else Turn(db, Ended(Rejected))
  }

  /** Every later turn. */
  ghost function Resume(db: Db, p: Proc, x: Draws): Turn {
    match p
    case Registered(user, org) =>
      (match InsertAccount(db, user)
       case None => Turn(db, Ended(Rejected))
       case Some(d) => Turn(d, More(AccountMade(user, org))))
    case AccountMade(user, org) =>
      (match InsertOrg(db, x.org, org, user)
       case None => Turn(db, Ended(Rejected))
       case Some(d) => Turn(d, More(Founding(user, x.org))))
    case Founding(user, o) =>
      (match InsertMember(db, user, o, Admin)
       case None => Turn(db, Ended(Rejected))
       case Some(d) => Turn(d, Ended(Done)))
    case Removing(o) => Turn(Tenants.DeleteOrg(db, o), Ended(Done))
    case InviteMember(ask, u) =>
      if (u, ask.org) in db.members then Turn(db, Ended(AlreadyMember)) else Turn(db, More(InviteLookup(ask)))
    case InviteLookup(ask) =>
      (match InvByOrgAndEmail(db, ask.org, ask.email)
       case None => Turn(db, More(Inviting(ask)))
       case Some(i) =>
         (match db.invs[i].status
          case Pending => Turn(db, Ended(InvitationPending))
          case Accepted => Turn(db, Ended(InvitationAccepted))
          case _ => Turn(db, More(InviteDeleting(ask, i)))))
    case InviteDeleting(ask, i) => Turn(DeleteInvitation(db, i), More(Inviting(ask)))
    case Inviting(ask) =>
      Inserted(db, InsertInvitation(db, x.inv, InvitationFor(ask, x)))
    case Cancelling(i) => Turn(SetStatus(db, i, Cancelled), Ended(Done))
    case Found(user, i, snap) =>
      if user !in db.users then Turn(db, Ended(Rejected))
      else if db.users[user] != snap.email then Turn(db, Ended(WrongEmail))
      else Turn(db, More(Checked(user, i, snap)))
    case Responding(user, email, i, accept) =>
      if i !in db.invs then Turn(db, Ended(NotFound))
      else if email != db.invs[i].email then Turn(db, Ended(WrongEmail))
      else Turn(db, Opened(i, db.invs[i], x.now, if accept then Checked(user, i, db.invs[i]) else Declining(i)))
    case Expiring(i) => Turn(SetStatus(db, i, Expired), Ended(HasExpired))
    case Declining(i) => Turn(db, Ended(Rejected))  // the status type has no such value
    case Checked(user, i, snap) =>
      if (user, snap.org) in db.members then Turn(db, More(MarkingAccepted(user, i, snap)))
      else Turn(db, More(Joining(user, i, snap)))
    case Joining(user, i, snap) => AfterJoin(db, user, i, snap)
    case Accepting(user, i, snap) => Turn(SetAccepted(db, i, user), Ended(JoinedOrg(snap.role)))
    case MarkingAccepted(user, i, snap) => Turn(SetAccepted(db, i, user), Ended(AlreadyMember))
  }

  /** How many turns are left at most. */
  function TurnsLeft(p: Proc): nat {
    match p
    case Registered(_, _) => 3
    case AccountMade(_, _) => 2
    case InviteMember(_, _) => 4
    case InviteLookup(_) => 3
    case InviteDeleting(_, _) => 2
    case Found(_, _, _) => 4
    case Responding(_, _, _, _) => 4
    case Checked(_, _, _) => 3
    case Joining(_, _, _) => 2
    case _ => 1
  }

  // Any number of requests, interleaved turn by turn

  datatype State = State(db: Db, procs: map<nat, Proc>)

  datatype Event =
    | Start(pid: nat, request: Request, x: Draws)
    | Continue(pid: nat, x: Draws)
    | Skip(pid: nat)   // a look for the user or the membership fails, and the handler goes on
    | Abort(pid: nat)  // any other store failure or a dropped connection ends the request

  /** Ids that the database has never given out. */
  predicate Fresh(db: Db, x: Draws) {
    x.user !in db.users && x.org !in db.founders && x.inv !in db.born
  }

  /** Where a request stands after a failed look, for the looks whose failure the handlers take
      for nobody found.  An invite that fails to look up the user is skipped right after its
      first turn. */
  function Unread(p: Proc): Option<Proc> {
    match p
    case InviteMember(ask, _) => Some(InviteLookup(ask))
    case Checked(user, i, snap) => Some(Joining(user, i, snap))
    case _ => None
  }

  predicate CanHappen(s: State, e: Event) {
    match e
    case Start(pid, _, x) => pid !in s.procs && Fresh(s.db, x)
    case Continue(pid, x) => pid in s.procs && Fresh(s.db, x)
    case Skip(pid) => pid in s.procs && Unread(s.procs[pid]).Some?
    case Abort(pid) => pid in s.procs
  }

  function Placed(procs: map<nat, Proc>, pid: nat, progress: Progress): map<nat, Proc> {
    match progress
    case More(p) => procs[pid := p]
    case Ended(_) => procs - {pid}
  }

  ghost function Happen(s: State, e: Event): State
    requires CanHappen(s, e)
  {
    match e
    case Start(pid, r, x) => var t := Begin(s.db, r, x); State(t.db, Placed(s.procs, pid, t.progress))
    case Continue(pid, x) => var t := Resume(s.db, s.procs[pid], x); State(t.db, Placed(s.procs, pid, t.progress))
    case Skip(pid) => s.(procs := s.procs[pid := Unread(s.procs[pid]).value])
    case Abort(pid) => s.(procs := s.procs - {pid})
  }

  /** A history of events from empty tables. */
  datatype Trace = Nothing | After(prev: Trace, event: Event)

  ghost function StateOf(tr: Trace): State {
    match tr
    case Nothing => State(EMPTY, map[])
    case After(prev, e) => if CanHappen(StateOf(prev), e) then Happen(StateOf(prev), e) else StateOf(prev)
  }

  ghost predicate Possible(tr: Trace) {
    tr.After? ==> Possible(tr.prev) && CanHappen(StateOf(tr.prev), tr.event)
  }

  // What each request in flight may rely on, whatever the others do

  ghost predicate Relies(db: Db, p: Proc) {
    match p
    case Founding(user, o) => o in db.founders && db.founders[o] == user
    case InviteMember(ask, _) => WasAdmin(db, ask.caller, ask.org)
    case InviteLookup(ask) => WasAdmin(db, ask.caller, ask.org)
    case InviteDeleting(ask, _) => WasAdmin(db, ask.caller, ask.org)
    case Inviting(ask) => WasAdmin(db, ask.caller, ask.org)
    case Found(_, i, snap) => i in db.born && SameInvitation(snap, db.born[i])
    case Responding(user, email, _, _) => user in db.users && db.users[user] == email
    case Checked(user, i, snap) => ReliesOn(db, user, i, snap)
    case Joining(user, i, snap) => ReliesOn(db, user, i, snap)
    case Accepting(user, i, snap) => ReliesOn(db, user, i, snap) && (user, snap.org) in db.ever
    case MarkingAccepted(user, i, snap) => ReliesOn(db, user, i, snap) && (user, snap.org) in db.ever
    case _ => true
  }

  predicate ReliesOn(db: Db, user: UserId, i: InvId, snap: Invitation) {
    i in db.born && SameInvitation(snap, db.born[i]) && user in db.users && db.users[user] == snap.email
  }

  lemma ReliesGrows(db: Db, d: Db, p: Proc)
    requires Relies(db, p) && Grows(db, d)
    ensures Relies(d, p)
  {
  }

  ghost predicate GoodTurn(db: Db, t: Turn) {
    && Consistent(t.db)
    && Grows(db, t.db)
    && (t.progress.More? ==> Relies(t.db, t.progress.proc))
  }

  lemma BeginReads(db: Db, r: Request, x: Draws)
    requires Recorded(db) && !r.Register? && !r.CreateOrg?
    ensures var t := Begin(db, r, x); t.db == db && (t.progress.More? ==> Relies(db, t.progress.proc))
  {
  }

  lemma SameDbIsGood(db: Db, t: Turn)
    requires Consistent(db) && t.db == db && (t.progress.More? ==> Relies(db, t.progress.proc))
    ensures GoodTurn(db, t)
  {
  }

  lemma BeginKeeps(db: Db, r: Request, x: Draws)
    requires Consistent(db)
    ensures GoodTurn(db, Begin(db, r, x))
  {
    match r
    case Register(email, org) =>
      if InsertUser(db, x.user, email).Some? { InsertUserKeeps(db, x.user, email); }
    case CreateOrg(user, org) =>
      if InsertOrg(db, x.org, org, user).Some? { InsertOrgKeeps(db, x.org, org, user); }
    case _ =>
      BeginReads(db, r, x);
      SameDbIsGood(db, Begin(db, r, x));
  }

  /** An invitation still there names an organization still there, so its member still is one. */
  lemma AcceptKeeps(db: Db, user: UserId, i: InvId, snap: Invitation)
    requires Consistent(db) && ReliesOn(db, user, i, snap) && (user, snap.org) in db.ever
    ensures Consistent(SetAccepted(db, i, user)) && Grows(db, SetAccepted(db, i, user))
  {
    if i in db.invs {
      assert SameInvitation(db.invs[i], db.born[i]) && db.invs[i].org in db.orgs;
    }
    SetAcceptedKeeps(db, i, user);
  }

  predicate Writes(p: Proc) {
    p.Registered? || p.AccountMade? || p.Founding? || p.Removing? || p.InviteDeleting? || p.Inviting?
    || p.Cancelling? || p.Expiring? || p.Joining? || p.Accepting? || p.MarkingAccepted?
  }

  lemma ResumeReads(db: Db, p: Proc, x: Draws)
    requires Recorded(db) && Relies(db, p) && !Writes(p)
    ensures var t := Resume(db, p, x); t.db == db && (t.progress.More? ==> Relies(db, t.progress.proc))
  {
    if p.Checked? && (p.user, p.snap.org) in db.members { assert (p.user, p.snap.org) in db.ever; }
  }

  predicate OfOrg(p: Proc) {
    p.Registered? || p.AccountMade? || p.Founding? || p.Removing?
  }

  /** The writes that concern an account, an organization or its founder. */
  lemma ResumeOrgKeeps(db: Db, p: Proc, x: Draws)
    requires Consistent(db) && Relies(db, p) && OfOrg(p)
    ensures GoodTurn(db, Resume(db, p, x))
  {
    match p
    case Registered(user, org) => RegisteredKeeps(db, user, org, x);
    case AccountMade(user, org) =>
      if InsertOrg(db, x.org, org, user).Some? { InsertOrgKeeps(db, x.org, org, user); }
    case Founding(user, o) =>
      if InsertMember(db, user, o, Admin).Some? { FounderKeeps(db, user, o); }
    case Removing(o) => DeleteOrgKeeps(db, o);
  }

  lemma RegisteredKeeps(db: Db, user: UserId, org: Org, x: Draws)
    requires Consistent(db)
    ensures GoodTurn(db, Resume(db, Registered(user, org), x))
  {
    if InsertAccount(db, user).Some? { InsertAccountKeeps(db, user); }
  }

  lemma InsertedKeeps(db: Db, i: InvId, inv: Invitation)
    requires Consistent(db) && WasAdmin(db, inv.invitedBy, inv.org) && inv.status == Pending
    ensures GoodTurn(db, Inserted(db, InsertInvitation(db, i, inv)))
  {
    if InsertInvitation(db, i, inv).Some? { InsertInvitationKeeps(db, i, inv); }
  }

  lemma ResumeInvitationKeeps(db: Db, p: Proc, x: Draws)
    requires Consistent(db) && Relies(db, p) && (p.InviteDeleting? || p.Cancelling? || p.Expiring?)
    ensures GoodTurn(db, Resume(db, p, x))
  {
    match p
    case InviteDeleting(ask, i) => DeleteInvitationKeeps(db, i);
    case Cancelling(i) => SetStatusKeeps(db, i, Cancelled);
    case Expiring(i) => SetStatusKeeps(db, i, Expired);
  }

  lemma JoiningKeeps(db: Db, user: UserId, i: InvId, snap: Invitation)
    requires Consistent(db) && ReliesOn(db, user, i, snap)
    ensures GoodTurn(db, AfterJoin(db, user, i, snap))
  {
    if InsertJoin(db, i, user, snap).Some? {
      JoinKeeps(db, i, user, snap);
      assert ReliesOn(InsertJoin(db, i, user, snap).value, user, i, snap);
    }
  }

  lemma AcceptingKeeps(db: Db, p: Proc, x: Draws)
    requires Consistent(db) && Relies(db, p) && (p.Accepting? || p.MarkingAccepted?)
    ensures GoodTurn(db, Resume(db, p, x))
  {
    AcceptKeeps(db, p.user, p.inv, p.snap);
  }

  lemma ResumeKeeps(db: Db, p: Proc, x: Draws)
    requires Consistent(db) && Relies(db, p)
    ensures GoodTurn(db, Resume(db, p, x))
  {
    if !Writes(p) {
      ResumeReads(db, p, x);
      SameDbIsGood(db, Resume(db, p, x));
    } else if OfOrg(p) {
      ResumeOrgKeeps(db, p, x);
    } else if p.Joining? {
      JoiningKeeps(db, p.user, p.inv, p.snap);
    } else if p.Accepting? || p.MarkingAccepted? {
      AcceptingKeeps(db, p, x);
    } else if p.Inviting? {
      InsertedKeeps(db, x.inv, InvitationFor(p.ask, x));
    } else {
      ResumeInvitationKeeps(db, p, x);
    }
  }

  ghost predicate Safe(s: State) {
    Consistent(s.db) && forall pid :: pid in s.procs ==> Relies(s.db, s.procs[pid])
  }

  lemma SafeStep(s: State, e: Event)
    requires Safe(s) && CanHappen(s, e)
    ensures Safe(Happen(s, e))
  {
    match e
    case Start(pid, r, x) =>
      BeginKeeps(s.db, r, x);
      OthersRely(s, pid, Begin(s.db, r, x));
    case Continue(pid, x) =>
      ResumeKeeps(s.db, s.procs[pid], x);
      OthersRely(s, pid, Resume(s.db, s.procs[pid], x));
    case Skip(pid) =>
      OthersRely(s, pid, Turn(s.db, More(Unread(s.procs[pid]).value)));
    case Abort(pid) =>
  }

  lemma OthersRely(s: State, pid: nat, t: Turn)
    requires Safe(s) && GoodTurn(s.db, t)
    ensures Safe(State(t.db, Placed(s.procs, pid, t.progress)))
  {
    forall q | q in s.procs ensures Relies(t.db, s.procs[q]) {
      ReliesGrows(s.db, t.db, s.procs[q]);
    }
  }

  lemma {:induction false} AlwaysSafe(tr: Trace)
    requires Possible(tr)
    ensures Safe(StateOf(tr))
  {
    if tr.After? {
      AlwaysSafe(tr.prev);
      SafeStep(StateOf(tr.prev), tr.event);
    } else {
      EmptyIsSafe();
    }
  }

  lemma EmptyIsSafe()
    ensures Safe(State(EMPTY, map[]))
  {
  }

  // For every interleaving of repository calls

  /** An accepted invitation always has a user with its email who is a member of its organization. */
  lemma AcceptedMeansMember(tr: Trace, i: InvId)
    requires Possible(tr) && i in StateOf(tr).db.invs && StateOf(tr).db.invs[i].status == Accepted
    ensures var db := StateOf(tr).db;
      exists u :: u in db.users && db.users[u] == db.invs[i].email && (u, db.invs[i].org) in db.members
  {
    AlwaysSafe(tr);
    assert StateOf(tr).db.acceptors[i] in StateOf(tr).db.users;
  }

  /** However accepts by token and by id race, one invitation creates at most one membership. */
  lemma OneMembershipPerInvitation(tr: Trace, a: nat, b: nat)
    requires Possible(tr) && a < |StateOf(tr).db.joins| && b < |StateOf(tr).db.joins|
    requires StateOf(tr).db.joins[a].inv == StateOf(tr).db.joins[b].inv
    ensures a == b
  {
    AlwaysSafe(tr);
  }

  /** Every member founded the organization or matches the email and role of an invitation to
      it made by someone who was its admin; and the founding admin is still there. */
  lemma MembershipProvenance(tr: Trace, u: UserId, o: OrgId)
    requires Possible(tr) && (u, o) in StateOf(tr).db.members
    ensures var db := StateOf(tr).db;
      && o in db.founders && IsAdmin(db, db.founders[o], o) && u in db.users
      && (db.founders[o] == u
          || exists i :: i in db.born && db.born[i].org == o && db.born[i].email == db.users[u]
                         && db.born[i].role == db.members[(u, o)] && WasAdmin(db, db.born[i].invitedBy, o))
  {
    AlwaysSafe(tr);
    var db := StateOf(tr).db;
    assert (u, o) in db.ever && o in db.orgs;
    assert Founded(db, db.founders[o], o);
    if !Founded(db, u, o) {
      var i :| Explains(db, i, u, o);
    }
  }
}
