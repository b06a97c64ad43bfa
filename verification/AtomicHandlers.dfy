/**
 The same handlers, each run to its end before the next begins.  Then a pending invitation
 is always for somebody who is not yet a member, and accepting it creates the membership.
 */
module AtomicHandlers {
  import opened Wrappers
  import opened Tenants
  import opened Handlers

  datatype Outcome = Outcome(db: Db, reply: Reply)

  ghost function Finish(db: Db, p: Proc, x: Draws): Outcome
    decreases TurnsLeft(p)
  {
    var t := Resume(db, p, x);
    match t.progress
    case Ended(reply) => Outcome(t.db, reply)
    case More(q) => Finish(t.db, q, x)
  }

  ghost function Handle(db: Db, r: Request, x: Draws): Outcome {
    var t := Begin(db, r, x);
    match t.progress
    case Ended(reply) => Outcome(t.db, reply)
    case More(p) => Finish(t.db, p, x)
  }

  /** One request after another from empty tables. */
  datatype Requests = NoRequest | Next(before: Requests, request: Request, x: Draws)

  ghost function DbOf(rs: Requests): Db {
    match rs
    case NoRequest => EMPTY
    case Next(before, r, x) => Handle(DbOf(before), r, x).db
  }

  ghost predicate NoMember(db: Db, email: string, o: OrgId) {
    forall u :: u in db.users && db.users[u] == email ==> (u, o) !in db.members
  }

  ghost predicate PendingFresh(db: Db) {
    forall i :: i in db.invs && db.invs[i].status == Pending ==> NoMember(db, db.invs[i].email, db.invs[i].org)
  }

  /** As PendingFresh, for all invitations but one. */
  ghost predicate OthersFresh(db: Db, i: InvId) {
    forall j :: j in db.invs && j != i && db.invs[j].status == Pending ==> NoMember(db, db.invs[j].email, db.invs[j].org)
  }

  predicate StillPending(db: Db, i: InvId, snap: Invitation) {
    i in db.invs && db.invs[i] == snap && snap.status == Pending
  }

  predicate HasEmail(db: Db, u: UserId, email: string) {
    u in db.users && db.users[u] == email
  }

  /** What holds between two turns when no other request is in flight; no request is ever
      about to mark an invitation accepted for somebody who is a member already. */
  ghost predicate Midway(db: Db, p: Proc) {
    match p
    case Founding(_, o) => PendingFresh(db) && forall i :: i in db.invs ==> db.invs[i].org != o
    case InviteMember(ask, u) => PendingFresh(db) && HasEmail(db, u, ask.email)
    case InviteLookup(ask) => PendingFresh(db) && NoMember(db, ask.email, ask.org)
    case InviteDeleting(ask, _) => PendingFresh(db) && NoMember(db, ask.email, ask.org)
    case Inviting(ask) => PendingFresh(db) && NoMember(db, ask.email, ask.org)
    case Responding(user, email, _, _) => PendingFresh(db) && HasEmail(db, user, email)
    case Found(_, i, snap) => PendingFresh(db) && StillPending(db, i, snap)
    case Checked(user, i, snap) => PendingFresh(db) && StillPending(db, i, snap) && HasEmail(db, user, snap.email)
    case Joining(user, i, snap) => PendingFresh(db) && StillPending(db, i, snap) && HasEmail(db, user, snap.email)
    case Accepting(user, i, _) => OthersFresh(db, i)
    case MarkingAccepted(_, _, _) => false
    case _ => PendingFresh(db)
  }

  ghost predicate GoodMidway(t: Turn) {
    match t.progress
    case More(p) => Midway(t.db, p)
    case Ended(_) => PendingFresh(t.db)
  }

  predicate Accepts(r: Request) {
    r.AcceptInvitation? || r.Respond?
  }

  predicate Joins(p: Proc) {
    p.Found? || p.Responding? || p.Checked? || p.Joining? || p.Accepting? || p.MarkingAccepted? || p.Expiring? || p.Declining?
  }

  lemma NewUserKeepsFresh(db: Db, u: UserId, email: string)
    requires Keyed(db) && PendingFresh(db) && InsertUser(db, u, email).Some?
    ensures PendingFresh(InsertUser(db, u, email).value)
  {
  }

  lemma NewOrgKeepsFresh(db: Db, o: OrgId, org: Org, founder: UserId)
    requires Keyed(db) && Recorded(db) && PendingFresh(db) && InsertOrg(db, o, org, founder).Some?
    ensures var d := InsertOrg(db, o, org, founder).value;
      PendingFresh(d) && forall i :: i in d.invs ==> d.invs[i].org != o
  {
  }

  lemma BeginAcceptMidway(db: Db, r: Request, x: Draws)
    requires PendingFresh(db) && Accepts(r)
    ensures GoodMidway(Begin(db, r, x))
    ensures Begin(db, r, x).progress != Ended(AlreadyMember)
    ensures Begin(db, r, x).progress.More? ==> Joins(Begin(db, r, x).progress.proc)
  {
  }

  lemma BeginAdminMidway(db: Db, r: Request, x: Draws)
    requires PendingFresh(db) && (r.RemoveOrg? || r.CreateInvitation? || r.CancelInvitation?)
    ensures GoodMidway(Begin(db, r, x))
  {
    if r.CreateInvitation? && UserByEmail(db, r.email).None? { assert NoMember(db, r.email, r.org); }
  }

  lemma BeginMidway(db: Db, r: Request, x: Draws)
    requires Keyed(db) && Recorded(db) && PendingFresh(db)
    ensures GoodMidway(Begin(db, r, x))
  {
    match r
    case Register(email, org) =>
      if InsertUser(db, x.user, email).Some? { NewUserKeepsFresh(db, x.user, email); }
    case CreateOrg(user, org) =>
      if InsertOrg(db, x.org, org, user).Some? { NewOrgKeepsFresh(db, x.org, org, user); }
    case AcceptInvitation(_, _) => BeginAcceptMidway(db, r, x);
    case Respond(_, _, _) => BeginAcceptMidway(db, r, x);
    case _ => BeginAdminMidway(db, r, x);
  }

  lemma OrgTurnMidway(db: Db, p: Proc, x: Draws)
    requires Keyed(db) && Recorded(db) && Midway(db, p) && OfOrg(p)
    ensures GoodMidway(Resume(db, p, x))
  {
    match p
    case Registered(user, org) =>
    case AccountMade(user, org) =>
      if InsertOrg(db, x.org, org, user).Some? { NewOrgKeepsFresh(db, x.org, org, user); }
    case Founding(user, o) =>
    case Removing(o) =>
  }

  lemma InviteReadMidway(db: Db, p: Proc, x: Draws)
    requires Keyed(db) && Midway(db, p) && (p.InviteMember? || p.InviteLookup?)
    ensures GoodMidway(Resume(db, p, x))
  {
    if p.InviteMember? { assert forall v :: HasEmail(db, v, p.ask.email) ==> v == p.existing; }
  }

  lemma FewerPendingFresh(db: Db, d: Db)
    requires PendingFresh(db) && d.users == db.users && d.members == db.members
    requires forall j :: j in d.invs && d.invs[j].status == Pending ==> j in db.invs && db.invs[j] == d.invs[j]
    ensures PendingFresh(d)
  {
    forall j | j in d.invs && d.invs[j].status == Pending ensures NoMember(d, d.invs[j].email, d.invs[j].org) {
      assert NoMember(db, db.invs[j].email, db.invs[j].org);
    }
  }

  lemma DeletedFresh(db: Db, i: InvId)
    requires PendingFresh(db)
    ensures PendingFresh(DeleteInvitation(db, i))
    ensures forall email, o :: NoMember(db, email, o) ==> NoMember(DeleteInvitation(db, i), email, o)
  {
    FewerPendingFresh(db, DeleteInvitation(db, i));
  }

  lemma InviteTurnMidway(db: Db, p: Proc, x: Draws)
    requires Keyed(db) && Midway(db, p)
    requires p.InviteMember? || p.InviteLookup? || p.InviteDeleting? || p.Inviting? || p.Cancelling?
    ensures GoodMidway(Resume(db, p, x))
  {
    match p
    case Inviting(ask) =>
      if InsertInvitation(db, x.inv, InvitationFor(ask, x)).Some? { NewInvitationFresh(db, ask, x); }
    case InviteDeleting(_, i) => DeletedFresh(db, i);
    case Cancelling(i) => ClosedFresh(db, i, Cancelled);
    case _ => InviteReadMidway(db, p, x);
  }

  lemma NewInvitationFresh(db: Db, ask: Invite, x: Draws)
    requires PendingFresh(db) && NoMember(db, ask.email, ask.org) && InsertInvitation(db, x.inv, InvitationFor(ask, x)).Some?
    ensures PendingFresh(InsertInvitation(db, x.inv, InvitationFor(ask, x)).value)
  {
    var d := InsertInvitation(db, x.inv, InvitationFor(ask, x)).value;
    forall i | i in d.invs && d.invs[i].status == Pending ensures NoMember(d, d.invs[i].email, d.invs[i].org) {
      assert i != x.inv ==> NoMember(db, db.invs[i].email, db.invs[i].org);
    }
  }

  lemma CheckedMidway(db: Db, p: Proc, x: Draws)
    requires Midway(db, p) && p.Checked?
    ensures Resume(db, p, x) == Turn(db, More(Joining(p.user, p.inv, p.snap)))
  {
    assert NoMember(db, p.snap.email, p.snap.org);
  }

  lemma RespondingMidway(db: Db, p: Proc, x: Draws)
    requires Midway(db, p) && (p.Found? || p.Responding?)
    ensures GoodMidway(Resume(db, p, x))
    ensures Resume(db, p, x).progress != Ended(AlreadyMember)
    ensures Resume(db, p, x).progress.More? ==> Joins(Resume(db, p, x).progress.proc)
  {
  }

  lemma ClosedFresh(db: Db, i: InvId, st: InvStatus)
    requires PendingFresh(db) && st != Pending
    ensures PendingFresh(SetStatus(db, i, st))
  {
    var d := SetStatus(db, i, st);
    forall j | j in d.invs && d.invs[j].status == Pending ensures j in db.invs && db.invs[j] == d.invs[j] {}
    assert d.users == db.users && d.members == db.members;
    FewerPendingFresh(db, d);
  }

  lemma AcceptedRows(db: Db, i: InvId, user: UserId)
    ensures var d := SetAccepted(db, i, user);
      && d.users == db.users && d.members == db.members
      && d.invs == if i in db.invs then db.invs[i := db.invs[i].(status := Accepted)] else db.invs
  {
  }

  lemma AcceptedFresh(db: Db, i: InvId, user: UserId)
    requires OthersFresh(db, i)
    ensures PendingFresh(SetAccepted(db, i, user))
  {
    AcceptedRows(db, i, user);
    OthersStayFresh(db, SetAccepted(db, i, user), i);
  }

  lemma OthersStayFresh(db: Db, d: Db, i: InvId)
    requires OthersFresh(db, i)
    requires d.users == db.users && d.members == db.members && d.invs.Keys == db.invs.Keys
    requires i in d.invs ==> d.invs[i].status == Accepted
    requires forall j :: j in db.invs && j != i ==> d.invs[j] == db.invs[j]
    ensures PendingFresh(d)
  {
    forall j | j in d.invs && d.invs[j].status == Pending ensures NoMember(d, d.invs[j].email, d.invs[j].org) {
      assert j != i && NoMember(db, db.invs[j].email, db.invs[j].org);
    }
  }

  lemma JoinTurnMidway(db: Db, p: Proc, x: Draws)
    requires Keyed(db) && Midway(db, p) && Joins(p)
    ensures GoodMidway(Resume(db, p, x))
    ensures Resume(db, p, x).progress != Ended(AlreadyMember)
    ensures Resume(db, p, x).progress.More? ==> Joins(Resume(db, p, x).progress.proc)
  {
    match p
    case Joining(user, i, snap) => JoiningMidway(db, user, i, snap);
    case Accepting(user, i, _) => AcceptedFresh(db, i, user);
    case Checked(_, _, _) => CheckedMidway(db, p, x);
    case Expiring(i) => ClosedFresh(db, i, Expired);
    case Declining(_) =>
    case _ => RespondingMidway(db, p, x);
  }

  lemma JoiningMidway(db: Db, user: UserId, i: InvId, snap: Invitation)
    requires Keyed(db) && PendingFresh(db) && StillPending(db, i, snap) && HasEmail(db, user, snap.email)
    ensures var t := AfterJoin(db, user, i, snap);
      GoodMidway(t) && (t.progress == Ended(Rejected) || t.progress == More(Accepting(user, i, snap)))
  {
    if InsertJoin(db, i, user, snap).Some? { JoinedOthersFresh(db, user, i, snap); }
  }

  /** No other invitation is for the same email and organization. */
  lemma JoinedOthersFresh(db: Db, user: UserId, i: InvId, snap: Invitation)
    requires Keyed(db) && PendingFresh(db) && StillPending(db, i, snap) && HasEmail(db, user, snap.email)
    requires InsertJoin(db, i, user, snap).Some?
    ensures OthersFresh(InsertJoin(db, i, user, snap).value, i)
  {
    var d := InsertJoin(db, i, user, snap).value;
    forall j | j in d.invs && j != i && d.invs[j].status == Pending ensures NoMember(d, d.invs[j].email, d.invs[j].org) {
      assert NoMember(db, db.invs[j].email, db.invs[j].org);
    }
  }

  /** A turn of an undisturbed request. */
  ghost predicate FreshTurn(db: Db, t: Turn, joins: bool) {
    && GoodTurn(db, t) && GoodMidway(t)
    && (joins ==> t.progress != Ended(AlreadyMember) && (t.progress.More? ==> Joins(t.progress.proc)))
  }

  lemma ResumeMidway(db: Db, p: Proc, x: Draws)
    requires Keyed(db) && Recorded(db) && Midway(db, p)
    ensures GoodMidway(Resume(db, p, x))
    ensures Joins(p) ==> Resume(db, p, x).progress != Ended(AlreadyMember)
    ensures Joins(p) && Resume(db, p, x).progress.More? ==> Joins(Resume(db, p, x).progress.proc)
  {
    if Joins(p) {
      JoinTurnMidway(db, p, x);
    } else if OfOrg(p) {
      OrgTurnMidway(db, p, x);
    } else {
      InviteTurnMidway(db, p, x);
    }
  }

  lemma TurnsDrop(db: Db, p: Proc, x: Draws)
    ensures var t := Resume(db, p, x);
      match t.progress
      case Ended(reply) => Finish(db, p, x) == Outcome(t.db, reply)
      case More(q) => TurnsLeft(q) < TurnsLeft(p) && Finish(db, p, x) == Finish(t.db, q, x)
  {
  }

  ghost predicate FreshOutcome(o: Outcome, joins: bool) {
    Consistent(o.db) && PendingFresh(o.db) && (joins ==> o.reply != AlreadyMember)
  }

  ghost predicate Undisturbed(db: Db, p: Proc) {
    Consistent(db) && Relies(db, p) && Midway(db, p)
  }

  lemma UndisturbedTurn(db: Db, p: Proc, x: Draws)
    requires Undisturbed(db, p)
    ensures FreshTurn(db, Resume(db, p, x), Joins(p))
  {
    ResumeKeeps(db, p, x);
    ResumeMidway(db, p, x);
  }

  lemma {:induction false} FinishFresh(db: Db, p: Proc, x: Draws)
    requires Undisturbed(db, p)
    ensures FreshOutcome(Finish(db, p, x), Joins(p))
    decreases TurnsLeft(p)
  {
    TurnsDrop(db, p, x);
    UndisturbedTurn(db, p, x);
    FinishTurn(Resume(db, p, x), db, p, x);
  }

  lemma {:induction false} FinishTurn(t: Turn, db: Db, p: Proc, x: Draws)
    requires FreshTurn(db, t, Joins(p)) && (t.progress.More? ==> TurnsLeft(t.progress.proc) < TurnsLeft(p))
    ensures match t.progress
      case Ended(reply) => FreshOutcome(Outcome(t.db, reply), Joins(p))
      case More(q) => FreshOutcome(Finish(t.db, q, x), Joins(p))
    decreases TurnsLeft(p), 0
  {
    if t.progress.More? { FinishFresh(t.db, t.progress.proc, x); }
  }

  lemma HandleFresh(db: Db, r: Request, x: Draws)
    requires Consistent(db) && PendingFresh(db)
    ensures FreshOutcome(Handle(db, r, x), Accepts(r))
  {
    var t := Begin(db, r, x);
    BeginKeeps(db, r, x);
    BeginMidway(db, r, x);
    if Accepts(r) { BeginAcceptMidway(db, r, x); }
    if t.progress.More? {
      FinishFresh(t.db, t.progress.proc, x);
    }
  }

  /** Pending means not yet a member, after any sequence of requests. */
  lemma {:induction false} PendingMeansNotMember(rs: Requests)
    ensures Consistent(DbOf(rs)) && PendingFresh(DbOf(rs))
  {
    match rs
    case NoRequest => EmptyIsSafe();
    case Next(before, r, x) =>
      PendingMeansNotMember(before);
      HandleFresh(DbOf(before), r, x);
  }

  /** So the branches for somebody who is a member already are never taken. */
  lemma AlreadyMemberUnreachable(rs: Requests, r: Request, x: Draws)
    requires Accepts(r)
    ensures Handle(DbOf(rs), r, x).reply != AlreadyMember
  {
    PendingMeansNotMember(rs);
    HandleFresh(DbOf(rs), r, x);
  }

  /** The invitations that GetPendingInvitations lists for a user. */
  predicate IsListed(db: Db, user: UserId, i: InvId, now: int) {
    && user in db.users && i in db.invs
    && db.invs[i].email == db.users[user] && db.invs[i].status == Pending && db.invs[i].expiresAt > now
  }

  ghost predicate JoinsBy(db: Db, o: Outcome, user: UserId, i: InvId)
    requires i in db.invs
  {
    var inv := db.invs[i];
    && o.reply == JoinedOrg(inv.role)
    && o.db.members == db.members[(user, inv.org) := inv.role]
    && o.db.invs == db.invs[i := inv.(status := Accepted)]
    && o.db.users == db.users && o.db.orgs == db.orgs && o.db.accounts == db.accounts
  }

  lemma AcceptingJoins(db: Db, d: Db, user: UserId, i: InvId, x: Draws)
    requires i in db.invs && InsertJoin(db, i, user, db.invs[i]) == Some(d)
    ensures JoinsBy(db, Finish(d, Accepting(user, i, db.invs[i]), x), user, i)
  {
    TurnsDrop(d, Accepting(user, i, db.invs[i]), x);
  }

  predicate Outsider(db: Db, user: UserId, i: InvId) {
    i in db.invs && user in db.users && db.invs[i].org in db.orgs && (user, db.invs[i].org) !in db.members
  }

  lemma ListedForOutsider(db: Db, user: UserId, i: InvId, now: int)
    requires Keyed(db) && PendingFresh(db) && IsListed(db, user, i, now)
    ensures Outsider(db, user, i)
  {
    assert NoMember(db, db.invs[i].email, db.invs[i].org);
  }

  lemma JoiningJoins(db: Db, user: UserId, i: InvId, x: Draws)
    requires Outsider(db, user, i)
    ensures JoinsBy(db, Finish(db, Joining(user, i, db.invs[i]), x), user, i)
  {
    TurnsDrop(db, Joining(user, i, db.invs[i]), x);
    var d := InsertJoin(db, i, user, db.invs[i]).value;
    AcceptingJoins(db, d, user, i, x);
  }

  lemma CheckedIsJoining(db: Db, user: UserId, i: InvId, x: Draws)
    requires Outsider(db, user, i)
    ensures Finish(db, Checked(user, i, db.invs[i]), x) == Finish(db, Joining(user, i, db.invs[i]), x)
  {
    TurnsDrop(db, Checked(user, i, db.invs[i]), x);
  }

  lemma ByTokenIsChecked(db: Db, user: UserId, i: InvId, x: Draws)
    requires Keyed(db) && IsListed(db, user, i, x.now)
    ensures Handle(db, AcceptInvitation(user, db.invs[i].token), x) == Finish(db, Checked(user, i, db.invs[i]), x)
  {
    var inv := db.invs[i];
    assert InvByToken(db, inv.token) == Some(i);
    assert Begin(db, AcceptInvitation(user, inv.token), x) == Turn(db, More(Found(user, i, inv)));
    TurnsDrop(db, Found(user, i, inv), x);
  }

  lemma ByIdIsChecked(db: Db, user: UserId, i: InvId, x: Draws)
    requires IsListed(db, user, i, x.now)
    ensures Handle(db, Respond(user, i, true), x) == Finish(db, Checked(user, i, db.invs[i]), x)
  {
    var inv := db.invs[i];
    assert Begin(db, Respond(user, i, true), x) == Turn(db, More(Responding(user, inv.email, i, true)));
    TurnsDrop(db, Responding(user, inv.email, i, true), x);
  }

  /** Every invitation listed creates exactly its membership if accepted at that instant,
      by its token or by its id. */
  lemma ListedCanBeAccepted(rs: Requests, user: UserId, i: InvId, x: Draws)
    requires IsListed(DbOf(rs), user, i, x.now)
    ensures JoinsBy(DbOf(rs), Handle(DbOf(rs), AcceptInvitation(user, DbOf(rs).invs[i].token), x), user, i)
    ensures JoinsBy(DbOf(rs), Handle(DbOf(rs), Respond(user, i, true), x), user, i)
  {
    PendingMeansNotMember(rs);
    var db := DbOf(rs);
    ListedForOutsider(db, user, i, x.now);
    JoiningJoins(db, user, i, x);
    CheckedIsJoining(db, user, i, x);
    ByTokenIsChecked(db, user, i, x);
    ByIdIsChecked(db, user, i, x);
  }

  /** An invitation that this user may take up now; the last moment counts, though it is no
      longer listed then. */
  predicate IsOpenTo(db: Db, user: UserId, i: InvId, now: int) {
    && user in db.users && i in db.invs
    && db.invs[i].email == db.users[user] && db.invs[i].status == Pending && now <= db.invs[i].expiresAt
  }

  lemma OpenForOutsider(db: Db, user: UserId, i: InvId, now: int)
    requires Keyed(db) && PendingFresh(db) && IsOpenTo(db, user, i, now)
    ensures Outsider(db, user, i)
  {
    assert NoMember(db, db.invs[i].email, db.invs[i].org);
  }

  lemma OpenIsChecked(db: Db, user: UserId, i: InvId, x: Draws)
    requires IsOpenTo(db, user, i, x.now) && InvByToken(db, db.invs[i].token) == Some(i)
    ensures Handle(db, AcceptInvitation(user, db.invs[i].token), x) == Finish(db, Checked(user, i, db.invs[i]), x)
  {
    TurnsDrop(db, Found(user, i, db.invs[i]), x);
  }

  lemma ClosedRefuses(db: Db, user: UserId, token: Token, x: Draws)
    requires InvByToken(db, token).Some? ==> !IsOpenTo(db, user, InvByToken(db, token).value, x.now)
    ensures var o := Handle(db, AcceptInvitation(user, token), x);
      !o.reply.JoinedOrg? && o.db.members == db.members && o.db.joins == db.joins
  {
    if InvByToken(db, token).Some? {
      var i := InvByToken(db, token).value;
      TurnsDrop(db, Found(user, i, db.invs[i]), x);
      TurnsDrop(db, Expiring(i), x);
    }
  }

  /** Whether an earlier invitation stands in the way of a new one. */
  ghost predicate Blocked(db: Db, o: OrgId, email: string) {
    InvByOrgAndEmail(db, o, email).Some? && db.invs[InvByOrgAndEmail(db, o, email).value].status in {Pending, Accepted}
  }

  /** The invitations without those of an organization for an email. */
  ghost function Cleared(db: Db, o: OrgId, email: string): Db {
    match InvByOrgAndEmail(db, o, email)
    case None => db
    case Some(i) => DeleteInvitation(db, i)
  }

  predicate TokenUnused(db: Db, token: Token) {
    forall j :: j in db.invs ==> db.invs[j].token != token
  }

  lemma OneByOrgAndEmail(db: Db, o: OrgId, email: string)
    requires Keyed(db)
    ensures match InvByOrgAndEmail(db, o, email)
      case None => forall j :: j in db.invs ==> !(db.invs[j].org == o && db.invs[j].email == email)
      case Some(i) => i in db.invs && forall j :: j in db.invs && j != i ==> !(db.invs[j].org == o && db.invs[j].email == email)
  {
  }

  lemma ClearedFits(db: Db, ask: Invite, x: Draws)
    requires Keyed(db) && ask.caller in db.users && ask.org in db.orgs && TokenUnused(db, x.token)
    ensures InvitationFits(Cleared(db, ask.org, ask.email), InvitationFor(ask, x))
  {
    OneByOrgAndEmail(db, ask.org, ask.email);
    match InvByOrgAndEmail(db, ask.org, ask.email)
    case None =>
    case Some(i) => DeletedFits(db, i, InvitationFor(ask, x));
  }

  lemma DeletedFits(db: Db, i: InvId, inv: Invitation)
    requires inv.org in db.orgs && inv.invitedBy in db.users && TokenUnused(db, inv.token)
    requires forall j :: j in db.invs && j != i ==> !(db.invs[j].org == inv.org && db.invs[j].email == inv.email)
    ensures InvitationFits(DeleteInvitation(db, i), inv)
  {
    var d := DeleteInvitation(db, i);
    forall j | j in d.invs ensures j in db.invs && j != i && d.invs[j] == db.invs[j] {}
  }

  function WithInvitation(db: Db, i: InvId, inv: Invitation): Db {
    db.(invs := db.invs[i := inv], born := db.born[i := inv])
  }

  lemma ClearedRows(db: Db, o: OrgId, email: string)
    ensures var d := Cleared(db, o, email);
      d.users == db.users && d.members == db.members && d.orgs == db.orgs && d.accounts == db.accounts && d.born == db.born
  {
  }

  lemma InvitingProposes(db: Db, ask: Invite, x: Draws)
    requires x.inv !in db.born && InvitationFits(db, InvitationFor(ask, x))
    ensures Finish(db, Inviting(ask), x) == Outcome(WithInvitation(db, x.inv, InvitationFor(ask, x)), Done)
  {
    TurnsDrop(db, Inviting(ask), x);
  }

  lemma LookupProposes(db: Db, ask: Invite, x: Draws)
    requires x.inv !in db.born && InvitationFits(Cleared(db, ask.org, ask.email), InvitationFor(ask, x))
    ensures var o := Finish(db, InviteLookup(ask), x);
      if Blocked(db, ask.org, ask.email) then o.db == db && o.reply in {InvitationPending, InvitationAccepted}
      else o == Outcome(WithInvitation(Cleared(db, ask.org, ask.email), x.inv, InvitationFor(ask, x)), Done)
  {
    TurnsDrop(db, InviteLookup(ask), x);
    if !Blocked(db, ask.org, ask.email) {
      if InvByOrgAndEmail(db, ask.org, ask.email).Some? {
        TurnsDrop(db, InviteDeleting(ask, InvByOrgAndEmail(db, ask.org, ask.email).value), x);
      }
      ClearedRows(db, ask.org, ask.email);
      InvitingProposes(Cleared(db, ask.org, ask.email), ask, x);
    }
  }

  lemma AskReachesLookup(db: Db, caller: UserId, o: OrgId, email: string, role: Option<Role>, x: Draws)
    requires Keyed(db) && IsAdmin(db, caller, o)
    ensures var out, ask := Handle(db, CreateInvitation(caller, o, email, role), x), Invite(caller, o, email, role.GetOr(Member));
      if NoMember(db, email, o) then out == Finish(db, InviteLookup(ask), x) else out == Outcome(db, AlreadyMember)
  {
    var ask := Invite(caller, o, email, role.GetOr(Member));
    match UserByEmail(db, email)
    case None => assert NoMember(db, email, o);
    case Some(u) =>
      TurnsDrop(db, InviteMember(ask, u), x);
      assert forall v :: HasEmail(db, v, email) ==> v == u;
  }

  /** The outcome of an invite: an open invitation in the place of an earlier one, or nothing. */
  ghost predicate InvitesIf(db: Db, out: Outcome, ask: Invite, x: Draws, succeeds: bool) {
    && (out.reply == Done <==> succeeds)
    && (succeeds ==>
         var inv := Invitation(ask.org, ask.email, ask.role, x.token, Pending, ask.caller, x.now + 7 * 24 * 3600, x.dbNow);
         out.db.invs == Cleared(db, ask.org, ask.email).invs[x.inv := inv])
    && (succeeds ==>
         out.db.members == db.members && out.db.orgs == db.orgs && out.db.users == db.users && out.db.accounts == db.accounts)
    && (!succeeds ==> out.db == db)
  }

  ghost predicate MayInvite(db: Db, ask: Invite) {
    IsAdmin(db, ask.caller, ask.org) && NoMember(db, ask.email, ask.org) && !Blocked(db, ask.org, ask.email)
  }

  lemma LookupOutcome(db: Db, ask: Invite, x: Draws)
    requires x.inv !in db.born && InvitationFits(Cleared(db, ask.org, ask.email), InvitationFor(ask, x))
    ensures InvitesIf(db, Finish(db, InviteLookup(ask), x), ask, x, !Blocked(db, ask.org, ask.email))
  {
    LookupProposes(db, ask, x);
    ClearedRows(db, ask.org, ask.email);
  }

  lemma InviteOutcome(db: Db, caller: UserId, o: OrgId, email: string, role: Option<Role>, x: Draws)
    requires Keyed(db) && x.inv !in db.born && TokenUnused(db, x.token)
    ensures var ask := Invite(caller, o, email, role.GetOr(Member));
      InvitesIf(db, Handle(db, CreateInvitation(caller, o, email, role), x), ask, x, MayInvite(db, ask))
  {
    var ask := Invite(caller, o, email, role.GetOr(Member));
    if IsAdmin(db, caller, o) {
      AskReachesLookup(db, caller, o, email, role, x);
      assert caller in db.users && o in db.orgs;
      if NoMember(db, email, o) {
        ClearedFits(db, ask, x);
        LookupOutcome(db, ask, x);
      }
    }
  }

  /** Inviting succeeds if and only if the caller is an admin, nobody with the email is a member,
      and no pending or accepted invitation stands in the way; an expired or cancelled one is
      replaced.  In every other case nothing changes. */
  lemma InviteSucceedsExactly(rs: Requests, caller: UserId, o: OrgId, email: string, role: Option<Role>, x: Draws)
    requires Fresh(DbOf(rs), x) && TokenUnused(DbOf(rs), x.token)
    ensures var ask := Invite(caller, o, email, role.GetOr(Member));
      InvitesIf(DbOf(rs), Handle(DbOf(rs), CreateInvitation(caller, o, email, role), x), ask, x, MayInvite(DbOf(rs), ask))
    ensures var out := Handle(DbOf(rs), CreateInvitation(caller, o, email, role), x);
      var inv := Invitation(o, email, role.GetOr(Member), x.token, Pending, caller, x.now + 7 * 24 * 3600, x.dbNow);
      out.reply == Done ==> x.inv in out.db.invs && out.db.invs[x.inv] == inv
  {
    PendingMeansNotMember(rs);
    InviteOutcome(DbOf(rs), caller, o, email, role, x);
  }

  /** A pending invitation for this user whose time is over. */
  predicate IsOverdueFor(db: Db, user: UserId, i: InvId, now: int) {
    && user in db.users && i in db.invs
    && db.invs[i].email == db.users[user] && db.invs[i].status == Pending && now > db.invs[i].expiresAt
  }

  lemma RespondReads(db: Db, user: UserId, i: InvId, accept: bool, x: Draws)
    ensures var o := Handle(db, Respond(user, i, accept), x);
      if IsOverdueFor(db, user, i, x.now) then o == Outcome(SetStatus(db, i, Expired), HasExpired)
      else if !IsOpenTo(db, user, i, x.now) then o.db == db && o.reply in {Rejected, NotFound, WrongEmail, NoLongerValid}
      else o == Finish(db, if accept then Checked(user, i, db.invs[i]) else Declining(i), x)
  {
    if user in db.users {
      TurnsDrop(db, Responding(user, db.users[user], i, accept), x);
      TurnsDrop(db, Expiring(i), x);
    }
  }

  /** The outcome of an attempt to take up invitation i: the membership, or none. */
  ghost predicate JoinsIf(db: Db, o: Outcome, user: UserId, i: InvId, opens: bool) {
    && (o.reply.JoinedOrg? <==> opens)
    && (opens ==> i in db.invs && JoinsBy(db, o, user, i))
    && (!opens ==> o.db.members == db.members)
  }

  lemma RespondJoinsIf(db: Db, user: UserId, i: InvId, accept: bool, x: Draws)
    requires Keyed(db) && PendingFresh(db)
    ensures JoinsIf(db, Handle(db, Respond(user, i, accept), x), user, i, accept && IsOpenTo(db, user, i, x.now))
  {
    RespondReads(db, user, i, accept, x);
    if IsOpenTo(db, user, i, x.now) {
      if accept {
        OpenForOutsider(db, user, i, x.now);
        JoiningJoins(db, user, i, x);
        CheckedIsJoining(db, user, i, x);
      } else {
        TurnsDrop(db, Declining(i), x);
      }
    }
  }

  lemma AcceptJoinsIf(db: Db, user: UserId, i: InvId, x: Draws)
    requires Keyed(db) && PendingFresh(db) && i in db.invs && InvByToken(db, db.invs[i].token) == Some(i)
    ensures JoinsIf(db, Handle(db, AcceptInvitation(user, db.invs[i].token), x), user, i, IsOpenTo(db, user, i, x.now))
  {
    if IsOpenTo(db, user, i, x.now) {
      OpenForOutsider(db, user, i, x.now);
      JoiningJoins(db, user, i, x);
      CheckedIsJoining(db, user, i, x);
      OpenIsChecked(db, user, i, x);
    } else {
      ClosedRefuses(db, user, db.invs[i].token, x);
    }
  }

  /** A token creates a membership if and only if it is that of an open invitation to the
      user's email; in every other case, cancelled and used invitations included, the
      memberships stay as they are. */
  lemma AcceptJoinsExactly(rs: Requests, user: UserId, token: Token, x: Draws)
    ensures var db, o := DbOf(rs), Handle(DbOf(rs), AcceptInvitation(user, token), x);
      match InvByToken(db, token)
      case Some(i) => JoinsIf(db, o, user, i, IsOpenTo(db, user, i, x.now))
      case None => o == Outcome(db, NotFound)
  {
    PendingMeansNotMember(rs);
    var db := DbOf(rs);
    if InvByToken(db, token).Some? { AcceptJoinsIf(db, user, InvByToken(db, token).value, x); }
  }

  /** Responding by id creates the membership if and only if it accepts an open invitation to the
      user's email; in every other case the memberships stay as they are. */
  lemma RespondJoinsExactly(rs: Requests, user: UserId, i: InvId, accept: bool, x: Draws)
    ensures var db, o := DbOf(rs), Handle(DbOf(rs), Respond(user, i, accept), x);
      JoinsIf(db, o, user, i, accept && IsOpenTo(db, user, i, x.now))
  {
    PendingMeansNotMember(rs);
    RespondJoinsIf(DbOf(rs), user, i, accept, x);
  }

  /** Declining never ends well: the status type lacks the value, so an open invitation stays as
      it is.  Only an overdue one changes, to expired. */
  lemma DeclineChangesNothing(db: Db, user: UserId, i: InvId, x: Draws)
    ensures var o := Handle(db, Respond(user, i, false), x);
      && o.db == (if IsOverdueFor(db, user, i, x.now) then SetStatus(db, i, Expired) else db)
      && (IsOpenTo(db, user, i, x.now) ==> o.reply == Rejected)
      && o.reply in {Rejected, NotFound, WrongEmail, NoLongerValid, HasExpired}
  {
    RespondReads(db, user, i, false, x);
    TurnsDrop(db, Declining(i), x);
  }
}
