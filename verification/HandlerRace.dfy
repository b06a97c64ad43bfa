/**
 A pending invitation for a member, with no failure anywhere: an accept that has read an
 invitation still goes through after the invitation was cancelled and while the same person
 is being invited again.
 */
module HandlerRace {
  import opened Wrappers
  import opened Tenants
  import opened Handlers
  import opened AtomicHandlers
  import opened Crossing

  predicate NoFailures(tr: Trace) {
    tr.After? ==> NoFailures(tr.prev) && !tr.event.Skip? && !tr.event.Abort?
  }

  /** A trace in which no store call fails and no request is broken off. */
  ghost predicate Smooth(tr: Trace) {
    Possible(tr) && NoFailures(tr)
  }

  lemma Go(tr: Trace, e: Event) returns (longer: Trace)
    requires Smooth(tr) && CanHappen(StateOf(tr), e) && !e.Skip? && !e.Abort?
    ensures longer == After(tr, e) && Smooth(longer) && StateOf(longer) == Happen(StateOf(tr), e)
  {
    longer := After(tr, e);
  }

  const ORG := Org("acme", "acme")
  const ADMIN_EMAIL := "a"
  const GUEST_EMAIL := "g"

  function At(n: nat): Draws {
    Draws(n, n, 10 + n, 10 + n, 10 + n, n)
  }

  /** Two registrations that go no further. */
  function Idle(): map<nat, Proc> {
    map[0 := Registered(11, ORG), 1 := Registered(12, ORG)]
  }

  /** User 11 is the admin of organization 13, and user 12 is in no organization. */
  function Founded13(): Db {
    Db(map[11 := ADMIN_EMAIL, 12 := GUEST_EMAIL], map[13 := ORG], map[(11, 13) := Admin], map[], map[],
       map[13 := 11], map[(11, 13) := Admin], map[], [], map[])
  }

  lemma Foundation() returns (tr: Trace)
    ensures Smooth(tr) && StateOf(tr) == State(Founded13(), Idle())
  {
    tr := Go(Nothing, Start(0, Register(ADMIN_EMAIL, ORG), At(1)));
    assert StateOf(tr) == State(EMPTY.(users := map[11 := ADMIN_EMAIL]), map[0 := Registered(11, ORG)]);
    tr := Go(tr, Start(1, Register(GUEST_EMAIL, ORG), At(2)));
    assert StateOf(tr) == State(EMPTY.(users := map[11 := ADMIN_EMAIL, 12 := GUEST_EMAIL]), Idle());
    tr := Go(tr, Start(2, CreateOrg(11, ORG), At(3)));
    tr := Go(tr, Continue(2, At(4)));
    assert StateOf(tr).procs == Idle();
  }

  const ASK := Invite(11, 13, GUEST_EMAIL, Member)

  function Invited(n: nat, st: InvStatus): Invitation {
    Invitation(13, GUEST_EMAIL, Member, n, st, 11, n + WEEK, n)
  }

  /** The database with invitation 18 at a status. */
  function With18(st: InvStatus): Db {
    Founded13().(invs := map[18 := Invited(8, st)], born := map[18 := Invited(8, Pending)])
  }

  // One turn of process pid beside the others

  lemma StartTo(tr: Trace, db: Db, others: map<nat, Proc>, pid: nat, r: Request, x: Draws, p: Proc)
    returns (longer: Trace)
    requires Smooth(tr) && StateOf(tr) == State(db, others) && pid !in others && Fresh(db, x)
    requires Begin(db, r, x) == Turn(db, More(p))
    ensures Smooth(longer) && StateOf(longer) == State(db, others[pid := p])
  {
    longer := Go(tr, Start(pid, r, x));
  }

  lemma ContinueTo(tr: Trace, db: Db, others: map<nat, Proc>, pid: nat, p: Proc, x: Draws, d: Db, q: Proc)
    returns (longer: Trace)
    requires Smooth(tr) && StateOf(tr) == State(db, others[pid := p]) && Fresh(db, x)
    requires Resume(db, p, x) == Turn(d, More(q))
    ensures Smooth(longer) && StateOf(longer) == State(d, others[pid := q])
  {
    longer := Go(tr, Continue(pid, x));
    assert others[pid := p][pid := q] == others[pid := q];
  }

  lemma ContinueToEnd(tr: Trace, db: Db, others: map<nat, Proc>, pid: nat, p: Proc, x: Draws, d: Db, reply: Reply)
    returns (longer: Trace)
    requires Smooth(tr) && StateOf(tr) == State(db, others[pid := p]) && pid !in others && Fresh(db, x)
    requires Resume(db, p, x) == Turn(d, Ended(reply))
    ensures Smooth(longer) && StateOf(longer) == State(d, others)
  {
    longer := Go(tr, Continue(pid, x));
    assert others[pid := p] - {pid} == others;
  }

  // What the lookups find

  lemma GuestFound(db: Db)
    requires db.users == Founded13().users
    ensures UserByEmail(db, GUEST_EMAIL) == Some(12)
  {
    assert 12 in db.users && db.users[12] == GUEST_EMAIL;
  }

  lemma Only18Found(st: InvStatus)
    ensures InvByToken(With18(st), 8) == Some(18)
    ensures InvByOrgAndEmail(With18(st), 13, GUEST_EMAIL) == Some(18)
  {
    var db := With18(st);
    assert 18 in db.invs && db.invs[18].token == 8 && db.invs[18].org == 13 && db.invs[18].email == GUEST_EMAIL;
  }

  lemma InsertFits(db: Db, i: InvId, inv: Invitation)
    requires db.invs == map[] && i !in db.born && inv.org in db.orgs && inv.invitedBy in db.users
    ensures InsertInvitation(db, i, inv) == Some(db.(invs := map[i := inv], born := db.born[i := inv]))
  {
  }

  /** The admin asks for the guest, up to the look for an earlier invitation. */
  lemma Asking(tr: Trace, db: Db, others: map<nat, Proc>, n: nat) returns (longer: Trace)
    requires Smooth(tr) && StateOf(tr) == State(db, others) && 2 !in others && Fresh(db, At(n)) && Fresh(db, At(n + 1))
    requires db.users == Founded13().users && db.members == Founded13().members
    ensures Smooth(longer) && StateOf(longer) == State(db, others[2 := InviteLookup(ASK)])
  {
    GuestFound(db);
    var asked := StartTo(tr, db, others, 2, CreateInvitation(11, 13, GUEST_EMAIL, None), At(n), InviteMember(ASK, 12));
    longer := ContinueTo(asked, db, others, 2, InviteMember(ASK, 12), At(n + 1), db, InviteLookup(ASK));
  }

  lemma AskFirst() returns (tr: Trace)
    ensures Smooth(tr) && StateOf(tr) == State(Founded13(), Idle()[2 := InviteLookup(ASK)])
  {
    var before := Foundation();
    tr := Asking(before, Founded13(), Idle(), 5);
  }

  lemma FirstInvited(x: Draws)
    ensures Resume(Founded13(), InviteLookup(ASK), x) == Turn(Founded13(), More(Inviting(ASK)))
    ensures Resume(Founded13(), Inviting(ASK), At(8)) == Turn(With18(Pending), Ended(Done))
  {
    InsertFits(Founded13(), 18, Invited(8, Pending));
    assert InvitationFor(ASK, At(8)) == Invited(8, Pending);
  }

  lemma FirstInvitation() returns (tr: Trace)
    ensures Smooth(tr) && StateOf(tr) == State(With18(Pending), Idle())
  {
    var asked := AskFirst();
    FirstInvited(At(7));
    var proposed := ContinueTo(asked, Founded13(), Idle(), 2, InviteLookup(ASK), At(7), Founded13(), Inviting(ASK));
    tr := ContinueToEnd(proposed, Founded13(), Idle(), 2, Inviting(ASK), At(8), With18(Pending), Done);
  }

  const READ := Invited(8, Pending)

  lemma AcceptFound() returns (tr: Trace)
    ensures Smooth(tr) && StateOf(tr) == State(With18(Pending), Idle()[3 := Found(12, 18, READ)])
  {
    var invited := FirstInvitation();
    Only18Found(Pending);
    tr := StartTo(invited, With18(Pending), Idle(), 3, AcceptInvitation(12, 8), At(9), Found(12, 18, READ));
  }

  lemma AcceptTurns(x: Draws)
    ensures Resume(With18(Pending), Found(12, 18, READ), x) == Turn(With18(Pending), More(Checked(12, 18, READ)))
    ensures Resume(With18(Pending), Checked(12, 18, READ), x) == Turn(With18(Pending), More(Joining(12, 18, READ)))
  {
  }

  /** The guest's accept stops just before its insert. */
  lemma AcceptHalfway() returns (tr: Trace)
    ensures Smooth(tr) && StateOf(tr) == State(With18(Pending), Halfway())
  {
    var found := AcceptFound();
    var db := With18(Pending);
    AcceptTurns(At(10));
    var checked := ContinueTo(found, db, Idle(), 3, Found(12, 18, READ), At(10), db, Checked(12, 18, READ));
    AcceptTurns(At(11));
    tr := ContinueTo(checked, db, Idle(), 3, Checked(12, 18, READ), At(11), db, Joining(12, 18, READ));
  }

  /** What is in flight from then on. */
  function Halfway(): map<nat, Proc> {
    Idle()[3 := Joining(12, 18, READ)]
  }

  lemma CancelTurns(x: Draws)
    ensures Begin(With18(Pending), CancelInvitation(11, 13, 18), x) == Turn(With18(Pending), More(Cancelling(18)))
    ensures Resume(With18(Pending), Cancelling(18), x) == Turn(With18(Cancelled), Ended(Done))
  {
    assert SetStatus(With18(Pending), 18, Cancelled) == With18(Cancelled);
  }

  /** The admin cancels the invitation. */
  lemma ThenCancelled() returns (tr: Trace)
    ensures Smooth(tr) && StateOf(tr) == State(With18(Cancelled), Halfway())
  {
    var joining := AcceptHalfway();
    CancelTurns(At(12));
    var cancelling := StartTo(joining, With18(Pending), Halfway(), 2, CancelInvitation(11, 13, 18), At(12), Cancelling(18));
    CancelTurns(At(13));
    tr := ContinueToEnd(cancelling, With18(Pending), Halfway(), 2, Cancelling(18), At(13), With18(Cancelled), Done);
  }

  lemma AskAgain() returns (tr: Trace)
    ensures Smooth(tr) && StateOf(tr) == State(With18(Cancelled), Halfway()[2 := InviteLookup(ASK)])
  {
    var cancelled := ThenCancelled();
    tr := Asking(cancelled, With18(Cancelled), Halfway(), 14);
  }

  function Deleted18(): Db {
    With18(Cancelled).(invs := map[])
  }

  lemma OldInvitationGoes(x: Draws)
    ensures Resume(With18(Cancelled), InviteLookup(ASK), x) == Turn(With18(Cancelled), More(InviteDeleting(ASK, 18)))
    ensures Resume(With18(Cancelled), InviteDeleting(ASK, 18), x) == Turn(Deleted18(), More(Inviting(ASK)))
  {
    Only18Found(Cancelled);
    assert DeleteInvitation(With18(Cancelled), 18) == Deleted18();
  }

  lemma InviteAgain() returns (tr: Trace)
    ensures Smooth(tr) && StateOf(tr) == State(Deleted18(), Halfway()[2 := Inviting(ASK)])
  {
    var asked := AskAgain();
    var db := With18(Cancelled);
    OldInvitationGoes(At(16));
    var deleting := ContinueTo(asked, db, Halfway(), 2, InviteLookup(ASK), At(16), db, InviteDeleting(ASK, 18));
    OldInvitationGoes(At(17));
    tr := ContinueTo(deleting, db, Halfway(), 2, InviteDeleting(ASK, 18), At(17), Deleted18(), Inviting(ASK));
  }

  // The crossing itself, from any state

  /** An accept j and an invite k for the same email and organization are both about to insert,
      and either insert would succeed. */
  ghost predicate Meet(s: State, j: nat, k: nat, y: Draws) {
    && j in s.procs && k in s.procs && s.procs[j].Joining? && s.procs[k].Inviting?
    && s.procs[k].ask.org == s.procs[j].snap.org && s.procs[k].ask.email == s.procs[j].snap.email
    && InsertJoin(s.db, s.procs[j].inv, s.procs[j].user, s.procs[j].snap).Some?
    && InsertInvitation(s.db, y.inv, InvitationFor(s.procs[k].ask, y)).Some?
  }

  function JoinedDb(db: Db, p: Proc): Db
    requires p.Joining? && InsertJoin(db, p.inv, p.user, p.snap).Some?
  {
    InsertJoin(db, p.inv, p.user, p.snap).value
  }

  predicate SameUsers(db: Db, d: Db) {
    d.users == db.users && d.members == db.members
  }

  /** The invitation that k was about to insert is pending, and the user of j is a member. */
  ghost predicate Clash(s: State, t: State, j: nat, k: nat, y: Draws)
    requires Meet(s, j, k, y)
  {
    && y.inv in t.db.invs && t.db.invs[y.inv] == InvitationFor(s.procs[k].ask, y)
    && t.db.users == s.db.users && (s.procs[j].user, s.procs[j].snap.org) in t.db.members
  }

  function AcceptingNext(p: Proc): Proc
    requires p.Joining?
  {
    Accepting(p.user, p.inv, p.snap)
  }

  lemma JoinHappens(s: State, j: nat, x: Draws)
    requires CanHappen(s, Continue(j, x)) && s.procs[j].Joining?
    requires InsertJoin(s.db, s.procs[j].inv, s.procs[j].user, s.procs[j].snap).Some?
    ensures Happen(s, Continue(j, x)) == State(JoinedDb(s.db, s.procs[j]), s.procs[j := AcceptingNext(s.procs[j])])
  {
  }

  lemma JoinLeavesRoom(db: Db, p: Proc, y: Draws, inv: Invitation)
    requires p.Joining? && Relies(db, p) && InsertJoin(db, p.inv, p.user, p.snap).Some?
    ensures var d := JoinedDb(db, p);
      && (Fresh(d, y) <==> Fresh(db, y)) && d.born == db.born && d.users == db.users && (p.user, p.snap.org) in d.members
      && (InsertInvitation(d, y.inv, inv).Some? <==> InsertInvitation(db, y.inv, inv).Some?)
      && !NoMember(d, p.snap.email, p.snap.org)
  {
    assert p.user in JoinedDb(db, p).users;
  }

  lemma InviteHappens(s: State, k: nat, y: Draws)
    requires CanHappen(s, Continue(k, y)) && s.procs[k].Inviting?
    requires InsertInvitation(s.db, y.inv, InvitationFor(s.procs[k].ask, y)).Some?
    ensures var t := Happen(s, Continue(k, y));
      && t.procs == s.procs - {k} && t.db.born.Keys == s.db.born.Keys + {y.inv}
      && SameUsers(s.db, t.db) && t.db.founders == s.db.founders
      && y.inv in t.db.invs && t.db.invs[y.inv] == InvitationFor(s.procs[k].ask, y)
  {
  }

  lemma AcceptHappens(s: State, j: nat, z: Draws, i: InvId)
    requires CanHappen(s, Continue(j, z)) && s.procs[j].Accepting? && s.procs[j].inv != i && Pends(s.db, i)
    ensures var t := Happen(s, Continue(j, z));
      t.procs == s.procs - {j} && SameUsers(s.db, t.db) && Pends(t.db, i) && t.db.invs[i] == s.db.invs[i]
  {
  }

  lemma MeetingJoined(tr: Trace, j: nat, k: nat, x: Draws, y: Draws) returns (joined: Trace)
    requires Possible(tr) && Meet(StateOf(tr), j, k, y) && Fresh(StateOf(tr).db, x)
    ensures joined == After(tr, Continue(j, x)) && Possible(joined) && StateOf(tr).procs[j].inv in StateOf(tr).db.born
    ensures var s, t := StateOf(tr), StateOf(joined);
      && t.procs == s.procs[j := AcceptingNext(s.procs[j])] && t.db.born == s.db.born
      && (forall z :: Fresh(s.db, z) ==> Fresh(t.db, z))
      && InsertInvitation(t.db, y.inv, InvitationFor(s.procs[k].ask, y)).Some?
      && !NoMember(t.db, s.procs[k].ask.email, s.procs[k].ask.org)
      && t.db.users == s.db.users && (s.procs[j].user, s.procs[j].snap.org) in t.db.members
  {
    var s := StateOf(tr);
    AlwaysSafe(tr);
    assert Relies(s.db, s.procs[j]);
    JoinHappens(s, j, x);
    JoinLeavesRoom(s.db, s.procs[j], y, InvitationFor(s.procs[k].ask, y));
    joined := After(tr, Continue(j, x));
  }

  /** The accept joins, then the invite inserts. */
  lemma MeetingCrosses(tr: Trace, j: nat, k: nat, x: Draws, y: Draws) returns (crossed: Trace)
    requires Possible(tr) && Meet(StateOf(tr), j, k, y) && Fresh(StateOf(tr).db, x) && Fresh(StateOf(tr).db, y)
    ensures crossed == After(After(tr, Continue(j, x)), Continue(k, y)) && Possible(crossed) && Crossed(crossed, y.inv)
    ensures var s, t := StateOf(tr), StateOf(crossed);
      && t.procs == s.procs[j := AcceptingNext(s.procs[j])] - {k}
      && Clash(s, t, j, k, y) && s.procs[j].inv != y.inv
      && (forall z :: Fresh(s.db, z) && z.inv != y.inv ==> Fresh(t.db, z))
  {
    var joined := MeetingJoined(tr, j, k, x, y);
    var t := StateOf(joined);
    assert t.procs[k] == StateOf(tr).procs[k];
    InviteHappens(t, k, y);
    crossed := After(joined, Continue(k, y));
    assert InvitesMember(t.db, t.procs[k], y, y.inv);
  }

  lemma ThreeTurns(tr: Trace, j: nat, k: nat, x: Draws, y: Draws, z: Draws)
    ensures var longer := After(After(After(tr, Continue(j, x)), Continue(k, y)), Continue(j, z));
      Extends(longer, tr) && (NoFailures(tr) ==> NoFailures(longer))
  {
    var one := After(tr, Continue(j, x));
    var two := After(one, Continue(k, y));
    assert Extends(one, tr) && Extends(two, tr);
    assert NoFailures(tr) ==> NoFailures(one) && NoFailures(two);
  }

  lemma AcceptEnds(tr: Trace, j: nat, z: Draws, i: InvId)
    requires Possible(tr) && Crossed(tr, i) && Pends(StateOf(tr).db, i) && Fresh(StateOf(tr).db, z)
    requires j in StateOf(tr).procs && StateOf(tr).procs[j].Accepting? && StateOf(tr).procs[j].inv != i
    ensures var longer := After(tr, Continue(j, z));
      && Possible(longer) && Crossed(longer, i) && StateOf(longer).procs == StateOf(tr).procs - {j}
      && SameUsers(StateOf(tr).db, StateOf(longer).db) && Pends(StateOf(longer).db, i)
      && StateOf(longer).db.invs[i] == StateOf(tr).db.invs[i]
  {
    AcceptHappens(StateOf(tr), j, z, i);
  }

  lemma TwoRemoved(procs: map<nat, Proc>, j: nat, k: nat, p: Proc)
    ensures procs[j := p] - {k} - {j} == procs - {j, k}
  {
  }

  /** Wherever the two meet, the accept can join, the invite insert and the accept end, with no
      failure, and what is left is a pending invitation for a member. */
  lemma EveryMeetingCanCross(tr: Trace, j: nat, k: nat, x: Draws, y: Draws, z: Draws) returns (longer: Trace)
    requires Possible(tr) && Meet(StateOf(tr), j, k, y) && Fresh(StateOf(tr).db, x) && Fresh(StateOf(tr).db, y)
    requires Fresh(StateOf(tr).db, z) && z.inv != y.inv
    ensures Possible(longer) && Extends(longer, tr) && (NoFailures(tr) ==> NoFailures(longer))
    ensures StateOf(longer).procs == StateOf(tr).procs - {j, k}
    ensures Crossed(longer, y.inv) && Clash(StateOf(tr), StateOf(longer), j, k, y)
  {
    var crossed := MeetingCrosses(tr, j, k, x, y);
    AcceptEnds(crossed, j, z, y.inv);
    ThreeTurns(tr, j, k, x, y, z);
    longer := After(crossed, Continue(j, z));
    TwoRemoved(StateOf(tr).procs, j, k, AcceptingNext(StateOf(tr).procs[j]));
  }

  /** Where the accept and the second invite stand. */
  function BothHalfway(): State {
    State(Deleted18(), Halfway()[2 := Inviting(ASK)])
  }

  lemma BothFit()
    ensures Meet(BothHalfway(), 3, 2, At(19)) && BothHalfway().procs - {3, 2} == Idle()
  {
    InsertFits(Deleted18(), 29, InvitationFor(ASK, At(19)));
  }

  lemma AcceptAndInviteMeet() returns (tr: Trace)
    ensures Smooth(tr) && StateOf(tr) == BothHalfway()
  {
    tr := InviteAgain();
  }

  /** Invitation 29 to organization 13 is pending for user 12, who is a member of it. */
  predicate ClashOf12(db: Db) {
    && 29 in db.invs && db.invs[29] == Invited(19, Pending)
    && 12 in db.users && db.users[12] == GUEST_EMAIL && (12, 13) in db.members
  }

  lemma AcceptAndInviteCross() returns (tr: Trace)
    ensures Smooth(tr) && StateOf(tr).procs == Idle() && Crossed(tr, 29)
    ensures ClashOf12(StateOf(tr).db)
  {
    var both := AcceptAndInviteMeet();
    BothFit();
    tr := EveryMeetingCanCross(both, 3, 2, At(18), At(19), At(20));
    ClashIsOf12(StateOf(tr));
  }

  lemma ClashIsOf12(t: State)
    requires Meet(BothHalfway(), 3, 2, At(19)) && Clash(BothHalfway(), t, 3, 2, At(19))
    ensures ClashOf12(t.db)
  {
    assert InvitationFor(ASK, At(19)) == Invited(19, Pending);
  }

  /** An interleaving without any failure, after which both requests are done and the guest is a
      member with a pending invitation, for as long as nobody changes that invitation. */
  lemma MemberWithPendingInvitation() returns (tr: Trace)
    ensures Smooth(tr) && StateOf(tr).procs == Idle()
    ensures ClashOf12(StateOf(tr).db)
    ensures forall longer :: Possible(longer) && Extends(longer, tr) && Pends(StateOf(longer).db, 29) ==>
      HasMember(StateOf(longer).db, 29)
  {
    tr := AcceptAndInviteCross();
    forall longer | Possible(longer) && Extends(longer, tr) && Pends(StateOf(longer).db, 29)
      ensures HasMember(StateOf(longer).db, 29)
    {
      CrossedLasts(longer, tr, 29);
    }
  }
}
