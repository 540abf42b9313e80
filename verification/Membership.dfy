/** Workspaces, memberships and invitations under interleaved handlers. Every handler
    reads and checks first and writes later; an acceptance writes in one transaction. */
module Membership {
  import opened Common

  datatype Role = OWNER | ADMIN | MEMBER | VIEWER

  datatype Status = PENDING | ACCEPTED | DECLINED

  /** How a membership came about. */
  datatype Origin = Founded | Added | Invited(invitation: nat)

  datatype Member = Member(workspace: nat, user: nat, role: Role, origin: Origin)

  datatype Invitation = Invitation(workspace: nat, invitee: nat, role: Role, expiresAt: int, status: Status)

  /** A handler whose checks have passed and whose write is still to come. */
  datatype Handler =
    | Founding(workspace: nat)
    | Adding(workspace: nat, user: nat, role: Role)
    | Inviting(workspace: nat, user: nat, role: Role, expiresAt: int)
    | Accepting(invitation: nat)
    | Declining(invitation: nat)

  type Members = map<nat, Member>
  type Invitations = map<nat, Invitation>

  /** `owners` is the workspaces with their owner, `changes` every status an invitation
      was given after PENDING. */
  datatype State = State(
    owners: map<nat, nat>, members: Members, invitations: Invitations, handlers: map<nat, Handler>,
    changes: seq<(nat, Status)>)

  const INIT := State(map[], map[], map[], map[], [])

  datatype Event =
    | Found(handler: nat, workspace: nat, owner: nat)
    | StartAdd(handler: nat, workspace: nat, actor: nat, user: nat, role: Role)
    | StartInvite(handler: nat, workspace: nat, actor: nat, user: nat, role: Role, expiresAt: int)
    | StartAccept(handler: nat, invitation: nat, user: nat, now: int)
    | StartDecline(handler: nat, invitation: nat, user: nat, now: int)
    | Write(handler: nat, id: nat)
    | Stop(handler: nat)

  // ------------------------------------------------ the collections

  predicate Belongs(members: Members, m: nat, workspace: nat, user: nat) {
    m in members && members[m].workspace == workspace && members[m].user == user
  }

  predicate IsMember(members: Members, workspace: nat, user: nat) {
    exists m :: m in members && Belongs(members, m, workspace, user)
  }

  /** An insert under the unique index on workspace and user. */
  function AfterInsert(members: Members, id: nat, m: Member): Members {
    if id in members || IsMember(members, m.workspace, m.user) then members else members[id := m]
  }

  /** The update of a status that is still PENDING; no one looks whether it matched. */
  function AfterMark(invitations: Invitations, id: nat, status: Status): Invitations {
    if id in invitations && invitations[id].status == PENDING
    then invitations[id := invitations[id].(status := status)] else invitations
  }

  function MarkHistory(invitations: Invitations, id: nat, status: Status): seq<(nat, Status)> {
    if id in invitations && invitations[id].status == PENDING then [(id, status)] else []
  }

  /** The checks of the accept and decline handlers. */
  predicate MayAnswer(s: State, invitation: nat, user: nat, now: int) {
    && invitation in s.invitations && s.invitations[invitation].invitee == user
    && s.invitations[invitation].status == PENDING && now <= s.invitations[invitation].expiresAt
  }

  // ------------------------------------------------ steps

  function Begin(s: State, h: nat, handler: Handler): State { s.(handlers := s.handlers[h := handler]) }

  function OnFound(s: State, h: nat, workspace: nat, owner: nat): State {
    if h in s.handlers || workspace in s.owners then s
    else Begin(s.(owners := s.owners[workspace := owner]), h, Founding(workspace))
  }

  function OnStartAdd(s: State, h: nat, workspace: nat, actor: nat, user: nat, role: Role): State {
    if h in s.handlers || workspace !in s.owners || !IsMember(s.members, workspace, actor) || role == OWNER
       || IsMember(s.members, workspace, user) then s
    else Begin(s, h, Adding(workspace, user, role))
  }

  /** Whether a pending invitation is found does not matter: it is read from a cache. */
  function OnStartInvite(s: State, h: nat, workspace: nat, actor: nat, user: nat, role: Role, expiresAt: int): State {
    if h in s.handlers || workspace !in s.owners || !IsMember(s.members, workspace, actor) || role == OWNER
       || IsMember(s.members, workspace, user) then s
    else Begin(s, h, Inviting(workspace, user, role, expiresAt))
  }

  function OnStartAccept(s: State, h: nat, invitation: nat, user: nat, now: int): State {
    if h in s.handlers || !MayAnswer(s, invitation, user, now)
       || IsMember(s.members, s.invitations[invitation].workspace, user) then s
    else Begin(s, h, Accepting(invitation))
  }

  function OnStartDecline(s: State, h: nat, invitation: nat, user: nat, now: int): State {
    if h in s.handlers || !MayAnswer(s, invitation, user, now) then s else Begin(s, h, Declining(invitation))
  }

  function Insert(s: State, id: nat, m: Member): State { s.(members := AfterInsert(s.members, id, m)) }

  function OnMark(s: State, id: nat, status: Status): State {
    s.(invitations := AfterMark(s.invitations, id, status), changes := s.changes + MarkHistory(s.invitations, id, status))
  }

  function InvitedMember(i: Invitation, id: nat): Member { Member(i.workspace, i.invitee, i.role, Invited(id)) }

  /** The transaction: a membership the index refuses aborts it. */
  function OnAccept(s: State, id: nat, invitation: nat): State {
    if invitation !in s.invitations then s
    else
      var inserted := Insert(s, id, InvitedMember(s.invitations[invitation], invitation));
      if inserted.members == s.members then s else OnMark(inserted, invitation, ACCEPTED)
  }

  function OnWrite(s: State, h: nat, id: nat): State {
    if h !in s.handlers then s
    else
      var ended := s.(handlers := s.handlers - {h});
      match s.handlers[h]
      case Founding(workspace) =>
        if workspace in s.owners then Insert(ended, id, Member(workspace, s.owners[workspace], OWNER, Founded)) else ended
      case Adding(workspace, user, role) => Insert(ended, id, Member(workspace, user, role, Added))
      case Inviting(workspace, user, role, expiresAt) =>
        if id in s.invitations then ended
        else ended.(invitations := s.invitations[id := Invitation(workspace, user, role, expiresAt, PENDING)])
      case Accepting(invitation) => OnAccept(ended, id, invitation)
      case Declining(invitation) => OnMark(ended, invitation, DECLINED)
  }

  function Step(s: State, e: Event): State {
    match e
    case Found(h, workspace, owner) => OnFound(s, h, workspace, owner)
    case StartAdd(h, workspace, actor, user, role) => OnStartAdd(s, h, workspace, actor, user, role)
    case StartInvite(h, workspace, actor, user, role, expiresAt) => OnStartInvite(s, h, workspace, actor, user, role, expiresAt)
    case StartAccept(h, invitation, user, now) => OnStartAccept(s, h, invitation, user, now)
    case StartDecline(h, invitation, user, now) => OnStartDecline(s, h, invitation, user, now)
    case Write(h, id) => OnWrite(s, h, id)
    case Stop(h) => s.(handlers := s.handlers - {h})
  }

  function Run(s: State, es: seq<Event>): State {
    if es == [] then s else Step(Run(s, es[..|es| - 1]), es[|es| - 1])
  }

  ghost predicate Reachable(s: State) { exists es :: s == Run(INIT, es) }

  // ------------------------------------------------ invariant

  ghost predicate Unique(members: Members) {
    forall m, n, w, u :: Belongs(members, m, w, u) && Belongs(members, n, w, u) ==> m == n
  }

  predicate Owning(members: Members, m: nat, workspace: nat) {
    m in members && members[m].workspace == workspace && members[m].role == OWNER
  }

  ghost predicate HasOwner(members: Members, workspace: nat) {
    exists m :: Owning(members, m, workspace)
  }

  /** Only the founder's membership is an owner's, and every workspace with anyone or
      anything in it has it. */
  ghost predicate MemberSound(s: State, m: nat) {
    m in s.members ==>
      var x := s.members[m];
      && x.workspace in s.owners && HasOwner(s.members, x.workspace)
      && (x.role == OWNER ==> x.user == s.owners[x.workspace])
      && (x.origin.Invited? ==>
            x.origin.invitation in s.invitations && s.invitations[x.origin.invitation].status != PENDING
            && x == InvitedMember(s.invitations[x.origin.invitation], x.origin.invitation))
  }

  ghost predicate Joined(s: State, m: nat, i: nat) {
    m in s.members && i in s.invitations && s.members[m] == InvitedMember(s.invitations[i], i)
  }

  ghost predicate InvitationSound(s: State, i: nat) {
    i in s.invitations ==>
      && s.invitations[i].role != OWNER && HasOwner(s.members, s.invitations[i].workspace)
      && s.invitations[i].workspace in s.owners
      && (s.invitations[i].status == ACCEPTED ==> exists m :: Joined(s, m, i))
  }

  ghost predicate HandlerSound(s: State, h: nat) {
    h in s.handlers ==>
      match s.handlers[h]
      case Founding(w) => w in s.owners
      case Adding(w, _, role) => w in s.owners && HasOwner(s.members, w) && role != OWNER
      case Inviting(w, _, role, _) => w in s.owners && HasOwner(s.members, w) && role != OWNER
      case Accepting(i) => i in s.invitations
      case Declining(i) => i in s.invitations
  }

  /** The status of an invitation is its one change, if it had one. */
  ghost predicate ChangesSound(s: State) {
    && (forall j :: 0 <= j < |s.changes| ==> s.changes[j].0 in s.invitations && s.invitations[s.changes[j].0].status == s.changes[j].1)
    && (forall j :: 0 <= j < |s.changes| ==> s.changes[j].1 != PENDING)
    && (forall j, k :: 0 <= j < k < |s.changes| ==> s.changes[j].0 != s.changes[k].0)
  }

  ghost predicate Inv(s: State) {
    && Unique(s.members) && ChangesSound(s)
    && forall n :: MemberSound(s, n) && InvitationSound(s, n) && HandlerSound(s, n)
  }

  // ------------------------------------------------ how steps keep it

  /** Members are added, invitations keep all but their status, which moves once. */
  ghost predicate Grows(s: State, t: State) {
    && (forall w :: w in s.owners ==> w in t.owners && t.owners[w] == s.owners[w])
    && (forall m :: m in s.members ==> m in t.members && t.members[m] == s.members[m])
    && (forall i :: i in s.invitations ==>
          i in t.invitations && t.invitations[i].(status := s.invitations[i].status) == s.invitations[i]
          && (s.invitations[i].status != PENDING ==> t.invitations[i] == s.invitations[i]))
  }

  lemma WriteGrows(s: State, h: nat, id: nat)
    ensures Grows(s, OnWrite(s, h, id))
  {
  }

  lemma StepGrows(s: State, e: Event)
    ensures Grows(s, Step(s, e))
  {
    if e.Write? { WriteGrows(s, e.handler, e.id); }
  }

  lemma OwnerStays(s: State, t: State, w: nat)
    requires Grows(s, t) && HasOwner(s.members, w)
    ensures HasOwner(t.members, w)
  {
    var m :| Owning(s.members, m, w);
    assert Owning(t.members, m, w);
  }

  lemma MemberStays(s: State, t: State, m: nat)
    requires Grows(s, t) && MemberSound(s, m) && m in s.members
    ensures MemberSound(t, m)
  {
    OwnerStays(s, t, s.members[m].workspace);
  }

  lemma InvitationStays(s: State, t: State, i: nat)
    requires Grows(s, t) && InvitationSound(s, i) && i in s.invitations
    requires t.invitations[i].status == ACCEPTED ==> s.invitations[i].status == ACCEPTED
    ensures InvitationSound(t, i)
  {
    OwnerStays(s, t, s.invitations[i].workspace);
    if s.invitations[i].status == ACCEPTED {
      var m :| Joined(s, m, i);
      assert Joined(t, m, i);
    }
  }

  lemma HandlerStays(s: State, t: State, h: nat)
    requires Grows(s, t) && HandlerSound(s, h) && h in s.handlers && h in t.handlers && t.handlers[h] == s.handlers[h]
    ensures HandlerSound(t, h)
  {
    match s.handlers[h]
    case Adding(w, _, _) => OwnerStays(s, t, w);
    case Inviting(w, _, _, _) => OwnerStays(s, t, w);
    case _ =>
  }

  lemma InsertKeepsUnique(members: Members, id: nat, m: Member)
    requires Unique(members)
    ensures Unique(AfterInsert(members, id, m))
  {
    var after := AfterInsert(members, id, m);
    if after != members {
      forall x, y, w, u | Belongs(after, x, w, u) && Belongs(after, y, w, u) ensures x == y {
        if x != id { assert Belongs(members, x, w, u); }
        if y != id { assert Belongs(members, y, w, u); }
      }
    }
  }

  lemma MarkKeepsChanges(s: State, id: nat, status: Status)
    requires ChangesSound(s) && status != PENDING
    ensures ChangesSound(OnMark(s, id, status))
  {
  }

  /** A member of the workspace is there, so its owner is. */
  lemma MembersShowOwner(s: State, w: nat, u: nat)
    requires Inv(s) && IsMember(s.members, w, u)
    ensures HasOwner(s.members, w)
  {
    var m :| m in s.members && Belongs(s.members, m, w, u);
    assert MemberSound(s, m);
  }

  /** A step that starts a handler. */
  lemma StartKeepsInv(s: State, e: Event)
    requires Inv(s) && !e.Write?
    ensures Inv(Step(s, e))
  {
    var t := Step(s, e);
    StepGrows(s, e);
    forall n ensures MemberSound(t, n) && InvitationSound(t, n) && HandlerSound(t, n) {
      StartKeepsSound(s, e, n);
    }
  }

  lemma StartKeepsSound(s: State, e: Event, n: nat)
    requires Inv(s) && !e.Write? && Grows(s, Step(s, e))
    ensures var t := Step(s, e); MemberSound(t, n) && InvitationSound(t, n) && HandlerSound(t, n)
  {
    var t := Step(s, e);
    assert MemberSound(s, n) && InvitationSound(s, n) && HandlerSound(s, n);
    if n in s.members { MemberStays(s, t, n); }
    if n in s.invitations { InvitationStays(s, t, n); }
    if n in s.handlers && n in t.handlers { HandlerStays(s, t, n); }
    if n !in s.handlers && n in t.handlers { StartedSound(s, e, n); }
  }

  lemma StartedSound(s: State, e: Event, h: nat)
    requires Inv(s) && !e.Write? && h !in s.handlers && h in Step(s, e).handlers
    ensures HandlerSound(Step(s, e), h)
  {
    match e
    case StartAdd(_, w, actor, _, _) => MembersShowOwner(s, w, actor);
    case StartInvite(_, w, actor, _, _, _) => MembersShowOwner(s, w, actor);
    case _ =>
  }

  /** A write that inserts one membership at most, and changes no invitation. */
  lemma InsertKeepsInv(s: State, t: State, id: nat, m: Member)
    requires Inv(s) && t == s.(handlers := t.handlers, members := AfterInsert(s.members, id, m)) && HandlersFewer(s, t)
    requires m.workspace in s.owners && !m.origin.Invited?
    requires if m.role == OWNER then m.user == s.owners[m.workspace] else HasOwner(s.members, m.workspace)
    ensures Inv(t)
  {
    InsertKeepsUnique(s.members, id, m);
    assert Grows(s, t);
    forall n ensures MemberSound(t, n) && InvitationSound(t, n) && HandlerSound(t, n) {
      assert MemberSound(s, n) && InvitationSound(s, n) && HandlerSound(s, n);
      if n in s.members { MemberStays(s, t, n); }
      if n in s.invitations { InvitationStays(s, t, n); }
      if n in t.handlers { HandlerStays(s, t, n); }
      if n in t.members && n !in s.members { NewMemberSound(s, t, n, m); }
    }
  }

  predicate HandlersFewer(s: State, t: State) {
    forall h :: h in t.handlers ==> h in s.handlers && t.handlers[h] == s.handlers[h]
  }

  lemma NewMemberSound(s: State, t: State, id: nat, m: Member)
    requires Grows(s, t) && t.owners == s.owners && id in t.members && t.members[id] == m && m.workspace in s.owners
    requires !m.origin.Invited?
    requires if m.role == OWNER then m.user == s.owners[m.workspace] else HasOwner(s.members, m.workspace)
    ensures MemberSound(t, id)
  {
    if m.role == OWNER { assert Owning(t.members, id, m.workspace); } else { OwnerStays(s, t, m.workspace); }
  }

  lemma InviteKeepsInv(s: State, t: State, id: nat, i: Invitation)
    requires Inv(s) && id !in s.invitations && HandlersFewer(s, t)
    requires t == s.(handlers := t.handlers, invitations := s.invitations[id := i])
    requires i.workspace in s.owners && HasOwner(s.members, i.workspace) && i.role != OWNER && i.status == PENDING
    ensures Inv(t)
  {
    assert Grows(s, t);
    forall n ensures MemberSound(t, n) && InvitationSound(t, n) && HandlerSound(t, n) {
      assert MemberSound(s, n) && InvitationSound(s, n) && HandlerSound(s, n);
      if n in s.members { MemberStays(s, t, n); }
      if n in s.invitations { InvitationStays(s, t, n); }
      if n in t.handlers { HandlerStays(s, t, n); }
    }
  }

  lemma DeclineKeepsInv(s: State, t: State, id: nat)
    requires Inv(s) && HandlersFewer(s, t) && t == OnMark(s.(handlers := t.handlers), id, DECLINED)
    ensures Inv(t)
  {
    MarkKeepsChanges(s, id, DECLINED);
    assert Grows(s, t);
    forall n ensures MemberSound(t, n) && InvitationSound(t, n) && HandlerSound(t, n) {
      assert MemberSound(s, n) && InvitationSound(s, n) && HandlerSound(s, n);
      if n in s.members { MemberStays(s, t, n); }
      if n in s.invitations { InvitationStays(s, t, n); }
      if n in t.handlers { HandlerStays(s, t, n); }
    }
  }

  /** The committed transaction. */
  ghost predicate Accepts(s: State, t: State, id: nat, i: nat) {
    && HandlersFewer(s, t) && i in s.invitations && id !in s.members
    && !IsMember(s.members, s.invitations[i].workspace, s.invitations[i].invitee)
    && t == OnMark(Insert(s.(handlers := t.handlers), id, InvitedMember(s.invitations[i], i)), i, ACCEPTED)
  }

  lemma AcceptJoins(s: State, t: State, id: nat, i: nat)
    requires Inv(s) && Accepts(s, t, id, i)
    ensures Joined(t, id, i) && MemberSound(t, id) && InvitationSound(t, i) && Grows(s, t)
  {
    assert InvitationSound(s, i);
    assert Grows(s, t);
    assert Joined(t, id, i);
    OwnerStays(s, t, s.invitations[i].workspace);
  }

  lemma AcceptKeepsInv(s: State, t: State, id: nat, i: nat)
    requires Inv(s) && Accepts(s, t, id, i)
    ensures Inv(t)
  {
    AcceptJoins(s, t, id, i);
    InsertKeepsUnique(s.members, id, InvitedMember(s.invitations[i], i));
    MarkKeepsChanges(s, i, ACCEPTED);
    forall n ensures MemberSound(t, n) && InvitationSound(t, n) && HandlerSound(t, n) {
      assert MemberSound(s, n) && InvitationSound(s, n) && HandlerSound(s, n);
      if n in s.members { MemberStays(s, t, n); }
      if n == i { assert Joined(t, id, n); } else if n in s.invitations { InvitationStays(s, t, n); }
      if n in t.handlers { HandlerStays(s, t, n); }
    }
  }

  lemma QuitKeepsInv(s: State, t: State)
    requires Inv(s) && t == s.(handlers := t.handlers) && HandlersFewer(s, t)
    ensures Inv(t)
  {
    assert Grows(s, t);
    forall n ensures MemberSound(t, n) && InvitationSound(t, n) && HandlerSound(t, n) {
      assert MemberSound(s, n) && InvitationSound(s, n) && HandlerSound(s, n);
      if n in s.invitations { InvitationStays(s, t, n); }
      if n in t.handlers { HandlerStays(s, t, n); }
    }
  }

  lemma WriteKeepsInv(s: State, h: nat, id: nat)
    requires Inv(s)
    ensures Inv(OnWrite(s, h, id))
  {
    if h in s.handlers {
      var t := OnWrite(s, h, id);
      assert HandlerSound(s, h);
      match s.handlers[h]
      case Founding(w) => InsertKeepsInv(s, t, id, Member(w, s.owners[w], OWNER, Founded));
      case Adding(w, u, role) => InsertKeepsInv(s, t, id, Member(w, u, role, Added));
      case Inviting(w, u, role, expiresAt) =>
        if id in s.invitations { QuitKeepsInv(s, t); }
        else { InviteKeepsInv(s, t, id, Invitation(w, u, role, expiresAt, PENDING)); }
      case Accepting(i) => WriteAcceptKeepsInv(s, h, id, i);
      case Declining(i) => DeclineKeepsInv(s, t, i);
    }
  }

  lemma WriteAcceptKeepsInv(s: State, h: nat, id: nat, i: nat)
    requires Inv(s) && h in s.handlers && s.handlers[h] == Accepting(i) && i in s.invitations
    ensures Inv(OnWrite(s, h, id))
  {
    var t := OnWrite(s, h, id);
    var m := InvitedMember(s.invitations[i], i);
    if id in s.members || IsMember(s.members, m.workspace, m.user) {
      QuitKeepsInv(s, t);
    } else {
      assert Insert(s, id, m).members[id] == m;
      AcceptKeepsInv(s, t, id, i);
    }
  }

  lemma {:induction false} RunKeepsInv(es: seq<Event>)
    ensures Inv(Run(INIT, es))
  {
    if es != [] {
      var s, e := Run(INIT, es[..|es| - 1]), es[|es| - 1];
      RunKeepsInv(es[..|es| - 1]);
      if e.Write? { WriteKeepsInv(s, e.handler, e.id); } else { StartKeepsInv(s, e); }
    }
  }

  lemma ReachableInv(s: State)
    requires Reachable(s)
    ensures Inv(s)
  {
    var es :| s == Run(INIT, es);
    RunKeepsInv(es);
  }

  // ------------------------------------------------ main results

  /** A user has at most one membership in a workspace. */
  lemma OneMembership(s: State, m: nat, n: nat)
    requires Reachable(s) && m in s.members && n in s.members
    requires s.members[m].workspace == s.members[n].workspace && s.members[m].user == s.members[n].user
    ensures m == n
  {
    ReachableInv(s);
    assert Belongs(s.members, m, s.members[m].workspace, s.members[m].user);
    assert Belongs(s.members, n, s.members[m].workspace, s.members[m].user);
  }

  /** A workspace has at most one OWNER, its creator, and has it as soon as anyone is a
      member or invited. */
  lemma OneOwner(s: State, m: nat, n: nat)
    requires Reachable(s) && m in s.members && s.members[m].role == OWNER
    ensures s.members[m].workspace in s.owners && s.members[m].user == s.owners[s.members[m].workspace]
    ensures n in s.members && s.members[n].workspace == s.members[m].workspace && s.members[n].role == OWNER ==> m == n
  {
    ReachableInv(s);
    assert MemberSound(s, m) && MemberSound(s, n);
    if n in s.members && s.members[n].workspace == s.members[m].workspace && s.members[n].role == OWNER {
      OneMembership(s, m, n);
    }
  }

  lemma OwnerComesFirst(s: State, w: nat)
    requires Reachable(s)
    requires (exists m :: m in s.members && s.members[m].workspace == w) || (exists i :: i in s.invitations && s.invitations[i].workspace == w)
    ensures HasOwner(s.members, w)
  {
    ReachableInv(s);
    if m :| m in s.members && s.members[m].workspace == w {
      assert MemberSound(s, m);
    } else {
      var i :| i in s.invitations && s.invitations[i].workspace == w;
      assert InvitationSound(s, i);
    }
  }

  /** ACCEPTED means that the invited user is a member with the invited role, through
      this invitation; and whoever joined through an invitation, it is not pending. */
  lemma AcceptedMeansJoined(s: State, i: nat)
    requires Reachable(s) && i in s.invitations
    ensures s.invitations[i].status == ACCEPTED ==>
              exists m :: m in s.members && s.members[m] == Member(s.invitations[i].workspace, s.invitations[i].invitee,
                                                                   s.invitations[i].role, Invited(i))
    ensures (exists m :: Joined(s, m, i)) ==> s.invitations[i].status != PENDING
  {
    ReachableInv(s);
    assert InvitationSound(s, i);
    if s.invitations[i].status == ACCEPTED {
      var m :| Joined(s, m, i);
      assert m in s.members;
    }
    if m :| Joined(s, m, i) { assert MemberSound(s, m); }
  }

  /** An invitation leaves PENDING at most once, over every continuation. */
  lemma LeavesPendingOnce(s: State, j: nat, k: nat)
    requires Reachable(s) && j < |s.changes| && k < |s.changes| && s.changes[j].0 == s.changes[k].0
    ensures j == k && s.changes[j].0 in s.invitations && s.invitations[s.changes[j].0].status == s.changes[j].1
  {
    ReachableInv(s);
  }

  lemma {:induction false} AnsweredStays(s: State, es: seq<Event>, i: nat)
    requires i in s.invitations && s.invitations[i].status != PENDING
    ensures i in Run(s, es).invitations && Run(s, es).invitations[i] == s.invitations[i]
  {
    if es != [] {
      AnsweredStays(s, es[..|es| - 1], i);
      StepGrows(Run(s, es[..|es| - 1]), es[|es| - 1]);
    }
  }

  /** A committed acceptance marks its invitation exactly when it is still pending:
      after a decline in between, the member joins and the invitation stays DECLINED. */
  lemma AcceptanceMarksIfPending(s: State, h: nat, id: nat, i: nat)
    requires Reachable(s) && h in s.handlers && s.handlers[h] == Accepting(i) && id !in s.members
    requires i in s.invitations && !IsMember(s.members, s.invitations[i].workspace, s.invitations[i].invitee)
    ensures var t := OnWrite(s, h, id);
            && Joined(t, id, i)
            && (t.invitations[i].status == ACCEPTED <==> s.invitations[i].status == PENDING || s.invitations[i].status == ACCEPTED)
            && (t.invitations[i].status == DECLINED <==> s.invitations[i].status == DECLINED)
  {
    var m := InvitedMember(s.invitations[i], i);
    assert Insert(s, id, m).members[id] == m;
  }

  lemma ReachableStep(s: State, e: Event)
    requires Reachable(s)
    ensures Reachable(Step(s, e))
  {
    var es :| s == Run(INIT, es);
    assert (es + [e])[..|es|] == es;
    assert Step(s, e) == Run(INIT, es + [e]);
  }

  /** A workspace with its owner, and a pending invitation of user 2. */
  lemma InvitationReachable() returns (s: State)
    ensures Reachable(s) && s.handlers == map[] && s.members == map[1 := Member(1, 1, OWNER, Founded)]
    ensures s.invitations == map[1 := Invitation(1, 2, MEMBER, 10, PENDING)]
  {
    assert INIT == Run(INIT, []);
    ReachableStep(INIT, Found(1, 1, 1));
    s := OnFound(INIT, 1, 1, 1);
    ReachableStep(s, Write(1, 1));
    s := OnWrite(s, 1, 1);
    assert Belongs(s.members, 1, 1, 1);
    ReachableStep(s, StartInvite(2, 1, 1, 2, MEMBER, 10));
    s := OnStartInvite(s, 2, 1, 1, 2, MEMBER, 10);
    ReachableStep(s, Write(2, 1));
    s := OnWrite(s, 2, 1);
  }

  /** Both handlers pass their checks, the decline writes first. */
  lemma DeclinedWhileAccepting() returns (s: State)
    ensures Reachable(s) && s.handlers == map[3 := Accepting(1)] && s.members == map[1 := Member(1, 1, OWNER, Founded)]
    ensures s.invitations == map[1 := Invitation(1, 2, MEMBER, 10, DECLINED)]
  {
    s := InvitationReachable();
    ReachableStep(s, StartAccept(3, 1, 2, 0));
    s := OnStartAccept(s, 3, 1, 2, 0);
    ReachableStep(s, StartDecline(4, 1, 2, 0));
    s := OnStartDecline(s, 4, 1, 2, 0);
    ReachableStep(s, Write(4, 2));
    s := OnWrite(s, 4, 2);
  }

  /** It happens. */
  lemma DeclinedYetJoined()
    ensures exists s, m, i :: Reachable(s) && Joined(s, m, i) && s.invitations[i].status == DECLINED
  {
    var s := DeclinedWhileAccepting();
    AcceptanceMarksIfPending(s, 3, 2, 1);
    ReachableStep(s, Write(3, 2));
    assert Joined(OnWrite(s, 3, 2), 2, 1);
  }

  ghost predicate MemberOf(s: State, workspace: nat, user: nat) {
    exists m :: m in s.members && s.members[m].workspace == workspace && s.members[m].user == user
  }

  /** A handler gets past its checks only for those who may: members add and invite others
      who are none, not as OWNER, and the invited user answers a pending invitation in time. */
  lemma OnlyTheseStart(s: State, e: Event, h: nat)
    requires h !in s.handlers
    ensures h in Step(s, e).handlers <==>
              match e
              case Found(handler, workspace, _) => handler == h && workspace !in s.owners
              case StartAdd(handler, workspace, actor, user, role) =>
                handler == h && workspace in s.owners && MemberOf(s, workspace, actor) && role != OWNER && !MemberOf(s, workspace, user)
              case StartInvite(handler, workspace, actor, user, role, _) =>
                handler == h && workspace in s.owners && MemberOf(s, workspace, actor) && role != OWNER && !MemberOf(s, workspace, user)
              case StartAccept(handler, i, user, now) =>
                handler == h && i in s.invitations && s.invitations[i].invitee == user && s.invitations[i].status == PENDING
                && now <= s.invitations[i].expiresAt && !MemberOf(s, s.invitations[i].workspace, user)
              case StartDecline(handler, i, user, now) =>
                handler == h && i in s.invitations && s.invitations[i].invitee == user && s.invitations[i].status == PENDING
                && now <= s.invitations[i].expiresAt
              case _ => false
  {
    forall workspace, user ensures MemberOf(s, workspace, user) <==> IsMember(s.members, workspace, user) {
      if m :| m in s.members && s.members[m].workspace == workspace && s.members[m].user == user {
        assert Belongs(s.members, m, workspace, user);
      }
    }
  }

  /** What a write makes of the request its handler started from. */
  lemma WritesMean(s: State, h: nat, id: nat)
    requires h in s.handlers && id !in s.members && id !in s.invitations
    ensures var t := Step(s, Write(h, id));
            match s.handlers[h]
            case Adding(workspace, user, role) =>
              t.invitations == s.invitations
              && t.members == (if MemberOf(s, workspace, user) then s.members else s.members[id := Member(workspace, user, role, Added)])
            case Inviting(workspace, user, role, expiresAt) =>
              t.members == s.members && t.invitations == s.invitations[id := Invitation(workspace, user, role, expiresAt, PENDING)]
            case Declining(i) =>
              t.members == s.members
              && t.invitations == (if i in s.invitations && s.invitations[i].status == PENDING
                                   then s.invitations[i := s.invitations[i].(status := DECLINED)] else s.invitations)
            case Founding(workspace) =>
              t.invitations == s.invitations
              && (workspace in s.owners ==>
                    t.members == if MemberOf(s, workspace, s.owners[workspace]) then s.members
                                 else s.members[id := Member(workspace, s.owners[workspace], OWNER, Founded)])
            case Accepting(_) => true
  {
    forall workspace, user ensures MemberOf(s, workspace, user) <==> IsMember(s.members, workspace, user) {
      if m :| m in s.members && s.members[m].workspace == workspace && s.members[m].user == user {
        assert Belongs(s.members, m, workspace, user);
      }
    }
  }

  // ------------------------------------------------ the repositories and the accept handler

  datatype Result = MemberCreated(id: nat) | NotFound | Forbidden | Conflict

  class MembershipRepository {
    var members: Members

    constructor (members: Members)
      ensures this.members == members
    {
      this.members := members;
    }

    /** `ok` is false where the index refuses the insert. */
    method Create(id: nat, m: Member) returns (ok: bool)
      requires id !in members
      modifies this
      ensures members == AfterInsert(old(members), id, m)
      ensures members == if ok then old(members)[id := m] else old(members)
      ensures ok <==> !IsMember(old(members), m.workspace, m.user)
    {
      if IsMember(members, m.workspace, m.user) {
        return false;
      }
      members := members[id := m];
      ok := true;
    }

    method FindByWorkspaceAndUser(workspace: nat, user: nat) returns (found: bool)
      ensures found <==> IsMember(members, workspace, user)
    {
      found := IsMember(members, workspace, user);
    }
  }

  class InvitationRepository {
    var invitations: Invitations

    constructor (invitations: Invitations)
      ensures this.invitations == invitations
    {
      this.invitations := invitations;
    }

    method MarkAccepted(id: nat)
      modifies this
      ensures invitations == AfterMark(old(invitations), id, ACCEPTED)
      ensures invitations == if id in old(invitations) && old(invitations)[id].status == PENDING
                             then old(invitations)[id := old(invitations)[id].(status := ACCEPTED)] else old(invitations)
    {
      if id in invitations && invitations[id].status == PENDING {
        invitations := invitations[id := invitations[id].(status := ACCEPTED)];
      }
    }

    method MarkDeclined(id: nat)
      modifies this
      ensures invitations == AfterMark(old(invitations), id, DECLINED)
      ensures invitations == if id in old(invitations) && old(invitations)[id].status == PENDING
                             then old(invitations)[id := old(invitations)[id].(status := DECLINED)] else old(invitations)
    {
      if id in invitations && invitations[id].status == PENDING {
        invitations := invitations[id := invitations[id].(status := DECLINED)];
      }
    }
  }

  class AcceptInvitationHandler {
    const memberships: MembershipRepository
    const repository: InvitationRepository

    constructor (memberships: MembershipRepository, repository: InvitationRepository)
      ensures this.memberships == memberships && this.repository == repository
    {
      this.memberships, this.repository := memberships, repository;
    }

    /** Undisturbed, an acceptance succeeds exactly for the invited user, while the
        invitation is pending and not past its time, if they are no member yet; then
        they are one, with the invited role, and the invitation is ACCEPTED. */
    method Execute(invitation: nat, user: nat, now: int, id: nat) returns (r: Result)
      requires id !in memberships.members
      modifies memberships, repository
      ensures var i := old(repository.invitations);
              && (r.NotFound? <==> invitation !in i)
              && (r.Forbidden? <==> invitation in i && i[invitation].invitee != user)
              && (r.MemberCreated? <==>
                    (&& invitation in i && i[invitation].invitee == user && i[invitation].status == PENDING
                     && now <= i[invitation].expiresAt && !IsMember(old(memberships.members), i[invitation].workspace, user)))
      ensures if r.MemberCreated?
              then var i := old(repository.invitations)[invitation];
                   && memberships.members
                        == old(memberships.members)[id := Member(i.workspace, i.invitee, i.role, Invited(invitation))]
                   && repository.invitations == old(repository.invitations)[invitation := i.(status := ACCEPTED)]
              else memberships.members == old(memberships.members) && repository.invitations == old(repository.invitations)
    {
      if invitation !in repository.invitations {
        return NotFound;
      }
      var i := repository.invitations[invitation];
      if i.invitee != user {
        return Forbidden;
      }
      if i.status != PENDING || i.expiresAt < now {
        return Conflict;
      }
      var existing := memberships.FindByWorkspaceAndUser(i.workspace, user);
      if existing {
        return Conflict;
      }
      var created := memberships.Create(id, InvitedMember(i, invitation));
      repository.MarkAccepted(invitation);
      r := MemberCreated(id);
    }
  }
}
