/** Refresh-token rotation: the fields of the user record, the handlers that
    change them, and every interleaving of many of them. */
module RefreshTokens {
  import opened Common

  type Uuid = nat

  datatype Token = Token(sub: nat, family: Uuid, jti: Uuid)

  /** The token fields of a user record. The stored hash is modelled by the token
      that was hashed; of the comparison function only that it accepts that token
      is used, whether it accepts others is left open. */
  datatype Session = Session(hash: Option<Token>, family: Option<Uuid>, jti: Option<Uuid>)

  const NO_SESSION := Session(None, None, None)

  function Opened(t: Token): Session { Session(Some(t), Some(t.family), Some(t.jti)) }

  datatype Refusal = InvalidToken | TokenNotFound | FamilyMismatch | IdMismatch | HashMismatch

  /** The comparison with the stored hash; `collides` is its answer for a token
      that was not the one hashed. */
  predicate Compare(t: Token, hashed: Token, collides: bool) { t == hashed || collides }

  /** The checks of the refresh handler on the record it read, in their order. */
  function Check(session: Option<Session>, t: Token, verifies: bool, collides: bool): Option<Refusal> {
    if !verifies then Some(InvalidToken)
    else if session.None? || session.value.hash.None? then Some(TokenNotFound)
    else if session.value.family != Some(t.family) then Some(FamilyMismatch)
    else if session.value.jti != Some(t.jti) then Some(IdMismatch)
    else if !Compare(t, session.value.hash.value, collides) then Some(HashMismatch)
    else None
  }

  /** The refusals that are taken for reuse of a token and close the session. */
  predicate Reuse(r: Refusal) { r == FamilyMismatch || r == IdMismatch || r == HashMismatch }

  // ------------------------------------------------ handlers run alone

  datatype User = User(password: string, reset: Option<(string, int)>, session: Session)

  class UserRepository {
    var users: map<nat, User>

    method FindByIdWithRefreshToken(id: nat) returns (session: Option<Session>)
      ensures session == if id in users then Some(users[id].session) else None
    {
      session := if id in users then Some(users[id].session) else None;
    }

    method UpdateRefreshToken(id: nat, session: Session)
      modifies this
      ensures users == if id in old(users) then old(users)[id := old(users)[id].(session := session)] else old(users)
    {
      if id in users {
        users := users[id := users[id].(session := session)];
      }
    }

    method ClearRefreshToken(id: nat)
      modifies this
      ensures users == if id in old(users) then old(users)[id := old(users)[id].(session := NO_SESSION)] else old(users)
    {
      UpdateRefreshToken(id, NO_SESSION);
    }

    method UpdatePassword(id: nat, password: string)
      modifies this
      ensures users == if id in old(users) then old(users)[id := old(users)[id].(password := password)] else old(users)
    {
      if id in users {
        users := users[id := users[id].(password := password)];
      }
    }

    method ClearPasswordResetToken(id: nat)
      modifies this
      ensures users == if id in old(users) then old(users)[id := old(users)[id].(reset := None)] else old(users)
    {
      if id in users {
        users := users[id := users[id].(reset := None)];
      }
    }

    /** A user whose unexpired reset token has this hash. */
    method FindByPasswordResetToken(hash: string, now: int) returns (id: Option<nat>)
      ensures id.Some? ==> id.value in users && users[id.value].reset.Some?
                           && users[id.value].reset.value.0 == hash && users[id.value].reset.value.1 > now
      ensures id.None? ==> forall u :: u in users && users[u].reset.Some? && users[u].reset.value.0 == hash
                                       ==> users[u].reset.value.1 <= now
    {
      var pending := users.Keys;
      while pending != {}
        invariant pending <= users.Keys
        invariant forall u :: u in users && u !in pending && users[u].reset.Some? && users[u].reset.value.0 == hash
                              ==> users[u].reset.value.1 <= now
        decreases |pending|
      {
        var u :| u in pending;
        if users[u].reset.Some? && users[u].reset.value.0 == hash && users[u].reset.value.1 > now {
          return Some(u);
        }
        pending := pending - {u};
      }
      return None;
    }
  }

  /** A token that does not verify, or meets no open session, changes nothing. One of another
      family, with another id, or whose hash does not match closes the session. Otherwise it
      is replaced by a token with the new id, of the same user and family, and the session
      stands for that. */
  ghost predicate RefreshMeans(before: map<nat, User>, t: Token, verifies: bool, collides: bool, newTokenId: Uuid,
                               result: Result<Token, Refusal>, after: map<nat, User>) {
    var open := verifies && t.sub in before && before[t.sub].session.hash.Some?;
    if !verifies then result == Err(InvalidToken) && after == before
    else if !open then result == Err(TokenNotFound) && after == before
    else
      var session := before[t.sub].session;
      var closed := before[t.sub := before[t.sub].(session := Session(None, None, None))];
      if session.family != Some(t.family) then result == Err(FamilyMismatch) && after == closed
      else if session.jti != Some(t.jti) then result == Err(IdMismatch) && after == closed
      else if session.hash != Some(t) && !collides then result == Err(HashMismatch) && after == closed
      else
        var rotated := Token(t.sub, t.family, newTokenId);
        && result == Ok(rotated)
        && after == before[t.sub := before[t.sub].(session := Session(Some(rotated), Some(t.family), Some(newTokenId)))]
  }

  /** The refresh handler: a token that passes is replaced by a new one of the same
      family; a token taken for reuse closes the session; nothing else changes. */
  method Refresh(repository: UserRepository, t: Token, verifies: bool, collides: bool, newTokenId: Uuid)
    returns (result: Result<Token, Refusal>)
    modifies repository
    ensures var before := if t.sub in old(repository.users) then Some(old(repository.users)[t.sub].session) else None;
            match Check(before, t, verifies, collides)
            case None =>
              && result == Ok(Token(t.sub, t.family, newTokenId))
              && repository.users == old(repository.users)[t.sub := old(repository.users)[t.sub].(session := Opened(result.value))]
            case Some(refusal) =>
              && result == Err(refusal)
              && repository.users == if Reuse(refusal)
                                     then old(repository.users)[t.sub := old(repository.users)[t.sub].(session := NO_SESSION)]
                                     else old(repository.users)
    ensures RefreshMeans(old(repository.users), t, verifies, collides, newTokenId, result, repository.users)
  {
    if !verifies {
      return Err(InvalidToken);
    }
    var session := repository.FindByIdWithRefreshToken(t.sub);
    if session.None? || session.value.hash.None? {
      return Err(TokenNotFound);
    }
    var user := session.value;
    if Some(t.family) != user.family {
      repository.ClearRefreshToken(t.sub);
      return Err(FamilyMismatch);
    }
    if Some(t.jti) != user.jti {
      repository.ClearRefreshToken(t.sub);
      return Err(IdMismatch);
    }
    if !Compare(t, user.hash.value, collides) {
      repository.ClearRefreshToken(t.sub);
      return Err(HashMismatch);
    }
    var rotated := Token(t.sub, user.family.value, newTokenId);
    repository.UpdateRefreshToken(t.sub, Session(Some(rotated), user.family, Some(newTokenId)));
    return Ok(rotated);
  }

  /** Logging in starts a new family. */
  method OpenSession(repository: UserRepository, id: nat, tokenFamily: Uuid, tokenId: Uuid) returns (t: Token)
    modifies repository
    ensures t == Token(id, tokenFamily, tokenId)
    ensures repository.users == if id in old(repository.users)
                                then old(repository.users)[id := old(repository.users)[id].(
                                       session := Session(Some(t), Some(tokenFamily), Some(tokenId)))]
                                else old(repository.users)
  {
    t := Token(id, tokenFamily, tokenId);
    repository.UpdateRefreshToken(id, Session(Some(t), Some(tokenFamily), Some(tokenId)));
  }

  /** Resetting the password uses up the reset token and closes the session. */
  method ResetPassword(repository: UserRepository, hash: string, password: string, now: int) returns (id: Option<nat>)
    modifies repository
    ensures id.None? ==> repository.users == old(repository.users)
    ensures id.Some? ==> id.value in old(repository.users)
                         && old(repository.users)[id.value].reset.Some?
                         && old(repository.users)[id.value].reset.value.0 == hash
                         && old(repository.users)[id.value].reset.value.1 > now
                         && repository.users == old(repository.users)[id.value := User(password, None, Session(None, None, None))]
  {
    id := repository.FindByPasswordResetToken(hash, now);
    if id.Some? {
      repository.UpdatePassword(id.value, password);
      repository.ClearPasswordResetToken(id.value);
      repository.ClearRefreshToken(id.value);
    }
  }

  // ------------------------------------------------ interleaved handlers

  /** A refresh between its read and its write: either its checks passed, or it is
      about to close the session. */
  datatype Flight = Rotating(token: Token, readAt: nat) | Clearing(user: nat)

  /** One successful refresh, with the moments of its read and its write. */
  datatype Acceptance = Acceptance(token: Token, readAt: nat, writtenAt: nat)

  datatype State = State(sessions: map<nat, Session>, issued: set<Token>, used: set<Uuid>, flights: map<nat, Flight>,
                         accepted: seq<Acceptance>, clock: nat)

  const INIT := State(map[], {}, {}, map[], [], 0)

  /** `Clear` is the write of logout and the last write of a password reset. */
  datatype Event =
    | Register(user: nat)
    | DeleteUser(user: nat)
    | Login(user: nat, family: Uuid, jti: Uuid)
    | Clear(user: nat)
    | RefreshRead(id: nat, token: Token, verifies: bool, collides: bool)
    | RefreshWrite(id: nat, jti: Uuid)
    | RefreshClear(id: nat)

  function SessionOf(s: State, user: nat): Option<Session> {
    if user in s.sessions then Some(s.sessions[user]) else None
  }

  function Write(s: State, user: nat, session: Session): State {
    if user in s.sessions then s.(sessions := s.sessions[user := session]) else s
  }

  /** Handing out a token with a fresh id. */
  function Issue(s: State, t: Token): State {
    Write(s, t.sub, Opened(t)).(issued := s.issued + {t}, used := s.used + {t.jti, t.family})
  }

  function OnRead(s: State, id: nat, t: Token, verifies: bool, collides: bool): State {
    if id in s.flights || t !in s.issued then s
    else
      match Check(SessionOf(s, t.sub), t, verifies, collides)
      case None => s.(flights := s.flights[id := Rotating(t, s.clock)])
      case Some(refusal) => if Reuse(refusal) then s.(flights := s.flights[id := Clearing(t.sub)]) else s
  }

  function OnWrite(s: State, id: nat, jti: Uuid): State {
    if id in s.flights && s.flights[id].Rotating? && jti !in s.used then
      var t := s.flights[id].token;
      Issue(s, Token(t.sub, t.family, jti)).(flights := s.flights - {id},
                                            accepted := s.accepted + [Acceptance(t, s.flights[id].readAt, s.clock)])
    else s
  }

  function OnRefreshClear(s: State, id: nat): State {
    if id in s.flights && s.flights[id].Clearing? then
      Write(s, s.flights[id].user, NO_SESSION).(flights := s.flights - {id})
    else s
  }

  function OnLogin(s: State, user: nat, family: Uuid, jti: Uuid): State {
    if user in s.sessions && jti !in s.used && family !in s.used && family != jti then Issue(s, Token(user, family, jti)) else s
  }

  function Effect(s: State, e: Event): State {
    match e
    case Register(user) => if user in s.sessions then s else s.(sessions := s.sessions[user := NO_SESSION])
    case DeleteUser(user) => s.(sessions := s.sessions - {user})
    case Login(user, family, jti) => OnLogin(s, user, family, jti)
    case Clear(user) => Write(s, user, NO_SESSION)
    case RefreshRead(id, token, verifies, collides) => OnRead(s, id, token, verifies, collides)
    case RefreshWrite(id, jti) => OnWrite(s, id, jti)
    case RefreshClear(id) => OnRefreshClear(s, id)
  }

  function Step(s: State, e: Event): State { Effect(s, e).(clock := s.clock + 1) }

  function Run(s: State, events: seq<Event>): State {
    if events == [] then s else Step(Run(s, events[..|events| - 1]), events[|events| - 1])
  }

  ghost predicate Reachable(s: State) {
    exists events :: s == Run(INIT, events)
  }

  // ------------------------------------------------ invariant

  /** The token a session stands for, if it is open. */
  ghost predicate Current(s: State, t: Token) {
    SessionOf(s, t.sub) == Some(Opened(t))
  }

  ghost predicate TokensSound(s: State) {
    && (forall t :: t in s.issued ==> t.jti in s.used && t.family in s.used)
    && (forall t, u :: t in s.issued && u in s.issued && t.jti == u.jti ==> t == u)
    && (forall user :: user in s.sessions ==>
          s.sessions[user] == NO_SESSION
          || (s.sessions[user].hash.Some? && s.sessions[user].hash.value in s.issued
              && s.sessions[user].hash.value.sub == user && s.sessions[user] == Opened(s.sessions[user].hash.value)))
  }

  ghost predicate FlightsSound(s: State) {
    forall id :: id in s.flights && s.flights[id].Rotating? ==>
      s.flights[id].token in s.issued && s.flights[id].readAt < s.clock
  }

  /** Accepted tokens are spent, and a refresh still in flight with a spent token
      had read it before the write that spent it. */
  ghost predicate Spent(s: State, a: Acceptance) {
    && a.token in s.issued && !Current(s, a.token) && a.readAt < a.writtenAt < s.clock
    && forall id :: id in s.flights && s.flights[id].Rotating? && s.flights[id].token == a.token
                    ==> s.flights[id].readAt < a.writtenAt
  }

  ghost predicate Overlap(a: Acceptance, b: Acceptance) {
    a.readAt < b.writtenAt && b.readAt < a.writtenAt
  }

  ghost predicate AcceptancesSound(s: State) {
    && (forall i :: 0 <= i < |s.accepted| ==> Spent(s, s.accepted[i]))
    && (forall i, j :: 0 <= i < j < |s.accepted| ==> s.accepted[i].writtenAt < s.accepted[j].writtenAt)
    && (forall i, j :: 0 <= i < j < |s.accepted| && s.accepted[i].token == s.accepted[j].token
          ==> Overlap(s.accepted[i], s.accepted[j]))
  }

  ghost predicate Inv(s: State) {
    TokensSound(s) && FlightsSound(s) && AcceptancesSound(s)
  }

  /** For issued tokens the hash comparison never decides: passing all checks means
      being the very token the session stands for, collisions or not. */
  lemma PassingMeansCurrent(s: State, t: Token, collides: bool)
    requires TokensSound(s) && t in s.issued
    ensures Check(SessionOf(s, t.sub), t, true, collides).None? <==> Current(s, t)
  {
  }

  lemma IssueKeepsTokens(s: State, t: Token)
    requires TokensSound(s) && t.jti !in s.used
    ensures TokensSound(Issue(s, t))
  {
  }

  lemma ClearKeepsTokens(s: State, user: nat)
    requires TokensSound(s)
    ensures TokensSound(Write(s, user, NO_SESSION))
  {
  }

  lemma WriteKeepsTokens(s: State, id: nat, jti: Uuid)
    requires TokensSound(s)
    ensures TokensSound(OnWrite(s, id, jti))
  {
    if id in s.flights && s.flights[id].Rotating? && jti !in s.used {
      IssueKeepsTokens(s, Token(s.flights[id].token.sub, s.flights[id].token.family, jti));
    }
  }

  lemma EffectKeepsTokens(s: State, e: Event)
    requires TokensSound(s)
    ensures TokensSound(Effect(s, e))
  {
    match e
    case Login(user, family, jti) =>
      if OnLogin(s, user, family, jti) != s { IssueKeepsTokens(s, Token(user, family, jti)); }
    case Clear(user) => ClearKeepsTokens(s, user);
    case RefreshWrite(id, jti) => WriteKeepsTokens(s, id, jti);
    case RefreshClear(id) =>
      if id in s.flights && s.flights[id].Clearing? { ClearKeepsTokens(s, s.flights[id].user); }
    case _ =>
  }

  lemma StepKeepsTokens(s: State, e: Event)
    requires TokensSound(s) && FlightsSound(s)
    ensures TokensSound(Step(s, e))
  {
    EffectKeepsTokens(s, e);
  }

  lemma StepKeepsFlights(s: State, e: Event)
    requires TokensSound(s) && FlightsSound(s)
    ensures FlightsSound(Step(s, e))
  {
  }

  /** A token that was issued and is not current never becomes current again. */
  lemma SupersededForGood(s: State, e: Event, t: Token)
    requires TokensSound(s) && FlightsSound(s) && t in s.issued && !Current(s, t)
    ensures t in Step(s, e).issued && !Current(Step(s, e), t)
  {
  }

  lemma StepKeepsSpent(s: State, e: Event, a: Acceptance)
    requires TokensSound(s) && FlightsSound(s) && Spent(s, a)
    ensures Spent(Step(s, e), a)
  {
    SupersededForGood(s, e, a.token);
    if e.RefreshRead? {
      if e.token == a.token && e.token in s.issued {
        PassingMeansCurrent(s, e.token, e.collides);
      }
    }
  }

  lemma WriteSpendsToken(s: State, id: nat, jti: Uuid)
    requires Inv(s) && OnWrite(s, id, jti) != s
    ensures Spent(Step(s, RefreshWrite(id, jti)), Acceptance(s.flights[id].token, s.flights[id].readAt, s.clock))
  {
  }

  lemma StepKeepsAcceptances(s: State, e: Event)
    requires Inv(s)
    ensures AcceptancesSound(Step(s, e))
  {
    var t := Step(s, e);
    forall i | 0 <= i < |s.accepted| ensures Spent(t, s.accepted[i]) {
      StepKeepsSpent(s, e, s.accepted[i]);
    }
    if e.RefreshWrite? && OnWrite(s, e.id, e.jti) != s {
      WriteSpendsToken(s, e.id, e.jti);
      var last := Acceptance(s.flights[e.id].token, s.flights[e.id].readAt, s.clock);
      assert t.accepted == s.accepted + [last];
      forall i | 0 <= i < |s.accepted| ensures s.accepted[i].token == last.token ==> Overlap(s.accepted[i], last) {
        assert Spent(s, s.accepted[i]);
      }
    }
  }

  lemma {:induction false} RunKeepsInv(s: State, events: seq<Event>)
    requires Inv(s)
    ensures Inv(Run(s, events))
  {
    if events != [] {
      var before := Run(s, events[..|events| - 1]);
      RunKeepsInv(s, events[..|events| - 1]);
      StepKeepsTokens(before, events[|events| - 1]);
      StepKeepsFlights(before, events[|events| - 1]);
      StepKeepsAcceptances(before, events[|events| - 1]);
    }
  }

  lemma ReachableInv(s: State)
    requires Reachable(s)
    ensures Inv(s)
  {
    var events :| s == Run(INIT, events);
    RunKeepsInv(INIT, events);
  }

  // ------------------------------------------------ main results

  /** At every moment of every interleaving at most one of the tokens ever issued
      to a user would be accepted. */
  lemma AtMostOneAcceptedToken(s: State, t: Token, u: Token, c: bool, d: bool)
    requires Reachable(s) && t in s.issued && u in s.issued && t.sub == u.sub
    requires Check(SessionOf(s, t.sub), t, true, c).None? && Check(SessionOf(s, u.sub), u, true, d).None?
    ensures t == u
  {
    ReachableInv(s);
    PassingMeansCurrent(s, t, c);
    PassingMeansCurrent(s, u, d);
  }

  /** A token once superseded, by a rotation, a login, a logout, a reset, detected
      reuse or deletion, is refused in every later state of every continuation. */
  lemma {:induction false} SupersededTokensStayRefused(s: State, events: seq<Event>, t: Token, collides: bool)
    requires Reachable(s) && t in s.issued && !Current(s, t)
    ensures var later := Run(s, events);
            t in later.issued && !Current(later, t) && Check(SessionOf(later, t.sub), t, true, collides).Some?
  {
    ReachableInv(s);
    RunKeepsInv(s, events);
    if events != [] {
      SupersededTokensStayRefused(s, events[..|events| - 1], t, collides);
      RunKeepsInv(s, events[..|events| - 1]);
      SupersededForGood(Run(s, events[..|events| - 1]), events[|events| - 1], t);
    }
    PassingMeansCurrent(Run(s, events), t, collides);
  }

  /** One token can be accepted twice only by refreshes that overlap: each read the
      record before the other wrote it. */
  lemma RepeatedAcceptancesOverlap(s: State, i: nat, j: nat)
    requires Reachable(s) && i < j < |s.accepted| && s.accepted[i].token == s.accepted[j].token
    ensures Overlap(s.accepted[i], s.accepted[j])
  {
    ReachableInv(s);
  }

  /** With refreshes that write right after they read, every token is accepted at
      most once. */
  lemma AtomicRefreshesAcceptOnce(s: State, i: nat, j: nat)
    requires Reachable(s) && i < j < |s.accepted|
    requires forall k :: 0 <= k < |s.accepted| ==> s.accepted[k].writtenAt == s.accepted[k].readAt + 1
    ensures s.accepted[i].token != s.accepted[j].token
  {
    ReachableInv(s);
  }

  /** Overlapping refreshes do accept a token twice: two that both passed the checks
      both rotate. */
  lemma OverlappingRefreshesBothAccept(s: State, a: nat, b: nat, x: Uuid, y: Uuid)
    requires Inv(s) && a != b && x != y && x !in s.used && y !in s.used
    requires a in s.flights && b in s.flights && s.flights[a].Rotating? && s.flights[b].Rotating?
    requires s.flights[a].token == s.flights[b].token
    ensures var t := Step(Step(s, RefreshWrite(a, x)), RefreshWrite(b, y));
            var n := |s.accepted|;
            |t.accepted| == n + 2 && t.accepted[n].token == t.accepted[n + 1].token
  {
  }

  lemma ReachableStep(s: State, e: Event)
    requires Reachable(s)
    ensures Reachable(Step(s, e))
  {
    var events :| s == Run(INIT, events);
    assert (events + [e])[..|events|] == events;
    assert Step(s, e) == Run(INIT, events + [e]);
  }

  /** A user with an open session, whose token two refreshes have read. */
  lemma TwoReadersReachable() returns (s: State)
    ensures Reachable(s) && s.flights == map[1 := Rotating(Token(1, 10, 11), 2), 2 := Rotating(Token(1, 10, 11), 3)]
    ensures s.used == {10, 11} && s.accepted == []
  {
    assert INIT == Run(INIT, []);
    ReachableStep(INIT, Register(1));
    s := Step(INIT, Register(1));
    ReachableStep(s, Login(1, 10, 11));
    s := Step(s, Login(1, 10, 11));
    ReachableStep(s, RefreshRead(1, Token(1, 10, 11), true, false));
    s := Step(s, RefreshRead(1, Token(1, 10, 11), true, false));
    ReachableStep(s, RefreshRead(2, Token(1, 10, 11), true, false));
    s := Step(s, RefreshRead(2, Token(1, 10, 11), true, false));
  }

  /** And there is a run in which they do. */
  lemma OneTokenAcceptedTwice()
    ensures exists s :: Reachable(s) && |s.accepted| == 2 && s.accepted[0].token == s.accepted[1].token
  {
    var s := TwoReadersReachable();
    ReachableInv(s);
    OverlappingRefreshesBothAccept(s, 1, 2, 12, 13);
    ReachableStep(s, RefreshWrite(1, 12));
    ReachableStep(Step(s, RefreshWrite(1, 12)), RefreshWrite(2, 13));
  }

  /** Replaying a superseded token against an open session closes it. */
  lemma ReplayClosesSession(s: State, id: nat, t: Token, collides: bool)
    requires Reachable(s) && t in s.issued && !Current(s, t) && id !in s.flights
    requires SessionOf(s, t.sub).Some? && SessionOf(s, t.sub) != Some(NO_SESSION)
    ensures var closed := Step(Step(s, RefreshRead(id, t, true, collides)), RefreshClear(id));
            SessionOf(closed, t.sub) == Some(NO_SESSION) && closed.accepted == s.accepted
  {
    ReachableInv(s);
    PassingMeansCurrent(s, t, collides);
  }

  /** The machine's refresh is the handler's, cut between its read and its write: without
      anything in between, it answers and leaves what the handler does. */
  lemma RefreshIsOneRun(s: State, id: nat, t: Token, verifies: bool, collides: bool, jti: Uuid)
    requires id !in s.flights && t in s.issued && jti !in s.used
    ensures var done := Step(Step(Step(s, RefreshRead(id, t, verifies, collides)), RefreshWrite(id, jti)), RefreshClear(id));
            var open := t.sub in s.sessions && s.sessions[t.sub].hash.Some?;
            var same := open && s.sessions[t.sub].family == Some(t.family) && s.sessions[t.sub].jti == Some(t.jti)
                        && (s.sessions[t.sub].hash == Some(t) || collides);
            && done.flights == s.flights
            && done.sessions == (if verifies && same
                                 then s.sessions[t.sub := Session(Some(Token(t.sub, t.family, jti)), Some(t.family), Some(jti))]
                                 else if verifies && open then s.sessions[t.sub := Session(None, None, None)] else s.sessions)
            && (|done.accepted| == |s.accepted| + 1 <==> verifies && same)
  {
    var read := Step(s, RefreshRead(id, t, verifies, collides));
    if id in read.flights {
      assert read.flights - {id} == s.flights;
    }
  }

  // ------------------------------------------------ how a closed session reopens

  ghost predicate Open(s: State, user: nat) {
    user in s.sessions && s.sessions[user] != NO_SESSION
  }

  ghost predicate InFlight(s: State, user: nat) {
    exists id :: id in s.flights && s.flights[id].Rotating? && s.flights[id].token.sub == user
  }

  ghost predicate NoLogin(events: seq<Event>, user: nat) {
    forall i :: 0 <= i < |events| && events[i].Login? ==> events[i].user != user
  }

  lemma ClosedStep(s: State, e: Event, user: nat)
    requires TokensSound(s) && FlightsSound(s) && !Open(s, user) && !InFlight(s, user)
    requires e.Login? ==> e.user != user
    ensures !Open(Step(s, e), user) && !InFlight(Step(s, e), user)
  {
    if e.RefreshRead? && e.token in s.issued {
      PassingMeansCurrent(s, e.token, e.collides);
    }
  }

  lemma {:induction false} ClosedRun(s: State, events: seq<Event>, user: nat)
    requires Inv(s) && !Open(s, user) && !InFlight(s, user) && NoLogin(events, user)
    ensures !Open(Run(s, events), user) && !InFlight(Run(s, events), user)
  {
    if events != [] {
      var n := |events| - 1;
      RunKeepsInv(s, events[..n]);
      assert NoLogin(events[..n], user);
      ClosedRun(s, events[..n], user);
      ClosedStep(Run(s, events[..n]), events[n], user);
    }
  }

  ghost predicate Above(bound: nat, used: set<Uuid>) {
    forall x :: x in used ==> x < bound
  }

  lemma {:induction false} BoundExists(used: set<Uuid>) returns (bound: nat)
    ensures Above(bound, used)
  {
    if used == {} {
      bound := 0;
    } else {
      var y :| y in used;
      var rest := BoundExists(used - {y});
      bound := Max(rest, y + 1);
      assert forall x :: x in used ==> x == y || x in used - {y};
    }
  }

  /** Main result on logout and reset: after the session is closed, it can be open
      again without a new login exactly when a refresh was in flight at that
      moment, past its checks and before its write. */
  lemma ClosingIsFinalUnlessInFlight(s: State, user: nat)
    requires Reachable(s) && user in s.sessions
    ensures (exists events :: NoLogin(events, user) && Open(Run(Step(s, Clear(user)), events), user)) <==> InFlight(s, user)
  {
    var closed := Step(s, Clear(user));
    ReachableInv(s);
    RunKeepsInv(s, [Clear(user)]);
    assert Run(s, [Clear(user)]) == closed;
    if InFlight(s, user) {
      var id :| id in s.flights && s.flights[id].Rotating? && s.flights[id].token.sub == user;
      var jti := BoundExists(s.used);
      assert jti !in s.used;
      var events := [RefreshWrite(id, jti)];
      assert events[..0] == [];
      assert Run(closed, events) == Step(closed, events[0]);
      assert NoLogin(events, user) && Open(Run(closed, events), user);
    } else {
      assert !InFlight(closed, user);
      forall events | NoLogin(events, user) ensures !Open(Run(closed, events), user) {
        ClosedRun(closed, events, user);
      }
    }
  }
}
