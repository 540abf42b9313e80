/** Idempotency keys: the stored record, the service that keeps it, the
    interceptor around a handler, and every interleaving of many requests.

    A request is a sequence of atomic store calls. The model lets each of them
    fail, lets records expire at any moment, and lets the existing record vanish
    between the two calls of `reserve`. */
module Idempotency {
  import opened Common

  datatype Record =
    | Processing(fingerprint: string)
    | Completed(fingerprint: string, statusCode: int, body: string)

  type Store = map<string, Record>

  /** Set-if-absent of a fresh PROCESSING record. */
  function Reserved(store: Store, key: string, fingerprint: string): Store {
    if key in store then store else store[key := Processing(fingerprint)]
  }

  function StoreKey(scope: string, idempotencyKey: string): string {
    "idempotency:" + scope + ":" + idempotencyKey
  }

  /** The scope of a request: who asks, and for which route. */
  function BuildScope(user: string, httpMethod: string, url: string): string { user + ":" + httpMethod + ":" + url }

  predicate ColonFree(s: string) { ':' !in s }

  lemma SplitAtColon(a: string, b: string, c: string, d: string)
    requires ColonFree(a) && ColonFree(c) && a + ":" + b == c + ":" + d
    ensures a == c && b == d
  {
    assert (a + ":" + b)[|a|] == ':' && (c + ":" + d)[|c|] == ':';
    assert |a| == |c|;
    assert a == (a + ":" + b)[..|a|] && c == (c + ":" + d)[..|c|];
    assert b == (a + ":" + b)[|a| + 1..] && d == (c + ":" + d)[|c| + 1..];
  }

  lemma SamePrefix(p: string, a: string, b: string)
    ensures p + a == p + b <==> a == b
  {
    assert a == (p + a)[|p|..] && b == (p + b)[|p|..];
  }

  lemma SameSuffix(a: string, b: string, q: string)
    ensures a + q == b + q <==> a == b
  {
    if a + q == b + q {
      assert a == (a + q)[..|a + q| - |q|] && b == (b + q)[..|b + q| - |q|];
    }
  }

  /** Two requests share a record exactly when scope and key read the same when written
      one after the other. */
  lemma KeysAreTexts(scope: string, key: string, otherScope: string, otherKey: string)
    ensures StoreKey(scope, key) == StoreKey(otherScope, otherKey) <==> scope + ":" + key == otherScope + ":" + otherKey
  {
    assert StoreKey(scope, key) == "idempotency:" + (scope + ":" + key);
    assert StoreKey(otherScope, otherKey) == "idempotency:" + (otherScope + ":" + otherKey);
    SamePrefix("idempotency:", scope + ":" + key, otherScope + ":" + otherKey);
  }

  /** One key in two scopes, or two keys in one scope, are two records. */
  lemma ScopesAreApart(scope: string, key: string, otherScope: string, otherKey: string)
    ensures StoreKey(scope, key) == StoreKey(otherScope, key) <==> scope == otherScope
    ensures StoreKey(scope, key) == StoreKey(scope, otherKey) <==> key == otherKey
  {
    KeysAreTexts(scope, key, otherScope, key);
    KeysAreTexts(scope, key, scope, otherKey);
    assert scope + ":" + key == scope + (":" + key) && scope + ":" + otherKey == scope + (":" + otherKey);
    SamePrefix(scope, ":" + key, ":" + otherKey);
    SamePrefix(":", key, otherKey);
    assert otherScope + ":" + key == otherScope + (":" + key);
    SameSuffix(scope, otherScope, ":" + key);
  }

  /** Users, methods and keys never share a record with others; routes do not either,
      as long as they hold no colon. */
  lemma RequestsAreApart(user: string, httpMethod: string, url: string, key: string,
                         otherUser: string, otherMethod: string, otherUrl: string, otherKey: string)
    requires ColonFree(user) && ColonFree(otherUser) && ColonFree(httpMethod) && ColonFree(otherMethod)
    requires StoreKey(BuildScope(user, httpMethod, url), key) == StoreKey(BuildScope(otherUser, otherMethod, otherUrl), otherKey)
    ensures user == otherUser && httpMethod == otherMethod
    ensures ColonFree(url) && ColonFree(otherUrl) ==> url == otherUrl && key == otherKey
  {
    var rest, otherRest := url + ":" + key, otherUrl + ":" + otherKey;
    KeysAreTexts(BuildScope(user, httpMethod, url), key, BuildScope(otherUser, otherMethod, otherUrl), otherKey);
    assert BuildScope(user, httpMethod, url) + ":" + key == user + ":" + (httpMethod + ":" + rest);
    assert BuildScope(otherUser, otherMethod, otherUrl) + ":" + otherKey == otherUser + ":" + (otherMethod + ":" + otherRest);
    SplitAtColon(user, httpMethod + ":" + rest, otherUser, otherMethod + ":" + otherRest);
    SplitAtColon(httpMethod, rest, otherMethod, otherRest);
    if ColonFree(url) && ColonFree(otherUrl) { SplitAtColon(url, key, otherUrl, otherKey); }
  }

  class IdempotencyService {
    var redis: Store

    constructor ()
      ensures redis == map[]
    {
      redis := map[];
    }

    /** `ok` is false where it throws: on a failing SET, and, when the key is
        taken, on a failing GET. */
    method Reserve(scope: string, idempotencyKey: string, fingerprint: string, reserve: Outcome, get: bool)
      returns (ok: bool, acquired: bool, record: Option<Record>)
      modifies this
      ensures var key := StoreKey(scope, idempotencyKey);
              && redis == (if reserve == LostBefore then old(redis) else Reserved(old(redis), key, fingerprint))
              && (ok <==> reserve == Applied && (key in old(redis) ==> get))
              && (acquired <==> reserve == Applied && key !in old(redis))
              && record == (if ok && !acquired then Some(old(redis)[key]) else None)
    {
      var key := StoreKey(scope, idempotencyKey);
      var free := key !in redis;
      if reserve != LostBefore && free {
        redis := redis[key := Processing(fingerprint)];
      }
      if reserve != Applied {
        return false, false, None;
      }
      if free {
        return true, true, None;
      }
      if !get {
        return false, false, None;
      }
      record := Get(scope, idempotencyKey);
      ok, acquired := true, false;
    }

    method Get(scope: string, idempotencyKey: string) returns (record: Option<Record>)
      ensures var key := StoreKey(scope, idempotencyKey);
              record == if key in redis then Some(redis[key]) else None
    {
      var key := StoreKey(scope, idempotencyKey);
      record := if key in redis then Some(redis[key]) else None;
    }

    method Complete(scope: string, idempotencyKey: string, fingerprint: string, statusCode: int, body: string, outcome: Outcome)
      returns (ok: bool)
      modifies this
      ensures ok <==> outcome == Applied
      ensures redis == if outcome == LostBefore then old(redis)
                       else old(redis)[StoreKey(scope, idempotencyKey) := Completed(fingerprint, statusCode, body)]
    {
      if outcome != LostBefore {
        redis := redis[StoreKey(scope, idempotencyKey) := Completed(fingerprint, statusCode, body)];
      }
      ok := outcome == Applied;
    }

    method Delete(scope: string, idempotencyKey: string, outcome: Outcome)
      modifies this
      ensures redis == if outcome == LostBefore then old(redis) else old(redis) - {StoreKey(scope, idempotencyKey)}
    {
      if outcome != LostBefore {
        redis := redis - {StoreKey(scope, idempotencyKey)};
      }
    }
  }

  // ------------------------------------------------ the header

  datatype HeaderError = HeaderMissing | HeaderEmpty | HeaderTooLong

  /** The key is blank when trimming leaves nothing. */
  predicate Blank(s: string) {
    forall c :: c in s ==> c in " \t\n\r"
  }

  function CheckHeader(header: Option<string>): Result<string, HeaderError> {
    match header
    case None => Err(HeaderMissing)
    case Some(key) => if Blank(key) then Err(HeaderEmpty) else if |key| > 255 then Err(HeaderTooLong) else Ok(key)
  }

  /** A header is taken when it has at most 255 characters and one that is no space. */
  ghost predicate Acceptable(header: Option<string>) {
    header.Some? && |header.value| <= 255 && exists c :: c in header.value && c !in " \t\n\r"
  }

  // ------------------------------------------------ interleaved requests

  datatype Answer =
    | BadHeader(error: HeaderError)
    | UsedDifferently
    | StillProcessing
    | Replayed(statusCode: int, body: string)
    | Fresh(statusCode: int, body: string)
    | HandlerError
    | StoreError

  /** Where a request stands. `Blocked` has lost the race of `reserve` and not yet
      read the record that won. */
  datatype Phase =
    | Blocked
    | Running
    | Completing(statusCode: int, body: string)
    | Deleting
    | Answered(answer: Answer)

  datatype Request = Request(key: string, fingerprint: string, phase: Phase)

  /** A handler execution that succeeded. */
  datatype Success = Success(key: string, fingerprint: string, statusCode: int, body: string)

  /** `won` and `losses` are history: the requests whose handler succeeded, with
      what they produced, and, for each key, the events that took a record away
      other than a failed request's own clean-up. */
  datatype State = State(store: Store, requests: map<nat, Request>, won: map<nat, Success>, losses: multiset<string>)

  const INIT := State(map[], map[], map[], multiset{})

  datatype Event =
    | Arrive(id: nat, scope: string, header: Option<string>, fingerprint: string, outcome: Outcome)
    | ReadRecord(id: nat, works: bool)
    | HandlerSucceeds(id: nat, statusCode: int, body: string)
    | HandlerFails(id: nat)
    | Complete(id: nat, outcome: Outcome)
    | Delete(id: nat, outcome: Outcome)
    | Expire(key: string)

  function At(s: State, id: nat): Option<Phase> {
    if id in s.requests then Some(s.requests[id].phase) else None
  }

  function Move(s: State, id: nat, phase: Phase): State
    requires id in s.requests
  {
    s.(requests := s.requests[id := s.requests[id].(phase := phase)])
  }

  /** What a request that did not get the reservation makes of the record it reads:
      an answer, or, when the record is gone, a run of the handler all the same. */
  function Decide(record: Option<Record>, fingerprint: string): Phase {
    match record
    case None => Running
    case Some(r) =>
      if r.fingerprint != fingerprint then Answered(UsedDifferently)
      else match r
           case Processing(_) => Answered(StillProcessing)
           case Completed(_, statusCode, body) => Answered(Replayed(statusCode, body))
  }

  function OnArrive(s: State, id: nat, scope: string, header: Option<string>, fingerprint: string, outcome: Outcome): State {
    if id in s.requests then s
    else
      match CheckHeader(header)
      case Err(error) => s.(requests := s.requests[id := Request("", fingerprint, Answered(BadHeader(error)))])
      case Ok(idempotencyKey) => OnReserve(s, id, StoreKey(scope, idempotencyKey), fingerprint, outcome)
  }

  function OnReserve(s: State, id: nat, key: string, fingerprint: string, outcome: Outcome): State {
    var phase := if outcome != Applied then Answered(StoreError) else if key in s.store then Blocked else Running;
    s.(store := if outcome == LostBefore then s.store else Reserved(s.store, key, fingerprint),
       requests := s.requests[id := Request(key, fingerprint, phase)])
  }

  function OnRead(s: State, id: nat, works: bool): State {
    if At(s, id) != Some(Blocked) then s
    else
      var r := s.requests[id];
      if !works then Move(s, id, Answered(StoreError))
      else if r.key in s.store then Move(s, id, Decide(Some(s.store[r.key]), r.fingerprint))
      else Move(s, id, Decide(None, r.fingerprint)).(losses := s.losses + multiset{r.key})
  }

  function OnSuccess(s: State, id: nat, statusCode: int, body: string): State {
    if At(s, id) != Some(Running) then s
    else
      var r := s.requests[id];
      Move(s, id, Completing(statusCode, body)).(won := s.won[id := Success(r.key, r.fingerprint, statusCode, body)])
  }

  function OnFailure(s: State, id: nat): State {
    if At(s, id) != Some(Running) then s else Move(s, id, Deleting)
  }

  /** A `complete` that throws, with or without having stored the result, leads into
      the same clean-up as a failed handler. */
  function OnComplete(s: State, id: nat, outcome: Outcome): State {
    match At(s, id)
    case Some(Completing(statusCode, body)) =>
      var r := s.requests[id];
      var stored := if outcome == LostBefore then s
                    else s.(store := s.store[r.key := Completed(r.fingerprint, statusCode, body)]);
      if outcome == Applied then Move(stored, id, Answered(Fresh(statusCode, body)))
      else Move(stored, id, Deleting).(losses := s.losses + multiset{r.key})
    case _ => s
  }

  function OnDelete(s: State, id: nat, outcome: Outcome): State {
    if At(s, id) != Some(Deleting) then s
    else Move(s, id, Answered(HandlerError)).(store := if outcome == LostBefore then s.store else s.store - {s.requests[id].key})
  }

  function OnExpire(s: State, key: string): State {
    if key !in s.store then s else s.(store := s.store - {key}, losses := s.losses + multiset{key})
  }

  function Step(s: State, e: Event): State {
    match e
    case Arrive(id, scope, header, fingerprint, outcome) => OnArrive(s, id, scope, header, fingerprint, outcome)
    case ReadRecord(id, works) => OnRead(s, id, works)
    case HandlerSucceeds(id, statusCode, body) => OnSuccess(s, id, statusCode, body)
    case HandlerFails(id) => OnFailure(s, id)
    case Complete(id, outcome) => OnComplete(s, id, outcome)
    case Delete(id, outcome) => OnDelete(s, id, outcome)
    case Expire(key) => OnExpire(s, key)
  }

  function Run(s: State, events: seq<Event>): State {
    if events == [] then s else Step(Run(s, events[..|events| - 1]), events[|events| - 1])
  }

  /** How the store calls of one request go. */
  datatype Calls = Calls(reserve: Outcome, read: bool, complete: Outcome, delete: Outcome)

  /** One request on its own: the machine's steps for it, in order; the steps that
      do not apply change nothing. */
  function Alone(store: Store, scope: string, header: Option<string>, fingerprint: string,
                 handler: Option<(int, string)>, c: Calls): State
  {
    AfterRead(Step(Step(INIT.(store := store), Arrive(0, scope, header, fingerprint, c.reserve)), ReadRecord(0, c.read)), handler, c)
  }

  function AfterRead(s: State, handler: Option<(int, string)>, c: Calls): State {
    AfterHandler(Step(s, if handler.Some? then HandlerSucceeds(0, handler.value.0, handler.value.1) else HandlerFails(0)), c)
  }

  function AfterHandler(s: State, c: Calls): State {
    Step(Step(s, Complete(0, c.complete)), Delete(0, c.delete))
  }

  lemma AnsweredAlone(s: State, handler: Option<(int, string)>, c: Calls)
    requires At(s, 0).Some? && At(s, 0).value.Answered?
    ensures AfterRead(s, handler, c) == s
  {
  }

  lemma AloneRefused(store: Store, scope: string, header: Option<string>, fingerprint: string,
                     handler: Option<(int, string)>, c: Calls)
    requires CheckHeader(header).Err?
    ensures var t := Alone(store, scope, header, fingerprint, handler, c);
            t.store == store && At(t, 0) == Some(Answered(BadHeader(CheckHeader(header).error)))
  {
    AnsweredAlone(OnRead(OnArrive(INIT.(store := store), 0, scope, header, fingerprint, c.reserve), 0, c.read), handler, c);
  }

  /** A reservation that throws ends the request, and no handler runs. */
  lemma AloneUnreserved(store: Store, scope: string, header: Option<string>, fingerprint: string,
                        handler: Option<(int, string)>, c: Calls)
    requires CheckHeader(header).Ok? && c.reserve != Applied
    ensures var t, key := Alone(store, scope, header, fingerprint, handler, c), StoreKey(scope, CheckHeader(header).value);
            && t.store == (if c.reserve == LostBefore then store else Reserved(store, key, fingerprint))
            && At(t, 0) == Some(Answered(StoreError))
  {
    var arrived := OnReserve(INIT.(store := store), 0, StoreKey(scope, CheckHeader(header).value), fingerprint, c.reserve);
    assert OnRead(arrived, 0, c.read) == arrived;
    AnsweredAlone(arrived, handler, c);
  }

  lemma AloneBlocked(store: Store, scope: string, header: Option<string>, fingerprint: string,
                     handler: Option<(int, string)>, c: Calls)
    requires CheckHeader(header).Ok? && StoreKey(scope, CheckHeader(header).value) in store && c.reserve == Applied
    ensures var t := Alone(store, scope, header, fingerprint, handler, c);
            && t.store == store
            && At(t, 0) == Some(if c.read then Decide(Some(store[StoreKey(scope, CheckHeader(header).value)]), fingerprint)
                                else Answered(StoreError))
  {
    var key := StoreKey(scope, CheckHeader(header).value);
    var arrived := OnReserve(INIT.(store := store), 0, key, fingerprint, Applied);
    assert arrived.requests[0] == Request(key, fingerprint, Blocked);
    AnsweredAlone(OnRead(arrived, 0, c.read), handler, c);
  }

  lemma DeletingAlone(s: State, c: Calls)
    requires At(s, 0) == Some(Deleting)
    ensures var t := AfterHandler(s, c);
            && t.store == (if c.delete == LostBefore then s.store else s.store - {s.requests[0].key})
            && At(t, 0) == Some(Answered(HandlerError))
  {
  }

  /** What a request leaves under its key when its handler has succeeded. */
  function Stored(store: Store, key: string, r: Record, c: Calls): Store {
    var completed := if c.complete == LostBefore then store else store[key := r];
    if c.complete == Applied || c.delete == LostBefore then completed else completed - {key}
  }

  lemma CompletingAlone(s: State, c: Calls)
    requires At(s, 0).Some? && At(s, 0).value.Completing?
    ensures var t, r := AfterHandler(s, c), s.requests[0];
            && t.store == Stored(s.store, r.key, Completed(r.fingerprint, r.phase.statusCode, r.phase.body), c)
            && At(t, 0) == Some(Answered(if c.complete == Applied then Fresh(r.phase.statusCode, r.phase.body) else HandlerError))
  {
  }

  lemma AloneAcquired(store: Store, scope: string, header: Option<string>, fingerprint: string,
                      handler: Option<(int, string)>, c: Calls)
    requires CheckHeader(header).Ok? && StoreKey(scope, CheckHeader(header).value) !in store && c.reserve == Applied
    ensures var t, key := Alone(store, scope, header, fingerprint, handler, c), StoreKey(scope, CheckHeader(header).value);
            var reserved := store[key := Processing(fingerprint)];
            if handler.Some? then
              && t.store == Stored(reserved, key, Completed(fingerprint, handler.value.0, handler.value.1), c)
              && At(t, 0) == Some(Answered(if c.complete == Applied then Fresh(handler.value.0, handler.value.1) else HandlerError))
            else
              && t.store == (if c.delete == LostBefore then reserved else reserved - {key})
              && At(t, 0) == Some(Answered(HandlerError))
  {
    var key := StoreKey(scope, CheckHeader(header).value);
    var arrived := OnReserve(INIT.(store := store), 0, key, fingerprint, Applied);
    assert arrived.requests[0] == Request(key, fingerprint, Running) && OnRead(arrived, 0, c.read) == arrived;
    if handler.Some? {
      CompletingAlone(OnSuccess(arrived, 0, handler.value.0, handler.value.1), c);
    } else {
      var failed := OnFailure(arrived, 0);
      assert OnComplete(failed, 0, c.complete) == failed;
      DeletingAlone(failed, c);
    }
  }

  /** Records of other scopes, and of other keys, are as they were. */
  ghost predicate OthersKept(before: Store, after: Store, scope: string, key: string) {
    forall otherScope, otherKey :: otherScope + ":" + otherKey != scope + ":" + key ==>
      var k := StoreKey(otherScope, otherKey);
      (k in after <==> k in before) && (k in before ==> after[k] == before[k])
  }

  lemma OthersAreKept(before: Store, after: Store, scope: string, key: string)
    requires forall k :: k != StoreKey(scope, key) ==> (k in after <==> k in before) && (k in before ==> after[k] == before[k])
    ensures OthersKept(before, after, scope, key)
  {
    forall otherScope, otherKey | otherScope + ":" + otherKey != scope + ":" + key
      ensures StoreKey(otherScope, otherKey) != StoreKey(scope, key)
    {
      KeysAreTexts(otherScope, otherKey, scope, key);
    }
  }

  /** One request on its own: with a free record it runs its handler and answers the
      result, with a taken one it answers from that, and no other record is touched. */
  lemma AloneMeans(store: Store, scope: string, header: Option<string>, fingerprint: string,
                   handler: Option<(int, string)>, c: Calls)
    ensures var t := Alone(store, scope, header, fingerprint, handler, c);
            && At(t, 0).Some? && At(t, 0).value.Answered? && (At(t, 0).value.answer.BadHeader? <==> !Acceptable(header))
            && (!Acceptable(header) ==> t.store == store)
            && (Acceptable(header) && c == Calls(Applied, true, Applied, Applied) ==>
                  var key := StoreKey(scope, header.value);
                  && (key !in store && handler.Some? ==>
                        && At(t, 0) == Some(Answered(Fresh(handler.value.0, handler.value.1)))
                        && t.store == store[key := Completed(fingerprint, handler.value.0, handler.value.1)])
                  && (key !in store && handler.None? ==> At(t, 0) == Some(Answered(HandlerError)) && t.store == store)
                  && (key in store ==>
                        && t.store == store
                        && At(t, 0) == Some(Answered(if store[key].fingerprint != fingerprint then UsedDifferently
                                                     else if store[key].Processing? then StillProcessing
                                                     else Replayed(store[key].statusCode, store[key].body)))))
            && (header.Some? ==> OthersKept(store, t.store, scope, header.value))
  {
    var t := Alone(store, scope, header, fingerprint, handler, c);
    var checked := CheckHeader(header);
    if checked.Err? {
      AloneRefused(store, scope, header, fingerprint, handler, c);
    } else if c.reserve != Applied {
      AloneUnreserved(store, scope, header, fingerprint, handler, c);
    } else if StoreKey(scope, checked.value) in store {
      AloneBlocked(store, scope, header, fingerprint, handler, c);
    } else {
      AloneAcquired(store, scope, header, fingerprint, handler, c);
    }
    if header.Some? { OthersAreKept(store, t.store, scope, header.value); }
  }

  /** The interceptor around a handler whose outcome is given. */
  method Intercept(service: IdempotencyService, scope: string, header: Option<string>, fingerprint: string,
                   handler: Option<(int, string)>, c: Calls) returns (answer: Answer)
    modifies service
    ensures var t := Alone(old(service.redis), scope, header, fingerprint, handler, c);
            service.redis == t.store && At(t, 0) == Some(Answered(answer))
    ensures answer.BadHeader? <==> !Acceptable(header)
    ensures answer.BadHeader? ==> service.redis == old(service.redis)
    ensures Acceptable(header) && c == Calls(Applied, true, Applied, Applied) ==>
              var key, before := StoreKey(scope, header.value), old(service.redis);
              && (key !in before && handler.Some? ==>
                    && answer == Fresh(handler.value.0, handler.value.1)
                    && service.redis == before[key := Completed(fingerprint, handler.value.0, handler.value.1)])
              && (key !in before && handler.None? ==> answer == HandlerError && service.redis == before)
              && (key in before ==>
                    && service.redis == before
                    && answer == (if before[key].fingerprint != fingerprint then UsedDifferently
                                  else if before[key].Processing? then StillProcessing
                                  else Replayed(before[key].statusCode, before[key].body)))
    ensures header.Some? ==> OthersKept(old(service.redis), service.redis, scope, header.value)
  {
    AloneMeans(service.redis, scope, header, fingerprint, handler, c);
    var checked := CheckHeader(header);
    if checked.Err? {
      AloneRefused(service.redis, scope, header, fingerprint, handler, c);
      return BadHeader(checked.error);
    }
    var key := checked.value;
    if c.reserve != Applied {
      AloneUnreserved(service.redis, scope, header, fingerprint, handler, c);
    } else if StoreKey(scope, key) in service.redis {
      AloneBlocked(service.redis, scope, header, fingerprint, handler, c);
    } else {
      AloneAcquired(service.redis, scope, header, fingerprint, handler, c);
    }
    var ok, acquired, record := service.Reserve(scope, key, fingerprint, c.reserve, c.read);
    if !ok {
      return StoreError;
    }
    if !acquired && record.Some? {
      if record.value.fingerprint != fingerprint {
        return UsedDifferently;
      }
      match record.value {
        case Processing(_) => return StillProcessing;
        case Completed(_, statusCode, body) => return Replayed(statusCode, body);
      }
    }
    if handler.Some? {
      var completed := service.Complete(scope, key, fingerprint, handler.value.0, handler.value.1, c.complete);
      if completed {
        return Fresh(handler.value.0, handler.value.1);
      }
    }
    service.Delete(scope, key, c.delete);
    return HandlerError;
  }

  // ------------------------------------------------ at most one execution

  predicate Pending(r: Request, key: string) {
    r.key == key && (r.phase == Running || r.phase == Deleting)
  }

  /** Requests that may still run the handler to success, or are about to take the
      record away. */
  ghost function Pendings(s: State, key: string): set<nat> {
    set id | id in s.requests && Pending(s.requests[id], key)
  }

  /** Requests whose handler succeeded under the key. */
  ghost function Winners(s: State, key: string): set<nat> {
    set id | id in s.won && s.won[id].key == key
  }

  /** How many successes the key can still come to, counting those it has had. */
  ghost function Potential(s: State, key: string): nat {
    |Pendings(s, key)| + |Winners(s, key)| + (if key in s.store then 0 else 1)
  }

  ghost predicate Bounded(s: State, key: string) {
    Potential(s, key) <= 1 + s.losses[key]
  }

  /** A request is a winner exactly from the moment its handler succeeded. */
  ghost predicate Wellformed(s: State) {
    && (forall id :: id in s.won ==> id in s.requests && s.requests[id].key == s.won[id].key)
    && (forall id :: id in s.requests && (s.requests[id].phase == Running || s.requests[id].phase == Blocked) ==> id !in s.won)
  }

  lemma PendingsAfter(s: State, t: State, id: nat, key: string)
    requires id in t.requests && t.requests == s.requests[id := t.requests[id]]
    ensures Pendings(t, key) == if Pending(t.requests[id], key) then Pendings(s, key) + {id} else Pendings(s, key) - {id}
  {
  }

  lemma ArriveKeepsWellformed(s: State, id: nat, scope: string, header: Option<string>, fingerprint: string, outcome: Outcome)
    requires Wellformed(s)
    ensures Wellformed(OnArrive(s, id, scope, header, fingerprint, outcome))
  {
  }

  lemma SuccessKeepsWellformed(s: State, id: nat, statusCode: int, body: string)
    requires Wellformed(s)
    ensures Wellformed(OnSuccess(s, id, statusCode, body))
  {
  }

  lemma ReadKeepsWellformed(s: State, id: nat, works: bool)
    requires Wellformed(s)
    ensures Wellformed(OnRead(s, id, works))
  {
  }

  lemma StepKeepsWellformed(s: State, e: Event)
    requires Wellformed(s)
    ensures Wellformed(Step(s, e))
  {
    match e
    case Arrive(id, scope, header, fingerprint, outcome) => ArriveKeepsWellformed(s, id, scope, header, fingerprint, outcome);
    case ReadRecord(id, works) => ReadKeepsWellformed(s, id, works);
    case HandlerSucceeds(id, statusCode, body) => SuccessKeepsWellformed(s, id, statusCode, body);
    case _ =>
  }

  lemma ReserveKeepsBound(s: State, id: nat, k: string, fingerprint: string, outcome: Outcome, key: string)
    requires Bounded(s, key) && id !in s.requests
    ensures Bounded(OnReserve(s, id, k, fingerprint, outcome), key)
  {
    var t := OnReserve(s, id, k, fingerprint, outcome);
    PendingsAfter(s, t, id, key);
    assert Pendings(s, key) - {id} == Pendings(s, key);
    assert Winners(t, key) == Winners(s, key);
  }

  lemma ArriveKeepsBound(s: State, id: nat, scope: string, header: Option<string>, fingerprint: string, outcome: Outcome, key: string)
    requires Bounded(s, key)
    ensures Bounded(OnArrive(s, id, scope, header, fingerprint, outcome), key)
  {
    var t := OnArrive(s, id, scope, header, fingerprint, outcome);
    if id !in s.requests {
      match CheckHeader(header)
      case Ok(idempotencyKey) => ReserveKeepsBound(s, id, StoreKey(scope, idempotencyKey), fingerprint, outcome, key);
      case Err(_) => assert Pendings(t, key) == Pendings(s, key) && Winners(t, key) == Winners(s, key);
    }
  }

  /** What a read finds: the record is there and the request ends, or it has
      vanished and the request runs its handler as the loss allows. */
  lemma ReadFrame(s: State, id: nat, works: bool, key: string)
    ensures var t := OnRead(s, id, works);
            && t.store == s.store && t.won == s.won
            && (t == s || (id in s.requests && s.requests[id].phase == Blocked && id in t.requests
                           && t.requests == s.requests[id := t.requests[id]]
                           && (Pending(t.requests[id], key) ==> t.losses[key] == s.losses[key] + 1)
                           && t.losses[key] >= s.losses[key]))
  {
  }

  lemma ReadKeepsBound(s: State, id: nat, works: bool, key: string)
    requires Bounded(s, key)
    ensures Bounded(OnRead(s, id, works), key)
  {
    var t := OnRead(s, id, works);
    ReadFrame(s, id, works, key);
    if t != s {
      PendingsAfter(s, t, id, key);
      assert Winners(t, key) == Winners(s, key);
      assert id !in Pendings(s, key);
      assert Pendings(s, key) - {id} == Pendings(s, key);
    }
  }

  lemma WinnersAfter(s: State, t: State, id: nat, key: string)
    requires id in t.won && id !in s.won && t.won == s.won[id := t.won[id]]
    ensures Winners(t, key) == if t.won[id].key == key then Winners(s, key) + {id} else Winners(s, key)
    ensures id !in Winners(s, key)
  {
  }

  lemma SuccessKeepsBound(s: State, id: nat, statusCode: int, body: string, key: string)
    requires Wellformed(s) && Bounded(s, key)
    ensures Bounded(OnSuccess(s, id, statusCode, body), key)
  {
    var t := OnSuccess(s, id, statusCode, body);
    if t != s {
      PendingsAfter(s, t, id, key);
      WinnersAfter(s, t, id, key);
      if s.requests[id].key == key {
        assert id in Pendings(s, key);
        assert |Pendings(t, key)| == |Pendings(s, key)| - 1;
      } else {
        assert Pendings(s, key) - {id} == Pendings(s, key);
      }
    }
  }

  lemma FailureKeepsBound(s: State, id: nat, key: string)
    requires Bounded(s, key)
    ensures Bounded(OnFailure(s, id), key)
  {
    var t := OnFailure(s, id);
    if t != s {
      assert Pendings(t, key) == Pendings(s, key) && Winners(t, key) == Winners(s, key);
    }
  }

  lemma CompletionKeepsBound(s: State, id: nat, outcome: Outcome, key: string)
    requires Bounded(s, key)
    ensures Bounded(OnComplete(s, id, outcome), key)
  {
    if At(s, id).Some? && At(s, id).value.Completing? {
      CompletionPendings(s, id, outcome, key);
      assert Winners(OnComplete(s, id, outcome), key) == Winners(s, key);
    }
  }

  /** Where it fails, the request comes to be one that takes the record away, and that
      is counted as a loss. */
  lemma CompletionPendings(s: State, id: nat, outcome: Outcome, key: string)
    requires At(s, id).Some? && At(s, id).value.Completing?
    ensures |Pendings(OnComplete(s, id, outcome), key)|
              == |Pendings(s, key)| + (if outcome != Applied && s.requests[id].key == key then 1 else 0)
  {
    PendingsAfter(s, OnComplete(s, id, outcome), id, key);
    assert id !in Pendings(s, key);
    assert Pendings(s, key) - {id} == Pendings(s, key);
  }

  lemma DeletionKeepsBound(s: State, id: nat, outcome: Outcome, key: string)
    requires Bounded(s, key)
    ensures Bounded(OnDelete(s, id, outcome), key)
  {
    var t := OnDelete(s, id, outcome);
    if t != s {
      PendingsAfter(s, t, id, key);
      assert Winners(t, key) == Winners(s, key);
      if s.requests[id].key == key {
        assert id in Pendings(s, key);
      } else {
        assert Pendings(s, key) - {id} == Pendings(s, key);
      }
    }
  }

  lemma StepKeepsBound(s: State, e: Event, key: string)
    requires Wellformed(s) && Bounded(s, key)
    ensures Bounded(Step(s, e), key)
  {
    match e
    case Arrive(id, scope, header, fingerprint, outcome) => ArriveKeepsBound(s, id, scope, header, fingerprint, outcome, key);
    case ReadRecord(id, works) => ReadKeepsBound(s, id, works, key);
    case HandlerSucceeds(id, statusCode, body) => SuccessKeepsBound(s, id, statusCode, body, key);
    case HandlerFails(id) => FailureKeepsBound(s, id, key);
    case Complete(id, outcome) => CompletionKeepsBound(s, id, outcome, key);
    case Delete(id, outcome) => DeletionKeepsBound(s, id, outcome, key);
    case Expire(k) =>
      assert Pendings(Step(s, e), key) == Pendings(s, key) && Winners(Step(s, e), key) == Winners(s, key);
  }

  ghost predicate Reachable(s: State) {
    exists events :: s == Run(INIT, events)
  }

  lemma {:induction false} RunKeepsBound(events: seq<Event>, key: string)
    ensures Wellformed(Run(INIT, events)) && Bounded(Run(INIT, events), key)
  {
    if events == [] {
      assert Pendings(INIT, key) == {} && Winners(INIT, key) == {};
    } else {
      var before := Run(INIT, events[..|events| - 1]);
      RunKeepsBound(events[..|events| - 1], key);
      StepKeepsWellformed(before, events[|events| - 1]);
      StepKeepsBound(before, events[|events| - 1], key);
    }
  }

  /** Main result: in every interleaving, with every kind of failure, the handler
      succeeds under one key at most once more than the key's record was lost. */
  lemma SuccessesBoundedByLosses(s: State, key: string)
    requires Reachable(s)
    ensures |Winners(s, key)| + |Pendings(s, key)| <= 1 + s.losses[key]
  {
    var events :| s == Run(INIT, events);
    RunKeepsBound(events, key);
  }

  lemma AtMostOneMember(ids: set<nat>, a: nat, b: nat)
    requires |ids| <= 1 && a in ids && b in ids
    ensures a == b
  {
    if a != b {
      assert {a, b} <= ids;
      CardinalityMonotone({a, b}, ids);
    }
  }

  lemma {:induction false} CardinalityMonotone(a: set<nat>, b: set<nat>)
    requires a <= b
    ensures |a| <= |b|
  {
    if a != {} {
      var x :| x in a;
      CardinalityMonotone(a - {x}, b - {x});
    }
  }

  /** Without losses a key has one execution: two successes, or two requests that
      both may still succeed, are the same request. */
  lemma AtMostOnceWithoutLoss(s: State, key: string, a: nat, b: nat)
    requires Reachable(s) && s.losses[key] == 0
    requires a in Winners(s, key) + Pendings(s, key) && b in Winners(s, key) + Pendings(s, key)
    ensures a == b
  {
    SuccessesBoundedByLosses(s, key);
    UnionBound(Winners(s, key), Pendings(s, key));
    AtMostOneMember(Winners(s, key) + Pendings(s, key), a, b);
  }

  lemma {:induction false} UnionBound(a: set<nat>, b: set<nat>)
    ensures |a + b| <= |a| + |b|
  {
    if a != {} {
      var x :| x in a;
      UnionBound(a - {x}, b);
      if x in b {
        assert a + b == (a - {x}) + b;
      } else {
        assert a + b == ((a - {x}) + b) + {x};
      }
    }
  }

  // ------------------------------------------------ replayed answers

  ghost predicate Produced(s: State, key: string, fingerprint: string, statusCode: int, body: string) {
    exists id :: id in s.won && s.won[id] == Success(key, fingerprint, statusCode, body)
  }

  /** Stored results and replayed answers are results of successful executions
      of the same request content under the same key. */
  ghost predicate Honest(s: State) {
    && (forall key :: HonestRecord(s, key))
    && (forall id :: HonestReplay(s, id))
    && CompletingAreWinners(s)
  }

  /** A request about to store a result has that result on record. */
  ghost predicate CompletingAreWinners(s: State) {
    forall id :: id in s.requests && s.requests[id].phase.Completing? ==>
      id in s.won && s.won[id] == Success(s.requests[id].key, s.requests[id].fingerprint,
                                          s.requests[id].phase.statusCode, s.requests[id].phase.body)
  }

  lemma ProducedStays(s: State, t: State, key: string, fingerprint: string, statusCode: int, body: string)
    requires Produced(s, key, fingerprint, statusCode, body)
    requires forall id :: id in s.won ==> id in t.won && t.won[id] == s.won[id]
    ensures Produced(t, key, fingerprint, statusCode, body)
  {
    var id :| id in s.won && s.won[id] == Success(key, fingerprint, statusCode, body);
    assert t.won[id] == Success(key, fingerprint, statusCode, body);
  }

  lemma StepKeepsWins(s: State, e: Event)
    requires Wellformed(s)
    ensures forall id :: id in s.won ==> id in Step(s, e).won && Step(s, e).won[id] == s.won[id]
  {
  }

  /** The part of honesty that concerns one stored record. */
  ghost predicate HonestRecord(s: State, key: string) {
    key in s.store && s.store[key].Completed? ==>
      Produced(s, key, s.store[key].fingerprint, s.store[key].statusCode, s.store[key].body)
  }

  ghost predicate HonestReplay(s: State, id: nat) {
    id in s.requests && s.requests[id].phase.Answered? && s.requests[id].phase.answer.Replayed? ==>
      var r := s.requests[id];
      Produced(s, r.key, r.fingerprint, r.phase.answer.statusCode, r.phase.answer.body)
  }

  lemma StepKeepsRecord(s: State, e: Event, key: string)
    requires Wellformed(s) && Honest(s)
    ensures HonestRecord(Step(s, e), key)
  {
    var t := Step(s, e);
    StepKeepsWins(s, e);
    if key in t.store && t.store[key].Completed? {
      if key in s.store && s.store[key] == t.store[key] {
        assert HonestRecord(s, key);
        ProducedStays(s, t, key, t.store[key].fingerprint, t.store[key].statusCode, t.store[key].body);
      } else {
        assert e.Complete? && t.won[e.id] == s.won[e.id];
      }
    }
  }

  /** A replay comes from the record read for it. */
  lemma ReplayIsRead(s: State, e: Event, id: nat)
    requires id in Step(s, e).requests && Step(s, e).requests[id].phase.Answered? && Step(s, e).requests[id].phase.answer.Replayed?
    ensures var r := Step(s, e).requests[id];
            || (id in s.requests && s.requests[id] == r)
            || (r.key in s.store && s.store[r.key] == Completed(r.fingerprint, r.phase.answer.statusCode, r.phase.answer.body))
  {
  }

  lemma StepKeepsReplay(s: State, e: Event, id: nat)
    requires Wellformed(s) && Honest(s)
    ensures HonestReplay(Step(s, e), id)
  {
    var t := Step(s, e);
    StepKeepsWins(s, e);
    if id in t.requests && t.requests[id].phase.Answered? && t.requests[id].phase.answer.Replayed? {
      var r := t.requests[id];
      assert HonestReplay(s, id) && HonestRecord(s, r.key);
      ReplayIsRead(s, e, id);
      ProducedStays(s, t, r.key, r.fingerprint, r.phase.answer.statusCode, r.phase.answer.body);
    }
  }

  lemma ArriveKeepsCompleting(s: State, id: nat, scope: string, header: Option<string>, fingerprint: string, outcome: Outcome)
    requires CompletingAreWinners(s)
    ensures CompletingAreWinners(OnArrive(s, id, scope, header, fingerprint, outcome))
  {
  }

  lemma ReadKeepsCompleting(s: State, id: nat, works: bool)
    requires CompletingAreWinners(s)
    ensures CompletingAreWinners(OnRead(s, id, works))
  {
  }

  lemma StepKeepsCompleting(s: State, e: Event)
    requires Wellformed(s) && CompletingAreWinners(s)
    ensures CompletingAreWinners(Step(s, e))
  {
    match e
    case Arrive(id, scope, header, fingerprint, outcome) => ArriveKeepsCompleting(s, id, scope, header, fingerprint, outcome);
    case ReadRecord(id, works) => ReadKeepsCompleting(s, id, works);
    case _ =>
  }

  lemma StepKeepsHonesty(s: State, e: Event)
    requires Wellformed(s) && Honest(s)
    ensures Honest(Step(s, e))
  {
    forall key ensures HonestRecord(Step(s, e), key) {
      StepKeepsRecord(s, e, key);
    }
    forall id ensures HonestReplay(Step(s, e), id) {
      StepKeepsReplay(s, e, id);
    }
    StepKeepsCompleting(s, e);
  }

  lemma {:induction false} RunIsHonest(events: seq<Event>)
    ensures Honest(Run(INIT, events)) && Wellformed(Run(INIT, events))
  {
    if events != [] {
      RunIsHonest(events[..|events| - 1]);
      StepKeepsWellformed(Run(INIT, events[..|events| - 1]), events[|events| - 1]);
      StepKeepsHonesty(Run(INIT, events[..|events| - 1]), events[|events| - 1]);
    }
  }

  lemma ReachableIsHonest(s: State)
    requires Reachable(s)
    ensures Honest(s) && Wellformed(s)
  {
    var events :| s == Run(INIT, events);
    RunIsHonest(events);
  }

  /** Main result on answers: whatever is replayed is the status and body of a
      successful execution with the same key and the same fingerprint. */
  lemma ReplaysAreExecutions(s: State, id: nat, statusCode: int, body: string)
    requires Reachable(s) && At(s, id) == Some(Answered(Replayed(statusCode, body)))
    ensures Produced(s, s.requests[id].key, s.requests[id].fingerprint, statusCode, body)
  {
    ReachableIsHonest(s);
    assert HonestReplay(s, id);
  }

  /** Without losses it is the result of the key's only execution. */
  lemma ReplayIsTheOnlyExecution(s: State, id: nat, statusCode: int, body: string, winner: nat)
    requires Reachable(s) && At(s, id) == Some(Answered(Replayed(statusCode, body)))
    requires s.losses[s.requests[id].key] == 0 && winner in Winners(s, s.requests[id].key)
    ensures s.won[winner] == Success(s.requests[id].key, s.requests[id].fingerprint, statusCode, body)
  {
    ReplaysAreExecutions(s, id, statusCode, body);
    var r := s.requests[id];
    var w :| w in s.won && s.won[w] == Success(r.key, r.fingerprint, statusCode, body);
    AtMostOnceWithoutLoss(s, r.key, w, winner);
  }

  // ------------------------------------------------ completion is lasting

  /** The record of a key says COMPLETED with this result. */
  predicate Holds(s: State, key: string, w: Success) {
    key in s.store && s.store[key] == Completed(w.fingerprint, w.statusCode, w.body)
  }

  /** Without a loss, a stored record is changed only by a clean-up or a completion. */
  lemma RecordChanges(s: State, e: Event, key: string)
    requires key in s.store && Step(s, e).losses[key] == 0
    ensures var t := Step(s, e);
            || (key in t.store && t.store[key] == s.store[key])
            || (e.Delete? && e.id in s.requests && Pending(s.requests[e.id], key))
            || (e.Complete? && e.id in s.requests && s.requests[e.id].key == key && s.requests[e.id].phase.Completing?)
    ensures s.losses[key] == 0
  {
  }

  /** While a key has had no loss, a result stored for it stays as it is. */
  lemma CompletedStays(s: State, e: Event, key: string, w: Success)
    requires Reachable(s) && Holds(s, key, w) && Step(s, e).losses[key] == 0
    ensures Holds(Step(s, e), key, w)
  {
    ReachableIsHonest(s);
    assert HonestRecord(s, key);
    var winner :| winner in s.won && s.won[winner] == Success(key, w.fingerprint, w.statusCode, w.body);
    RecordChanges(s, e, key);
    if !Holds(Step(s, e), key, w) {
      if e.Delete? {
        NothingPendingAfterWin(s, key, e.id, winner);
      } else {
        CompletionIsTheWinners(s, e, key, winner);
      }
    }
  }

  lemma CompletionIsTheWinners(s: State, e: Event, key: string, winner: nat)
    requires Reachable(s) && Honest(s) && s.losses[key] == 0 && winner in Winners(s, key) && Step(s, e).losses[key] == 0
    requires e.Complete? && e.id in s.requests && s.requests[e.id].key == key && s.requests[e.id].phase.Completing?
    ensures key in Step(s, e).store
    ensures var w := s.won[winner]; Step(s, e).store[key] == Completed(w.fingerprint, w.statusCode, w.body)
  {
    assert e.id in Winners(s, key);
    AtMostOnceWithoutLoss(s, key, e.id, winner);
  }

  lemma NothingPendingAfterWin(s: State, key: string, id: nat, winner: nat)
    requires Reachable(s) && s.losses[key] == 0 && winner in Winners(s, key)
    ensures id !in Pendings(s, key)
  {
    SuccessesBoundedByLosses(s, key);
    assert |Winners(s, key)| >= 1;
    assert |Pendings(s, key)| == 0;
  }

  // ------------------------------------------------ later requests

  /** A store call of the request that reports an error. */
  predicate FailsFor(e: Event, id: nat) {
    (e.Arrive? && e.id == id && e.outcome != Applied) || (e.ReadRecord? && e.id == id && !e.works)
  }

  ghost predicate SomeCallFails(es: seq<Event>, id: nat) {
    exists i :: 0 <= i < |es| && FailsFor(es[i], id)
  }

  /** What the stored result makes of a request with its key. */
  function AnswerFrom(w: Success, fingerprint: string): Answer {
    if fingerprint == w.fingerprint then Replayed(w.statusCode, w.body) else UsedDifferently
  }

  /** The request has still to read, or is answered from the result, or, only when a
      call of its own failed, with an error. */
  predicate OnlyAnswered(s: State, id: nat, key: string, w: Success, failed: bool) {
    id in s.requests && s.requests[id].key == key ==>
      var r := s.requests[id];
      || r.phase == Blocked
      || r.phase == Answered(AnswerFrom(w, r.fingerprint))
      || (failed && r.phase == Answered(StoreError))
  }

  lemma StepOnlyAnswers(s: State, e: Event, id: nat, key: string, w: Success, failed: bool)
    requires Holds(s, key, w) && key != "" && OnlyAnswered(s, id, key, w, failed)
    ensures OnlyAnswered(Step(s, e), id, key, w, failed || FailsFor(e, id))
  {
  }

  lemma FailuresGrow(es: seq<Event>, id: nat)
    requires es != []
    ensures SomeCallFails(es, id) <==> SomeCallFails(es[..|es| - 1], id) || FailsFor(es[|es| - 1], id)
  {
    if SomeCallFails(es[..|es| - 1], id) {
      var i :| 0 <= i < |es| - 1 && FailsFor(es[..|es| - 1][i], id);
      assert FailsFor(es[i], id);
    }
    if SomeCallFails(es, id) {
      var i :| 0 <= i < |es| && FailsFor(es[i], id);
      assert i < |es| - 1 ==> FailsFor(es[..|es| - 1][i], id);
    }
  }

  /** Main result on completed keys: once a result is stored, in every continuation
      without a loss, whatever else goes on, it stays, no handler runs for a request
      that had not yet read the record, and each is answered from the result: with the
      same content it is replayed, with different content it is refused. Only a failing
      store call of its own ends a request in another way, and one that has still to
      read gets that answer from its read. */
  lemma {:induction false} CompletedAnswersEveryLaterRequest(s: State, es: seq<Event>, scope: string, idempotencyKey: string,
                                                             w: Success, id: nat)
    requires Reachable(s) && Holds(s, StoreKey(scope, idempotencyKey), w) && (id in s.requests ==> s.requests[id].phase == Blocked)
    requires Run(s, es).losses[StoreKey(scope, idempotencyKey)] == 0
    ensures var t, key := Run(s, es), StoreKey(scope, idempotencyKey);
            && Reachable(t) && Holds(t, key, w) && OnlyAnswered(t, id, key, w, SomeCallFails(es, id))
            && (id in t.requests && t.requests[id].key == key && t.requests[id].phase == Blocked ==>
                  At(Step(t, ReadRecord(id, true)), id) == Some(Answered(AnswerFrom(w, t.requests[id].fingerprint))))
  {
    var key := StoreKey(scope, idempotencyKey);
    assert key[0] == 'i';
    if es != [] {
      var before, e := es[..|es| - 1], es[|es| - 1];
      StepKeepsLosses(Run(s, before), e, key);
      CompletedAnswersEveryLaterRequest(s, before, scope, idempotencyKey, w, id);
      FailuresGrow(es, id);
      StepOnlyAnswers(Run(s, before), e, id, key, w, SomeCallFails(before, id));
      CompletedStays(Run(s, before), e, key, w);
      ReachableStep(Run(s, before), e);
    }
  }

  lemma StepKeepsLosses(s: State, e: Event, key: string)
    ensures s.losses[key] <= Step(s, e).losses[key]
  {
  }

  // ------------------------------------------------ requests of other scopes

  /** A step of another request, with another scope or key, or of time for another record. */
  predicate Foreign(e: Event, id: nat, scope: string, key: string) {
    match e
    case Arrive(other, otherScope, header, _, _) =>
      other != id && (header.Some? ==> otherScope + ":" + header.value != scope + ":" + key)
    case ReadRecord(other, _) => other != id
    case HandlerSucceeds(other, _, _) => other != id
    case HandlerFails(other) => other != id
    case Complete(other, _) => other != id
    case Delete(other, _) => other != id
    case Expire(k) => k != StoreKey(scope, key)
  }

  ghost predicate AllForeign(es: seq<Event>, id: nat, scope: string, key: string) {
    forall i :: 0 <= i < |es| ==> Foreign(es[i], id, scope, key)
  }

  /** No other request has the record's key. */
  ghost predicate NoOther(s: State, id: nat, k: string) {
    forall other :: other in s.requests && other != id ==> s.requests[other].key != k
  }

  /** What a request and its record are to each other, apart from all else. */
  ghost predicate Untouched(s: State, t: State, id: nat, k: string) {
    && (id in t.requests <==> id in s.requests) && (id in s.requests ==> t.requests[id] == s.requests[id])
    && (k in t.store <==> k in s.store) && (k in s.store ==> t.store[k] == s.store[k])
  }

  lemma ForeignStep(s: State, e: Event, id: nat, scope: string, key: string)
    requires Foreign(e, id, scope, key) && NoOther(s, id, StoreKey(scope, key))
    ensures NoOther(Step(s, e), id, StoreKey(scope, key)) && Untouched(s, Step(s, e), id, StoreKey(scope, key))
  {
    if e.Arrive? { ForeignArrival(s, e.id, e.scope, e.header, e.fingerprint, e.outcome, id, scope, key); }
  }

  lemma ForeignArrival(s: State, other: nat, otherScope: string, header: Option<string>, fingerprint: string, outcome: Outcome,
                       id: nat, scope: string, key: string)
    requires Foreign(Arrive(other, otherScope, header, fingerprint, outcome), id, scope, key) && NoOther(s, id, StoreKey(scope, key))
    ensures var t := OnArrive(s, other, otherScope, header, fingerprint, outcome);
            NoOther(t, id, StoreKey(scope, key)) && Untouched(s, t, id, StoreKey(scope, key))
  {
    if header.Some? { KeysAreTexts(otherScope, header.value, scope, key); }
    assert StoreKey(scope, key)[0] == 'i';
  }

  lemma {:induction false} ForeignRun(s: State, es: seq<Event>, id: nat, scope: string, key: string)
    requires AllForeign(es, id, scope, key) && NoOther(s, id, StoreKey(scope, key))
    ensures NoOther(Run(s, es), id, StoreKey(scope, key)) && Untouched(s, Run(s, es), id, StoreKey(scope, key))
  {
    if es != [] {
      ForeignRun(s, es[..|es| - 1], id, scope, key);
      ForeignStep(Run(s, es[..|es| - 1]), es[|es| - 1], id, scope, key);
    }
  }

  /** A request whose own scope and key hold no record runs its handler and is answered
      with its result, whatever requests with other scopes or keys do meanwhile. */
  lemma FreshScopeRunsHandler(s: State, id: nat, scope: string, key: string, fingerprint: string, statusCode: int, body: string,
                              first: seq<Event>, second: seq<Event>, third: seq<Event>)
    requires id !in s.requests && StoreKey(scope, key) !in s.store && NoOther(s, id, StoreKey(scope, key)) && Acceptable(Some(key))
    requires AllForeign(first, id, scope, key) && AllForeign(second, id, scope, key) && AllForeign(third, id, scope, key)
    ensures var running := Run(Step(Run(s, first), Arrive(id, scope, Some(key), fingerprint, Applied)), second);
            var t := Step(Run(Step(running, HandlerSucceeds(id, statusCode, body)), third), Complete(id, Applied));
            && At(running, id) == Some(Running) && At(t, id) == Some(Answered(Fresh(statusCode, body)))
            && Holds(t, StoreKey(scope, key), Success(StoreKey(scope, key), fingerprint, statusCode, body))
  {
    ForeignRun(s, first, id, scope, key);
    var arrived := Step(Run(s, first), Arrive(id, scope, Some(key), fingerprint, Applied));
    FreshArrival(Run(s, first), id, scope, key, fingerprint);
    ForeignRun(arrived, second, id, scope, key);
    RunsAndCompletes(Run(arrived, second), id, scope, key, fingerprint, statusCode, body, third);
  }

  lemma FreshArrival(s: State, id: nat, scope: string, key: string, fingerprint: string)
    requires id !in s.requests && StoreKey(scope, key) !in s.store && NoOther(s, id, StoreKey(scope, key)) && Acceptable(Some(key))
    ensures var t, k := Step(s, Arrive(id, scope, Some(key), fingerprint, Applied)), StoreKey(scope, key);
            id in t.requests && t.requests[id] == Request(k, fingerprint, Running) && NoOther(t, id, k)
  {
    assert Step(s, Arrive(id, scope, Some(key), fingerprint, Applied)) == OnReserve(s, id, StoreKey(scope, key), fingerprint, Applied);
  }

  lemma RunsAndCompletes(s: State, id: nat, scope: string, key: string, fingerprint: string, statusCode: int, body: string,
                         third: seq<Event>)
    requires id in s.requests && s.requests[id] == Request(StoreKey(scope, key), fingerprint, Running)
    requires NoOther(s, id, StoreKey(scope, key)) && AllForeign(third, id, scope, key)
    ensures var t := Step(Run(Step(s, HandlerSucceeds(id, statusCode, body)), third), Complete(id, Applied));
            && At(t, id) == Some(Answered(Fresh(statusCode, body)))
            && Holds(t, StoreKey(scope, key), Success(StoreKey(scope, key), fingerprint, statusCode, body))
  {
    ForeignRun(Step(s, HandlerSucceeds(id, statusCode, body)), third, id, scope, key);
  }

  /** And its own steps leave the records of all other scopes and keys as they were. */
  lemma OwnStepsKeepOthers(s: State, e: Event, id: nat, scope: string, key: string)
    requires !Foreign(e, id, scope, key) && (id in s.requests ==> s.requests[id].key == StoreKey(scope, key))
    requires e.Arrive? ==> e.scope == scope && e.header == Some(key)
    ensures OthersKept(s.store, Step(s, e).store, scope, key)
  {
    OthersAreKept(s.store, Step(s, e).store, scope, key);
  }

  // ------------------------------------------------ what each loss can do

  lemma ReachableStep(s: State, e: Event)
    requires Reachable(s)
    ensures Reachable(Step(s, e))
  {
    var events :| s == Run(INIT, events);
    assert (events + [e])[..|events|] == events;
    assert Step(s, e) == Run(INIT, events + [e]);
  }

  const KEY: string := StoreKey("s", "k")

  function Coming(id: nat): Event { Arrive(id, "s", Some("k"), "f", Applied) }

  lemma ComingReserves(s: State, id: nat)
    requires id !in s.requests
    ensures Step(s, Coming(id)) == OnReserve(s, id, KEY, "f", Applied)
  {
    assert !Blank("k") by { assert 'k' in "k"; }
  }

  /** A request that took the reservation and whose handler succeeded. */
  function FirstSuccess(): State {
    State(map[KEY := Processing("f")], map[1 := Request(KEY, "f", Completing(201, "x"))],
          map[1 := Success(KEY, "f", 201, "x")], multiset{})
  }

  lemma FirstSuccessReached()
    ensures Reachable(FirstSuccess())
  {
    assert INIT == Run(INIT, []);
    ReachableStep(INIT, Coming(1));
    ComingReserves(INIT, 1);
    ReachableStep(OnReserve(INIT, 1, KEY, "f", Applied), HandlerSucceeds(1, 201, "x"));
    assert OnSuccess(OnReserve(INIT, 1, KEY, "f", Applied), 1, 201, "x") == FirstSuccess();
  }

  /** A request that comes when the key is free runs its handler to success. */
  lemma NextSucceeds(s: State, id: nat)
    requires Reachable(s) && KEY !in s.store && id !in s.requests && id !in s.won
    ensures var t := OnSuccess(Step(s, Coming(id)), id, 201, "y");
            Reachable(t) && Winners(t, KEY) == Winners(s, KEY) + {id} && t.losses == s.losses
  {
    ReachableStep(s, Coming(id));
    ComingReserves(s, id);
    ReachableStep(OnReserve(s, id, KEY, "f", Applied), HandlerSucceeds(id, 201, "y"));
  }

  lemma ExpiredReached() returns (s: State)
    ensures Reachable(s) && KEY !in s.store && s.losses[KEY] == 1
    ensures s.requests.Keys == {1} && s.won == FirstSuccess().won
  {
    FirstSuccessReached();
    ReachableStep(FirstSuccess(), Expire(KEY));
    s := OnExpire(FirstSuccess(), KEY);
  }

  function Unstored(stored: bool): State {
    State(map[KEY := if stored then Completed("f", 201, "x") else Processing("f")], map[1 := Request(KEY, "f", Deleting)],
          FirstSuccess().won, multiset{KEY})
  }

  lemma UnstoredReached(stored: bool)
    ensures Reachable(Unstored(stored))
  {
    var outcome := if stored then LostAfter else LostBefore;
    FirstSuccessReached();
    ReachableStep(FirstSuccess(), Complete(1, outcome));
    assert OnComplete(FirstSuccess(), 1, outcome) == Unstored(stored);
  }

  lemma CleanedReached(stored: bool) returns (s: State)
    ensures Reachable(s) && KEY !in s.store && s.losses[KEY] == 1
    ensures s.requests.Keys == {1} && s.won == FirstSuccess().won
  {
    UnstoredReached(stored);
    ReachableStep(Unstored(stored), Delete(1, Applied));
    s := OnDelete(Unstored(stored), 1, Applied);
  }

  /** How the record of a successful execution can be lost. */
  datatype Loss = Expired | CompleteFailed(stored: bool)

  /** It expires, or storing the result fails, with or without effect, and the clean-up
      removes it: each alone reaches the bound of `SuccessesBoundedByLosses`. */
  lemma LossesRepeatTheHandler(loss: Loss) returns (t: State)
    ensures Reachable(t) && t.losses[KEY] == 1 && Winners(t, KEY) == {1, 2}
  {
    var s;
    if loss.Expired? { s := ExpiredReached(); } else { s := CleanedReached(loss.stored); }
    assert Winners(s, KEY) == {1};
    NextSucceeds(s, 2);
    t := OnSuccess(Step(s, Coming(2)), 2, 201, "y");
  }

  /** A request that lost the race of `reserve` and has not yet read. */
  lemma BlockedReached() returns (s: State)
    ensures Reachable(s) && s.store == map[KEY := Processing("f")] && s.won == map[] && s.losses == multiset{}
    ensures s.requests == map[1 := Request(KEY, "f", Running), 2 := Request(KEY, "f", Blocked)]
  {
    assert INIT == Run(INIT, []);
    ReachableStep(INIT, Coming(1));
    ComingReserves(INIT, 1);
    s := OnReserve(INIT, 1, KEY, "f", Applied);
    ReachableStep(s, Coming(2));
    ComingReserves(s, 2);
    s := OnReserve(s, 2, KEY, "f", Applied);
  }

  /** Meanwhile the winner's handler fails and its record is removed. */
  lemma VanishedReached() returns (s: State)
    ensures Reachable(s) && KEY !in s.store && s.won == map[] && s.losses == multiset{}
    ensures s.requests.Keys == {1, 2} && s.requests[2] == Request(KEY, "f", Blocked)
  {
    s := BlockedReached();
    ReachableStep(s, HandlerFails(1));
    s := OnFailure(s, 1);
    ReachableStep(s, Delete(1, Applied));
    s := OnDelete(s, 1, Applied);
  }

  /** The third kind of loss: the blocked request finds the record gone, runs its
      handler without a reservation, and so does the next: two successes, one loss. */
  lemma VanishedRecordRunsTwoHandlers() returns (t: State)
    ensures Reachable(t) && t.losses[KEY] == 1 && Winners(t, KEY) == {2, 3}
  {
    var s := VanishedReached();
    ReachableStep(s, ReadRecord(2, true));
    s := OnRead(s, 2, true);
    ReachableStep(s, HandlerSucceeds(2, 201, "x"));
    s := OnSuccess(s, 2, 201, "x");
    assert Winners(s, KEY) == {2};
    NextSucceeds(s, 3);
    t := OnSuccess(Step(s, Coming(3)), 3, 201, "y");
  }
}
