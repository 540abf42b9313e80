/** The two windowed counters kept in Redis: requests of a user, failed logins of an
    address. A counter is created by its first INCR; a separate EXPIRE gives it its
    time to live. Times are in milliseconds. */
module RateLimits {
  import opened Common

  const WINDOW := 900000
  const LIMIT := 100

  /** An absent key counts zero. */
  datatype Counter = Counter(count: nat, deadline: Option<int>)

  const ABSENT := Counter(0, None)

  /** What the key holds at a time: past its deadline it is gone. */
  function At(c: Counter, now: int): Counter {
    if c.deadline.Some? && c.deadline.value <= now then ABSENT else c
  }

  function Increased(c: Counter): Counter { c.(count := c.count + 1) }

  /** EXPIRE of a missing key does nothing. */
  function Expiring(c: Counter, now: int): Counter {
    if c.count == 0 then c else c.(deadline := Some(now + WINDOW))
  }

  // ------------------------------------------------ requests of one user

  /** An allowed request: when, in which lifetime of the key, and whether it began it. */
  datatype Pass = Pass(time: int, life: nat, first: bool)

  /** `pending`: the request that created the key has still to send its EXPIRE.
      `starts` and `passes` are history. */
  datatype State = State(now: int, key: Counter, pending: bool, starts: seq<int>, passes: seq<Pass>)

  const INIT := State(0, ABSENT, false, [], [])

  datatype Event = Tick(to: int) | Incr | Expire | Crash

  function OnTick(s: State, to: int): State {
    if to < s.now then s else s.(now := to, key := At(s.key, to))
  }

  /** The INCR of a request, which is allowed when the count is within the limit. */
  function OnIncr(s: State): State {
    var key := Increased(s.key);
    var first := key.count == 1;
    var starts := if first then s.starts + [s.now] else s.starts;
    s.(key := key, pending := s.pending || first, starts := starts,
       passes := if key.count <= LIMIT && starts != [] then s.passes + [Pass(s.now, |starts| - 1, first)] else s.passes)
  }

  function OnExpire(s: State): State {
    if s.pending then s.(key := Expiring(s.key, s.now), pending := false) else s
  }

  /** The request that created the key stops before its EXPIRE. */
  function OnCrash(s: State): State { s.(pending := false) }

  function Step(s: State, e: Event): State {
    match e
    case Tick(to) => OnTick(s, to)
    case Incr => OnIncr(s)
    case Expire => OnExpire(s)
    case Crash => OnCrash(s)
  }

  function Run(s: State, es: seq<Event>): State {
    if es == [] then s else Step(Run(s, es[..|es| - 1]), es[|es| - 1])
  }

  ghost predicate Reachable(s: State) { exists es :: s == Run(INIT, es) }

  // ------------------------------------------------ counting

  function Count(passes: seq<Pass>, p: Pass -> bool): nat {
    if passes == [] then 0
    else Count(passes[..|passes| - 1], p) + if p(passes[|passes| - 1]) then 1 else 0
  }

  lemma CountAppends(passes: seq<Pass>, x: Pass, p: Pass -> bool)
    ensures Count(passes + [x], p) == Count(passes, p) + if p(x) then 1 else 0
  {
    assert (passes + [x])[..|passes|] == passes;
  }

  lemma {:induction false} CountCovers(passes: seq<Pass>, p: Pass -> bool, q: Pass -> bool, r: Pass -> bool)
    requires forall i :: 0 <= i < |passes| && p(passes[i]) ==> q(passes[i]) || r(passes[i])
    ensures Count(passes, p) <= Count(passes, q) + Count(passes, r)
  {
    if passes != [] { CountCovers(passes[..|passes| - 1], p, q, r); }
  }

  function FirstOf(life: nat): Pass -> bool { (x: Pass) => x.life == life && x.first }

  function RestOf(life: nat): Pass -> bool { (x: Pass) => x.life == life && !x.first }

  function LifeOf(life: nat): Pass -> bool { (x: Pass) => x.life == life }

  /** The half-open interval of one window's length. */
  function Within(t: int): Pass -> bool { (x: Pass) => t <= x.time < t + WINDOW }

  // ------------------------------------------------ invariant

  ghost predicate KeySound(s: State) {
    && (s.key.count > 0 ==> s.starts != [])
    && (s.key.count == 0 ==> s.key.deadline.None? && !s.pending && (s.starts != [] ==> s.starts[|s.starts| - 1] + WINDOW <= s.now))
    && (s.pending ==> s.key.deadline.None?)
    && (s.key.deadline.Some? ==> s.now < s.key.deadline.value && s.starts[|s.starts| - 1] + WINDOW <= s.key.deadline.value)
  }

  ghost predicate StartsSpaced(s: State) {
    && (forall i :: 0 <= i < |s.starts| ==> s.starts[i] <= s.now)
    && (forall i, j :: 0 <= i < j < |s.starts| ==> s.starts[i] + WINDOW <= s.starts[j])
  }

  ghost predicate PassSound(starts: seq<int>, now: int, x: Pass) {
    && x.life < |starts| && starts[x.life] <= x.time <= now
    && (x.first ==> x.time == starts[x.life])
    && (x.life + 1 < |starts| ==> x.time <= starts[x.life + 1])
  }

  ghost predicate PassesSound(s: State) {
    forall i :: 0 <= i < |s.passes| ==> PassSound(s.starts, s.now, s.passes[i])
  }

  /** Requests allowed in the lifetime after its first. */
  function Rest(s: State, life: nat): nat { Count(s.passes, RestOf(life)) }

  function First(s: State, life: nat): nat { Count(s.passes, FirstOf(life)) }

  ghost predicate LifeBounded(s: State, life: nat) {
    && First(s, life) <= 1 && Rest(s, life) <= LIMIT - 1
    && (life >= |s.starts| ==> First(s, life) == 0 && Rest(s, life) == 0)
    && (life + 1 == |s.starts| && s.key.count > 0 ==> First(s, life) == 1 && Rest(s, life) == Min(s.key.count, LIMIT) - 1)
  }

  ghost predicate Inv(s: State) {
    KeySound(s) && StartsSpaced(s) && PassesSound(s) && forall life: nat :: LifeBounded(s, life)
  }

  lemma IncrKeepsKey(s: State)
    requires KeySound(s)
    ensures KeySound(OnIncr(s))
  {
  }

  lemma StartAdds(starts: seq<int>, now: int)
    requires forall i, j :: 0 <= i < j < |starts| ==> starts[i] + WINDOW <= starts[j]
    requires starts != [] ==> starts[|starts| - 1] + WINDOW <= now
    ensures var more := starts + [now];
            forall i, j :: 0 <= i < j < |more| ==> more[i] + WINDOW <= more[j]
  {
    var more := starts + [now];
    forall i, j | 0 <= i < j < |more| ensures more[i] + WINDOW <= more[j] {
      if j == |starts| && i < |starts| - 1 {
        assert starts[i] + WINDOW <= starts[|starts| - 1];
      }
    }
  }

  lemma IncrKeepsStarts(s: State)
    requires KeySound(s) && StartsSpaced(s)
    ensures KeySound(OnIncr(s)) && StartsSpaced(OnIncr(s))
  {
    IncrKeepsKey(s);
    if s.key.count == 0 { StartAdds(s.starts, s.now); }
  }

  lemma PassStaysSound(starts: seq<int>, more: seq<int>, now: int, x: Pass)
    requires PassSound(starts, now, x) && (more == starts || more == starts + [now])
    ensures PassSound(more, now, x)
  {
  }

  lemma NewPassSound(s: State)
    requires KeySound(s) && StartsSpaced(s) && OnIncr(s).passes != s.passes
    ensures PassSound(OnIncr(s).starts, s.now, OnIncr(s).passes[|s.passes|])
  {
  }

  lemma IncrKeepsPasses(s: State)
    requires KeySound(s) && StartsSpaced(s) && PassesSound(s)
    ensures PassesSound(OnIncr(s))
  {
    var t := OnIncr(s);
    forall i | 0 <= i < |t.passes| ensures PassSound(t.starts, t.now, t.passes[i]) {
      if i < |s.passes| { PassStaysSound(s.starts, t.starts, s.now, s.passes[i]); } else { NewPassSound(s); }
    }
  }

  lemma IncrKeepsBound(s: State, life: nat)
    requires KeySound(s) && LifeBounded(s, life)
    ensures LifeBounded(OnIncr(s), life)
  {
    var t := OnIncr(s);
    if t.passes != s.passes {
      CountAppends(s.passes, t.passes[|s.passes|], FirstOf(life));
      CountAppends(s.passes, t.passes[|s.passes|], RestOf(life));
    }
  }

  lemma StepKeepsInv(s: State, e: Event)
    requires Inv(s)
    ensures Inv(Step(s, e))
  {
    match e
    case Incr =>
      IncrKeepsStarts(s);
      IncrKeepsPasses(s);
      forall life: nat ensures LifeBounded(OnIncr(s), life) { IncrKeepsBound(s, life); }
    case _ =>
      forall life: nat ensures LifeBounded(Step(s, e), life) { assert LifeBounded(s, life); }
  }

  lemma {:induction false} RunKeepsInv(es: seq<Event>)
    ensures Inv(Run(INIT, es))
  {
    if es != [] {
      RunKeepsInv(es[..|es| - 1]);
      StepKeepsInv(Run(INIT, es[..|es| - 1]), es[|es| - 1]);
    }
  }

  // ------------------------------------------------ main results

  /** A lifetime of the key allows at most one hundred requests. */
  lemma LimitPerLifetime(s: State, life: nat)
    requires Reachable(s)
    ensures Count(s.passes, (x: Pass) => x.life == life) <= 100
    ensures Count(s.passes, LifeOf(life)) <= LIMIT
  {
    var es :| s == Run(INIT, es);
    RunKeepsInv(es);
    assert LifeBounded(s, life);
    CountCovers(s.passes, LifeOf(life), FirstOf(life), RestOf(life));
    CountCovers(s.passes, (x: Pass) => x.life == life, FirstOf(life), RestOf(life));
  }

  /** The lifetimes that an interval of one window touches. */
  lemma {:induction false} LastStartBefore(starts: seq<int>, t: int) returns (n: nat)
    requires forall i, j :: 0 <= i < j < |starts| ==> starts[i] + WINDOW <= starts[j]
    ensures n <= |starts|
    ensures forall i :: 0 <= i < n ==> starts[i] < t
    ensures forall i :: n <= i < |starts| ==> t <= starts[i]
  {
    n := |starts|;
    while n > 0 && t <= starts[n - 1]
      invariant n <= |starts|
      invariant forall i :: n <= i < |starts| ==> t <= starts[i]
    {
      n := n - 1;
    }
  }

  lemma StartsAfter(starts: seq<int>, i: nat, n: nat)
    requires i < n <= |starts| && forall j, k :: 0 <= j < k < |starts| ==> starts[j] + WINDOW <= starts[k]
    ensures i + 1 < n ==> starts[i] + WINDOW <= starts[i + 1]
    ensures i + 2 < n ==> starts[i + 1] + WINDOW <= starts[i + 2]
  {
  }

  lemma WindowTouchesTwo(s: State, t: int, n: nat, i: nat)
    requires StartsSpaced(s) && PassesSound(s) && i < |s.passes| && Within(t)(s.passes[i])
    requires n <= |s.starts| && (forall j :: 0 <= j < n ==> s.starts[j] < t + WINDOW)
    requires forall j :: n <= j < |s.starts| ==> t + WINDOW <= s.starts[j]
    ensures n > 0 && (s.passes[i].life == n - 1 || (n > 1 && s.passes[i].life == n - 2 && !s.passes[i].first))
  {
    var x := s.passes[i];
    assert PassSound(s.starts, s.now, x);
    assert x.life < n;
    StartsAfter(s.starts, x.life, n);
  }

  /** Over any interval of fifteen minutes a user is allowed at most 199 requests: it
      touches at most two lifetimes, and not the first request of the earlier one. */
  lemma LimitPerInterval(s: State, t: int)
    requires Reachable(s)
    ensures Count(s.passes, (x: Pass) => t <= x.time < t + 900000) <= 199
  {
    var es :| s == Run(INIT, es);
    RunKeepsInv(es);
    var n := LastStartBefore(s.starts, t + WINDOW);
    var last: nat, previous: nat := if n > 0 then n - 1 else 0, if n > 1 then n - 2 else |s.starts|;
    forall i | 0 <= i < |s.passes| && Within(t)(s.passes[i])
      ensures LifeOf(last)(s.passes[i]) || RestOf(previous)(s.passes[i])
    {
      WindowTouchesTwo(s, t, n, i);
    }
    var fifteen := (x: Pass) => t <= x.time < t + 900000;
    forall i | 0 <= i < |s.passes| && fifteen(s.passes[i]) ensures Within(t)(s.passes[i]) {
    }
    CountCovers(s.passes, fifteen, LifeOf(last), RestOf(previous));
    LimitPerLifetime(s, last);
    assert LifeBounded(s, previous);
  }

  lemma ReachableStep(s: State, e: Event)
    requires Reachable(s)
    ensures Reachable(Step(s, e))
  {
    var es :| s == Run(INIT, es);
    assert (es + [e])[..|es|] == es;
    assert Step(s, e) == Run(INIT, es + [e]);
  }

  /** A burst within a lifetime, all at one time. */
  lemma {:induction false} Burst(s: State, n: nat, t: int) returns (u: State)
    requires Reachable(s) && s.starts != [] && 1 <= s.key.count && s.key.count + n <= LIMIT && t <= s.now < t + WINDOW
    ensures Reachable(u) && u.key == Counter(s.key.count + n, s.key.deadline) && u.now == s.now && u.starts == s.starts
    ensures u.pending == s.pending && Count(u.passes, Within(t)) == Count(s.passes, Within(t)) + n
    decreases n
  {
    u := s;
    if n > 0 {
      ReachableStep(s, Incr);
      CountAppends(s.passes, Pass(s.now, |s.starts| - 1, false), Within(t));
      u := Burst(OnIncr(s), n - 1, t);
    }
  }

  /** And 199 are reached. */
  lemma LimitPerIntervalIsReached()
    ensures exists s, t :: Reachable(s) && Count(s.passes, Within(t)) == 199
  {
    var t := WINDOW - 1;
    assert INIT == Run(INIT, []);
    ReachableStep(INIT, Incr);
    ReachableStep(OnIncr(INIT), Expire);
    var s := OnExpire(OnIncr(INIT));
    CountAppends([], Pass(0, 0, true), Within(t));
    assert Count(s.passes, Within(t)) == 0;
    ReachableStep(s, Tick(t));
    s := Burst(OnTick(s, t), LIMIT - 1, t);
    ReachableStep(s, Tick(WINDOW));
    s := OnTick(s, WINDOW);
    ReachableStep(s, Incr);
    CountAppends(s.passes, Pass(WINDOW, 1, true), Within(t));
    s := Burst(OnIncr(s), LIMIT - 1, t);
    assert Count(s.passes, Within(t)) == 2 * LIMIT - 1;
  }

  /** The key is there, has no time to live, and no request will give it one. */
  predicate Unending(s: State) { s.key.count > 0 && s.key.deadline.None? && !s.pending }

  /** It arises in one way: the request that created the key stops before its EXPIRE. */
  lemma UnendingArises(s: State, e: Event)
    requires Reachable(s) && !Unending(s)
    ensures Unending(Step(s, e)) <==> e == Crash && s.pending
  {
    var es :| s == Run(INIT, es);
    RunKeepsInv(es);
  }

  /** It never ends: the key stays, and counts on. */
  lemma {:induction false} UnendingStays(s: State, es: seq<Event>)
    requires Unending(s)
    ensures Unending(Run(s, es)) && Run(s, es).key.count >= s.key.count && Run(s, es).starts == s.starts
  {
    if es != [] { UnendingStays(s, es[..|es| - 1]); }
  }

  /** And once it is at the limit no request is allowed any more, ever. */
  predicate Stuck(s: State) { Unending(s) && s.key.count >= LIMIT }

  lemma {:induction false} StuckForever(s: State, es: seq<Event>)
    requires Unending(s) && s.key.count >= 100
    ensures Stuck(Run(s, es)) && Run(s, es).passes == s.passes
  {
    if es != [] { StuckForever(s, es[..|es| - 1]); }
  }

  /** A run that comes to that: the first request stops before its EXPIRE, and the
      rest of the limit is used up. */
  lemma StuckIsReached()
    ensures exists s :: Reachable(s) && Stuck(s)
  {
    assert INIT == Run(INIT, []);
    ReachableStep(INIT, Incr);
    ReachableStep(OnIncr(INIT), Crash);
    var s := Burst(OnCrash(OnIncr(INIT)), LIMIT - 1, 0);
    assert Stuck(s);
  }

  /** A key that has its deadline is gone at that time. */
  lemma DeadlineFrees(s: State, to: int)
    requires Reachable(s) && s.key.count > 0 && s.now <= to
    ensures OnTick(s, to).key.count == 0 <==> s.key.deadline.Some? && s.key.deadline.value <= to
    ensures s.key.deadline.Some? && s.key.deadline.value <= to ==> |OnIncr(OnTick(s, to)).passes| == |s.passes| + 1
    ensures s.key.deadline.Some? ==> s.starts != [] && s.starts[|s.starts| - 1] + 900000 <= s.key.deadline.value
    ensures s.pending ==> OnExpire(s).key.deadline == Some(s.now + 900000)
  {
    var es :| s == Run(INIT, es);
    RunKeepsInv(es);
  }

  // ------------------------------------------------ failed logins of one address

  const MAX_ATTEMPTS := 5

  /** Logins in flight are past the check and have not ended. `peak` is the most there
      have been at a time, `pending` those that created a key and have still to send
      its EXPIRE. */
  datatype Logins = Logins(now: int, key: Counter, inFlight: set<nat>, pending: set<nat>, peak: nat)

  const NONE := Logins(0, ABSENT, {}, {}, 0)

  datatype LoginEvent =
    | Pause(to: int)
    | CheckBlocked(login: nat)
    | RecordFailure(login: nat)
    | SetWindow(login: nat)
    | Succeed(login: nat)
    | Leave(login: nat)

  predicate Blocked(c: Counter) { c.count >= MAX_ATTEMPTS }

  function OnLogin(s: Logins, e: LoginEvent): Logins {
    match e
    case Pause(to) => if to < s.now then s else s.(now := to, key := At(s.key, to))
    case CheckBlocked(login) =>
      if Blocked(s.key) then s
      else s.(inFlight := s.inFlight + {login}, peak := Max(s.peak, |s.inFlight + {login}|))
    case RecordFailure(login) =>
      if login !in s.inFlight then s
      else s.(inFlight := s.inFlight - {login}, key := Increased(s.key),
              pending := if s.key.count == 0 then s.pending + {login} else s.pending)
    case SetWindow(login) =>
      if login !in s.pending then s else s.(key := Expiring(s.key, s.now), pending := s.pending - {login})
    case Succeed(login) =>
      if login !in s.inFlight then s else s.(inFlight := s.inFlight - {login}, key := ABSENT)
    case Leave(login) => s.(inFlight := s.inFlight - {login}, pending := s.pending - {login})
  }

  function LoginRun(s: Logins, es: seq<LoginEvent>): Logins {
    if es == [] then s else OnLogin(LoginRun(s, es[..|es| - 1]), es[|es| - 1])
  }

  /** Failures recorded in the present lifetime of the key, and those that may still be. */
  ghost predicate FailuresBounded(s: Logins) {
    s.key.count + |s.inFlight| <= MAX_ATTEMPTS - 1 + s.peak && |s.inFlight| <= s.peak
  }

  lemma LoginKeepsBound(s: Logins, e: LoginEvent)
    requires FailuresBounded(s)
    ensures FailuresBounded(OnLogin(s, e))
  {
    if e.Succeed? || e.Leave? || e.RecordFailure? { LeavingShrinks(s.inFlight, e.login); }
  }

  lemma LeavingShrinks(logins: set<nat>, login: nat)
    ensures |logins - {login}| == |logins| - if login in logins then 1 else 0
  {
    if login !in logins { assert logins - {login} == logins; }
  }

  /** In every interleaving: with at most k logins past the check at a time, at most
      4 + k failures are recorded in one lifetime of the key. */
  lemma {:induction false} FailuresPerLifetime(es: seq<LoginEvent>, k: nat)
    requires LoginRun(NONE, es).peak <= k
    ensures LoginRun(NONE, es).key.count <= 4 + k
    ensures FailuresBounded(LoginRun(NONE, es))
  {
    if es != [] {
      var before := LoginRun(NONE, es[..|es| - 1]);
      FailuresPerLifetime(es[..|es| - 1], before.peak);
      LoginKeepsBound(before, es[|es| - 1]);
    }
  }

  /** A login in flight succeeds, or time reaches the deadline of the key. */
  predicate Frees(s: Logins, e: LoginEvent) {
    || (e.Succeed? && e.login in s.inFlight)
    || (e.Pause? && e.to >= s.now && s.key.deadline.Some? && s.key.deadline.value <= e.to)
  }

  /** These are the only ways out: a blocked address is free after a step if and only
      if the step is one of them. */
  lemma OnlyTheseFree(s: Logins, e: LoginEvent)
    requires s.key.count >= 5
    ensures (e.Succeed? && e.login in s.inFlight)
            || (e.Pause? && e.to >= s.now && s.key.deadline.Some? && s.key.deadline.value <= e.to)
            <==> OnLogin(s, e).key.count < 5
  {
  }

  ghost predicate NothingFrees(s: Logins, es: seq<LoginEvent>) {
    forall i :: 0 <= i < |es| ==> !Frees(LoginRun(s, es[..i]), es[i])
  }

  /** Until then, however long it takes, no login passes the check, and the failures
      that are still recorded come from those in flight. */
  lemma {:induction false} BlockedUntilTheKeyEnds(s: Logins, es: seq<LoginEvent>)
    requires Blocked(s.key) && NothingFrees(s, es)
    ensures LoginRun(s, es).inFlight <= s.inFlight && Blocked(LoginRun(s, es).key)
    ensures LoginRun(s, es).key.count + |LoginRun(s, es).inFlight| <= s.key.count + |s.inFlight|
  {
    if es != [] {
      var n := |es| - 1;
      forall i | 0 <= i < n ensures !Frees(LoginRun(s, es[..n][..i]), es[..n][i]) {
        assert es[..n][..i] == es[..i];
      }
      BlockedUntilTheKeyEnds(s, es[..n]);
      var before := LoginRun(s, es[..n]);
      OnlyTheseFree(before, es[n]);
      BlockedStep(before, es[n]);
    }
  }

  lemma BlockedStep(s: Logins, e: LoginEvent)
    requires Blocked(s.key) && !Frees(s, e)
    ensures OnLogin(s, e).inFlight <= s.inFlight
    ensures OnLogin(s, e).key.count + |OnLogin(s, e).inFlight| <= s.key.count + |s.inFlight|
  {
    if e.RecordFailure? || e.Leave? { LeavingShrinks(s.inFlight, e.login); }
  }

  lemma {:induction false} LoginRunAppends(s: Logins, a: seq<LoginEvent>, b: seq<LoginEvent>)
    ensures LoginRun(s, a + b) == LoginRun(LoginRun(s, a), b)
  {
    if b == [] {
      assert a + b == a;
    } else {
      assert (a + b)[..|a + b| - 1] == a + b[..|b| - 1];
      LoginRunAppends(s, a, b[..|b| - 1]);
    }
  }

  ghost predicate LoginReachable(s: Logins) { exists es :: s == LoginRun(NONE, es) }

  lemma LoginReachableStep(s: Logins, e: LoginEvent)
    requires LoginReachable(s)
    ensures LoginReachable(OnLogin(s, e))
  {
    var es :| s == LoginRun(NONE, es);
    LoginRunAppends(NONE, es, [e]);
    assert LoginRun(s, [e]) == OnLogin(LoginRun(s, []), e);
  }

  /** Failures one after another, up to the last that leaves the address unblocked. */
  lemma {:induction false} FailInTurn(s: Logins, n: nat) returns (t: Logins)
    requires LoginReachable(s) && s.inFlight == {} && s.key.count + n <= MAX_ATTEMPTS - 1
    ensures LoginReachable(t) && t.inFlight == {} && t.key.count == s.key.count + n && t.peak <= Max(s.peak, 1)
    decreases n
  {
    t := s;
    if n > 0 {
      LoginReachableStep(s, CheckBlocked(0));
      t := OnLogin(s, CheckBlocked(0));
      assert t.inFlight == {0};
      LoginReachableStep(t, RecordFailure(0));
      t := FailInTurn(OnLogin(t, RecordFailure(0)), n - 1);
    }
  }

  /** Logins that all pass the check before one of them fails. */
  lemma {:induction false} CheckTogether(s: Logins, n: nat) returns (t: Logins)
    requires LoginReachable(s) && !Blocked(s.key) && forall i :: i in s.inFlight ==> i >= n
    ensures LoginReachable(t) && t.key == s.key && |t.inFlight| == |s.inFlight| + n
    ensures t.peak <= Max(s.peak, |s.inFlight| + n)
    decreases n
  {
    t := s;
    if n > 0 {
      LoginReachableStep(s, CheckBlocked(n - 1));
      t := CheckTogether(OnLogin(s, CheckBlocked(n - 1)), n - 1);
    }
  }

  lemma {:induction false} FailTogether(s: Logins, n: nat) returns (t: Logins)
    requires LoginReachable(s) && |s.inFlight| == n
    ensures LoginReachable(t) && t.key.count == s.key.count + n && t.peak == s.peak
    decreases n
  {
    t := s;
    if n > 0 {
      var login :| login in s.inFlight;
      LoginReachableStep(s, RecordFailure(login));
      t := FailTogether(OnLogin(s, RecordFailure(login)), n - 1);
    }
  }

  /** And 4 + k are reached. */
  lemma FailuresPerLifetimeAreReached(k: nat)
    requires k >= 1
    ensures exists s :: LoginReachable(s) && s.peak <= k && s.key.count == 4 + k
  {
    assert NONE == LoginRun(NONE, []);
    var s := FailInTurn(NONE, MAX_ATTEMPTS - 1);
    s := CheckTogether(s, k);
    s := FailTogether(s, k);
  }

  // ------------------------------------------------ the services

  class UserRateLimitService {
    var key: Counter

    constructor ()
      ensures key == ABSENT
    {
      key := ABSENT;
    }

    /** One undisturbed request at a time: it is allowed exactly when at most the limit
        came in the present lifetime, and the lifetime is one window from its first. */
    method CheckLimit(now: int) returns (allowed: bool)
      modifies this
      ensures var over := old(key).deadline.Some? && old(key).deadline.value <= now;
              var count := if over then 1 else old(key).count + 1;
              && key == Counter(count, if count == 1 then Some(now + 900000) else old(key).deadline)
              && (allowed <==> count <= 100)
    {
      var count := At(key, now).count + 1;
      key := Increased(At(key, now));
      if count == 1 {
        key := Expiring(key, now);
      }
      allowed := count <= LIMIT;
    }

    method Reset()
      modifies this
      ensures key == ABSENT
    {
      key := ABSENT;
    }
  }

  class BruteForceService {
    var key: Counter

    constructor ()
      ensures key == ABSENT
    {
      key := ABSENT;
    }

    method IsBlocked(now: int) returns (blocked: bool)
      ensures blocked <==> key.count >= 5 && !(key.deadline.Some? && key.deadline.value <= now)
    {
      blocked := Blocked(At(key, now));
    }

    method RecordFailure(now: int)
      modifies this
      ensures var over := old(key).deadline.Some? && old(key).deadline.value <= now;
              var count := if over then 1 else old(key).count + 1;
              key == Counter(count, if count == 1 then Some(now + 900000) else old(key).deadline)
    {
      var attempts := At(key, now).count + 1;
      key := Increased(At(key, now));
      if attempts == 1 {
        key := Expiring(key, now);
      }
    }

    method Reset()
      modifies this
      ensures key == ABSENT
    {
      key := ABSENT;
    }
  }
}
