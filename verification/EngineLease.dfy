// Who drives the rounds: each engine's running flag, and the lease the engines share in Redis.
module EngineLease {
  import opened Types

  type EngineId = nat
  type Token = nat

  // connected are the engines that have a Redis client; the others run without a lock.
  datatype Config = Config(ttl: nat, connected: set<EngineId>)

  datatype Lease = Lease(token: Token, until: int)

  // inside holds the ticks in progress, each with its lease if it has one; an engine is in it exactly while
  // its running flag is set. nextToken stands for the random token generator.
  datatype State = State(now: int, lease: Option<Lease>, inside: map<EngineId, Option<Lease>>, nextToken: Token)

  const IDLE: State := State(0, None, map[], 0)

  datatype Action =
    | Wait(milliseconds: nat)
    | Enter(engine: EngineId)
    | Leave(engine: EngineId)
    | Crash(engine: EngineId)

  // The key is there and has not expired.
  predicate Held(s: State) { s.lease.Some? && s.now < s.lease.value.until }

  // SET key token PX ttl NX
  function AcquireStep(c: Config, s: State, e: EngineId): State {
    if Held(s) then s
    else
      var lease := Some(Lease(s.nextToken, s.now + c.ttl));
      State(s.now, lease, s.inside[e := lease], s.nextToken + 1)
  }

  // tick up to the handler: the running flag, then withLock, which does not lock without a client
  function EnterStep(c: Config, s: State, e: EngineId): State {
    if e in s.inside then s
    else if e !in c.connected then s.(inside := s.inside[e := None])
    else AcquireStep(c, s, e)
  }

  // The finally blocks: delete the key if it still carries our token, and clear the running flag.
  function LeaveStep(s: State, e: EngineId): State {
    if e !in s.inside then s
    else
      var mine := Held(s) && s.inside[e].Some? && s.lease.value.token == s.inside[e].value.token;
      s.(lease := if mine then None else s.lease, inside := s.inside - {e})
  }

  function Step(c: Config, s: State, a: Action): State {
    match a
    case Wait(milliseconds) => s.(now := s.now + milliseconds)
    case Enter(e) => EnterStep(c, s, e)
    case Leave(e) => LeaveStep(s, e)
    case Crash(e) => s.(inside := s.inside - {e})
  }

  function Run(c: Config, s: State, actions: seq<Action>): State {
    if |actions| == 0 then s else Step(c, Run(c, s, actions[..|actions| - 1]), actions[|actions| - 1])
  }

  // The engine is inside and its lease, if it ever had one, has lapsed.
  predicate Overstays(s: State, e: EngineId) {
    e in s.inside && s.inside[e].Some? && s.now >= s.inside[e].value.until
  }

  // An engine whose lease has not lapsed holds the key.
  ghost predicate HoldsKey(c: Config, s: State, e: EngineId) {
    && (e in s.inside && e in c.connected ==> s.inside[e].Some?)
    && (e in s.inside && s.inside[e].Some? ==>
          s.inside[e].value.token < s.nextToken && (s.now < s.inside[e].value.until ==> s.lease == s.inside[e]))
  }

  ghost predicate Inv(c: Config, s: State) {
    && (s.lease.Some? ==> s.lease.value.token < s.nextToken)
    && (forall e :: HoldsKey(c, s, e))
    && (forall e, f :: e in s.inside && f in s.inside && e != f && s.inside[e].Some? && s.inside[f].Some? ==>
          s.inside[e].value.token != s.inside[f].value.token)
  }

  lemma StepKeepsInv(c: Config, s: State, a: Action)
    requires Inv(c, s)
    ensures Inv(c, Step(c, s, a))
  {
    forall e ensures HoldsKey(c, Step(c, s, a), e) { assert HoldsKey(c, s, e); }
    if a.Enter? { assert forall f :: f in s.inside ==> HoldsKey(c, s, f); }
  }

  lemma {:induction false} RunKeepsInv(c: Config, actions: seq<Action>)
    ensures Inv(c, Run(c, IDLE, actions))
  {
    if |actions| > 0 {
      RunKeepsInv(c, actions[..|actions| - 1]);
      StepKeepsInv(c, Run(c, IDLE, actions[..|actions| - 1]), actions[|actions| - 1]);
    }
  }

  // After the run two engines are not inside at once unless one of them overstays its lease.
  ghost predicate Excludes(c: Config, actions: seq<Action>, e: EngineId, f: EngineId) {
    var s := Run(c, IDLE, actions);
    e in s.inside && f in s.inside ==> Overstays(s, e) || Overstays(s, f)
  }

  lemma OneEngineWithinItsLease(c: Config, actions: seq<Action>, e: EngineId, f: EngineId)
    requires e != f && e in c.connected && f in c.connected
    ensures Excludes(c, actions, e, f)
  {
    RunKeepsInv(c, actions);
    var s := Run(c, IDLE, actions);
    assert HoldsKey(c, s, e) && HoldsKey(c, s, f);
  }

  lemma EntersInTurn(c: Config, first: EngineId, second: EngineId)
    requires first != second && second !in c.connected && c.ttl > 0
    ensures !Excludes(c, [Enter(first), Enter(second)], first, second)
  {
    var t := [Enter(first), Enter(second)];
    assert t[..1] == [Enter(first)] && t[..1][..0] == [];
    assert Run(c, IDLE, t[..1]) == EnterStep(c, IDLE, first);
    assert Run(c, IDLE, t) == EnterStep(c, EnterStep(c, IDLE, first), second);
  }

  // The lease keeps two engines apart in every run exactly when both have a Redis client.
  lemma LeaseExcludesIff(c: Config, e: EngineId, f: EngineId)
    requires e != f && c.ttl > 0
    ensures (forall actions :: Excludes(c, actions, e, f)) <==> e in c.connected && f in c.connected
  {
    if e in c.connected && f in c.connected {
      forall actions ensures Excludes(c, actions, e, f) { OneEngineWithinItsLease(c, actions, e, f); }
    } else if f !in c.connected {
      EntersInTurn(c, e, f);
    } else {
      EntersInTurn(c, f, e);
      assert !Excludes(c, [Enter(f), Enter(e)], e, f);
    }
  }

  // An engine with a client gets in exactly when its flag is clear and the key is free or lapsed; then every
  // lease of an engine inside has lapsed. An engine without a client gets in whenever its flag is clear.
  lemma EnteringMeansOthersOverstayed(c: Config, actions: seq<Action>, e: EngineId)
    requires c.ttl > 0
    ensures var s := Run(c, IDLE, actions);
            var t := EnterStep(c, s, e);
            && (t != s <==> e !in s.inside && (e in c.connected ==> !Held(s)))
            && (t != s && e in c.connected ==> forall f :: f in s.inside && f in c.connected ==> Overstays(s, f))
  {
    RunKeepsInv(c, actions);
    var s := Run(c, IDLE, actions);
    var t := EnterStep(c, s, e);
    assert e !in s.inside && (e in c.connected ==> !Held(s)) ==> e in t.inside;
    forall f | t != s && e in c.connected && f in s.inside && f in c.connected ensures Overstays(s, f) { assert HoldsKey(c, s, f); }
  }

  // Entering takes a fresh lease of the full length, unless there is no client.
  lemma EnteringTakesLease(c: Config, s: State, e: EngineId)
    requires Inv(c, s)
    ensures var t := EnterStep(c, s, e);
            t != s ==>
              && e !in s.inside && t.now == s.now
              && (if e in c.connected then
                    && t.lease == Some(Lease(s.nextToken, s.now + c.ttl)) && t.inside == s.inside[e := t.lease]
                    && (forall f :: f in s.inside ==> s.inside[f] != t.lease)
                  else t.lease == s.lease && t.inside == s.inside[e := None])
  {
    forall f | f in s.inside ensures s.inside[f].Some? ==> s.inside[f].value.token < s.nextToken { assert HoldsKey(c, s, f); }
  }

  // A lease lasts: while it has not lapsed and its engine has not left, no other engine with a client gets
  // in, whatever the others do and even if its own engine has crashed.
  lemma {:induction false} LeaseLasts(c: Config, before: seq<Action>, e: EngineId, more: seq<Action>, f: EngineId)
    requires c.ttl > 0 && e in c.connected && f in c.connected && EnterStep(c, Run(c, IDLE, before), e) != Run(c, IDLE, before)
    requires forall i :: 0 <= i < |more| ==> more[i] != Leave(e)
    ensures var s := Run(c, IDLE, before);
            var t := Run(c, EnterStep(c, s, e), more);
            t.now < s.now + c.ttl ==> Held(t) && EnterStep(c, t, f) == t
  {
    var s := Run(c, IDLE, before);
    RunKeepsInv(c, before);
    EnteringTakesLease(c, s, e);
    StepKeepsInv(c, s, Enter(e));
    forall f | f in s.inside ensures s.inside[f].Some? ==> s.inside[f].value.token < s.nextToken { assert HoldsKey(c, s, f); }
    KeyStays(c, EnterStep(c, s, e), Lease(s.nextToken, s.now + c.ttl), e, more);
  }

  // The key carries e's lease, and nobody else has that token.
  ghost predicate KeyOf(s: State, lease: Lease, e: EngineId) {
    && s.lease == Some(lease) && lease.token < s.nextToken
    && forall f :: f in s.inside && s.inside[f].Some? && s.inside[f].value.token == lease.token ==> f == e
  }

  lemma {:induction false} KeyStays(c: Config, s: State, lease: Lease, e: EngineId, more: seq<Action>)
    requires Inv(c, s) && KeyOf(s, lease, e) && e in c.connected
    requires forall i :: 0 <= i < |more| ==> more[i] != Leave(e)
    ensures var t := Run(c, s, more); s.now <= t.now && (t.now < lease.until ==> KeyOf(t, lease, e))
  {
    if |more| > 0 {
      var n := |more| - 1;
      KeyStays(c, s, lease, e, more[..n]);
      StepKeepsKey(c, Run(c, s, more[..n]), lease, e, more[n]);
    }
  }

  lemma StepKeepsKey(c: Config, s: State, lease: Lease, e: EngineId, a: Action)
    requires a != Leave(e)
    ensures s.now <= Step(c, s, a).now
    ensures KeyOf(s, lease, e) && Step(c, s, a).now < lease.until ==> KeyOf(Step(c, s, a), lease, e)
  {
  }

  // An engine that comes back late does not take the key from the one that got it in the meantime.
  lemma LateReleaseIsHarmless(c: Config, actions: seq<Action>, e: EngineId, f: EngineId)
    requires e != f && f in c.connected
    ensures var s := Run(c, IDLE, actions);
            var t := LeaveStep(s, e);
            e in s.inside && f in s.inside && !Overstays(s, f) ==> t.lease == s.inside[f] && f in t.inside
  {
    RunKeepsInv(c, actions);
    assert HoldsKey(c, Run(c, IDLE, actions), f);
  }

  // Overlap does happen under the lease: the first engine stays past it and a second one enters.
  lemma OverstayingLetsAnotherIn(ttl: nat)
    requires ttl > 0
    ensures var s := Run(Config(ttl, {0, 1}), IDLE, [Enter(0), Wait(ttl), Enter(1)]); 0 in s.inside && 1 in s.inside
  {
    var c := Config(ttl, {0, 1});
    var t := [Enter(0), Wait(ttl), Enter(1)];
    assert t[..2] == [Enter(0), Wait(ttl)] && t[..2][..1] == [Enter(0)] && t[..2][..1][..0] == [];
    assert Run(c, IDLE, [Enter(0)]) == EnterStep(c, IDLE, 0);
    assert Run(c, IDLE, t[..2]) == EnterStep(c, IDLE, 0).(now := ttl);
  }

  // ---------------------------------------------------------------- the two services

  // One scheduler and its client of the shared key.
  class Scheduler {
    const engine: EngineId
    var running: bool

    constructor (e: EngineId)
      ensures engine == e && !running
    {
      engine, running := e, false;
    }

    // The part of tick before the handler. Calls that overlap a running tick return at once.
    method BeginTick(redis: Redis) returns (entered: bool)
      requires running <==> engine in redis.inside
      modifies this, redis
      ensures redis.View() == EnterStep(redis.config, old(redis.View()), engine)
      ensures entered <==> !old(running) && (engine in redis.config.connected ==> !Held(old(redis.View())))
      ensures running <==> engine in redis.inside
    {
      if running { return false; }
      running := true;
      if engine in redis.config.connected {
        entered := redis.Acquire(engine);
      } else {
        redis.Bypass(engine);
        entered := true;
      }
      if !entered { running := false; }
    }

    // The finally blocks of withLock and tick.
    method EndTick(redis: Redis)
      requires running && engine in redis.inside
      modifies this, redis
      ensures redis.View() == LeaveStep(old(redis.View()), engine)
      ensures !running && engine !in redis.inside
    {
      redis.Release(engine);
      running := false;
    }
  }

  class Redis {
    const config: Config
    var now: int
    var lease: Option<Lease>
    var inside: map<EngineId, Option<Lease>>
    var nextToken: Token

    function View(): State
      reads this
    {
      State(now, lease, inside, nextToken)
    }

    constructor (c: Config)
      ensures View() == IDLE && config == c
    {
      config, now, lease, inside, nextToken := c, 0, None, map[], 0;
    }

    // SET key token PX ttl NX
    method Acquire(e: EngineId) returns (ok: bool)
      requires e !in inside
      modifies this
      ensures View() == AcquireStep(config, old(View()), e)
      ensures ok <==> !Held(old(View()))
      ensures ok <==> e in inside
    {
      ok := lease.None? || lease.value.until <= now;
      if ok {
        lease := Some(Lease(nextToken, now + config.ttl));
        inside := inside[e := lease];
        nextToken := nextToken + 1;
      }
    }

    // withLock of an engine that has no client: the handler runs as it is.
    method Bypass(e: EngineId)
      modifies this
      ensures View() == old(View()).(inside := old(inside)[e := None])
    {
      inside := inside[e := None];
    }

    // if redis.call('get', key) == token then redis.call('del', key)
    method Release(e: EngineId)
      requires e in inside
      modifies this
      ensures View() == LeaveStep(old(View()), e) && e !in inside
    {
      var stored := if lease.Some? && now < lease.value.until then Some(lease.value.token) else None;
      if inside[e].Some? && stored == Some(inside[e].value.token) { lease := None; }
      inside := inside - {e};
    }
  }
}
