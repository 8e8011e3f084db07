// Refresh sessions: rotation consumes one session and creates its replacement, and anything that looks
// like a replay revokes every session of the user.
module Sessions {
  import opened Types

  type SessionId = nat
  type TokenHash = string

  // parent is history: the session this one replaced; None for a login or a registration.
  datatype Session = Session(user: UserId, hash: TokenHash, expiresAt: int, revokedAt: Option<int>, parent: Option<SessionId>)

  datatype State = State(sessions: seq<Session>, active: set<UserId>)

  const EMPTY: State := State([], {})

  datatype Action =
    | Activate(user: UserId)
    | Suspend(user: UserId, now: int)
    | SignIn(user: UserId, hash: TokenHash, expiresAt: int)
    | Logout(user: UserId, session: SessionId, now: int)
    | LogoutAll(user: UserId, now: int)
    | Refresh(user: UserId, session: SessionId, hash: TokenHash, now: int, newHash: TokenHash, newExpiry: int)

  predicate HashUsed(sessions: seq<Session>, hash: TokenHash) {
    exists i :: 0 <= i < |sessions| && sessions[i].hash == hash
  }

  function Revoke(s: Session, now: int): Session { if s.revokedAt.None? then s.(revokedAt := Some(now)) else s }

  // revokeActiveSessions, revokeAllSessions
  function RevokeAll(sessions: seq<Session>, user: UserId, now: int): seq<Session> {
    seq(|sessions|, i requires 0 <= i < |sessions| => if sessions[i].user == user then Revoke(sessions[i], now) else sessions[i])
  }

  // createSession, which the unique token hash guards
  function SignInTx(s: State, user: UserId, hash: TokenHash, expiresAt: int): State {
    if HashUsed(s.sessions, hash) then s else s.(sessions := s.sessions + [Session(user, hash, expiresAt, None, None)])
  }

  predicate Exchangeable(s: State, user: UserId, id: SessionId, hash: TokenHash, now: int) {
    && id < |s.sessions|
    && s.sessions[id].user == user
    && s.sessions[id].hash == hash
    && s.sessions[id].revokedAt.None?
    && s.sessions[id].expiresAt > now
    && user in s.active
  }

  // rotateRefreshSessionOnce; a token hash that is taken aborts the transaction.
  function RefreshTx(s: State, user: UserId, id: SessionId, hash: TokenHash, now: int, newHash: TokenHash, newExpiry: int): State {
    if !Exchangeable(s, user, id, hash, now) then s.(sessions := RevokeAll(s.sessions, user, now))
    else if HashUsed(s.sessions, newHash) then s
    else s.(sessions := s.sessions[id := s.sessions[id].(revokedAt := Some(now))] + [Session(user, newHash, newExpiry, None, Some(id))])
  }

  function Step(s: State, a: Action): State {
    match a
    case Activate(user) => s.(active := s.active + {user})
    case Suspend(user, now) => State(RevokeAll(s.sessions, user, now), s.active - {user})
    case SignIn(user, hash, expiresAt) => SignInTx(s, user, hash, expiresAt)
    case Logout(user, id, now) =>
      if id < |s.sessions| && s.sessions[id].user == user then s.(sessions := s.sessions[id := Revoke(s.sessions[id], now)]) else s
    case LogoutAll(user, now) => s.(sessions := RevokeAll(s.sessions, user, now))
    case Refresh(user, id, hash, now, newHash, newExpiry) => RefreshTx(s, user, id, hash, now, newHash, newExpiry)
  }

  function Run(s: State, actions: seq<Action>): State {
    if |actions| == 0 then s else Step(Run(s, actions[..|actions| - 1]), actions[|actions| - 1])
  }

  // ---------------------------------------------------------------- counting

  datatype Tally = Live(user: UserId) | SignIns(user: UserId)

  function Weight(t: Tally, s: Session): int {
    match t
    case Live(u) => if s.user == u && s.revokedAt.None? then 1 else 0
    case SignIns(u) => if s.user == u && s.parent.None? then 1 else 0
  }

  function Count(t: Tally, sessions: seq<Session>): int {
    if |sessions| == 0 then 0 else Count(t, sessions[..|sessions| - 1]) + Weight(t, sessions[|sessions| - 1])
  }

  lemma CountAppend(t: Tally, sessions: seq<Session>, s: Session)
    ensures Count(t, sessions + [s]) == Count(t, sessions) + Weight(t, s)
  {
    assert (sessions + [s])[..|sessions|] == sessions;
  }

  lemma {:induction false} CountUpdate(t: Tally, sessions: seq<Session>, i: nat, s: Session)
    requires i < |sessions|
    ensures Count(t, sessions[i := s]) == Count(t, sessions) - Weight(t, sessions[i]) + Weight(t, s)
  {
    var n := |sessions| - 1;
    if i == n {
      assert sessions[i := s][..n] == sessions[..n];
    } else {
      assert sessions[i := s][..n] == sessions[..n][i := s];
      CountUpdate(t, sessions[..n], i, s);
    }
  }

  lemma {:induction false} RevokingAll(sessions: seq<Session>, user: UserId, now: int, u: UserId)
    ensures Count(SignIns(u), RevokeAll(sessions, user, now)) == Count(SignIns(u), sessions)
    ensures Count(Live(u), RevokeAll(sessions, user, now)) == (if u == user then 0 else Count(Live(u), sessions))
  {
    var n := |sessions| - 1;
    if n >= 0 {
      assert RevokeAll(sessions, user, now)[..n] == RevokeAll(sessions[..n], user, now);
      RevokingAll(sessions[..n], user, now, u);
    }
  }

  lemma {:induction false} CountIsNotNegative(t: Tally, sessions: seq<Session>)
    ensures Count(t, sessions) >= 0
  {
    if |sessions| > 0 { CountIsNotNegative(t, sessions[..|sessions| - 1]); }
  }

  lemma {:induction false} NoneLive(sessions: seq<Session>, u: UserId)
    ensures Count(Live(u), sessions) == 0 <==> forall i :: 0 <= i < |sessions| && sessions[i].user == u ==> sessions[i].revokedAt.Some?
  {
    if |sessions| > 0 {
      var n := |sessions| - 1;
      NoneLive(sessions[..n], u);
      CountIsNotNegative(Live(u), sessions[..n]);
      assert (forall i :: 0 <= i < n && sessions[..n][i].user == u ==> sessions[..n][i].revokedAt.Some?) <==>
             (forall i :: 0 <= i < n && sessions[i].user == u ==> sessions[i].revokedAt.Some?);
    }
  }

  // ---------------------------------------------------------------- the invariant

  // A replacement belongs to the user of the session it replaced, which is revoked.
  ghost predicate ParentOk(sessions: seq<Session>, i: SessionId)
    requires i < |sessions|
  {
    var p := sessions[i].parent;
    p.Some? ==> p.value < i && sessions[p.value].user == sessions[i].user && sessions[p.value].revokedAt.Some?
  }

  ghost predicate Inv(s: State) {
    && (forall i: SessionId :: i < |s.sessions| ==> ParentOk(s.sessions, i))
    && (forall i, j :: 0 <= i < j < |s.sessions| ==> s.sessions[i].hash != s.sessions[j].hash)
    && (forall i, j :: 0 <= i < j < |s.sessions| && s.sessions[i].parent == s.sessions[j].parent ==> s.sessions[i].parent.None?)
    && (forall u: UserId :: Count(Live(u), s.sessions) <= Count(SignIns(u), s.sessions))
  }

  // Sessions only ever lose their life.
  ghost predicate OnlyRevokes(before: seq<Session>, after: seq<Session>) {
    && |before| <= |after|
    && forall i :: 0 <= i < |before| ==>
         after[i] == before[i] || (before[i].revokedAt.None? && after[i].revokedAt.Some? && after[i] == before[i].(revokedAt := after[i].revokedAt))
  }

  lemma StepOnlyRevokes(s: State, a: Action)
    ensures OnlyRevokes(s.sessions, Step(s, a).sessions)
  {
  }

  lemma RevokingKeepsInv(s: State, sessions: seq<Session>, active: set<UserId>)
    requires Inv(s) && OnlyRevokes(s.sessions, sessions) && |sessions| == |s.sessions|
    requires forall u: UserId :: Count(Live(u), sessions) <= Count(Live(u), s.sessions) && Count(SignIns(u), sessions) == Count(SignIns(u), s.sessions)
    ensures Inv(State(sessions, active))
  {
    forall i: SessionId | i < |sessions| ensures ParentOk(sessions, i) { assert ParentOk(s.sessions, i); }
  }

  lemma RevokingAllKeepsInv(s: State, user: UserId, now: int, active: set<UserId>)
    requires Inv(s)
    ensures Inv(State(RevokeAll(s.sessions, user, now), active))
  {
    forall u: UserId
      ensures Count(Live(u), RevokeAll(s.sessions, user, now)) <= Count(Live(u), s.sessions)
      ensures Count(SignIns(u), RevokeAll(s.sessions, user, now)) == Count(SignIns(u), s.sessions)
    {
      RevokingAll(s.sessions, user, now, u);
      CountIsNotNegative(Live(u), s.sessions);
    }
    RevokingKeepsInv(s, RevokeAll(s.sessions, user, now), active);
  }

  lemma RevokingOneKeepsInv(s: State, id: SessionId, now: int)
    requires Inv(s) && id < |s.sessions|
    ensures Inv(s.(sessions := s.sessions[id := Revoke(s.sessions[id], now)]))
  {
    var sessions := s.sessions[id := Revoke(s.sessions[id], now)];
    forall u: UserId
      ensures Count(Live(u), sessions) <= Count(Live(u), s.sessions) && Count(SignIns(u), sessions) == Count(SignIns(u), s.sessions)
    {
      CountUpdate(Live(u), s.sessions, id, Revoke(s.sessions[id], now));
      CountUpdate(SignIns(u), s.sessions, id, Revoke(s.sessions[id], now));
    }
    RevokingKeepsInv(s, sessions, s.active);
  }

  lemma SignInKeepsInv(s: State, user: UserId, hash: TokenHash, expiresAt: int)
    requires Inv(s)
    ensures Inv(SignInTx(s, user, hash, expiresAt))
  {
    if !HashUsed(s.sessions, hash) {
      var new_ := Session(user, hash, expiresAt, None, None);
      var sessions := s.sessions + [new_];
      forall i: SessionId | i < |sessions| ensures ParentOk(sessions, i) { if i < |s.sessions| { assert ParentOk(s.sessions, i); } }
      forall u: UserId ensures Count(Live(u), sessions) <= Count(SignIns(u), sessions) {
        CountAppend(Live(u), s.sessions, new_);
        CountAppend(SignIns(u), s.sessions, new_);
      }
    }
  }

  // A session that is not revoked has not been replaced yet.
  lemma UnrevokedHasNoChild(s: State, id: SessionId)
    requires Inv(s) && id < |s.sessions| && s.sessions[id].revokedAt.None?
    ensures forall i :: 0 <= i < |s.sessions| ==> s.sessions[i].parent != Some(id)
  {
    forall i: SessionId | i < |s.sessions| ensures s.sessions[i].parent != Some(id) { assert ParentOk(s.sessions, i); }
  }

  lemma RotatingKeepsInv(s: State, user: UserId, id: SessionId, now: int, newHash: TokenHash, newExpiry: int)
    requires Inv(s) && id < |s.sessions| && s.sessions[id].user == user && s.sessions[id].revokedAt.None? && !HashUsed(s.sessions, newHash)
    ensures Inv(s.(sessions := s.sessions[id := s.sessions[id].(revokedAt := Some(now))] + [Session(user, newHash, newExpiry, None, Some(id))]))
  {
    var revoked := s.sessions[id := s.sessions[id].(revokedAt := Some(now))];
    var new_ := Session(user, newHash, newExpiry, None, Some(id));
    var sessions := revoked + [new_];
    UnrevokedHasNoChild(s, id);
    forall i: SessionId | i < |sessions| ensures ParentOk(sessions, i) { if i < |s.sessions| { assert ParentOk(s.sessions, i); } }
    forall u: UserId ensures Count(Live(u), sessions) <= Count(SignIns(u), sessions) {
      CountUpdate(Live(u), s.sessions, id, revoked[id]);
      CountUpdate(SignIns(u), s.sessions, id, revoked[id]);
      CountAppend(Live(u), revoked, new_);
      CountAppend(SignIns(u), revoked, new_);
    }
  }

  lemma StepKeepsInv(s: State, a: Action)
    requires Inv(s)
    ensures Inv(Step(s, a))
  {
    match a
    case Activate(user) =>
    case Suspend(user, now) => RevokingAllKeepsInv(s, user, now, s.active - {user});
    case SignIn(user, hash, expiresAt) => SignInKeepsInv(s, user, hash, expiresAt);
    case Logout(user, id, now) => if id < |s.sessions| { RevokingOneKeepsInv(s, id, now); }
    case LogoutAll(user, now) => RevokingAllKeepsInv(s, user, now, s.active);
    case Refresh(user, id, hash, now, newHash, newExpiry) =>
      RevokingAllKeepsInv(s, user, now, s.active);
      if Exchangeable(s, user, id, hash, now) && !HashUsed(s.sessions, newHash) { RotatingKeepsInv(s, user, id, now, newHash, newExpiry); }
  }

  lemma {:induction false} RunKeepsInv(s: State, actions: seq<Action>)
    requires Inv(s)
    ensures Inv(Run(s, actions))
  {
    if |actions| > 0 {
      RunKeepsInv(s, actions[..|actions| - 1]);
      StepKeepsInv(Run(s, actions[..|actions| - 1]), actions[|actions| - 1]);
    }
  }

  // Some run from an empty table leads to s.
  ghost predicate Reachable(s: State) {
    exists actions :: Run(EMPTY, actions) == s
  }

  lemma ReachableHoldsInv(s: State)
    requires Reachable(s)
    ensures Inv(s)
  {
    var actions :| Run(EMPTY, actions) == s;
    RunKeepsInv(EMPTY, actions);
  }

  // ---------------------------------------------------------------- theorems

  // A session is replaced at most once, and only by consuming it.
  lemma OneExchangePerSession(s: State)
    requires Reachable(s)
    ensures forall i, j :: 0 <= i < j < |s.sessions| && s.sessions[i].parent.Some? ==> s.sessions[i].parent != s.sessions[j].parent
    ensures forall i :: 0 <= i < |s.sessions| && s.sessions[i].parent.Some? ==>
              s.sessions[i].parent.value < i && s.sessions[s.sessions[i].parent.value].revokedAt.Some?
  {
    ReachableHoldsInv(s);
    forall i: SessionId | i < |s.sessions| && s.sessions[i].parent.Some?
      ensures s.sessions[i].parent.value < i && s.sessions[s.sessions[i].parent.value].revokedAt.Some?
    {
      assert ParentOk(s.sessions, i);
    }
  }

  // However often tokens are exchanged, a user never has more live sessions than they signed in times.
  lemma LiveSessionsAreSignIns(s: State, u: UserId)
    requires Reachable(s)
    ensures 0 <= Count(Live(u), s.sessions) <= Count(SignIns(u), s.sessions)
  {
    ReachableHoldsInv(s);
    CountIsNotNegative(Live(u), s.sessions);
  }

  // Every live session of the user is revoked now, and nothing else changes.
  ghost predicate AllRevoked(before: seq<Session>, after: seq<Session>, user: UserId, now: int) {
    && |after| == |before|
    && forall i :: 0 <= i < |before| ==>
         after[i] == if before[i].user == user && before[i].revokedAt.None? then before[i].(revokedAt := Some(now)) else before[i]
  }

  // The token is the one of a session of this active user, unrevoked and unexpired.
  ghost predicate IsGood(s: State, user: UserId, id: SessionId, hash: TokenHash, now: int) {
    && id < |s.sessions| && user in s.active
    && var session := s.sessions[id];
       session.user == user && session.hash == hash && session.revokedAt == None && now < session.expiresAt
  }

  // The session is revoked and one replacement follows it.
  ghost predicate Exchanged(before: seq<Session>, after: seq<Session>, user: UserId, id: SessionId, now: int, newHash: TokenHash, newExpiry: int) {
    && id < |before|
    && after == before[id := before[id].(revokedAt := Some(now))] + [Session(user, newHash, newExpiry, None, Some(id))]
  }

  // A presented token buys a replacement exactly when it is good, and the user then has as many live sessions
  // as before. Otherwise no live session of the user is left. Other users are not affected.
  lemma RefreshIsExchangeOrRevocation(s: State, user: UserId, id: SessionId, hash: TokenHash, now: int, newHash: TokenHash, newExpiry: int)
    requires Inv(s) && !HashUsed(s.sessions, newHash)
    ensures var t := RefreshTx(s, user, id, hash, now, newHash, newExpiry);
            && (if IsGood(s, user, id, hash, now) then Exchanged(s.sessions, t.sessions, user, id, now, newHash, newExpiry)
                else AllRevoked(s.sessions, t.sessions, user, now))
            && t.active == s.active
            && Count(Live(user), t.sessions) == (if IsGood(s, user, id, hash, now) then Count(Live(user), s.sessions) else 0)
            && (forall u :: u != user ==> Count(Live(u), t.sessions) == Count(Live(u), s.sessions))
  {
    var t := RefreshTx(s, user, id, hash, now, newHash, newExpiry);
    forall u: UserId
      ensures Count(Live(u), t.sessions) ==
              if u == user && !Exchangeable(s, user, id, hash, now) then 0 else Count(Live(u), s.sessions)
    {
      RevokingAll(s.sessions, user, now, u);
      if Exchangeable(s, user, id, hash, now) {
        var revoked := s.sessions[id := s.sessions[id].(revokedAt := Some(now))];
        CountUpdate(Live(u), s.sessions, id, revoked[id]);
        CountAppend(Live(u), revoked, Session(user, newHash, newExpiry, None, Some(id)));
      }
    }
  }

  // The other steps: a sign-in under a fresh hash opens one session, a logout ends the named session if it is
  // the user's, a logout from everywhere and a suspension end all of them.
  lemma SessionsOpenAndEnd(s: State, user: UserId, id: SessionId, hash: TokenHash, expiresAt: int, now: int)
    ensures var t := Step(s, SignIn(user, hash, expiresAt));
            if forall i :: 0 <= i < |s.sessions| ==> s.sessions[i].hash != hash
            then t == s.(sessions := s.sessions + [Session(user, hash, expiresAt, None, None)])
            else t == s
    ensures var t := Step(s, Logout(user, id, now));
            if id < |s.sessions| && s.sessions[id].user == user && s.sessions[id].revokedAt == None
            then t == s.(sessions := s.sessions[id := s.sessions[id].(revokedAt := Some(now))])
            else t == s
    ensures AllRevoked(s.sessions, Step(s, LogoutAll(user, now)).sessions, user, now) && Step(s, LogoutAll(user, now)).active == s.active
    ensures AllRevoked(s.sessions, Step(s, Suspend(user, now)).sessions, user, now) && Step(s, Suspend(user, now)).active == s.active - {user}
  {
    if id < |s.sessions| && s.sessions[id].revokedAt.Some? { assert s.sessions[id := s.sessions[id]] == s.sessions; }
  }

  lemma {:induction false} RunOnlyRevokes(s: State, actions: seq<Action>)
    ensures OnlyRevokes(s.sessions, Run(s, actions).sessions)
  {
    if |actions| > 0 {
      RunOnlyRevokes(s, actions[..|actions| - 1]);
      StepOnlyRevokes(Run(s, actions[..|actions| - 1]), actions[|actions| - 1]);
    }
  }

  // Once a session was revoked its token never works again: presenting it at any later time, whatever
  // happened in between, leaves the user without a live session.
  lemma SpentTokenEndsEverything(s: State, actions: seq<Action>, id: SessionId, now: int, newHash: TokenHash, newExpiry: int)
    requires Inv(s) && id < |s.sessions| && s.sessions[id].revokedAt.Some?
    ensures var user, hash := s.sessions[id].user, s.sessions[id].hash;
            var later := Run(s, actions);
            Count(Live(user), Step(later, Refresh(user, id, hash, now, newHash, newExpiry)).sessions) == 0
  {
    RunOnlyRevokes(s, actions);
    RevokingAll(Run(s, actions).sessions, s.sessions[id].user, now, s.sessions[id].user);
  }

  // ---------------------------------------------------------------- the repository

  class AuthRepository {
    var sessions: seq<Session>
    var active: set<UserId>

    function View(): State
      reads this
    {
      State(sessions, active)
    }

    constructor ()
      ensures View() == EMPTY
    {
      sessions, active := [], {};
    }

    // updateMany over the unrevoked sessions of a user; the count of rows it changed
    method RevokeActiveSessions(user: UserId, now: int) returns (count: nat)
      modifies this`sessions
      ensures sessions == RevokeAll(old(sessions), user, now) && AllRevoked(old(sessions), sessions, user, now)
      ensures count == Count(Live(user), old(sessions)) && Count(Live(user), sessions) == 0
    {
      count := 0;
      for i := 0 to |sessions|
        invariant |sessions| == |old(sessions)|
        invariant forall k :: 0 <= k < i ==> sessions[k] == RevokeAll(old(sessions), user, now)[k]
        invariant forall k :: i <= k < |sessions| ==> sessions[k] == old(sessions)[k]
        invariant count == Count(Live(user), old(sessions)[..i])
      {
        assert old(sessions)[..i + 1][..i] == old(sessions)[..i];
        if sessions[i].user == user && sessions[i].revokedAt.None? {
          sessions := sessions[i := sessions[i].(revokedAt := Some(now))];
          count := count + 1;
        }
      }
      assert old(sessions)[..|sessions|] == old(sessions);
      RevokingAll(old(sessions), user, now, user);
    }

    // The transaction of rotateRefreshSessionOnce. Its last check, that exactly one row was consumed,
    // cannot fail once the earlier ones passed.
    method RotateRefreshSession(user: UserId, id: SessionId, hash: TokenHash, now: int, newHash: TokenHash, newExpiry: int)
      returns (replacement: Option<SessionId>)
      requires !HashUsed(sessions, newHash)
      modifies this
      ensures View() == RefreshTx(old(View()), user, id, hash, now, newHash, newExpiry)
      ensures if IsGood(old(View()), user, id, hash, now)
              then replacement == Some(|old(sessions)|) && Exchanged(old(sessions), sessions, user, id, now, newHash, newExpiry)
              else replacement == None && AllRevoked(old(sessions), sessions, user, now)
      ensures replacement.None? ==> Count(Live(user), sessions) == 0
    {
      if id >= |sessions| || sessions[id].user != user {
        var _ := RevokeActiveSessions(user, now);
        return None;
      }
      var session := sessions[id];
      if session.hash != hash || session.revokedAt.Some? || session.expiresAt <= now {
        var _ := RevokeActiveSessions(user, now);
        return None;
      }
      if user !in active {
        var _ := RevokeActiveSessions(user, now);
        return None;
      }
      var consumed := ConsumeSession(user, id, hash, now);
      assert consumed == 1;
      sessions := sessions + [Session(user, newHash, newExpiry, None, Some(id))];
      return Some(|sessions| - 1);
    }

    // The guarded update that consumes the session; how many rows it changed.
    method ConsumeSession(user: UserId, id: SessionId, hash: TokenHash, now: int) returns (count: nat)
      modifies this`sessions
      ensures var matches := id < |old(sessions)| && old(sessions)[id].user == user && old(sessions)[id].hash == hash &&
                             old(sessions)[id].revokedAt.None? && old(sessions)[id].expiresAt > now;
              && count == (if matches then 1 else 0)
              && sessions == (if matches then old(sessions)[id := old(sessions)[id].(revokedAt := Some(now))] else old(sessions))
    {
      if id < |sessions| && sessions[id].user == user && sessions[id].hash == hash && sessions[id].revokedAt.None? && sessions[id].expiresAt > now {
        sessions := sessions[id := sessions[id].(revokedAt := Some(now))];
        return 1;
      }
      return 0;
    }
  }
}
