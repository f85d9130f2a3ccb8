/** Refresh-token families, access-token versions, and what every history of sign-ins, rotations,
    replays, logouts and revocations keeps. Tokens are known by their stored digest; a freshly
    minted digest or family id is one that no stored token has. */
module RefreshTokens {
  import opened Wrappers

  type UserId = int
  type Digest = int
  type FamilyId = int

  datatype User = User(active: bool, member: bool, version: nat)

  datatype Token = Token(user: UserId, family: FamilyId, expires: int, revokedAt: Option<int>)

  datatype Claims = Claims(subject: UserId, version: nat)

  /** The stored rows, and two history variables: the access tokens ever issued and the refresh
      tokens ever exchanged for a successor. */
  datatype State = State(users: map<UserId, User>, tokens: map<Digest, Token>, issued: set<Claims>, rotated: set<Digest>)

  const EMPTY := State(map[], map[], {}, {})

  const REFRESH_TOKEN_TTL := 30 * 24 * 3600

  datatype Action =
    | Register(user: UserId, digest: Digest, family: FamilyId, now: int)
    | SignIn(user: UserId, passwordMatches: bool, digest: Digest, family: FamilyId, now: int)
    | Rotate(presented: Digest, digest: Digest, now: int)
    | Logout(presented: Digest, now: int)
    | RevokeAll(user: UserId, now: int)
    | Administer(user: UserId, active: bool, member: bool)

  predicate Usable(s: State, user: UserId) {
    user in s.users && s.users[user].active && s.users[user].member
  }

  predicate Live(s: State, digest: Digest) {
    digest in s.tokens && s.tokens[digest].revokedAt.None?
  }

  function Issue(s: State, user: UserId, digest: Digest, family: FamilyId, now: int): State
    requires user in s.users
  {
    s.(tokens := s.tokens[digest := Token(user, family, now + REFRESH_TOKEN_TTL, None)],
       issued := s.issued + {Claims(user, s.users[user].version)})
  }

  function Revoke(token: Token, now: int): Token {
    if token.revokedAt.None? then token.(revokedAt := Some(now)) else token
  }

  function RevokeFamily(s: State, family: FamilyId, now: int): State {
    s.(tokens := map d | d in s.tokens :: if s.tokens[d].family == family then Revoke(s.tokens[d], now) else s.tokens[d])
  }

  predicate Exchangeable(s: State, presented: Digest, now: int) {
    Live(s, presented) && now < s.tokens[presented].expires && Usable(s, s.tokens[presented].user)
  }

  function Exchange(s: State, presented: Digest, digest: Digest, now: int): State
    requires presented in s.tokens && s.tokens[presented].user in s.users
  {
    var token := s.tokens[presented];
    Issue(s.(tokens := s.tokens[presented := Revoke(token, now)], rotated := s.rotated + {presented}),
          token.user, digest, token.family, now)
  }

  function Apply(s: State, action: Action): State {
    match action
    case Register(user, digest, family, now) =>
      if user in s.users then s else Issue(s.(users := s.users[user := User(true, true, 0)]), user, digest, family, now)
    case SignIn(user, passwordMatches, digest, family, now) =>
      if passwordMatches && Usable(s, user) then Issue(s, user, digest, family, now) else s
    case Rotate(presented, digest, now) =>
      if presented !in s.tokens then s
      else if !Live(s, presented) then RevokeFamily(s, s.tokens[presented].family, now)
      else if Exchangeable(s, presented, now) then Exchange(s, presented, digest, now) else s
    case Logout(presented, now) =>
      if Live(s, presented) then s.(tokens := s.tokens[presented := Revoke(s.tokens[presented], now)]) else s
    case RevokeAll(user, now) =>
      s.(tokens := map d | d in s.tokens :: if s.tokens[d].user == user then Revoke(s.tokens[d], now) else s.tokens[d],
         users := if user in s.users then s.users[user := s.users[user].(version := s.users[user].version + 1)] else s.users)
    case Administer(user, active, member) =>
      if user in s.users then s.(users := s.users[user := s.users[user].(active := active, member := member)]) else s
  }

  /** Minted digests and families are new. */
  ghost predicate Enabled(s: State, action: Action) {
    match action
    case Register(_, digest, family, _) => digest !in s.tokens && NewFamily(s, family)
    case SignIn(_, _, digest, family, _) => digest !in s.tokens && NewFamily(s, family)
    case Rotate(_, digest, _) => digest !in s.tokens
    case _ => true
  }

  ghost predicate NewFamily(s: State, family: FamilyId) {
    forall d :: d in s.tokens ==> s.tokens[d].family != family
  }

  ghost predicate Legal(s: State, actions: seq<Action>)
    decreases |actions|
  {
    actions == [] || (Enabled(s, actions[0]) && Legal(Apply(s, actions[0]), actions[1..]))
  }

  function After(s: State, actions: seq<Action>): State
    decreases |actions|
  {
    if actions == [] then s else After(Apply(s, actions[0]), actions[1..])
  }

  // ----- What each step does, token by token

  /** The token this action mints, if the server grants it. */
  ghost predicate Mints(s: State, action: Action, d: Digest) {
    match action
    case Register(user, digest, _, _) => d == digest && user !in s.users
    case SignIn(user, matches, digest, _, _) =>
      d == digest && matches && user in s.users && s.users[user].active && s.users[user].member
    case Rotate(presented, digest, now) =>
      && d == digest && presented in s.tokens && s.tokens[presented].revokedAt == None && now < s.tokens[presented].expires
      && s.tokens[presented].user in s.users && s.users[s.tokens[presented].user].active && s.users[s.tokens[presented].user].member
    case _ => false
  }

  /** The token this action revokes: the one exchanged, every one of a replayed token's family, the one
      logged out, or every one of a user. */
  ghost predicate Revokes(s: State, action: Action, d: Digest)
    requires d in s.tokens
  {
    match action
    case Rotate(presented, digest, _) =>
      presented in s.tokens
      && if s.tokens[presented].revokedAt.Some? then s.tokens[d].family == s.tokens[presented].family
         else d == presented && Mints(s, action, digest)
    case Logout(presented, _) => d == presented
    case RevokeAll(user, _) => s.tokens[d].user == user
    case _ => false
  }

  /** A minted token is live for thirty days from its minting, for the user who signed in, or for the
      user and in the family of the token exchanged for it. */
  lemma MintedExactly(s: State, action: Action, d: Digest)
    requires Enabled(s, action) && Mints(s, action, d)
    ensures d !in s.tokens && d in Apply(s, action).tokens
    ensures var token := Apply(s, action).tokens[d];
            && token.revokedAt == None
            && (action.Register? || action.SignIn? ==> token == Token(action.user, action.family, action.now + 2592000, None))
            && (action.Rotate? ==> token == Token(s.tokens[action.presented].user, s.tokens[action.presented].family, action.now + 2592000, None))
  {}

  /** And every other token is what it was, but for being revoked now if it was live. */
  lemma EveryToken(s: State, action: Action, d: Digest)
    requires Enabled(s, action) && !Mints(s, action, d)
    ensures d in Apply(s, action).tokens <==> d in s.tokens
    ensures d in s.tokens ==>
              Apply(s, action).tokens[d] ==
                if Revokes(s, action, d) && s.tokens[d].revokedAt == None then s.tokens[d].(revokedAt := Some(action.now)) else s.tokens[d]
  {}

  /** A token is marked as exchanged by nothing but a presentation in time that mints its successor. */
  lemma ExchangedExactly(s: State, action: Action, d: Digest)
    requires Enabled(s, action)
    ensures d in Apply(s, action).rotated <==>
              d in s.rotated || (action.Rotate? && action.presented == d && Mints(s, action, action.digest))
  {}

  /** Users: registered once, usable as administered, and one version further at each revocation of all. */
  lemma EveryUser(s: State, action: Action, u: UserId)
    ensures u in Apply(s, action).users <==> u in s.users || (action.Register? && action.user == u)
    ensures u in Apply(s, action).users ==>
              Apply(s, action).users[u] ==
                if u !in s.users then User(true, true, 0)
                else if action.RevokeAll? && action.user == u then s.users[u].(version := s.users[u].version + 1)
                else if action.Administer? && action.user == u then s.users[u].(active := action.active, member := action.member)
                else s.users[u]
  {}

  /** An exchange is in time in every history: the token was stored from the start and had not expired
      yet, or was minted by an earlier action less than thirty days before. */
  lemma {:induction false} ExchangedInTime(s: State, actions: seq<Action>, d: Digest) returns (i: nat)
    requires Legal(s, actions) && d in After(s, actions).rotated && d !in s.rotated
    ensures i < |actions| && actions[i].Rotate? && actions[i].presented == d
    ensures if d in s.tokens then actions[i].now < s.tokens[d].expires
            else exists j :: 0 <= j < i && MintedBy(actions[j], d) && actions[i].now < actions[j].now + 2592000
    decreases |actions|
  {
    var first, rest := actions[0], actions[1..];
    var s' := Apply(s, first);
    ExchangedExactly(s, first, d);
    if d in s'.rotated {
      i := 0;
    } else {
      var k := ExchangedInTime(s', rest, d);
      i := k + 1;
      assert actions[i] == rest[k];
      if Mints(s, first, d) {
        MintedExactly(s, first, d);
        assert MintedBy(actions[0], d);
      } else {
        EveryToken(s, first, d);
        if d !in s.tokens {
          var j :| 0 <= j < k && MintedBy(rest[j], d) && rest[k].now < rest[j].now + 2592000;
          assert actions[j + 1] == rest[j] && MintedBy(actions[j + 1], d);
        }
      }
    }
  }

  /** This action names the digest of the token it would mint. */
  predicate MintedBy(action: Action, d: Digest) {
    (action.Register? || action.SignIn? || action.Rotate?) && action.digest == d
  }

  ghost predicate Dead(s: State, family: FamilyId) {
    forall d :: d in s.tokens && s.tokens[d].family == family ==> s.tokens[d].revokedAt.Some?
  }

  ghost predicate OneLivePerFamily(s: State) {
    forall d, e :: Live(s, d) && Live(s, e) && s.tokens[d].family == s.tokens[e].family ==> d == e
  }

  ghost predicate OneUserPerFamily(s: State) {
    forall d, e :: d in s.tokens && e in s.tokens && s.tokens[d].family == s.tokens[e].family ==>
                     s.tokens[d].user == s.tokens[e].user
  }

  /** A token revoked without being exchanged takes its family with it. */
  ghost predicate OnlyExchangesSurvive(s: State) {
    && (forall d :: d in s.rotated ==> d in s.tokens && s.tokens[d].revokedAt.Some?)
    && (forall d :: d in s.tokens && d !in s.rotated && s.tokens[d].revokedAt.Some? ==> Dead(s, s.tokens[d].family))
  }

  /** No access token is ahead of its user's version. */
  ghost predicate VersionsBounded(s: State) {
    forall c :: c in s.issued ==> c.subject in s.users && c.version <= s.users[c.subject].version
  }

  ghost predicate Inv(s: State) {
    OneLivePerFamily(s) && OneUserPerFamily(s) && OnlyExchangesSurvive(s) && VersionsBounded(s)
  }

  lemma IssueKeepsInv(s: State, user: UserId, digest: Digest, family: FamilyId, now: int)
    requires Inv(s) && user in s.users && digest !in s.tokens && NewFamily(s, family)
    ensures Inv(Issue(s, user, digest, family, now))
  {}

  lemma ExchangeKeepsInv(s: State, presented: Digest, digest: Digest, now: int)
    requires Inv(s) && Exchangeable(s, presented, now) && digest !in s.tokens
    ensures Inv(Exchange(s, presented, digest, now))
  {
    var s', family := Exchange(s, presented, digest, now), s.tokens[presented].family;
    assert forall d :: Live(s', d) && d != digest ==> Live(s, d) && s.tokens[d].family != family;
    assert OneLivePerFamily(s');
    ExchangeKeepsUsers(s, presented, digest, now);
    forall d | d in s'.tokens && d !in s'.rotated && s'.tokens[d].revokedAt.Some? ensures Dead(s', s'.tokens[d].family) {
      assert Dead(s, s.tokens[d].family);
      assert s.tokens[d].family != family;
    }
  }

  lemma ExchangeKeepsUsers(s: State, presented: Digest, digest: Digest, now: int)
    requires OneUserPerFamily(s) && presented in s.tokens && s.tokens[presented].user in s.users && digest !in s.tokens
    ensures OneUserPerFamily(Exchange(s, presented, digest, now))
  {
    var s' := Exchange(s, presented, digest, now);
    assert s'.tokens[digest].user == s.tokens[presented].user && s'.tokens[digest].family == s.tokens[presented].family;
    forall d | d in s'.tokens ensures s'.tokens[d].family == s'.tokens[digest].family ==> s'.tokens[d].user == s'.tokens[digest].user {}
  }

  lemma RevokeFamilyKeepsInv(s: State, family: FamilyId, now: int)
    requires Inv(s)
    ensures Inv(RevokeFamily(s, family, now))
  {
    var s' := RevokeFamily(s, family, now);
    assert Dead(s', family);
    assert forall f :: Dead(s, f) ==> Dead(s', f);
  }

  lemma LogoutKeepsInv(s: State, presented: Digest, now: int)
    requires Inv(s)
    ensures Inv(Apply(s, Logout(presented, now)))
  {
    var s' := Apply(s, Logout(presented, now));
    assert forall d :: Live(s', d) ==> Live(s, d) && d != presented;
    assert forall f :: Dead(s, f) ==> Dead(s', f);
    assert Live(s, presented) ==> Dead(s', s.tokens[presented].family);
  }

  lemma RevokeAllKeepsInv(s: State, user: UserId, now: int)
    requires Inv(s)
    ensures Inv(Apply(s, RevokeAll(user, now)))
  {
    var s' := Apply(s, RevokeAll(user, now));
    assert forall d :: Live(s', d) ==> Live(s, d) && s.tokens[d].user != user;
    assert forall f :: Dead(s, f) ==> Dead(s', f);
    assert forall d :: d in s.tokens && s.tokens[d].user == user ==> Dead(s', s.tokens[d].family);
  }

  lemma StepKeepsInv(s: State, action: Action)
    requires Inv(s) && Enabled(s, action)
    ensures Inv(Apply(s, action))
  {
    match action
    case Register(user, digest, family, now) =>
      if user !in s.users {
        IssueKeepsInv(s.(users := s.users[user := User(true, true, 0)]), user, digest, family, now);
      }
    case SignIn(user, passwordMatches, digest, family, now) =>
      if passwordMatches && Usable(s, user) { IssueKeepsInv(s, user, digest, family, now); }
    case Rotate(presented, digest, now) =>
      if presented in s.tokens && !Live(s, presented) {
        RevokeFamilyKeepsInv(s, s.tokens[presented].family, now);
      } else if Exchangeable(s, presented, now) {
        ExchangeKeepsInv(s, presented, digest, now);
      }
    case Logout(presented, now) => LogoutKeepsInv(s, presented, now);
    case RevokeAll(user, now) => RevokeAllKeepsInv(s, user, now);
    case Administer(_, _, _) =>
  }

  /** Every history keeps the family invariant. */
  lemma {:induction false} HistoryKeepsInv(s: State, actions: seq<Action>)
    requires Inv(s) && Legal(s, actions)
    ensures Inv(After(s, actions))
    decreases |actions|
  {
    if actions != [] {
      StepKeepsInv(s, actions[0]);
      HistoryKeepsInv(Apply(s, actions[0]), actions[1..]);
    }
  }

  ghost predicate Known(s: State, family: FamilyId) {
    exists d :: d in s.tokens && s.tokens[d].family == family
  }

  lemma DeadFamilyStep(s: State, action: Action, family: FamilyId)
    requires Enabled(s, action) && Known(s, family) && Dead(s, family)
    ensures Known(Apply(s, action), family) && Dead(Apply(s, action), family)
  {
    var s' := Apply(s, action);
    var d :| d in s.tokens && s.tokens[d].family == family;
    assert d in s'.tokens && s'.tokens[d].family == family;
  }

  /** A family with no live token never gains one again, whatever follows. */
  lemma {:induction false} DeadFamilyStaysDead(s: State, actions: seq<Action>, family: FamilyId)
    requires Legal(s, actions) && Known(s, family) && Dead(s, family)
    ensures Dead(After(s, actions), family)
    decreases |actions|
  {
    if actions != [] {
      DeadFamilyStep(s, actions[0], family);
      DeadFamilyStaysDead(Apply(s, actions[0]), actions[1..], family);
    }
  }

  /** Presenting a token for the second time, with nothing in between, revokes the successor the
      first presentation produced: the whole family is signed out. */
  lemma SecondPresentationSignsOut(s: State, presented: Digest, first: Digest, second: Digest, now: int, later: int)
    requires Inv(s) && Exchangeable(s, presented, now)
    requires first !in s.tokens && second !in s.tokens && second != first
    ensures var once := Apply(s, Rotate(presented, first, now));
            var twice := Apply(once, Rotate(presented, second, later));
            && Live(once, first) && once.tokens[first].family == s.tokens[presented].family
            && Dead(twice, s.tokens[presented].family) && !Live(twice, first) && second !in twice.tokens
  {}

  /** Whatever has happened since, presenting an exchanged token leaves its family without a live one. */
  lemma ReplayKillsFamily(s: State, presented: Digest, digest: Digest, now: int)
    requires presented in s.tokens && !Live(s, presented)
    ensures Dead(Apply(s, Rotate(presented, digest, now)), s.tokens[presented].family)
    ensures forall d :: Live(Apply(s, Rotate(presented, digest, now)), d) <==>
                        Live(s, d) && s.tokens[d].family != s.tokens[presented].family
  {}

  /** A token is exchanged at most once in any history: after an exchange it is never live again. */
  lemma {:induction false} RevokedStaysRevoked(s: State, actions: seq<Action>, digest: Digest)
    requires Legal(s, actions) && digest in s.tokens && !Live(s, digest)
    ensures digest in After(s, actions).tokens && !Live(After(s, actions), digest)
    decreases |actions|
  {
    if actions != [] {
      RevokedStaysRevoked(Apply(s, actions[0]), actions[1..], digest);
    }
  }

  /** The per-request check of an access token, leaving its own expiry aside. */
  predicate Resolves(s: State, claims: Claims) {
    Usable(s, claims.subject) && s.users[claims.subject].version == claims.version
  }

  lemma {:induction false} VersionsNeverFall(s: State, actions: seq<Action>, user: UserId)
    requires user in s.users
    ensures user in After(s, actions).users && s.users[user].version <= After(s, actions).users[user].version
    decreases |actions|
  {
    if actions != [] {
      VersionsNeverFall(Apply(s, actions[0]), actions[1..], user);
    }
  }

  /** After "sign out everywhere" no access token issued before it resolves and no refresh token
      issued before it is live, in any continuation. */
  lemma RevokeAllIsFinal(s: State, user: UserId, now: int, actions: seq<Action>)
    requires Inv(s) && user in s.users && Legal(Apply(s, RevokeAll(user, now)), actions)
    ensures forall c :: c in s.issued && c.subject == user ==> !Resolves(After(Apply(s, RevokeAll(user, now)), actions), c)
    ensures forall d :: d in s.tokens && s.tokens[d].user == user ==> !Live(After(Apply(s, RevokeAll(user, now)), actions), d)
  {
    var s' := Apply(s, RevokeAll(user, now));
    VersionsNeverFall(s', actions, user);
    forall d | d in s.tokens && s.tokens[d].user == user ensures !Live(After(s', actions), d) {
      RevokedStaysRevoked(s', actions, d);
    }
  }

  datatype Session = Session(claims: Claims, digest: Digest)

  /** The session service over its two tables. */
  class SessionService {
    var users: map<UserId, User>
    var tokens: map<Digest, Token>
    ghost var issued: set<Claims>
    ghost var rotated: set<Digest>

    ghost function Value(): State
      reads this
    {
      State(users, tokens, issued, rotated)
    }

    constructor ()
      ensures Value() == EMPTY && Inv(Value())
    {
      users, tokens, issued, rotated := map[], map[], {}, {};
    }

    method IssueSession(user: UserId, digest: Digest, family: FamilyId, now: int) returns (session: Session)
      requires user in users
      modifies this
      ensures Value() == Issue(old(Value()), user, digest, family, now)
      ensures session == Session(Claims(user, users[user].version), digest)
    {
      tokens := tokens[digest := Token(user, family, now + REFRESH_TOKEN_TTL, None)];
      var claims := Claims(user, users[user].version);
      issued := issued + {claims};
      return Session(claims, digest);
    }

    /** Sign in, or `None` for any reason at all. */
    method Authenticate(user: UserId, passwordMatches: bool, digest: Digest, family: FamilyId, now: int) returns (session: Option<Session>)
      modifies this
      ensures Value() == Apply(old(Value()), SignIn(user, passwordMatches, digest, family, now))
      ensures session.Some? <==> passwordMatches && user in old(users) && old(users)[user].active && old(users)[user].member
      ensures session.Some? ==> tokens == old(tokens)[digest := Token(user, family, now + 2592000, None)] && users == old(users)
      ensures session.None? ==> tokens == old(tokens) && users == old(users)
      ensures session.Some? ==> Resolves(Value(), session.value.claims) && session.value.digest == digest && Live(Value(), digest)
    {
      if !passwordMatches || user !in users || !users[user].active || !users[user].member {
        return None;
      }
      var issuedSession := IssueSession(user, digest, family, now);
      return Some(issuedSession);
    }

    method RevokeFamilyTokens(family: FamilyId, now: int)
      modifies this`tokens
      ensures Value() == RevokeFamily(old(Value()), family, now)
    {
      tokens := map d | d in tokens :: if tokens[d].family == family then Revoke(tokens[d], now) else tokens[d];
    }

    /** Exchange a refresh token for its successor. A token that is no longer live signs its family
        out; every other refusal changes nothing. */
    method RotateRefreshToken(presented: Digest, digest: Digest, now: int) returns (session: Option<Session>)
      requires digest !in tokens
      modifies this
      ensures Value() == Apply(old(Value()), Rotate(presented, digest, now))
      ensures session.Some? <==>
                && presented in old(tokens) && old(tokens)[presented].revokedAt == None && now < old(tokens)[presented].expires
                && old(tokens)[presented].user in old(users)
                && old(users)[old(tokens)[presented].user].active && old(users)[old(tokens)[presented].user].member
      ensures session.Some? ==>
                tokens == old(tokens)[presented := old(tokens)[presented].(revokedAt := Some(now))][
                  digest := Token(old(tokens)[presented].user, old(tokens)[presented].family, now + 2592000, None)]
      ensures session.None? && !(presented in old(tokens) && old(tokens)[presented].revokedAt.Some?) ==> tokens == old(tokens)
      ensures users == old(users)
      ensures session.Some? ==>
                && session.value.digest == digest && Live(Value(), digest) && !Live(Value(), presented)
                && tokens[digest].family == old(tokens)[presented].family
                && session.value.claims.subject == old(tokens)[presented].user
                && Resolves(Value(), session.value.claims)
      ensures presented in old(tokens) && !Live(old(Value()), presented) ==> Dead(Value(), old(tokens)[presented].family)
    {
      if presented !in tokens {
        return None;
      }
      var stored := tokens[presented];
      if stored.revokedAt.Some? {
        RevokeFamilyTokens(stored.family, now);
        return None;
      }
      if stored.expires <= now {
        return None;
      }
      if stored.user !in users || !users[stored.user].active || !users[stored.user].member {
        return None;
      }
      tokens := tokens[presented := stored.(revokedAt := Some(now))];
      rotated := rotated + {presented};
      var issuedSession := IssueSession(stored.user, digest, stored.family, now);
      return Some(issuedSession);
    }

    /** Revoke one presented token; says whether it existed and was live. */
    method RevokeToken(presented: Digest, now: int) returns (wasLive: bool)
      modifies this
      ensures Value() == Apply(old(Value()), Logout(presented, now))
      ensures wasLive <==> presented in old(tokens) && old(tokens)[presented].revokedAt == None
      ensures tokens == if wasLive then old(tokens)[presented := old(tokens)[presented].(revokedAt := Some(now))] else old(tokens)
    {
      if presented !in tokens || tokens[presented].revokedAt.Some? {
        return false;
      }
      tokens := tokens[presented := tokens[presented].(revokedAt := Some(now))];
      return true;
    }

    method RevokeAllSessions(user: UserId, now: int)
      modifies this
      ensures Value() == Apply(old(Value()), RevokeAll(user, now))
      ensures forall d :: Live(Value(), d) <==> Live(old(Value()), d) && old(tokens)[d].user != user
      ensures tokens.Keys == old(tokens).Keys && forall d :: d in tokens ==>
                tokens[d] == if old(tokens)[d].user == user && old(tokens)[d].revokedAt == None
                             then old(tokens)[d].(revokedAt := Some(now)) else old(tokens)[d]
      ensures users.Keys == old(users).Keys && forall u :: u in users ==>
                users[u] == if u == user then old(users)[u].(version := old(users)[u].version + 1) else old(users)[u]
    {
      tokens := map d | d in tokens :: if tokens[d].user == user then Revoke(tokens[d], now) else tokens[d];
      if user in users {
        users := users[user := users[user].(version := users[user].version + 1)];
      }
    }
  }
}
