/** The tabs of one browser, each with its shared in-flight refresh and all with one cookie jar,
    composed with the session service. Requests and answers travel separately and may be lost: the
    server acts when it handles a request, the cookie and the access token change when the answer is
    delivered. A reloaded page is a new tab, and the page it replaced is one whose refresh may still
    be handled. */
module BrowserSession {
  import opened Wrappers
  import opened RefreshTokens

  type TabId = int

  datatype Reply = Granted(session: Session) | Refused(clearsCookie: bool)

  datatype Flight = Sent(presented: Option<Digest>) | Answered(presented: Option<Digest>, reply: Reply)

  /** The module's two variables in one tab, and how many callers await the refresh. */
  datatype Tab = Tab(accessToken: Option<Claims>, inFlight: Option<Flight>, waiting: nat)

  const IDLE := Tab(None, None, 0)

  /** The server, the cookie jar, the tabs, the sign-in answers, sign-out requests with the cookie they
      were posted with, and sign-out answers on their way. The rest is history no step reads: the refresh tokens ever minted for this browser (`mine`), those
      of them that never reached it (`unseen`), the tokens presented by refreshes whose granted
      answer was lost (`lost`), and the tabs whose last refresh was posted while a granted answer for
      the cookie was overdue (`late`) or had its token exchanged by another tab on the way (`raced`). */
  datatype World = World(
    server: State, cookie: Option<Digest>, tabs: map<TabId, Tab>, logins: map<Digest, Claims>,
    signingOut: multiset<Option<Digest>>, logouts: nat,
    mine: set<Digest>, unseen: set<Digest>, lost: set<Digest>, late: set<TabId>, raced: set<TabId>)

  datatype Event =
    | Unauthorized(tab: TabId)
    | RefreshHandled(tab: TabId, digest: Digest, now: int, clears: bool)
    | RefreshDelivered(tab: TabId)
    | RequestLost(tab: TabId)
    | AnswerLost(tab: TabId)
    | LoginHandled(user: UserId, passwordMatches: bool, digest: Digest, family: FamilyId, now: int)
    | LoginDelivered(tab: TabId, login: Digest)
    | LogoutPosted
    | LogoutHandled(presented: Option<Digest>, now: int)
    | LogoutLost(tab: TabId, presented: Option<Digest>)
    | LogoutFinished(tab: TabId, delivered: bool)
    | Elsewhere(action: Action)

  /** A 401 on a first attempt, or a page load: join the refresh in flight or post one. */
  function Refresh(tab: Tab, cookie: Option<Digest>): Tab {
    var tab := tab.(waiting := tab.waiting + 1);
    if tab.inFlight.Some? then tab else tab.(inFlight := Some(Sent(cookie)))
  }

  function Settled(reply: Reply): Tab {
    match reply
    case Granted(session) => Tab(Some(session.claims), None, 0)
    case Refused(_) => IDLE
  }

  function Jar(cookie: Option<Digest>, reply: Reply): Option<Digest> {
    match reply
    case Granted(session) => Some(session.digest)
    case Refused(clearsCookie) => if clearsCookie then None else cookie
  }

  /** A refusal deletes the cookie on a response that the raised exception then replaces; whether the
      deletion reaches the browser is left open. */
  function Exchanged(server: State, presented: Option<Digest>, digest: Digest, now: int, clears: bool): (State, Reply) {
    if presented.None? then (server, Refused(false))
    else
      var server' := Apply(server, Rotate(presented.value, digest, now));
      if Exchangeable(server, presented.value, now) then
        var user := server.tokens[presented.value].user;
        (server', Granted(Session(Claims(user, server.users[user].version), digest)))
      else (server', Refused(clears))
  }

  /** A sign-out revokes the token its request carried, which a refresh may have replaced since. */
  function SignedOut(server: State, presented: Option<Digest>, now: int): State {
    if presented.Some? then Apply(server, Logout(presented.value, now)) else server
  }

  /** A refresh is granted exactly for a stored, unrevoked, unexpired token of a usable user, who then gets
      the new token and the current version; only then, or when the token was revoked before, does the
      server change anything. */
  lemma ExchangedExactly(server: State, presented: Option<Digest>, digest: Digest, now: int, clears: bool)
    ensures var (server', reply) := Exchanged(server, presented, digest, now, clears);
            && (reply.Granted? <==>
                  && presented.Some? && presented.value in server.tokens
                  && server.tokens[presented.value].revokedAt == None && now < server.tokens[presented.value].expires
                  && server.tokens[presented.value].user in server.users
                  && server.users[server.tokens[presented.value].user].active && server.users[server.tokens[presented.value].user].member)
            && (reply.Granted? ==>
                  && reply.session.digest == digest && reply.session.claims.subject == server.tokens[presented.value].user
                  && reply.session.claims.version == server.users[server.tokens[presented.value].user].version)
            && (presented.Some? ==> server' == Apply(server, Rotate(presented.value, digest, now)) && (reply.Refused? ==> reply.clearsCookie == clears))
            && (presented.None? ==> server' == server && reply == Refused(false))
  {}

  function TabOf(w: World, tab: TabId): Tab {
    if tab in w.tabs then w.tabs[tab] else IDLE
  }

  predicate Posted(w: World, tab: TabId) {
    TabOf(w, tab).inFlight.Some? && TabOf(w, tab).inFlight.value.Sent?
  }

  predicate Replied(w: World, tab: TabId) {
    TabOf(w, tab).inFlight.Some? && TabOf(w, tab).inFlight.value.Answered?
  }

  /** The server has granted this tab's refresh, which presented the token; the answer is on its way. */
  predicate Answering(w: World, tab: TabId, presented: Digest) {
    Replied(w, tab) && w.tabs[tab].inFlight.value.reply.Granted? && w.tabs[tab].inFlight.value.presented == Some(presented)
  }

  /** A granted answer for this token is on its way or was lost. */
  ghost predicate Overdue(w: World, presented: Digest) {
    presented in w.lost || exists tab :: Answering(w, tab, presented)
  }

  function Rivals(w: World, tab: TabId, presented: Option<Digest>): set<TabId> {
    set t | t in w.tabs && t != tab && w.tabs[t].inFlight == Some(Sent(presented))
  }

  ghost predicate CanHappen(w: World, event: Event) {
    match event
    case RefreshHandled(tab, digest, _, _) => Posted(w, tab) && digest !in w.server.tokens
    case RefreshDelivered(tab) => Replied(w, tab)
    case RequestLost(tab) => Posted(w, tab)
    case AnswerLost(tab) => Replied(w, tab)
    case LoginHandled(user, passwordMatches, digest, family, now) =>
      Enabled(w.server, SignIn(user, passwordMatches, digest, family, now))
    case LoginDelivered(_, login) => login in w.logins
    case LogoutHandled(presented, _) => presented in w.signingOut
    case LogoutLost(_, presented) => presented in w.signingOut
    case LogoutFinished(_, _) => w.logouts > 0
    case Elsewhere(action) =>
      Enabled(w.server, action) && (action.Rotate? || action.Logout? ==> action.presented !in w.mine)
    case _ => true
  }

  ghost function Post(w: World, tab: TabId): World {
    var w' := w.(tabs := w.tabs[tab := Refresh(TabOf(w, tab), w.cookie)]);
    if TabOf(w, tab).inFlight.Some? then w'
    else
      w'.(raced := w.raced - {tab},
          late := if w.cookie.Some? && Overdue(w, w.cookie.value) then w.late + {tab} else w.late - {tab})
  }

  ghost function Handle(w: World, tab: TabId, digest: Digest, now: int, clears: bool): World
    requires Posted(w, tab)
  {
    var presented := w.tabs[tab].inFlight.value.presented;
    var (server, reply) := Exchanged(w.server, presented, digest, now, clears);
    var w' := w.(server := server, tabs := w.tabs[tab := w.tabs[tab].(inFlight := Some(Answered(presented, reply)))]);
    if reply.Granted? then
      w'.(mine := w.mine + {digest}, unseen := w.unseen + {digest}, raced := w.raced + Rivals(w, tab, presented))
    else w'
  }

  ghost function Deliver(w: World, tab: TabId): World
    requires Replied(w, tab)
  {
    var reply := w.tabs[tab].inFlight.value.reply;
    w.(cookie := Jar(w.cookie, reply), tabs := w.tabs[tab := Settled(reply)],
       unseen := if reply.Granted? then w.unseen - {reply.session.digest} else w.unseen)
  }

  /** The refresh failed on the way: the module forgets it and its access token. */
  ghost function Fail(w: World, tab: TabId): World {
    w.(tabs := w.tabs[tab := IDLE])
  }

  ghost function Next(w: World, event: Event): World
    requires CanHappen(w, event)
  {
    match event
    case Unauthorized(tab) => Post(w, tab)
    case RefreshHandled(tab, digest, now, clears) => Handle(w, tab, digest, now, clears)
    case RefreshDelivered(tab) => Deliver(w, tab)
    case RequestLost(tab) => Fail(w, tab)
    case AnswerLost(tab) =>
      var flight := w.tabs[tab].inFlight.value;
      Fail(w, tab).(lost := if flight.reply.Granted? && flight.presented.Some? then w.lost + {flight.presented.value} else w.lost)
    case LoginHandled(user, passwordMatches, digest, family, now) =>
      var server := Apply(w.server, SignIn(user, passwordMatches, digest, family, now));
      if passwordMatches && Usable(w.server, user) then
        w.(server := server, logins := w.logins[digest := Claims(user, w.server.users[user].version)],
           mine := w.mine + {digest}, unseen := w.unseen + {digest})
      else w.(server := server)
    case LoginDelivered(tab, login) =>
      w.(cookie := Some(login), tabs := w.tabs[tab := TabOf(w, tab).(accessToken := Some(w.logins[login]))],
         logins := w.logins - {login}, unseen := w.unseen - {login})
    case LogoutPosted => w.(signingOut := w.signingOut + multiset{w.cookie})
    case LogoutHandled(presented, now) =>
      w.(server := SignedOut(w.server, presented, now), signingOut := w.signingOut - multiset{presented}, logouts := w.logouts + 1)
    case LogoutLost(tab, presented) =>
      w.(signingOut := w.signingOut - multiset{presented}, tabs := w.tabs[tab := TabOf(w, tab).(accessToken := None)])
    case LogoutFinished(tab, delivered) =>
      w.(cookie := if delivered then None else w.cookie, tabs := w.tabs[tab := TabOf(w, tab).(accessToken := None)],
         logouts := w.logouts - 1)
    case Elsewhere(action) => w.(server := Apply(w.server, action))
  }

  ghost predicate LegalRun(w: World, events: seq<Event>)
    decreases |events|
  {
    events == [] || (CanHappen(w, events[0]) && LegalRun(Next(w, events[0]), events[1..]))
  }

  ghost function AfterRun(w: World, events: seq<Event>): World
    requires LegalRun(w, events)
    decreases |events|
  {
    if events == [] then w else AfterRun(Next(w, events[0]), events[1..])
  }

  /** A token that has reached this browser. */
  ghost predicate Held(w: World, digest: Digest) {
    digest in w.mine && digest !in w.unseen
  }

  /** A refresh waiting to be handled presents an exchanged token exactly when it was posted late or
      was raced; a granted answer carries a token nobody has seen. */
  ghost predicate FlightSafe(w: World, tab: TabId)
    requires tab in w.tabs
  {
    match w.tabs[tab].inFlight
    case Some(Sent(Some(p))) => Held(w, p) && (p in w.server.rotated <==> tab in w.late || tab in w.raced)
    case Some(Answered(presented, Granted(session))) =>
      && session.digest in w.unseen && session.digest !in w.logins
      && presented.Some? && presented.value in w.server.rotated
    case _ => true
  }

  predicate Carries(w: World, tab: TabId, digest: Digest) {
    Replied(w, tab) && w.tabs[tab].inFlight.value.reply.Granted? && w.tabs[tab].inFlight.value.reply.session.digest == digest
  }

  ghost predicate OneCarrier(w: World) {
    forall t, u, digest :: Carries(w, t, digest) && Carries(w, u, digest) ==> t == u
  }

  ghost predicate TokensSafe(w: World) {
    && w.mine <= w.server.tokens.Keys
    && w.unseen <= w.mine && w.unseen !! w.server.rotated
    && w.logins.Keys <= w.unseen && w.lost <= w.server.rotated
  }

  /** The cookie has been exchanged exactly when a granted answer for it is overdue. */
  ghost predicate CookieSafe(w: World) {
    w.cookie.Some? ==> Held(w, w.cookie.value) && (w.cookie.value in w.server.rotated <==> Overdue(w, w.cookie.value))
  }

  ghost predicate FlightsSafe(w: World) {
    forall tab :: tab in w.tabs ==> FlightSafe(w, tab)
  }

  ghost predicate Safe(w: World) {
    Inv(w.server) && TokensSafe(w) && CookieSafe(w) && FlightsSafe(w) && OneCarrier(w)
  }

  lemma PostKeepsSafe(w: World, tab: TabId)
    requires Safe(w)
    ensures Safe(Post(w, tab))
  {
    var w' := Post(w, tab);
    assert forall t, d :: Answering(w', t, d) <==> Answering(w, t, d);
    assert forall t, d :: Carries(w', t, d) <==> Carries(w, t, d);
  }

  lemma DeliverKeepsSafe(w: World, tab: TabId)
    requires Safe(w) && Replied(w, tab)
    ensures Safe(Deliver(w, tab))
  {
    var w' := Deliver(w, tab);
    assert FlightSafe(w, tab);
    assert forall t, d :: Answering(w', t, d) <==> t != tab && Answering(w, t, d);
    assert forall t, d :: Carries(w', t, d) <==> t != tab && Carries(w, t, d);
    forall t | t in w'.tabs && t != tab ensures FlightSafe(w', t) {
      assert FlightSafe(w, t);
      var reply := w.tabs[tab].inFlight.value.reply;
      assert reply.Granted? ==> Carries(w, tab, reply.session.digest) && !Carries(w, t, reply.session.digest);
    }
  }

  lemma FailKeepsSafe(w: World, tab: TabId, event: Event)
    requires Safe(w) && event in {RequestLost(tab), AnswerLost(tab)} && CanHappen(w, event)
    ensures Safe(Next(w, event))
  {
    var w' := Next(w, event);
    assert FlightSafe(w, tab);
    assert forall t, d :: Answering(w', t, d) <==> t != tab && Answering(w, t, d);
    assert forall t, d :: Carries(w', t, d) <==> t != tab && Carries(w, t, d);
    assert forall t :: t in w'.tabs && t != tab ==> FlightSafe(w, t);
    assert forall d :: Answering(w, tab, d) ==> event.AnswerLost? && d in w'.lost;
  }

  /** A refused or empty refresh leaves every token of this browser as it was exchanged. */
  lemma RefuseKeepsSafe(w: World, tab: TabId, digest: Digest, now: int, clears: bool)
    requires Safe(w) && CanHappen(w, RefreshHandled(tab, digest, now, clears))
    requires Exchanged(w.server, w.tabs[tab].inFlight.value.presented, digest, now, clears).1.Refused?
    ensures Safe(Handle(w, tab, digest, now, clears))
  {
    var w' := Handle(w, tab, digest, now, clears);
    var presented := w.tabs[tab].inFlight.value.presented;
    if presented.Some? {
      StepKeepsInv(w.server, Rotate(presented.value, digest, now));
      assert w'.server.rotated == w.server.rotated;
    }
    assert forall t, d :: Answering(w', t, d) <==> Answering(w, t, d);
    assert forall t, d :: Carries(w', t, d) <==> Carries(w, t, d);
    assert forall t :: t in w'.tabs && t != tab ==> FlightSafe(w, t);
  }

  /** An exchange spends its token, races every other tab on its way with it, and is now overdue. */
  lemma GrantKeepsSafe(w: World, tab: TabId, digest: Digest, now: int, clears: bool)
    requires Safe(w) && CanHappen(w, RefreshHandled(tab, digest, now, clears))
    requires Exchanged(w.server, w.tabs[tab].inFlight.value.presented, digest, now, clears).1.Granted?
    ensures Safe(Handle(w, tab, digest, now, clears))
  {
    var w' := Handle(w, tab, digest, now, clears);
    var p := w.tabs[tab].inFlight.value.presented.value;
    StepKeepsInv(w.server, Rotate(p, digest, now));
    assert FlightSafe(w, tab) && w'.server.rotated == w.server.rotated + {p} && p !in w.server.rotated;
    assert forall t, d :: Answering(w', t, d) <==> (t == tab && d == p) || Answering(w, t, d);
    assert forall t, d :: Carries(w', t, d) <==> (t == tab && d == digest) || Carries(w, t, d);
    assert forall t :: t in w'.tabs && t != tab ==> FlightSafe(w, t);
    assert Answering(w', tab, p);
  }

  /** What happens to the server alone, exchanging none of this browser's tokens, keeps it safe. */
  lemma ServerKeepsSafe(w: World, server: State)
    requires Safe(w) && Inv(server) && w.server.tokens.Keys <= server.tokens.Keys
    requires server.rotated * w.mine == w.server.rotated * w.mine && w.server.rotated <= server.rotated
    ensures Safe(w.(server := server))
  {
    var w' := w.(server := server);
    assert forall t, d :: Answering(w', t, d) <==> Answering(w, t, d);
    assert forall t, d :: Carries(w', t, d) <==> Carries(w, t, d);
    assert forall d :: d in w.mine ==> (d in server.rotated <==> d in server.rotated * w.mine) && (d in w.server.rotated <==> d in w.server.rotated * w.mine);
    assert forall t :: t in w'.tabs ==> FlightSafe(w, t);
  }

  lemma LoginKeepsSafe(w: World, login: Event)
    requires Safe(w) && login.LoginHandled? && CanHappen(w, login)
    ensures Safe(Next(w, login))
  {
    var server := Apply(w.server, SignIn(login.user, login.passwordMatches, login.digest, login.family, login.now));
    StepKeepsInv(w.server, SignIn(login.user, login.passwordMatches, login.digest, login.family, login.now));
    ServerKeepsSafe(w, server);
    var w0, w' := w.(server := server), Next(w, login);
    assert forall t, d :: Answering(w', t, d) <==> Answering(w0, t, d);
    assert forall t, d :: Carries(w', t, d) <==> Carries(w0, t, d);
    assert forall t :: t in w'.tabs ==> FlightSafe(w0, t);
    assert login.digest !in w.server.tokens;
    assert login.digest !in w.server.rotated;
  }

  lemma LoginArrivesSafely(w: World, event: Event)
    requires Safe(w) && event.LoginDelivered? && CanHappen(w, event)
    ensures Safe(Next(w, event))
  {
    var w' := Next(w, event);
    assert forall t, d :: Answering(w', t, d) <==> Answering(w, t, d);
    assert forall t, d :: Carries(w', t, d) <==> Carries(w, t, d);
    assert forall t :: t in w'.tabs && t in w.tabs ==> FlightSafe(w, t);
    assert forall t, d :: Answering(w, t, d) ==> FlightSafe(w, t);
    assert !Overdue(w, event.login);
  }

  lemma LogoutEndsSafely(w: World, event: Event)
    requires Safe(w) && CanHappen(w, event) && (event.LogoutFinished? || event.LogoutLost?)
    ensures Safe(Next(w, event))
  {
    hide Inv;
    var w' := Next(w, event);
    assert forall t, d :: Answering(w', t, d) <==> Answering(w, t, d);
    assert forall t, d :: Carries(w', t, d) <==> Carries(w, t, d);
    assert forall t :: t in w'.tabs && t in w.tabs ==> FlightSafe(w, t);
  }

  lemma StepKeepsSafe(w: World, event: Event)
    requires Safe(w) && CanHappen(w, event)
    ensures Safe(Next(w, event))
  {
    assert Inv(w.server);
    hide Inv, Exchanged, Safe;
    match event
    case Unauthorized(tab) => PostKeepsSafe(w, tab);
    case RefreshHandled(tab, digest, now, clears) =>
      if Exchanged(w.server, w.tabs[tab].inFlight.value.presented, digest, now, clears).1.Granted? {
        GrantKeepsSafe(w, tab, digest, now, clears);
      } else {
        RefuseKeepsSafe(w, tab, digest, now, clears);
      }
    case RefreshDelivered(tab) => DeliverKeepsSafe(w, tab);
    case RequestLost(tab) => FailKeepsSafe(w, tab, event);
    case AnswerLost(tab) => FailKeepsSafe(w, tab, event);
    case LoginHandled(_, _, _, _, _) => LoginKeepsSafe(w, event);
    case LoginDelivered(_, _) => LoginArrivesSafely(w, event);
    case LogoutPosted => LogoutsKeepSafe(w, Next(w, event).signingOut, w.logouts);
    case LogoutHandled(presented, now) =>
      if presented.Some? { StepKeepsInv(w.server, Logout(presented.value, now)); }
      ServerKeepsSafe(w, Next(w, event).server);
      LogoutsKeepSafe(w.(server := Next(w, event).server), Next(w, event).signingOut, w.logouts + 1);
    case LogoutLost(_, _) => LogoutEndsSafely(w, event);
    case LogoutFinished(_, _) => LogoutEndsSafely(w, event);
    case Elsewhere(action) =>
      StepKeepsInv(w.server, action);
      ServerKeepsSafe(w, Apply(w.server, action));
  }

  lemma LogoutsKeepSafe(w: World, signingOut: multiset<Option<Digest>>, logouts: nat)
    requires Safe(w)
    ensures Safe(w.(signingOut := signingOut, logouts := logouts))
  {
    var w' := w.(signingOut := signingOut, logouts := logouts);
    assert forall t, d :: Answering(w', t, d) <==> Answering(w, t, d);
    assert forall t, d :: Carries(w', t, d) <==> Carries(w, t, d);
    assert forall t :: t in w'.tabs ==> FlightSafe(w, t);
  }

  /** Every run of 401s, page loads, lost and delivered messages, sign-ins, sign-outs and other
      clients keeps the browser safe. */
  lemma {:induction false} RunKeepsSafe(w: World, events: seq<Event>)
    requires Safe(w) && LegalRun(w, events)
    ensures Safe(AfterRun(w, events))
    decreases |events|
  {
    if events != [] {
      StepKeepsSafe(w, events[0]);
      RunKeepsSafe(Next(w, events[0]), events[1..]);
    }
  }

  /** A freshly opened browser without a session. */
  function Opened(server: State): World {
    World(server, None, map[], map[], multiset{}, 0, {}, {}, {}, {}, {})
  }

  /** When a refresh presents a spent token, in every run of any number of tabs: exactly when it was
      posted while a granted answer for the cookie was lost or still on its way, or another tab had
      the same token exchanged while it travelled. Then the whole family is signed out; otherwise
      the server signs out no token but the presented one. */
  lemma ReplaysExactly(server: State, events: seq<Event>, refresh: Event)
    requires Inv(server) && LegalRun(Opened(server), events)
    requires refresh.RefreshHandled? && CanHappen(AfterRun(Opened(server), events), refresh)
    ensures var before := AfterRun(Opened(server), events);
            var presented := before.tabs[refresh.tab].inFlight.value.presented;
            presented.Some? ==>
              && presented.value in before.server.tokens
              && (presented.value in before.server.rotated <==> refresh.tab in before.late || refresh.tab in before.raced)
    ensures var before := AfterRun(Opened(server), events);
            var after, presented := Next(before, refresh).server, before.tabs[refresh.tab].inFlight.value.presented;
            if presented.Some? && (refresh.tab in before.late || refresh.tab in before.raced)
            then Dead(after, before.server.tokens[presented.value].family)
            else forall d :: Live(before.server, d) && Some(d) != presented ==> Live(after, d)
  {
    RunKeepsSafe(Opened(server), events);
    var before := AfterRun(Opened(server), events);
    assert FlightSafe(before, refresh.tab);
    hide LegalRun, AfterRun, CookieSafe, OneCarrier, FlightsSafe, Rivals;
    var presented := before.tabs[refresh.tab].inFlight.value.presented;
    if presented.Some? && presented.value in before.server.rotated {
      ReplayKillsFamily(before.server, presented.value, refresh.digest, refresh.now);
    }
  }

  /** A step of a browser whose tabs take turns: nothing is posted while a refresh of another tab is
      in flight, and no answer is lost. Requests may be. */
  ghost predicate TakesTurns(w: World, event: Event) {
    && !event.AnswerLost?
    && (event.Unauthorized? ==> forall tab :: tab in w.tabs && tab != event.tab ==> w.tabs[tab].inFlight.None?)
  }

  ghost predicate TurnTaking(w: World, events: seq<Event>)
    requires LegalRun(w, events)
    decreases |events|
  {
    events == [] || (TakesTurns(w, events[0]) && TurnTaking(Next(w, events[0]), events[1..]))
  }

  /** At most one refresh is in flight, and none was late, raced or lost. */
  ghost predicate Quiet(w: World) {
    && w.lost == {} && w.late == {} && w.raced == {}
    && forall t, u :: t in w.tabs && u in w.tabs && w.tabs[t].inFlight.Some? && w.tabs[u].inFlight.Some? ==> t == u
  }

  lemma {:induction false} TurnsStayQuiet(w: World, events: seq<Event>)
    requires Quiet(w) && LegalRun(w, events) && TurnTaking(w, events)
    ensures Quiet(AfterRun(w, events))
    decreases |events|
  {
    if events != [] {
      assert Quiet(Next(w, events[0]));
      TurnsStayQuiet(Next(w, events[0]), events[1..]);
    }
  }

  /** So a browser whose tabs take turns, whatever requests are lost, never presents a spent token
      and never signs out a token other than the one it presents. */
  lemma NeverReplays(server: State, events: seq<Event>, refresh: Event)
    requires Inv(server) && LegalRun(Opened(server), events) && TurnTaking(Opened(server), events)
    requires refresh.RefreshHandled? && CanHappen(AfterRun(Opened(server), events), refresh)
    ensures var before := AfterRun(Opened(server), events);
            var presented := before.tabs[refresh.tab].inFlight.value.presented;
            && (presented.Some? ==> presented.value !in before.server.rotated)
            && forall d :: Live(before.server, d) && Some(d) != presented ==> Live(Next(before, refresh).server, d)
  {
    TurnsStayQuiet(Opened(server), events);
    ReplaysExactly(server, events, refresh);
  }

  /** One page alone takes turns with itself: its callers share the refresh in flight. */
  lemma {:induction false} OnePageTakesTurns(w: World, events: seq<Event>, page: TabId)
    requires LegalRun(w, events) && forall tab :: tab in w.tabs && tab != page ==> w.tabs[tab].inFlight.None?
    requires forall event :: event in events ==> !event.AnswerLost? && (event.Unauthorized? ==> event.tab == page)
    ensures TurnTaking(w, events)
    decreases |events|
  {
    if events != [] {
      OnePageTakesTurns(Next(w, events[0]), events[1..], page);
    }
  }

  /** However many callers meet a 401 while the tab has no refresh in flight, one refresh is posted. */
  lemma ParallelUnauthorized(w: World, tab: TabId, callers: nat)
    requires callers > 0 && TabOf(w, tab).inFlight.None?
    ensures LegalRun(w, seq(callers, i => Unauthorized(tab)))
    ensures var w' := AfterRun(w, seq(callers, i => Unauthorized(tab)));
            && TabOf(w', tab) == TabOf(w, tab).(waiting := TabOf(w, tab).waiting + callers, inFlight := Some(Sent(w.cookie)))
            && w'.server == w.server && w'.cookie == w.cookie
            && forall t :: t != tab ==> TabOf(w', t) == TabOf(w, t)
  {
    assert seq(callers, i => Unauthorized(tab))[1..] == seq(callers - 1, i => Unauthorized(tab));
    Joined(Post(w, tab), tab, callers - 1);
  }

  lemma {:induction false} Joined(w: World, tab: TabId, callers: nat)
    requires TabOf(w, tab).inFlight.Some?
    decreases callers
    ensures LegalRun(w, seq(callers, i => Unauthorized(tab)))
    ensures var w' := AfterRun(w, seq(callers, i => Unauthorized(tab)));
            w' == w.(tabs := w.tabs[tab := TabOf(w, tab).(waiting := TabOf(w, tab).waiting + callers)])
  {
    if callers > 0 {
      assert seq(callers, i => Unauthorized(tab))[1..] == seq(callers - 1, i => Unauthorized(tab));
      Joined(Post(w, tab), tab, callers - 1);
    }
  }

  lemma Unrolled(w: World, event: Event, events: seq<Event>)
    requires CanHappen(w, event) && LegalRun(Next(w, event), events)
    ensures LegalRun(w, [event] + events) && AfterRun(w, [event] + events) == AfterRun(Next(w, event), events)
  {
    assert ([event] + events)[1..] == events;
  }

  lemma LastStep(w: World, event: Event)
    requires CanHappen(w, event)
    ensures LegalRun(w, [event]) && AfterRun(w, [event]) == Next(w, event)
  {}

  lemma FourSteps(w: World, a: Event, b: Event, c: Event, d: Event)
    requires CanHappen(w, a) && CanHappen(Next(w, a), b) && CanHappen(Next(Next(w, a), b), c)
    requires CanHappen(Next(Next(Next(w, a), b), c), d)
    ensures LegalRun(w, [a, b, c, d]) && AfterRun(w, [a, b, c, d]) == Next(Next(Next(Next(w, a), b), c), d)
  {
    hide Next, CanHappen;
    var w1 := Next(w, a);
    var w2 := Next(w1, b);
    LastStep(Next(w2, c), d);
    Unrolled(w2, c, [d]);
    Unrolled(w1, b, [c, d]);
    Unrolled(w, a, [b, c, d]);
  }

  /** A lost answer to a granted refresh signs the family out at the next one, in the same tab. */
  lemma LostAnswerSignsOut(w: World, tab: TabId, first: Digest, second: Digest, now: int, later: int, clears: bool)
    requires Inv(w.server) && w.cookie.Some? && Exchangeable(w.server, w.cookie.value, now)
    requires tab in w.tabs && w.tabs[tab].inFlight == Some(Sent(w.cookie))
    requires first !in w.server.tokens && second !in w.server.tokens && second != first
    ensures var run := [RefreshHandled(tab, first, now, clears), AnswerLost(tab), Unauthorized(tab), RefreshHandled(tab, second, later, clears)];
            && LegalRun(w, run)
            && Dead(AfterRun(w, run).server, w.server.tokens[w.cookie.value].family)
  {
    SecondPresentationSignsOut(w.server, w.cookie.value, first, second, now, later);
    var granted, again := RefreshHandled(tab, first, now, clears), RefreshHandled(tab, second, later, clears);
    var w3 := Next(Next(Next(w, granted), AnswerLost(tab)), Unauthorized(tab));
    assert CanHappen(w3, again);
    hide LegalRun, AfterRun, Apply, Exchangeable, Dead, Inv, Overdue;
    FourSteps(w, granted, AnswerLost(tab), Unauthorized(tab), again);
  }

  /** Both tabs have posted; the first is granted and gets its answer, the second is refused. */
  lemma SecondTabIsRefused(w: World, tab: TabId, other: TabId, first: Digest, second: Digest, now: int, later: int, clears: bool)
    requires Inv(w.server) && w.cookie.Some? && Exchangeable(w.server, w.cookie.value, now)
    requires tab != other && TabOf(w, tab).inFlight == Some(Sent(w.cookie)) && TabOf(w, other).inFlight == Some(Sent(w.cookie))
    requires first !in w.server.tokens && second !in w.server.tokens && second != first
    ensures var granted, refused := RefreshHandled(tab, first, now, clears), RefreshHandled(other, second, later, clears);
            && CanHappen(w, granted) && CanHappen(Next(w, granted), RefreshDelivered(tab))
            && var w' := Next(Next(w, granted), RefreshDelivered(tab));
            && CanHappen(w', refused) && CanHappen(Next(w', refused), RefreshDelivered(other))
            && Dead(Next(Next(w', refused), RefreshDelivered(other)).server, w.server.tokens[w.cookie.value].family)
  {
    SecondPresentationSignsOut(w.server, w.cookie.value, first, second, now, later);
    hide Inv, Rivals;
  }

  /** Two tabs that meet a 401 together sign the family out although every answer arrives. */
  lemma TwoTabsSignOut(w: World, tab: TabId, other: TabId, first: Digest, second: Digest, now: int, later: int, clears: bool)
    requires Inv(w.server) && w.cookie.Some? && Exchangeable(w.server, w.cookie.value, now)
    requires tab != other && TabOf(w, tab).inFlight.None? && TabOf(w, other).inFlight.None?
    requires first !in w.server.tokens && second !in w.server.tokens && second != first
    ensures var run := [Unauthorized(tab), Unauthorized(other), RefreshHandled(tab, first, now, clears), RefreshDelivered(tab),
                        RefreshHandled(other, second, later, clears), RefreshDelivered(other)];
            && LegalRun(w, run)
            && Dead(AfterRun(w, run).server, w.server.tokens[w.cookie.value].family)
  {
    var granted, refused := RefreshHandled(tab, first, now, clears), RefreshHandled(other, second, later, clears);
    var w2 := Post(Post(w, tab), other);
    SecondTabIsRefused(w2, tab, other, first, second, now, later, clears);
    hide LegalRun, AfterRun, Exchangeable, Dead, Inv, Overdue, Handle, Deliver, Refresh;
    FourSteps(w2, granted, RefreshDelivered(tab), refused, RefreshDelivered(other));
    Unrolled(Post(w, tab), Unauthorized(other), [granted, RefreshDelivered(tab), refused, RefreshDelivered(other)]);
    Unrolled(w, Unauthorized(tab), [Unauthorized(other), granted, RefreshDelivered(tab), refused, RefreshDelivered(other)]);
  }

  /** A request as the response interceptor sees it. */
  datatype Request = Request(retried: bool, authEndpoint: bool)

  /** The cookie jar all tabs of a browser share. */
  class CookieJar {
    var cookie: Option<Digest>

    constructor ()
      ensures cookie == None
    {
      cookie := None;
    }
  }

  /** The module's variables in one tab. */
  class AuthModule {
    const jar: CookieJar
    var accessToken: Option<Claims>
    var inFlight: Option<Flight>
    var waiting: nat

    ghost function Value(): Tab
      reads this
    {
      Tab(accessToken, inFlight, waiting)
    }

    constructor (jar: CookieJar)
      ensures this.jar == jar && Value() == IDLE
    {
      this.jar := jar;
      accessToken, inFlight, waiting := None, None, 0;
    }

    method RefreshSession()
      modifies this
      ensures Value() == Refresh(old(Value()), jar.cookie)
      ensures Value() == Tab(old(accessToken), if old(inFlight).Some? then old(inFlight) else Some(Sent(old(jar.cookie))), old(waiting) + 1)
      ensures inFlight.Some? && (old(inFlight).Some? ==> inFlight == old(inFlight))
    {
      waiting := waiting + 1;
      if inFlight.Some? {
        return;
      }
      inFlight := Some(Sent(jar.cookie));
    }

    /** The answer arrives, or none will: the jar and the access token change and the shared refresh
        is forgotten, whatever the answer was. All that await it get the same token. */
    method Settle(reply: Option<Reply>) returns (token: Option<Claims>)
      modifies this, jar
      ensures Value() == if reply.Some? then Settled(reply.value) else IDLE
      ensures jar.cookie == if reply.Some? then Jar(old(jar.cookie), reply.value) else old(jar.cookie)
      ensures inFlight.None? && waiting == 0 && token == accessToken
      ensures token.Some? <==> reply.Some? && reply.value.Granted?
      ensures token.Some? ==> token.value == reply.value.session.claims && jar.cookie == Some(reply.value.session.digest)
      ensures token.None? ==> jar.cookie == if reply == Some(Refused(true)) then None else old(jar.cookie)
    {
      match reply {
        case Some(Granted(session)) =>
          jar.cookie := Some(session.digest);
          accessToken := Some(session.claims);
        case Some(Refused(clearsCookie)) =>
          if clearsCookie { jar.cookie := None; }
          accessToken := None;
        case None =>
          accessToken := None;
      }
      inFlight, waiting := None, 0;
      return accessToken;
    }

    /** The interceptor up to the refresh: only a first 401 of an ordinary request waits for it, and
        the request that waits is one this method will not let wait again. */
    method OnError(status: int, request: Request) returns (waits: Option<Request>)
      modifies this
      ensures waits.Some? <==> status == 401 && !request.retried && !request.authEndpoint
      ensures waits.Some? ==> waits.value == request.(retried := true) && Value() == Refresh(old(Value()), jar.cookie)
      ensures waits.None? ==> Value() == old(Value())
    {
      if status != 401 || request.retried || request.authEndpoint {
        return None;
      }
      RefreshSession();
      return Some(request.(retried := true));
    }

    /** And after it: the request is sent again exactly when the refresh brought a token, which it
        then carries; otherwise the first error stands. */
    method Resume(request: Request, token: Option<Claims>) returns (again: Option<(Request, Claims)>)
      requires request.retried
      ensures again.Some? <==> token.Some?
      ensures again.Some? ==> again.value.0 == request && again.value.0.retried && Some(again.value.1) == token
    {
      if token.None? {
        return None;
      }
      return Some((request, token.value));
    }
  }
}
