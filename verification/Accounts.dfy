/** The auth service: accounts, refresh-token rotation and the active-session
    gauge, one transaction at a time. */
module Accounts {
  import opened Options

  type UserId = nat
  type TokenId = nat

  datatype User = User(username: string, email: string, passwordHash: string)
  datatype Token = Token(userId: UserId, expiresAt: int)

  datatype Reply =
    | Done
    | Issued(token: TokenId)
    | EmailAlreadyExists | UsernameAlreadyExists
    | InvalidCredentials
    | InvalidRefreshToken | ExpiredRefreshToken
    | UserNotFound | EmailInUse | UsernameInUse

  predicate EmailTaken(users: map<UserId, User>, email: string) {
    exists u :: u in users && users[u].email == email
  }

  predicate UsernameTaken(users: map<UserId, User>, username: string) {
    exists u :: u in users && users[u].username == username
  }

  /** The committed database, the gauge, and the next ids that uuid4 will draw.
      lower is Python's str.lower; nothing is assumed of it. */
  datatype Auth = Auth(
    lower: string -> string,
    users: map<UserId, User>,
    tokens: map<TokenId, Token>,
    gauge: int,
    nextUser: UserId,
    nextToken: TokenId)
  {
    function Issue(userId: UserId, expiresAt: int): Auth {
      this.(tokens := tokens[nextToken := Token(userId, expiresAt)], nextToken := nextToken + 1)
    }

    function Register(email: string, username: string, hash: string): (Auth, Reply) {
      if EmailTaken(users, lower(email)) then (this, EmailAlreadyExists)
      else if UsernameTaken(users, lower(username)) then (this, UsernameAlreadyExists)
      else (this.(users := users[nextUser := User(lower(username), lower(email), hash)], nextUser := nextUser + 1), Done)
    }

    /** verified is bcrypt's verdict on the password and the stored hash. */
    ghost function Login(email: string, verified: bool, expiresAt: int): (Auth, Reply) {
      if !EmailTaken(users, lower(email)) || !verified then (this, InvalidCredentials)
      else
        var userId :| userId in users && users[userId].email == lower(email);
        (Issue(userId, expiresAt).(gauge := gauge + 1), Issued(nextToken))
    }

    function Refresh(token: TokenId, now: int, expiresAt: int): (Auth, Reply) {
      if token !in tokens then (this, InvalidRefreshToken)
      else if tokens[token].expiresAt < now then (this, ExpiredRefreshToken)
      else (this.(tokens := tokens - {token}).Issue(tokens[token].userId, expiresAt), Issued(nextToken))
    }

    function Logout(token: TokenId): (Auth, Reply) {
      if token !in tokens then (this, Done)
      else (this.(tokens := tokens - {token}, gauge := gauge - 1), Done)
    }

    function TokensOf(userId: UserId): set<TokenId> {
      set t | t in tokens && tokens[t].userId == userId
    }

    function LogoutAll(userId: UserId): (Auth, Reply) {
      (this.(tokens := tokens - TokensOf(userId), gauge := gauge - |TokensOf(userId)|), Done)
    }

    /** Any error rolls back everything the transaction did before it. */
    function UpdateMe(userId: UserId, email: Option<string>, username: Option<string>, hash: Option<string>): (Auth, Reply) {
      if userId !in users then (this, UserNotFound)
      else
        var user := users[userId];
        var email' := if email.Some? then lower(email.value) else user.email;
        var username' := if username.Some? then lower(username.value) else user.username;
        if email' != user.email && EmailTaken(users, email') then (this, EmailInUse)
        else if username' != user.username && UsernameTaken(users, username') then (this, UsernameInUse)
        else
          var hash' := if hash.Some? then hash.value else user.passwordHash;
          (this.(users := users[userId := User(username', email', hash')]), Done)
    }
  }

  // ---- the service object ----

  class AuthService {
    const lower: string -> string
    var users: map<UserId, User>
    var tokens: map<TokenId, Token>
    var gauge: int
    var nextUser: UserId
    var nextToken: TokenId

    ghost function View(): Auth
      reads this
    {
      Auth(lower, users, tokens, gauge, nextUser, nextToken)
    }

    constructor (lower: string -> string)
      ensures View() == Auth(lower, map[], map[], 0, 0, 0)
    {
      this.lower := lower;
      users, tokens, gauge, nextUser, nextToken := map[], map[], 0, 0, 0;
    }

    method Register(email: string, username: string, hash: string) returns (reply: Reply)
      modifies this
      ensures (View(), reply) == old(View()).Register(email, username, hash)
    {
      if EmailTaken(users, lower(email)) {
        return EmailAlreadyExists;
      }
      if UsernameTaken(users, lower(username)) {
        return UsernameAlreadyExists;
      }
      users := users[nextUser := User(lower(username), lower(email), hash)];
      nextUser := nextUser + 1;
      return Done;
    }

    method Login(email: string, verified: bool, expiresAt: int) returns (reply: Reply)
      requires Unique(users)
      modifies this
      ensures (View(), reply) == old(View()).Login(email, verified, expiresAt)
      ensures reply.Issued? <==> verified && exists u :: u in users && users[u].email == lower(email)
      ensures reply.Issued? ==>
                && users == old(users) && gauge == old(gauge) + 1
                && reply.token == old(nextToken) && nextToken == old(nextToken) + 1
                && forall u :: u in users && users[u].email == lower(email) ==>
                     tokens == old(tokens)[reply.token := Token(u, expiresAt)]
    {
      if !EmailTaken(users, lower(email)) || !verified {
        return InvalidCredentials;
      }
      var userId :| userId in users && users[userId].email == lower(email);
      tokens := tokens[nextToken := Token(userId, expiresAt)];
      nextToken := nextToken + 1;
      gauge := gauge + 1;
      return Issued(nextToken - 1);
    }

    method Refresh(token: TokenId, now: int, expiresAt: int) returns (reply: Reply)
      modifies this
      ensures (View(), reply) == old(View()).Refresh(token, now, expiresAt)
    {
      if token !in tokens {
        return InvalidRefreshToken;
      }
      var row := tokens[token];
      if row.expiresAt < now {
        return ExpiredRefreshToken;
      }
      tokens := tokens - {token};
      tokens := tokens[nextToken := Token(row.userId, expiresAt)];
      nextToken := nextToken + 1;
      return Issued(nextToken - 1);
    }

    method Logout(token: TokenId)
      modifies this
      ensures View() == old(View()).Logout(token).0
    {
      if token in tokens {
        tokens := tokens - {token};
        gauge := gauge - 1;
      }
    }

    method LogoutAll(userId: UserId)
      modifies this
      ensures View() == old(View()).LogoutAll(userId).0
    {
      var revoked := set t | t in tokens && tokens[t].userId == userId;
      tokens := tokens - revoked;
      gauge := gauge - |revoked|;
    }

    /** The row is changed field by field in the session, which later queries of
        the same transaction see; only the commit at the end makes it the table. */
    method UpdateMe(userId: UserId, email: Option<string>, username: Option<string>, hash: Option<string>) returns (reply: Reply)
      modifies this
      ensures (View(), reply) == old(View()).UpdateMe(userId, email, username, hash)
    {
      var session := users;
      if userId !in session {
        return UserNotFound;
      }
      if email.Some? {
        var normalized := lower(email.value);
        if normalized != session[userId].email {
          if EmailTaken(session, normalized) {
            return EmailInUse;
          }
          session := session[userId := session[userId].(email := normalized)];
        }
      }
      if username.Some? {
        var normalized := lower(username.value);
        if normalized != session[userId].username {
          SessionUsernames(users, session, normalized);
          if UsernameTaken(session, normalized) {
            return UsernameInUse;
          }
          session := session[userId := session[userId].(username := normalized)];
        }
      }
      if hash.Some? {
        session := session[userId := session[userId].(passwordHash := hash.value)];
      }
      users := session;
      assert users == old(View()).UpdateMe(userId, email, username, hash).0.users;
      return Done;
    }
  }

  lemma SessionUsernames(users: map<UserId, User>, session: map<UserId, User>, username: string)
    requires users.Keys == session.Keys
    requires forall u :: u in users ==> users[u].username == session[u].username
    ensures UsernameTaken(session, username) <==> UsernameTaken(users, username)
  {
  }

  // ---- accounts stay unique ----

  ghost predicate Unique(users: map<UserId, User>) {
    forall u, v :: u in users && v in users && u != v ==>
                     users[u].email != users[v].email && users[u].username != users[v].username
  }

  ghost predicate IsLower(lower: string -> string, s: string) {
    exists raw :: s == lower(raw)
  }

  ghost predicate Lowered(lower: string -> string, users: map<UserId, User>) {
    forall u :: u in users ==> IsLower(lower, users[u].email) && IsLower(lower, users[u].username)
  }

  // ---- runs ----

  datatype Event =
    | Register(email: string, username: string, hash: string)
    | Login(loginEmail: string, verified: bool, expiresAt: int)
    | Refresh(token: TokenId, now: int, expiresAt: int)
    | UpdateMe(userId: UserId, newEmail: Option<string>, newUsername: Option<string>, newHash: Option<string>)
    | Logout(token: TokenId)
    | LogoutAll(userId: UserId)

  /** Beside the database: the user of every login so far, which login each token
      descends from, and the tokens that a refresh, a logout or a logout-all has
      used up. */
  datatype World = World(auth: Auth, chain: map<TokenId, nat>, logins: seq<UserId>, consumed: set<TokenId>)

  /** Whose e-mail this is. */
  ghost function Owner(users: map<UserId, User>, email: string): (u: UserId)
    requires EmailTaken(users, email)
    ensures u in users && users[u].email == email
  {
    var u :| u in users && users[u].email == email; u
  }

  ghost function Step(a: Auth, e: Event): (Auth, Reply) {
    match e
    case Register(email, username, hash) => a.Register(email, username, hash)
    case Login(email, verified, expiresAt) => a.Login(email, verified, expiresAt)
    case Refresh(token, now, expiresAt) => a.Refresh(token, now, expiresAt)
    case UpdateMe(userId, email, username, hash) => a.UpdateMe(userId, email, username, hash)
    case Logout(token) => a.Logout(token)
    case LogoutAll(userId) => a.LogoutAll(userId)
  }

  ghost function Next(w: World, e: Event): World {
    var (a, reply) := Step(w.auth, e);
    var consumed := w.consumed + (w.auth.tokens.Keys - a.tokens.Keys);
    if e.Login? && reply.Issued? then
      var user := Owner(w.auth.users, w.auth.lower(e.loginEmail));
      World(a, w.chain[reply.token := |w.logins|], w.logins + [user], consumed)
    else if e.Refresh? && reply.Issued? && e.token in w.chain then World(a, w.chain[reply.token := w.chain[e.token]], w.logins, consumed)
    else World(a, w.chain, w.logins, consumed)
  }

  ghost function Run(w: World, events: seq<Event>): World
    decreases |events|
  {
    if events == [] then w else Next(Run(w, events[..|events| - 1]), events[|events| - 1])
  }

  /** Every event takes the world one step on. */
  lemma {:induction false} RunGoesOn(w: World, before: seq<Event>, e: Event, after: seq<Event>)
    ensures Run(w, [e]) == Next(w, e)
    ensures Run(w, before + after) == Run(Run(w, before), after)
    decreases |after|
  {
    hide Next;
    assert [e][..0] == [];
    if after == [] {
      assert before + after == before;
    } else {
      var n := |after| - 1;
      RunGoesOn(w, before, e, after[..n]);
      assert (before + after)[..|before + after| - 1] == before + after[..n];
    }
  }

  ghost predicate RowsOk(a: Auth) {
    && Unique(a.users) && Lowered(a.lower, a.users)
    && (forall u :: u in a.users ==> u < a.nextUser)
    && (forall t :: t in a.tokens ==> t < a.nextToken)
  }

  ghost predicate ChainsOk(w: World) {
    && (forall t :: t in w.consumed ==> t < w.auth.nextToken && t !in w.auth.tokens)
    && (forall t :: t in w.chain ==> t < w.auth.nextToken)
    && Linked(w.auth.tokens.Keys, w.chain, |w.logins|)
  }

  /** A token acts for the user who logged in. */
  ghost predicate UsersOk(w: World) {
    forall t :: t in w.auth.tokens ==> t in w.chain && w.chain[t] < |w.logins| && w.auth.tokens[t].userId == w.logins[w.chain[t]]
  }

  ghost predicate Inv(w: World) {
    RowsOk(w.auth) && ChainsOk(w) && UsersOk(w)
  }

  lemma UpdateKeepsUnique(a: Auth, userId: UserId, email: Option<string>, username: Option<string>, hash: Option<string>)
    requires Unique(a.users)
    ensures Unique(a.UpdateMe(userId, email, username, hash).0.users)
  {
  }

  lemma UpdateKeepsLowered(a: Auth, userId: UserId, email: Option<string>, username: Option<string>, hash: Option<string>)
    requires Lowered(a.lower, a.users)
    ensures var b := a.UpdateMe(userId, email, username, hash).0; Lowered(b.lower, b.users)
  {
    if email.Some? { LoweredIsLower(a.lower, email.value); }
    if username.Some? { LoweredIsLower(a.lower, username.value); }
    hide IsLower, EmailTaken, UsernameTaken;
  }

  lemma RegisterKeepsUnique(a: Auth, email: string, username: string, hash: string)
    requires Unique(a.users) && Lowered(a.lower, a.users)
    ensures var b := a.Register(email, username, hash).0; Unique(b.users) && Lowered(b.lower, b.users)
  {
    LoweredIsLower(a.lower, email);
    LoweredIsLower(a.lower, username);
    hide IsLower;
  }

  lemma LoweredIsLower(lower: string -> string, raw: string)
    ensures IsLower(lower, lower(raw))
  {
  }

  lemma StepKeepsRows(a: Auth, e: Event)
    requires RowsOk(a)
    ensures RowsOk(Step(a, e).0)
  {
    hide Unique, Lowered;
    match e
    case Register(email, username, hash) => RegisterKeepsUnique(a, email, username, hash);
    case UpdateMe(userId, email, username, hash) =>
      UpdateKeepsUnique(a, userId, email, username, hash);
      UpdateKeepsLowered(a, userId, email, username, hash);
    case _ =>
  }

  /** What an event does to the token table. */
  function Removed(a: Auth, e: Event): set<TokenId> {
    match e
    case Refresh(token, now, _) => if token in a.tokens && a.tokens[token].expiresAt >= now then {token} else {}
    case Logout(token) => if token in a.tokens then {token} else {}
    case LogoutAll(userId) => a.TokensOf(userId)
    case _ => {}
  }

  function Added(a: Auth, e: Event): set<TokenId> {
    match e
    case Login(email, verified, _) => if EmailTaken(a.users, a.lower(email)) && verified then {a.nextToken} else {}
    case Refresh(token, now, _) => if token in a.tokens && a.tokens[token].expiresAt >= now then {a.nextToken} else {}
    case _ => {}
  }

  ghost predicate Moves(a: Auth, b: Auth, removed: set<TokenId>, added: set<TokenId>) {
    && removed <= a.tokens.Keys && added <= {a.nextToken}
    && b.tokens.Keys == a.tokens.Keys - removed + added
    && b.nextToken == a.nextToken + |added|
    && b.gauge - a.gauge == |added| - |removed|
  }

  ghost predicate Moved(a: Auth, e: Event, b: Auth, reply: Reply) {
    && Moves(a, b, Removed(a, e), Added(a, e))
    && (reply.Issued? <==> Added(a, e) != {})
    && (reply.Issued? ==> reply.token == a.nextToken && (e.Login? || e.Refresh?))
    && (e.Refresh? && reply.Issued? ==> e.token in a.tokens && Removed(a, e) == {e.token})
  }

  lemma StepMoves(a: Auth, e: Event)
    ensures Moved(a, e, Step(a, e).0, Step(a, e).1)
  {
    hide Moved, Auth.Register, Auth.UpdateMe, Auth.Login, Auth.Logout, Auth.LogoutAll, Auth.Refresh;
    match e
    case Register(_, _, _) => AccountEventMoves(a, e);
    case UpdateMe(_, _, _, _) => AccountEventMoves(a, e);
    case Login(email, verified, expiresAt) => LoginMoves(a, email, verified, expiresAt);
    case Refresh(token, now, expiresAt) => RefreshMoves(a, token, now, expiresAt);
    case Logout(token) => LogoutMoves(a, token);
    case LogoutAll(userId) => LogoutAllMoves(a, userId);
  }

  lemma AccountEventMoves(a: Auth, e: Event)
    requires e.Register? || e.UpdateMe?
    ensures Moved(a, e, Step(a, e).0, Step(a, e).1)
  {
    hide EmailTaken, UsernameTaken, Auth.UpdateMe;
    if e.UpdateMe? {
      UpdateSparesTokens(a, e.userId, e.newEmail, e.newUsername, e.newHash);
    }
  }

  lemma LoginMoves(a: Auth, email: string, verified: bool, expiresAt: int)
    ensures var r := a.Login(email, verified, expiresAt); Moved(a, Login(email, verified, expiresAt), r.0, r.1)
  {
  }

  lemma RefreshMoves(a: Auth, token: TokenId, now: int, expiresAt: int)
    ensures var r := a.Refresh(token, now, expiresAt); Moved(a, Refresh(token, now, expiresAt), r.0, r.1)
  {
  }

  lemma LogoutMoves(a: Auth, token: TokenId)
    ensures var r := a.Logout(token); Moved(a, Logout(token), r.0, r.1)
  {
  }

  lemma LogoutAllMoves(a: Auth, userId: UserId)
    ensures var r := a.LogoutAll(userId); Moved(a, LogoutAll(userId), r.0, r.1)
  {
    hide Auth.TokensOf;
    assert a.TokensOf(userId) <= a.tokens.Keys by { TokensOfUser(a, userId); }
  }

  lemma TokensOfUser(a: Auth, userId: UserId)
    ensures forall t :: t in a.TokensOf(userId) <==> t in a.tokens && a.tokens[t].userId == userId
  {
  }

  lemma UpdateSparesTokens(a: Auth, userId: UserId, email: Option<string>, username: Option<string>, hash: Option<string>)
    ensures var (b, reply) := a.UpdateMe(userId, email, username, hash);
            b.tokens == a.tokens && b.nextToken == a.nextToken && b.gauge == a.gauge && !reply.Issued?
  {
    hide EmailTaken, UsernameTaken;
  }

  lemma MovesKeepGauge(a: Auth, b: Auth, removed: set<TokenId>, added: set<TokenId>)
    requires Moves(a, b, removed, added)
    requires forall t :: t in a.tokens ==> t < a.nextToken
    ensures b.gauge - |b.tokens| == a.gauge - |a.tokens|
  {
    assert |a.tokens| == |a.tokens.Keys| && |b.tokens| == |b.tokens.Keys|;
    assert added !! a.tokens.Keys;
    assert |a.tokens.Keys - removed| == |a.tokens.Keys| - |removed|;
  }

  /** A new token starts a new login, or takes over the login of the one token
      that was removed. */
  ghost predicate Extends(w: World, removed: set<TokenId>, added: set<TokenId>, chain: map<TokenId, nat>, logins: seq<UserId>) {
    if added == {} then chain == w.chain && logins == w.logins
    else if removed == {} then |logins| == |w.logins| + 1 && chain == w.chain[w.auth.nextToken := |w.logins|]
    else logins == w.logins && exists t :: t in w.auth.tokens && removed == {t} && t in w.chain && chain == w.chain[w.auth.nextToken := w.chain[t]]
  }

  lemma MovesKeepConsumed(w: World, b: Auth, removed: set<TokenId>, added: set<TokenId>)
    requires ChainsOk(w) && (forall t :: t in w.auth.tokens ==> t < w.auth.nextToken)
    requires Moves(w.auth, b, removed, added)
    ensures forall t :: t in w.consumed || t in w.auth.tokens.Keys - b.tokens.Keys ==> t < b.nextToken && t !in b.tokens
  {
  }

  /** Live tokens descend from logins, no two of them from the same one. */
  ghost predicate Linked(tokens: set<TokenId>, chain: map<TokenId, nat>, logins: nat) {
    && (forall t :: t in tokens ==> t in chain && chain[t] < logins)
    && (forall t, u :: t in tokens && u in tokens && chain[t] == chain[u] ==> t == u)
  }

  lemma FewerLinks(tokens: set<TokenId>, fewer: set<TokenId>, chain: map<TokenId, nat>, logins: nat)
    requires Linked(tokens, chain, logins) && fewer <= tokens
    ensures Linked(fewer, chain, logins)
  {
  }

  lemma NewLink(tokens: set<TokenId>, chain: map<TokenId, nat>, logins: nat, token: TokenId)
    requires Linked(tokens, chain, logins) && token !in tokens
    ensures Linked(tokens + {token}, chain[token := logins], logins + 1)
  {
  }

  lemma LinkTakenOver(tokens: set<TokenId>, chain: map<TokenId, nat>, logins: nat, old_: TokenId, token: TokenId)
    requires Linked(tokens, chain, logins) && token !in tokens && old_ in tokens
    ensures Linked(tokens - {old_} + {token}, chain[token := chain[old_]], logins)
  {
  }

  lemma MovesKeepLinks(w: World, b: Auth, removed: set<TokenId>, added: set<TokenId>, chain: map<TokenId, nat>, logins: seq<UserId>)
    requires Linked(w.auth.tokens.Keys, w.chain, |w.logins|) && w.auth.nextToken !in w.auth.tokens
    requires Moves(w.auth, b, removed, added) && Extends(w, removed, added, chain, logins)
    ensures Linked(b.tokens.Keys, chain, |logins|)
  {
    hide Linked;
    var tokens, next := w.auth.tokens.Keys, w.auth.nextToken;
    if added == {} {
      FewerLinks(tokens, b.tokens.Keys, chain, |logins|);
    } else {
      assert added == {next};
      if removed == {} {
        NewLink(tokens, w.chain, |w.logins|, next);
        assert b.tokens.Keys == tokens + {next};
      } else {
        var t :| t in tokens && removed == {t} && t in w.chain && chain == w.chain[next := w.chain[t]];
        LinkTakenOver(tokens, w.chain, |w.logins|, t, next);
        assert b.tokens.Keys == tokens - {t} + {next};
      }
    }
  }

  lemma MovesKeepIssued(w: World, b: Auth, removed: set<TokenId>, added: set<TokenId>, chain: map<TokenId, nat>, logins: seq<UserId>)
    requires (forall t :: t in w.chain ==> t < w.auth.nextToken)
    requires Moves(w.auth, b, removed, added) && Extends(w, removed, added, chain, logins)
    ensures forall t :: t in chain ==> t < b.nextToken
  {
  }

  lemma StepExtends(w: World, e: Event)
    requires ChainsOk(w)
    ensures Extends(w, Removed(w.auth, e), Added(w.auth, e), Next(w, e).chain, Next(w, e).logins)
  {
    StepMoves(w.auth, e);
    hide Step, Moves;
    var added := Added(w.auth, e);
    assert added == {} || w.auth.nextToken in added;
  }

  lemma NextKeepsChains(w: World, e: Event)
    requires ChainsOk(w) && (forall t :: t in w.auth.tokens ==> t < w.auth.nextToken)
    ensures ChainsOk(Next(w, e))
    ensures w.consumed <= Next(w, e).consumed
  {
    StepMoves(w.auth, e);
    hide Step, Moves, Added, Removed;
    var w' := Next(w, e);
    assert Extends(w, Removed(w.auth, e), Added(w.auth, e), w'.chain, w'.logins) by { StepExtends(w, e); }
    MovesKeepConsumed(w, w'.auth, Removed(w.auth, e), Added(w.auth, e));
    MovesKeepIssued(w, w'.auth, Removed(w.auth, e), Added(w.auth, e), w'.chain, w'.logins);
    MovesKeepLinks(w, w'.auth, Removed(w.auth, e), Added(w.auth, e), w'.chain, w'.logins);
  }

  lemma OwnerIs(users: map<UserId, User>, u: UserId)
    requires Unique(users) && u in users
    ensures EmailTaken(users, users[u].email) && Owner(users, users[u].email) == u
  {
  }

  /** What a login does, on accounts with different e-mails. */
  lemma LoginIsOwners(a: Auth, email: string, verified: bool, expiresAt: int)
    requires Unique(a.users)
    ensures var (b, reply) := a.Login(email, verified, expiresAt);
            if verified && EmailTaken(a.users, a.lower(email)) then
              && reply == Issued(a.nextToken)
              && b == a.(tokens := a.tokens[a.nextToken := Token(Owner(a.users, a.lower(email)), expiresAt)],
                         nextToken := a.nextToken + 1, gauge := a.gauge + 1)
            else reply == InvalidCredentials && b == a
  {
  }

  lemma LoginKeepsUsers(w: World, email: string, verified: bool, expiresAt: int)
    requires Inv(w)
    ensures UsersOk(Next(w, Login(email, verified, expiresAt)))
  {
    LoginIsOwners(w.auth, email, verified, expiresAt);
    hide Auth.Login, Unique, Lowered;
  }

  lemma RefreshKeepsUsers(w: World, token: TokenId, now: int, expiresAt: int)
    requires Inv(w)
    ensures UsersOk(Next(w, Refresh(token, now, expiresAt)))
  {
    hide Unique, Lowered;
  }

  lemma NextKeepsUsers(w: World, e: Event)
    requires Inv(w)
    ensures UsersOk(Next(w, e))
  {
    hide Auth.Register, Auth.UpdateMe, Auth.Login, Auth.Refresh, Unique, Lowered;
    match e
    case Register(email, username, hash) => RegisterSparesTokens(w.auth, email, username, hash);
    case UpdateMe(userId, email, username, hash) => UpdateSparesTokens(w.auth, userId, email, username, hash);
    case Login(email, verified, expiresAt) => LoginKeepsUsers(w, email, verified, expiresAt);
    case Refresh(token, now, expiresAt) => RefreshKeepsUsers(w, token, now, expiresAt);
    case _ =>
  }

  lemma RegisterSparesTokens(a: Auth, email: string, username: string, hash: string)
    ensures var (b, reply) := a.Register(email, username, hash); b.tokens == a.tokens && !reply.Issued?
  {
    hide EmailTaken, UsernameTaken;
  }

  lemma NextKeeps(w: World, e: Event)
    requires Inv(w)
    ensures Inv(Next(w, e))
    ensures w.consumed <= Next(w, e).consumed
    ensures Next(w, e).auth.gauge - |Next(w, e).auth.tokens| == w.auth.gauge - |w.auth.tokens|
  {
    StepKeepsRows(w.auth, e);
    StepMoves(w.auth, e);
    MovesKeepGauge(w.auth, Step(w.auth, e).0, Removed(w.auth, e), Added(w.auth, e));
    NextKeepsChains(w, e);
    NextKeepsUsers(w, e);
  }

  lemma {:induction false} RunKeeps(w: World, events: seq<Event>)
    requires Inv(w)
    ensures Inv(Run(w, events))
    ensures w.consumed <= Run(w, events).consumed
    ensures Run(w, events).auth.gauge - |Run(w, events).auth.tokens| == w.auth.gauge - |w.auth.tokens|
    decreases |events|
  {
    hide Inv, Next;
    if events != [] {
      RunKeeps(w, events[..|events| - 1]);
      NextKeeps(Run(w, events[..|events| - 1]), events[|events| - 1]);
    }
  }

  function Initial(lower: string -> string): World {
    World(Auth(lower, map[], map[], 0, 0, 0), map[], [], {})
  }

  lemma InitialInv(lower: string -> string)
    ensures Inv(Initial(lower))
  {
  }

  /** In every run the stored e-mails and usernames are pairwise distinct, and each
      is what lower makes of something; so if lower changes nothing the second time,
      no two of them differ in case only. */
  lemma AccountsStayUnique(lower: string -> string, events: seq<Event>, u: UserId, v: UserId)
    ensures var users := Run(Initial(lower), events).auth.users;
            && Unique(users) && Lowered(lower, users)
            && ((forall s :: lower(lower(s)) == lower(s)) && u in users && v in users && u != v ==>
                  lower(users[u].email) != lower(users[v].email) && lower(users[u].username) != lower(users[v].username))
  {
    RunKeeps(Initial(lower), events);
    RunKeepsLower(Initial(lower), events);
  }

  lemma NextKeepsLower(w: World, e: Event)
    ensures Next(w, e).auth.lower == w.auth.lower
  {
  }

  lemma {:induction false} RunKeepsLower(w: World, events: seq<Event>)
    ensures Run(w, events).auth.lower == w.auth.lower
    decreases |events|
  {
    hide Next;
    if events != [] {
      NextKeepsLower(Run(w, events[..|events| - 1]), events[|events| - 1]);
      RunKeepsLower(w, events[..|events| - 1]);
    }
  }

  /** Expired rows included, until something removes them. */
  lemma GaugeCountsTokens(lower: string -> string, events: seq<Event>)
    ensures Run(Initial(lower), events).auth.gauge == |Run(Initial(lower), events).auth.tokens|
  {
    hide Run, Inv;
    InitialInv(lower);
    RunKeeps(Initial(lower), events);
  }

  /** Each login has at most one live descendant. */
  lemma OneLiveTokenPerLogin(lower: string -> string, events: seq<Event>, t: TokenId, u: TokenId)
    requires t in Run(Initial(lower), events).auth.tokens && u in Run(Initial(lower), events).auth.tokens
    ensures t in Run(Initial(lower), events).chain && u in Run(Initial(lower), events).chain
    ensures Run(Initial(lower), events).chain[t] == Run(Initial(lower), events).chain[u] ==> t == u
  {
    RunKeeps(Initial(lower), events);
  }

  /** A token that was ever taken out of the table is refused for good, whatever
      happens next, and the refusal changes nothing. */
  lemma ConsumedTokensStayDead(lower: string -> string, before: seq<Event>, after: seq<Event>, token: TokenId, now: int, expiresAt: int)
    requires token in Run(Initial(lower), before).consumed
    ensures var w := Run(Run(Initial(lower), before), after);
            token !in w.auth.tokens && Step(w.auth, Refresh(token, now, expiresAt)) == (w.auth, InvalidRefreshToken)
  {
    InitialInv(lower);
    hide Initial, Run, Next, RowsOk;
    RunKeeps(Initial(lower), before);
    RunKeeps(Run(Initial(lower), before), after);
  }

  // ---- whose tokens they are ----

  /** In every run a live token acts for the user who made the login it descends
      from, however often it was rotated and whatever became of the account. */
  lemma TokensBelongToTheirLogins(lower: string -> string, events: seq<Event>, t: TokenId)
    requires t in Run(Initial(lower), events).auth.tokens
    ensures var w := Run(Initial(lower), events);
            t in w.chain && w.chain[t] < |w.logins| && w.auth.tokens[t].userId == w.logins[w.chain[t]]
  {
    hide Run, RowsOk, ChainsOk;
    InitialInv(lower);
    RunKeeps(Initial(lower), events);
  }

  /** A login in a reached world is granted exactly if the password is right and
      somebody has the lowered e-mail. It then adds one token, never used before, of
      that user, and is logged as a login of that user; a refused one changes nothing. */
  lemma LoginIssues(lower: string -> string, events: seq<Event>, email: string, verified: bool, expiresAt: int, u: UserId)
    ensures var w, e := Run(Initial(lower), events), Login(email, verified, expiresAt);
            var w', reply := Next(w, e), Step(w.auth, e).1;
            && (reply.Issued? <==> verified && exists v :: v in w.auth.users && w.auth.users[v].email == lower(email))
            && (!reply.Issued? ==> reply == InvalidCredentials && w' == w)
            && (reply.Issued? && u in w.auth.users && w.auth.users[u].email == lower(email) ==>
                  && reply.token !in w.auth.tokens && reply.token !in w.consumed && reply.token !in w.chain
                  && w'.auth.tokens == w.auth.tokens[reply.token := Token(u, expiresAt)]
                  && w'.auth.users == w.auth.users && w'.auth.gauge == w.auth.gauge + 1
                  && w'.logins == w.logins + [u] && w'.chain == w.chain[reply.token := |w.logins|]
                  && w'.consumed == w.consumed)
  {
    var w := Run(Initial(lower), events);
    InitialInv(lower);
    RunKeeps(Initial(lower), events);
    RunKeepsLower(Initial(lower), events);
    LoginIsOwners(w.auth, email, verified, expiresAt);
    hide Run, Auth.Login, Lowered;
    if u in w.auth.users && w.auth.users[u].email == lower(email) {
      OwnerIs(w.auth.users, u);
    }
    assert w.auth.tokens.Keys - w.auth.tokens.Keys == {};
  }

  // ---- what accounts hold ----

  /** Registering in a reached world is refused exactly for an e-mail or a username
      that somebody has; otherwise it adds one new account with what was given,
      which any right-password login with an e-mail of that lower-casing then finds. */
  lemma RegisteredAccountsLogIn(lower: string -> string, events: seq<Event>, email: string, username: string, hash: string, email': string, expiresAt: int)
    ensures var w := Run(Initial(lower), events);
            var (a, reply) := w.auth.Register(email, username, hash);
            && (reply == EmailAlreadyExists <==> exists v :: v in w.auth.users && w.auth.users[v].email == lower(email))
            && (reply == UsernameAlreadyExists <==>
                  && reply != EmailAlreadyExists && exists v :: v in w.auth.users && w.auth.users[v].username == lower(username))
            && (reply.EmailAlreadyExists? || reply.UsernameAlreadyExists? || reply.Done?)
            && (!reply.Done? ==> a == w.auth)
            && a.tokens == w.auth.tokens && a.gauge == w.auth.gauge
            && (reply.Done? ==>
                  exists u :: u !in w.auth.users
                              && a.users == w.auth.users[u := User(lower(username), lower(email), hash)]
                              && (lower(email') == lower(email) ==>
                                    a.Login(email', true, expiresAt).0.tokens == a.tokens[a.nextToken := Token(u, expiresAt)]))
  {
    var w := Run(Initial(lower), events);
    InitialInv(lower);
    RunKeeps(Initial(lower), events);
    RunKeepsLower(Initial(lower), events);
    hide Run, ChainsOk, UsersOk, Auth.Login;
    var (a, reply) := w.auth.Register(email, username, hash);
    if reply.Done? {
      RegisterKeepsUnique(w.auth, email, username, hash);
      var u := w.auth.nextUser;
      assert u !in w.auth.users && a.users == w.auth.users[u := User(lower(username), lower(email), hash)];
      LoginIsOwners(a, email', true, expiresAt);
      OwnerIs(a.users, u);
    }
  }

  /** Changing one's account in a reached world is refused exactly for an unknown
      user, for an e-mail and for a username that somebody else has, in this order;
      otherwise the given fields, and only those, are replaced. */
  lemma UpdateMeReplaces(lower: string -> string, events: seq<Event>, userId: UserId, email: Option<string>, username: Option<string>, hash: Option<string>)
    ensures var w := Run(Initial(lower), events);
            var (a, reply) := w.auth.UpdateMe(userId, email, username, hash);
            var emailTaken := email.Some? && exists v :: v in w.auth.users && v != userId && w.auth.users[v].email == lower(email.value);
            var nameTaken := username.Some? && exists v :: v in w.auth.users && v != userId && w.auth.users[v].username == lower(username.value);
            && reply == (if userId !in w.auth.users then UserNotFound else if emailTaken then EmailInUse else if nameTaken then UsernameInUse else Done)
            && (!reply.Done? ==> a == w.auth)
            && (reply.Done? ==>
                  && a == w.auth.(users := a.users) && a.users.Keys == w.auth.users.Keys
                  && (forall v :: v in a.users && v != userId ==> a.users[v] == w.auth.users[v])
                  && (if email.Some? then a.users[userId].email == lower(email.value) else a.users[userId].email == w.auth.users[userId].email)
                  && (if username.Some? then a.users[userId].username == lower(username.value) else a.users[userId].username == w.auth.users[userId].username)
                  && (if hash.Some? then a.users[userId].passwordHash == hash.value else a.users[userId].passwordHash == w.auth.users[userId].passwordHash))
  {
    InitialInv(lower);
    RunKeeps(Initial(lower), events);
    RunKeepsLower(Initial(lower), events);
    hide Run, ChainsOk, UsersOk, Lowered;
  }

  /** A logout removes one token, a logout-all those of one user; no other token,
      and no account, is touched. */
  lemma LogoutsRevoke(a: Auth, token: TokenId, userId: UserId, t: TokenId)
    ensures var b := a.Logout(token).0;
            && b.users == a.users && b.nextToken == a.nextToken && b.tokens == a.tokens - {token}
    ensures var b := a.LogoutAll(userId).0;
            && b.users == a.users && b.nextToken == a.nextToken
            && (t in b.tokens <==> t in a.tokens && a.tokens[t].userId != userId)
            && (t in b.tokens ==> b.tokens[t] == a.tokens[t])
  {
    TokensOfUser(a, userId);
  }

  /** A refresh in a reached world is granted exactly to a live token that has not
      expired. It uses that token up and puts exactly one in its place, for the same
      user and the same login and with the new expiry; a refused one changes nothing. */
  lemma RefreshRotates(lower: string -> string, events: seq<Event>, token: TokenId, now: int, expiresAt: int)
    ensures var w, e := Run(Initial(lower), events), Refresh(token, now, expiresAt);
            var w', reply := Next(w, e), Step(w.auth, e).1;
            && (reply.Issued? <==> token in w.auth.tokens && now <= w.auth.tokens[token].expiresAt)
            && (!reply.Issued? ==> w' == w && reply == if token in w.auth.tokens then ExpiredRefreshToken else InvalidRefreshToken)
            && (reply.Issued? ==>
                  && reply.token !in w.auth.tokens && reply.token !in w.consumed && reply.token !in w.chain
                  && w'.auth.tokens == (w.auth.tokens - {token})[reply.token := Token(w.auth.tokens[token].userId, expiresAt)]
                  && w'.auth.users == w.auth.users && w'.auth.gauge == w.auth.gauge
                  && w'.consumed == w.consumed + {token}
                  && token in w.chain && w'.chain == w.chain[reply.token := w.chain[token]] && w'.logins == w.logins)
  {
    InitialInv(lower);
    RunKeeps(Initial(lower), events);
    var w := Run(Initial(lower), events);
    hide Run, Unique, Lowered, UsersOk, Linked, Auth.Refresh;
    RotateOne(w.auth, token, now, expiresAt);
    var (a, reply) := w.auth.Refresh(token, now, expiresAt);
    if reply.Issued? {
      assert token in w.chain by { LinkedIn(w.auth.tokens.Keys, w.chain, |w.logins|, token); }
      assert w.auth.tokens.Keys - a.tokens.Keys == {token};
    } else {
      assert w.auth.tokens.Keys - a.tokens.Keys == {};
    }
  }

  lemma LinkedIn(tokens: set<TokenId>, chain: map<TokenId, nat>, logins: nat, token: TokenId)
    requires Linked(tokens, chain, logins) && token in tokens
    ensures token in chain
  {
  }

  lemma RotateOne(a: Auth, token: TokenId, now: int, expiresAt: int)
    ensures var (b, reply) := a.Refresh(token, now, expiresAt);
            if token in a.tokens && now <= a.tokens[token].expiresAt then
              && reply == Issued(a.nextToken)
              && b.tokens == (a.tokens - {token})[a.nextToken := Token(a.tokens[token].userId, expiresAt)]
              && b == a.(tokens := b.tokens, nextToken := a.nextToken + 1)
            else b == a && reply == if token in a.tokens then ExpiredRefreshToken else InvalidRefreshToken
  {
  }
}
