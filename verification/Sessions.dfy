/**
  Rotating refresh sessions (internal/handler/auth.go and internal/auth/repository.go). `Refresh`
  reads the session, revokes it under a guard and then creates its successor, as separate statements;
  requests for the same session interleave at every one of them. Parsing a token is an oracle: a
  request may carry any session id and subject.
 */
module Sessions {
  import opened Common

  datatype Session = Session(user: Id, expiresAt: Time, revokedAt: Option<Time>)

  type Table = map<Id, Session>

  // ---------------------------------------------------------------------------------------------
  // Statements
  // ---------------------------------------------------------------------------------------------

  /** `update ... set revoked_at = now() where id = $1 and revoked_at is null`: does it find a row? */
  predicate Revocable(table: Table, id: Id) {
    id in table && table[id].revokedAt == None
  }

  function Revoked(table: Table, id: Id, now: Time): Table {
    if Revocable(table, id) then table[id := table[id].(revokedAt := Some(now))] else table
  }

  function Created(table: Table, uuid: Id, user: Id, expiresAt: Time): Table {
    table[uuid := Session(user, expiresAt, None)]
  }

  /** The check that `Refresh` makes on the session it has read. */
  predicate Refreshable(table: Table, id: Id, subject: Id, now: Time) {
    id in table && table[id].user == subject && table[id].revokedAt == None && now <= table[id].expiresAt
  }

  // ---------------------------------------------------------------------------------------------
  // Requests under way
  // ---------------------------------------------------------------------------------------------

  datatype Request =
    | Refreshing(session: Id, subject: Id)    // the token has been parsed
    | Validated(session: Id, user: Id)        // the session was read and is good
    | Rotating(session: Id, user: Id)         // this request has revoked the session
    | Granting(user: Id)                      // a login or registration
    | Signing(session: Id)                    // the new session exists; its token is being signed
    | Discarding(session: Id)                 // signing failed
    | LoggingOut(session: Id)

  /** Who may continue a chain of sessions. */
  datatype Holder = HeldBySession(session: Id) | HeldByRequest(request: Id)

  /**
    `parent`, `root`, `successor` and `holder` are history: which session a session replaced, the
    session of the login or registration that its chain started with, the latest session that
    replaced a session, who got the right to continue a chain last, and the uuids generated so far.
   */
  datatype State = State(
    table: Table,
    requests: map<Id, Request>,
    parent: map<Id, Option<Id>>,
    root: map<Id, Id>,
    successor: map<Id, Id>,
    holder: map<Id, Holder>,
    issued: set<Id>)

  datatype Action =
    | StartRefresh(r: Id, session: Id, subject: Id)
    | StartLogin(r: Id, user: Id)
    | StartLogout(r: Id, session: Id)
    | ReadSession(r: Id, now: Time)
    | RevokeSession(r: Id, now: Time)
    | CreateSession(r: Id, uuid: Id, expiresAt: Time)
    | SignToken(r: Id, ok: bool)
    | Abort(r: Id)      // an error, a crash or a cancelled request

  predicate Starts(a: Action) {
    a.StartRefresh? || a.StartLogin? || a.StartLogout?
  }

  predicate Enabled(s: State, a: Action) {
    if Starts(a) then a.r !in s.requests
    else
      && a.r in s.requests
      && match a
         case ReadSession(r, _) => s.requests[r].Refreshing?
         case RevokeSession(r, _) => s.requests[r].Validated? || s.requests[r].LoggingOut? || s.requests[r].Discarding?
         case CreateSession(r, uuid, _) => (s.requests[r].Rotating? || s.requests[r].Granting?) && uuid !in s.issued
         case SignToken(r, _) => s.requests[r].Signing?
         case _ => true
  }

  function With(s: State, r: Id, request: Request): State {
    s.(requests := s.requests[r := request])
  }

  function Without(s: State, r: Id): State {
    s.(requests := s.requests - {r})
  }

  function RootOf(s: State, id: Id): Id {
    if id in s.root then s.root[id] else id
  }

  function Do(s: State, a: Action): State
    requires Enabled(s, a)
  {
    match a
    case StartRefresh(r, session, subject) => With(s, r, Refreshing(session, subject))
    case StartLogin(r, user) => With(s, r, Granting(user))
    case StartLogout(r, session) => With(s, r, LoggingOut(session))
    case ReadSession(r, now) =>
      var q := s.requests[r];
      if Refreshable(s.table, q.session, q.subject, now) then With(s, r, Validated(q.session, q.subject))
      else Without(s, r)
    case RevokeSession(r, now) =>
      var q := s.requests[r];
      if !Revocable(s.table, q.session) then Without(s, r)
      else
        var s' := s.(
          table := Revoked(s.table, q.session, now),
          holder := s.holder[RootOf(s, q.session) := HeldByRequest(r)]);
        if q.Validated? then With(s', r, Rotating(q.session, q.user)) else Without(s', r)
    case CreateSession(r, uuid, expiresAt) =>
      var q := s.requests[r];
      var root := if q.Rotating? then RootOf(s, q.session) else uuid;
      State(
        Created(s.table, uuid, q.user, expiresAt),
        s.requests[r := Signing(uuid)],
        s.parent[uuid := if q.Rotating? then Some(q.session) else None],
        s.root[uuid := root],
        if q.Rotating? then s.successor[q.session := uuid] else s.successor,
        s.holder[root := HeldBySession(uuid)],
        s.issued + {uuid})
    case SignToken(r, ok) => if ok then Without(s, r) else With(s, r, Discarding(s.requests[r].session))
    case Abort(r) => Without(s, r)
  }

  const INIT: State := State(map[], map[], map[], map[], map[], map[], {})

  ghost predicate Executable(s: State, actions: seq<Action>)
    decreases actions
  {
    actions == [] || (Enabled(s, actions[0]) && Executable(Do(s, actions[0]), actions[1..]))
  }

  ghost function Final(s: State, actions: seq<Action>): State
    requires Executable(s, actions)
    decreases actions
  {
    if actions == [] then s else Final(Do(s, actions[0]), actions[1..])
  }

  // ---------------------------------------------------------------------------------------------
  // The invariant
  // ---------------------------------------------------------------------------------------------

  /** An unrevoked session holds the right to continue its chain. */
  ghost predicate SessionHolds(s: State, a: Id) {
    Revocable(s.table, a) ==> RootOf(s, a) in s.holder && s.holder[RootOf(s, a)] == HeldBySession(a)
  }

  /** So does a request that has revoked a session and not yet created the next. What it read stays true. */
  ghost predicate RequestRight(s: State, r: Id) {
    r in s.requests ==>
      var q := s.requests[r];
      && (q.Validated? || q.Rotating? ==> q.session in s.table && s.table[q.session].user == q.user)
      && (q.Rotating? ==>
            && RootOf(s, q.session) in s.holder && s.holder[RootOf(s, q.session)] == HeldByRequest(r)
            && s.table[q.session].revokedAt.Some?
            && q.session !in s.successor)
  }

  /** A session is the only one to replace its parent, which was revoked and of the same user and chain. */
  ghost predicate ReplacesParent(s: State, a: Id) {
    a in s.parent && s.parent[a].Some? ==>
      var p := s.parent[a].value;
      && p in s.successor && s.successor[p] == a
      && a in s.table && p in s.table && s.table[p].revokedAt.Some?
      && s.table[a].user == s.table[p].user && RootOf(s, a) == RootOf(s, p)
  }

  ghost predicate Known(s: State) {
    && s.parent.Keys == s.table.Keys && s.root.Keys == s.table.Keys
    && s.table.Keys <= s.issued
    && (forall a :: a in s.root ==> s.root[a] in s.issued)
    && (forall p :: p in s.successor ==> p in s.table && s.table[p].revokedAt.Some?)
  }

  ghost predicate Inv(s: State) {
    && Known(s)
    && (forall a :: SessionHolds(s, a))
    && (forall r :: RequestRight(s, r))
    && (forall a :: ReplacesParent(s, a))
  }

  lemma SessionHoldsKept(s: State, a: Action, id: Id)
    requires Known(s) && Enabled(s, a) && SessionHolds(s, id)
    requires a.r in s.requests ==> RequestRight(s, a.r)
    requires a.r in s.requests && s.requests[a.r].Validated? ==> SessionHolds(s, s.requests[a.r].session)
    requires a.RevokeSession? ==> SessionHolds(s, s.requests[a.r].session)
    ensures SessionHolds(Do(s, a), id)
  {
  }

  lemma RequestRightKept(s: State, a: Action, r: Id)
    requires Known(s) && Enabled(s, a) && RequestRight(s, r)
    requires a.r in s.requests ==> RequestRight(s, a.r)
    requires a.RevokeSession? ==> SessionHolds(s, s.requests[a.r].session)
    ensures RequestRight(Do(s, a), r)
  {
  }

  lemma ReplacesParentKept(s: State, a: Action, id: Id)
    requires Known(s) && Enabled(s, a) && ReplacesParent(s, id)
    requires a.r in s.requests ==> RequestRight(s, a.r)
    ensures ReplacesParent(Do(s, a), id)
  {
  }

  lemma KnownKeptByCreate(s: State, a: Action)
    requires Known(s) && Enabled(s, a) && a.CreateSession? && RequestRight(s, a.r)
    ensures Known(Do(s, a))
  {
  }

  lemma KnownKeptByRevoke(s: State, a: Action)
    requires Known(s) && Enabled(s, a) && a.RevokeSession?
    ensures Known(Do(s, a))
  {
  }

  lemma KnownKept(s: State, a: Action)
    requires Known(s) && Enabled(s, a)
    requires a.r in s.requests ==> RequestRight(s, a.r)
    ensures Known(Do(s, a))
  {
    if a.CreateSession? {
      KnownKeptByCreate(s, a);
    } else if a.RevokeSession? {
      KnownKeptByRevoke(s, a);
    }
  }

  lemma InvKept(s: State, a: Action)
    requires Inv(s) && Enabled(s, a)
    ensures Inv(Do(s, a))
  {
    assert RequestRight(s, a.r);
    assert a.RevokeSession? ==> SessionHolds(s, s.requests[a.r].session);
    assert a.r in s.requests && s.requests[a.r].Validated? ==> SessionHolds(s, s.requests[a.r].session);
    KnownKept(s, a);
    forall x
      ensures SessionHolds(Do(s, a), x)
      ensures RequestRight(Do(s, a), x)
      ensures ReplacesParent(Do(s, a), x)
    {
      SessionHoldsKept(s, a, x);
      RequestRightKept(s, a, x);
      ReplacesParentKept(s, a, x);
    }
  }

  lemma {:induction false} InvThroughout(s: State, actions: seq<Action>)
    requires Inv(s) && Executable(s, actions)
    ensures Inv(Final(s, actions))
    decreases actions
  {
    if actions != [] {
      InvKept(s, actions[0]);
      InvThroughout(Do(s, actions[0]), actions[1..]);
    }
  }

  // ---------------------------------------------------------------------------------------------
  // Main results
  // ---------------------------------------------------------------------------------------------

  /** However refreshes and logouts interleave, two different unrevoked sessions are never of the same chain. */
  lemma OneLiveSessionPerChain(actions: seq<Action>, a: Id, b: Id)
    requires Executable(INIT, actions)
    requires Revocable(Final(INIT, actions).table, a) && Revocable(Final(INIT, actions).table, b) && a != b
    ensures RootOf(Final(INIT, actions), a) != RootOf(Final(INIT, actions), b)
  {
    InvThroughout(INIT, actions);
    var s := Final(INIT, actions);
    assert SessionHolds(s, a) && SessionHolds(s, b);
  }

  /** No session is ever replaced twice, and its replacement has the same user and chain. */
  lemma OneSuccessorPerSession(actions: seq<Action>, a: Id, b: Id, p: Id)
    requires Executable(INIT, actions)
    requires a in Final(INIT, actions).parent && Final(INIT, actions).parent[a] == Some(p)
    requires b in Final(INIT, actions).parent && Final(INIT, actions).parent[b] == Some(p)
    ensures a == b
    ensures
      var s := Final(INIT, actions);
      && a in s.table && p in s.table && s.table[p].revokedAt.Some?
      && s.table[a].user == s.table[p].user && RootOf(s, a) == RootOf(s, p)
  {
    InvThroughout(INIT, actions);
    var s := Final(INIT, actions);
    assert ReplacesParent(s, a) && ReplacesParent(s, b);
  }

  /** `table'` keeps everything `table` says about a session, except that it may be revoked. */
  ghost predicate KeepsSession(table: Table, table': Table, id: Id) {
    id in table ==>
      && id in table' && table'[id].user == table[id].user && table'[id].expiresAt == table[id].expiresAt
      && (table[id].revokedAt.Some? ==> table'[id] == table[id])
  }

  lemma RevokingKeepsSession(table: Table, revoked: Id, now: Time, id: Id)
    ensures KeepsSession(table, Revoked(table, revoked, now), id)
  {
  }

  lemma StepKeepsSession(s: State, a: Action, id: Id)
    requires Enabled(s, a) && s.table.Keys <= s.issued
    ensures KeepsSession(s.table, Do(s, a).table, id)
    ensures Do(s, a).table.Keys <= Do(s, a).issued
  {
    if a.RevokeSession? {
      RevokingKeepsSession(s.table, s.requests[a.r].session, a.now, id);
      assert Revoked(s.table, s.requests[a.r].session, a.now).Keys == s.table.Keys;
    } else if a.CreateSession? {
      assert a.uuid !in s.table;
    } else {
      assert Do(s, a).table == s.table;
    }
  }

  /** Sessions are never removed, reassigned or prolonged, and a revocation is never undone or redated. */
  lemma {:induction false} RevocationIsFinal(s: State, actions: seq<Action>, id: Id)
    requires s.table.Keys <= s.issued && Executable(s, actions)
    ensures KeepsSession(s.table, Final(s, actions).table, id)
    decreases actions
  {
    if actions != [] {
      StepKeepsSession(s, actions[0], id);
      RevocationIsFinal(Do(s, actions[0]), actions[1..], id);
    }
  }

  /** Nobody can continue the chain any more. */
  ghost predicate ChainDead(s: State, k: Id) {
    && (forall a :: Revocable(s.table, a) ==> RootOf(s, a) != k)
    && (forall r :: r in s.requests && s.requests[r].Rotating? ==> RootOf(s, s.requests[r].session) != k)
  }

  lemma DeadChainStep(s: State, a: Action, k: Id)
    requires Inv(s) && Enabled(s, a) && k in s.issued && ChainDead(s, k)
    ensures ChainDead(Do(s, a), k) && k in Do(s, a).issued
  {
    assert RequestRight(s, a.r);
    var s' := Do(s, a);
    forall b | Revocable(s'.table, b) ensures RootOf(s', b) != k {
      if a.CreateSession? && b == a.uuid {
        assert s.requests[a.r].Rotating? ==> RootOf(s, s.requests[a.r].session) != k;
      } else {
        assert Revocable(s.table, b) && RootOf(s', b) == RootOf(s, b);
      }
    }
    forall r | r in s'.requests && s'.requests[r].Rotating? ensures RootOf(s', s'.requests[r].session) != k {
      assert RequestRight(s, r);
    }
  }

  /** A dead chain stays dead: no refresh token of it ever works again. */
  lemma {:induction false} DeadChainStaysDead(s: State, actions: seq<Action>, k: Id)
    requires Inv(s) && Executable(s, actions) && k in s.issued && ChainDead(s, k)
    ensures ChainDead(Final(s, actions), k)
    decreases actions
  {
    if actions != [] {
      InvKept(s, actions[0]);
      DeadChainStep(s, actions[0], k);
      DeadChainStaysDead(Do(s, actions[0]), actions[1..], k);
    }
  }

  /**
    A logout always answers with success, but it ends the chain exactly when the session it names is
    still unrevoked (or the chain was dead already): with an outdated token, or beaten by a refresh
    of the same session, it leaves the chain alive.
   */
  lemma LogoutEndsChain(s: State, r: Id, now: Time)
    requires Inv(s) && r in s.requests && s.requests[r].LoggingOut? && s.requests[r].session in s.table
    ensures
      var id := s.requests[r].session;
      ChainDead(Do(s, RevokeSession(r, now)), RootOf(s, id)) <==> Revocable(s.table, id) || ChainDead(s, RootOf(s, id))
  {
    var id, s' := s.requests[r].session, Do(s, RevokeSession(r, now));
    var k := RootOf(s, id);
    if Revocable(s.table, id) {
      assert SessionHolds(s, id);
      forall a | Revocable(s'.table, a) ensures RootOf(s', a) != k {
        assert SessionHolds(s, a);
      }
      forall q | q in s'.requests && s'.requests[q].Rotating? ensures RootOf(s', s'.requests[q].session) != k {
        assert RequestRight(s, q);
      }
    } else {
      assert s'.table == s.table;
      forall q ensures q in s.requests && s.requests[q].Rotating? <==> q in s'.requests && s'.requests[q].Rotating? {
      }
    }
  }

  lemma OneMore(s: State, a: Action, rest: seq<Action>)
    requires Enabled(s, a)
    ensures Executable(s, [a] + rest) <==> Executable(Do(s, a), rest)
    ensures Executable(s, [a] + rest) ==> Final(s, [a] + rest) == Final(Do(s, a), rest)
  {
    assert ([a] + rest)[1..] == rest;
  }

  const LOGIN: seq<Action> := [StartLogin(0, 7), CreateSession(0, 1, 100), SignToken(0, true)]

  /** A refresh, up to the point where it has revoked the session, and the rest of it. */
  const REFRESH: seq<Action> := [StartRefresh(1, 1, 7), ReadSession(1, 10), RevokeSession(1, 10)]
  const GRANT: seq<Action> := [CreateSession(1, 2, 110), SignToken(1, true)]

  const LOGOUT: seq<Action> := [StartLogout(2, 1), RevokeSession(2, 20)]

  lemma AfterLogin()
    ensures Executable(INIT, LOGIN)
    ensures
      var s := Final(INIT, LOGIN);
      && s.table == map[1 := Session(7, 100, None)] && s.requests == map[] && s.issued == {1}
      && s.root == map[1 := 1] && s.holder == map[1 := HeldBySession(1)]
  {
    var s1 := Do(INIT, StartLogin(0, 7));
    var s2 := Do(s1, CreateSession(0, 1, 100));
    OneMore(s2, SignToken(0, true), []);
    OneMore(s1, CreateSession(0, 1, 100), [SignToken(0, true)]);
    OneMore(INIT, StartLogin(0, 7), [CreateSession(0, 1, 100), SignToken(0, true)]);
  }

  lemma AfterRefresh(s: State)
    requires s.table == map[1 := Session(7, 100, None)] && s.requests == map[] && s.issued == {1}
    requires s.root == map[1 := 1] && s.holder == map[1 := HeldBySession(1)]
    ensures Executable(s, REFRESH)
    ensures
      var s' := Final(s, REFRESH);
      && s'.table == map[1 := Session(7, 100, Some(10))] && s'.requests == map[1 := Rotating(1, 7)]
      && s'.root == map[1 := 1] && s'.issued == {1}
  {
    var s1 := Do(s, StartRefresh(1, 1, 7));
    var s2 := Do(s1, ReadSession(1, 10));
    OneMore(s2, RevokeSession(1, 10), []);
    OneMore(s1, ReadSession(1, 10), [RevokeSession(1, 10)]);
    OneMore(s, StartRefresh(1, 1, 7), [ReadSession(1, 10), RevokeSession(1, 10)]);
  }

  lemma AfterGrant(s: State)
    requires s.table == map[1 := Session(7, 100, Some(10))] && s.requests == map[1 := Rotating(1, 7)]
    requires s.root == map[1 := 1] && s.issued == {1}
    ensures Executable(s, GRANT)
    ensures
      var s' := Final(s, GRANT);
      && s'.table == map[1 := Session(7, 100, Some(10)), 2 := Session(7, 110, None)] && s'.requests == map[]
      && s'.root == map[1 := 1, 2 := 1]
  {
    var s1 := Do(s, CreateSession(1, 2, 110));
    OneMore(s1, SignToken(1, true), []);
    OneMore(s, CreateSession(1, 2, 110), [SignToken(1, true)]);
  }

  lemma AfterLogout(s: State)
    requires s.table == map[1 := Session(7, 100, Some(10)), 2 := Session(7, 110, None)] && s.requests == map[]
    requires s.root == map[1 := 1, 2 := 1]
    ensures Executable(s, LOGOUT)
    ensures Final(s, LOGOUT).table == s.table && Final(s, LOGOUT).root == s.root
  {
    var s1 := Do(s, StartLogout(2, 1));
    OneMore(s1, RevokeSession(2, 20), []);
    OneMore(s, StartLogout(2, 1), [RevokeSession(2, 20)]);
  }

  lemma {:induction false} RunsCompose(s: State, first: seq<Action>, mid: State, second: seq<Action>)
    requires Executable(s, first) && Final(s, first) == mid && Executable(mid, second)
    ensures Executable(s, first + second) && Final(s, first + second) == Final(mid, second)
    decreases first
  {
    if first == [] {
      assert first + second == second;
    } else {
      var a, rest := first[0], first[1..];
      RunsCompose(Do(s, a), rest, mid, second);
      OneMore(s, a, rest + second);
      assert first == [a] + rest;
      AppendAssociates([a], rest, second);
    }
  }

  /**
    It happens: after a login and a refresh, a logout with the token of the login is answered with success,
    and the session that replaced it is still good.
   */
  lemma LogoutTooLate()
    ensures Executable(INIT, LOGIN + (REFRESH + (GRANT + LOGOUT)))
    ensures
      var s := Final(INIT, LOGIN + (REFRESH + (GRANT + LOGOUT)));
      && !ChainDead(s, RootOf(s, 1))
      && Refreshable(s.table, 2, 7, 30)
  {
    AfterLogin();
    var s1 := Final(INIT, LOGIN);
    AfterRefresh(s1);
    var s2 := Final(s1, REFRESH);
    AfterGrant(s2);
    var s3 := Final(s2, GRANT);
    AfterLogout(s3);
    RunsCompose(s2, GRANT, s3, LOGOUT);
    RunsCompose(s1, REFRESH, s2, GRANT + LOGOUT);
    RunsCompose(INIT, LOGIN, s1, REFRESH + (GRANT + LOGOUT));
    var s := Final(s3, LOGOUT);
    assert Revocable(s.table, 2) && RootOf(s, 2) == RootOf(s, 1);
  }

  // ---------------------------------------------------------------------------------------------
  // The handlers, undisturbed
  // ---------------------------------------------------------------------------------------------

  datatype AuthError = InvalidToken | InternalError

  class Repository {
    var table: Table

    constructor ()
      ensures table == map[]
    {
      table := map[];
    }

    /** Adds a session that its user, and nobody else, can refresh until it expires; all others stay as they are. */
    method CreateSession(uuid: Id, user: Id, expiresAt: Time)
      requires uuid !in table
      modifies this
      ensures table == Created(old(table), uuid, user, expiresAt)
      ensures forall subject, now :: Refreshable(table, uuid, subject, now) <==> subject == user && now <= expiresAt
      ensures table - {uuid} == old(table)
    {
      table := table[uuid := Session(user, expiresAt, None)];
    }

    method GetSession(id: Id) returns (session: Option<Session>)
      ensures session == if id in table then Some(table[id]) else None
    {
      if id in table {
        return Some(table[id]);
      }
      return None;
    }

    /** Ends a session if it is live, and says whether it was; nobody can refresh or revoke it afterwards. */
    method RevokeSession(id: Id, now: Time) returns (found: bool)
      modifies this
      ensures found <==> Revocable(old(table), id)
      ensures table == Revoked(old(table), id, now)
      ensures !Revocable(table, id) && forall subject, at :: !Refreshable(table, id, subject, at)
      ensures forall other :: KeepsSession(old(table), table, other)
      ensures table.Keys == old(table).Keys && table - {id} == old(table) - {id}
      ensures found ==> table[id].revokedAt == Some(now)
    {
      found := id in table && table[id].revokedAt == None;
      if found {
        table := table[id := table[id].(revokedAt := Some(now))];
      }
    }
  }

  /** Whether the two tokens of a pair can be signed: the access token comes before the session, the other after. */
  datatype Signatures = BothSigned | AccessFails | RefreshFails

  /** The sessions after `issueTokenPair`. */
  function Issued(table: Table, user: Id, uuid: Id, expiresAt: Time, signs: Signatures, now: Time): Table {
    if signs == AccessFails then table
    else if signs == RefreshFails then Revoked(Created(table, uuid, user, expiresAt), uuid, now)
    else Created(table, uuid, user, expiresAt)
  }

  class AuthHandler {
    const repo: Repository

    constructor (repo: Repository)
      ensures this.repo == repo
    {
      this.repo := repo;
    }

    /**
      Signs an access token, creates a session and signs its refresh token. A session whose refresh token
      cannot be signed is revoked; if the access token cannot be signed, no session is created.
     */
    method IssueTokenPair(user: Id, uuid: Id, expiresAt: Time, signs: Signatures, now: Time)
      returns (r: Result<Id, AuthError>)
      requires uuid !in repo.table
      modifies repo
      ensures r == if signs == BothSigned then Ok(uuid) else Err(InternalError)
      ensures repo.table == Issued(old(repo.table), user, uuid, expiresAt, signs, now)
      ensures r.Ok? <==> Revocable(repo.table, uuid)
      ensures repo.table - {uuid} == old(repo.table)
    {
      if signs == AccessFails {
        return Err(InternalError);
      }
      repo.CreateSession(uuid, user, expiresAt);
      if signs == RefreshFails {
        var _ := repo.RevokeSession(uuid, now);
        return Err(InternalError);
      }
      return Ok(uuid);
    }

    /**
      A refresh succeeds only with a live session of the subject, which is revoked and replaced by exactly one
      new one. A refused token changes nothing; if signing fails the old session is spent all the same.
     */
    method Refresh(
        session: Id, subject: Id, uuid: Id, expiresAt: Time, signs: Signatures, now: Time)
      returns (r: Result<Id, AuthError>)
      requires uuid !in repo.table
      modifies repo
      ensures r == if !Refreshable(old(repo.table), session, subject, now) then Err(InvalidToken)
                   else if signs == BothSigned then Ok(uuid) else Err(InternalError)
      ensures r == Err(InvalidToken) <==>
                !(session in old(repo.table)
                  && old(repo.table)[session].user == subject
                  && old(repo.table)[session].revokedAt == None
                  && now <= old(repo.table)[session].expiresAt)
      ensures r == Err(InvalidToken) ==> repo.table == old(repo.table)
      ensures r != Err(InvalidToken) ==>
                repo.table ==
                Issued(Revoked(old(repo.table), session, now), subject, uuid, expiresAt, signs, now)
      ensures r.Ok? ==> repo.table == Created(Revoked(old(repo.table), session, now), uuid, subject, expiresAt)
      ensures r != Err(InvalidToken) ==>
                && session in repo.table && repo.table[session] == old(repo.table)[session].(revokedAt := Some(now))
                && (Revocable(repo.table, uuid) <==> r.Ok?)
      ensures forall id :: KeepsSession(old(repo.table), repo.table, id)
    {
      var found := repo.GetSession(session);
      if found == None {
        return Err(InvalidToken);
      }
      var row := found.value;
      if row.user != subject || row.revokedAt != None || now > row.expiresAt {
        return Err(InvalidToken);
      }
      var revoked := repo.RevokeSession(session, now);
      if !revoked {
        return Err(InvalidToken);
      }
      r := IssueTokenPair(row.user, uuid, expiresAt, signs, now);
    }

    /** Best effort: success whether or not there was something to revoke. */
    method Logout(session: Id, now: Time)
      modifies repo
      ensures !Revocable(repo.table, session)
      ensures repo.table == Revoked(old(repo.table), session, now)
    {
      var _ := repo.RevokeSession(session, now);
    }
  }

  /** The steps of one refresh, from its start to its answer, as far as it gets. */
  function Undisturbed(
      s: State, r: Id, session: Id, subject: Id, uuid: Id, expiresAt: Time, signs: Signatures, now: Time): State
    requires r !in s.requests && uuid !in s.issued
  {
    var read := Do(Do(s, StartRefresh(r, session, subject)), ReadSession(r, now));
    if r !in read.requests then read
    else
      var revoked := Do(read, RevokeSession(r, now));
      if r !in revoked.requests then revoked else AfterRevoke(revoked, r, uuid, expiresAt, signs, now)
  }

  function AfterRevoke(
      revoked: State, r: Id, uuid: Id, expiresAt: Time, signs: Signatures, now: Time): State
    requires r in revoked.requests && revoked.requests[r].Rotating? && uuid !in revoked.issued
  {
    if signs == AccessFails then Do(revoked, Abort(r))
    else
      var signed := Do(Do(revoked, CreateSession(r, uuid, expiresAt)), SignToken(r, signs == BothSigned));
      if signs == BothSigned then signed else Do(signed, RevokeSession(r, now))
  }

  lemma AfterRevokeIssues(
      revoked: State, r: Id, uuid: Id, expiresAt: Time, signs: Signatures, now: Time)
    requires r in revoked.requests && revoked.requests[r].Rotating? && uuid !in revoked.issued
    ensures AfterRevoke(revoked, r, uuid, expiresAt, signs, now).table ==
            Issued(revoked.table, revoked.requests[r].user, uuid, expiresAt, signs, now)
  {
  }

  /** Taken together, undisturbed, the steps have the effect that `AuthHandler.Refresh` is proved to have. */
  lemma UndisturbedRefresh(
      s: State, r: Id, session: Id, subject: Id, uuid: Id, expiresAt: Time, signs: Signatures, now: Time)
    requires r !in s.requests && uuid !in s.issued
    ensures Undisturbed(s, r, session, subject, uuid, expiresAt, signs, now).table ==
            if Refreshable(s.table, session, subject, now)
            then Issued(Revoked(s.table, session, now), subject, uuid, expiresAt, signs, now)
            else s.table
  {
    var read := Do(Do(s, StartRefresh(r, session, subject)), ReadSession(r, now));
    if r in read.requests {
      var revoked := Do(read, RevokeSession(r, now));
      AfterRevokeIssues(revoked, r, uuid, expiresAt, signs, now);
    }
  }
}
