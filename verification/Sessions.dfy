/**
 Refresh-token rotation, access validation and invites. Each service call is one atomic
 step. Raw tokens, session ids and codes are fresh abstract values: a presented token is
 the id of the row its hash finds, if there is one.
 */
module Sessions {
  import opened Options

  type AccountId = nat
  type SessionId = nat
  type TokenId = nat
  type InviteId = nat
  type Time = int

  const REFRESH_LIFETIME: nat := 30 * 24 * 3600

  datatype Account = Account(username: string, password: string, admin: bool, disabled: bool)

  datatype Token = Token(
    account: AccountId,
    session: SessionId,
    csrf: nat,
    expires: Time,
    revoked: bool,
    replacedBy: Option<TokenId>)

  datatype Invite = Invite(maxUses: nat, useCount: nat, expires: Time, disabled: bool)

  datatype Store = Store(
    accounts: map<AccountId, Account>,
    tokens: map<TokenId, Token>,
    invites: map<InviteId, Invite>,
    nextAccount: AccountId,
    nextToken: TokenId,
    nextSession: SessionId,
    nextInvite: InviteId)

  datatype Error = InvalidCredentials | InvalidInvite | UsernameUnavailable | InvalidSession | CsrfMismatch
                 | Forbidden | MissingAccount | MissingInvite

  // ---------------------------------------------------------------- the calls

  function RevokeSession(s: Store, session: SessionId): Store {
    s.(tokens := map t | t in s.tokens ::
         if s.tokens[t].session == session then s.tokens[t].(revoked := true) else s.tokens[t])
  }

  /** A new token row; its CSRF value is as fresh as its id. */
  function AddToken(s: Store, account: AccountId, session: SessionId, now: Time): Store {
    s.(tokens := s.tokens[s.nextToken := Token(account, session, s.nextToken, now + REFRESH_LIFETIME, false, None)],
       nextToken := s.nextToken + 1)
  }

  function IssueSession(s: Store, account: AccountId, now: Time): Store {
    AddToken(s, account, s.nextSession, now).(nextSession := s.nextSession + 1)
  }

  predicate InviteAvailable(s: Store, i: InviteId, now: Time) {
    && i in s.invites
    && !s.invites[i].disabled
    && s.invites[i].useCount < s.invites[i].maxUses
    && s.invites[i].expires > now
  }

  predicate UsernameTaken(s: Store, username: string) {
    exists a | a in s.accounts :: s.accounts[a].username == username
  }

  /** The username and password have already been normalised and checked for length. */
  function Register(s: Store, username: string, password: string, i: InviteId, now: Time): (Store, Option<Error>) {
    if !InviteAvailable(s, i, now) then (s, Some(InvalidInvite))
    else if UsernameTaken(s, username) then (s, Some(UsernameUnavailable))
    else
      var a := s.nextAccount;
      var created := s.(accounts := s.accounts[a := Account(username, password, false, false)], nextAccount := a + 1,
                        invites := s.invites[i := s.invites[i].(useCount := s.invites[i].useCount + 1)]);
      (IssueSession(created, a, now), None)
  }

  function Login(s: Store, a: AccountId, password: string, now: Time): (Store, Option<Error>) {
    if a !in s.accounts || s.accounts[a].password != password || s.accounts[a].disabled
    then (s, Some(InvalidCredentials))
    else (IssueSession(s, a, now), None)
  }

  /** A replayed, expired or ownerless token takes its whole session down. */
  function Rotate(s: Store, t: TokenId, csrf: nat, now: Time): (Store, Option<Error>) {
    if t !in s.tokens then (s, Some(InvalidSession))
    else
      var current := s.tokens[t];
      if current.revoked || current.expires <= now then
        (RevokeSession(s, current.session), Some(InvalidSession))
      else if current.csrf != csrf then (s, Some(CsrfMismatch))
      else if current.account !in s.accounts || s.accounts[current.account].disabled then
        (RevokeSession(s, current.session), Some(InvalidSession))
      else
        var rotated := current.(revoked := true, replacedBy := Some(s.nextToken));
        (AddToken(s.(tokens := s.tokens[t := rotated]), current.account, current.session, now), None)
  }

  function Logout(s: Store, t: TokenId, csrf: nat): (Store, Option<Error>) {
    if t !in s.tokens || s.tokens[t].revoked then (s, Some(InvalidSession))
    else if s.tokens[t].csrf != csrf then (s, Some(CsrfMismatch))
    else (RevokeSession(s, s.tokens[t].session), None)
  }

  predicate IsAdmin(s: Store, actor: AccountId) {
    actor in s.accounts && s.accounts[actor].admin && !s.accounts[actor].disabled
  }

  function SetDisabled(s: Store, actor: AccountId, a: AccountId, disabled: Option<bool>): (Store, Option<Error>) {
    if !IsAdmin(s, actor) then (s, Some(Forbidden))
    else if a !in s.accounts then (s, Some(MissingAccount))
    else if disabled.None? then (s, None)
    else
      var updated := s.(accounts := s.accounts[a := s.accounts[a].(disabled := disabled.value)]);
      (if disabled.value then RevokeAccount(updated, a) else updated, None)
  }

  function RevokeAccount(s: Store, a: AccountId): Store {
    s.(tokens := map t | t in s.tokens ::
         if s.tokens[t].account == a then s.tokens[t].(revoked := true) else s.tokens[t])
  }

  function CreateInvite(s: Store, actor: AccountId, maxUses: nat, expires: Time, now: Time): (Store, Option<Error>) {
    if !IsAdmin(s, actor) then (s, Some(Forbidden))
    else if maxUses < 1 || maxUses > 100 || expires <= now then (s, Some(InvalidInvite))
    else
      (s.(invites := s.invites[s.nextInvite := Invite(maxUses, 0, expires, false)],
          nextInvite := s.nextInvite + 1), None)
  }

  function SetInviteDisabled(s: Store, actor: AccountId, i: InviteId, disabled: bool): (Store, Option<Error>) {
    if !IsAdmin(s, actor) then (s, Some(Forbidden))
    else if i !in s.invites then (s, Some(MissingInvite))
    else (s.(invites := s.invites[i := s.invites[i].(disabled := disabled)]), None)
  }

  /** Deleting an account deletes its token rows. */
  function RemoveAccount(s: Store, a: AccountId): Store {
    s.(accounts := s.accounts - {a},
       tokens := map t | t in s.tokens && s.tokens[t].account != a :: s.tokens[t])
  }

  /** The rows the validation of an access token for account and session finds. */
  function ActiveRows(s: Store, a: AccountId, session: SessionId, now: Time): set<TokenId> {
    set t | t in s.tokens && s.tokens[t].account == a && s.tokens[t].session == session
            && !s.tokens[t].revoked && s.tokens[t].expires > now
  }

  // ---------------------------------------------------------------- runs

  datatype Call =
    | DoRegister(username: string, password: string, invite: InviteId, now: Time)
    | DoLogin(account: AccountId, password: string, now: Time)
    | DoRotate(token: TokenId, csrf: nat, now: Time)
    | DoLogout(token: TokenId, csrf: nat)
    | DoSetDisabled(actor: AccountId, account: AccountId, disabled: Option<bool>)
    | DoCreateInvite(actor: AccountId, maxUses: nat, expires: Time, now: Time)
    | DoSetInviteDisabled(actor: AccountId, invite: InviteId, inviteDisabled: bool)
    | DoRemoveAccount(account: AccountId)

  function Step(s: Store, call: Call): (Store, Option<Error>) {
    match call
    case DoRegister(username, password, i, now) => Register(s, username, password, i, now)
    case DoLogin(a, password, now) => Login(s, a, password, now)
    case DoRotate(t, csrf, now) => Rotate(s, t, csrf, now)
    case DoLogout(t, csrf) => Logout(s, t, csrf)
    case DoSetDisabled(actor, a, disabled) => SetDisabled(s, actor, a, disabled)
    case DoCreateInvite(actor, maxUses, expires, now) => CreateInvite(s, actor, maxUses, expires, now)
    case DoSetInviteDisabled(actor, i, disabled) => SetInviteDisabled(s, actor, i, disabled)
    case DoRemoveAccount(a) => (RemoveAccount(s, a), None)
  }

  function Run(s: Store, calls: seq<Call>): Store
    decreases |calls|
  {
    if calls == [] then s else Run(Step(s, calls[0]).0, calls[1..])
  }

  /** Accounts that were there before anybody logged in. */
  function Init(accounts: map<AccountId, Account>, nextAccount: AccountId): Store {
    Store(accounts, map[], map[], nextAccount, 0, 0, 0)
  }

  predicate InitOk(accounts: map<AccountId, Account>, nextAccount: AccountId) {
    && (forall a | a in accounts :: a < nextAccount)
    && (forall a, b | a in accounts && b in accounts && a != b :: accounts[a].username != accounts[b].username)
  }

  // ---------------------------------------------------------------- one live token per session

  /** Two tokens of one session belong to one account, and one of them is revoked. */
  predicate OneLive(s: Store) {
    forall t, k | t in s.tokens && k in s.tokens && t != k && s.tokens[t].session == s.tokens[k].session ::
      s.tokens[t].account == s.tokens[k].account && (s.tokens[t].revoked || s.tokens[k].revoked)
  }

  predicate StoreOk(s: Store) {
    && (forall t | t in s.tokens :: t < s.nextToken && s.tokens[t].session < s.nextSession && s.tokens[t].csrf == t)
    && (forall a | a in s.accounts :: a < s.nextAccount)
    && (forall i | i in s.invites :: i < s.nextInvite && s.invites[i].useCount <= s.invites[i].maxUses)
    && (forall a, b | a in s.accounts && b in s.accounts && a != b :: s.accounts[a].username != s.accounts[b].username)
    && OneLive(s)
  }

  /** A token may join a session of its account that has no live one. */
  lemma AddTokenKeeps(s: Store, a: AccountId, session: SessionId, now: Time)
    requires StoreOk(s) && session < s.nextSession
    requires forall t | t in s.tokens && s.tokens[t].session == session ::
               s.tokens[t].account == a && s.tokens[t].revoked
    ensures StoreOk(AddToken(s, a, session, now))
  {
  }

  lemma IssueKeeps(s: Store, a: AccountId, now: Time)
    requires StoreOk(s)
    ensures StoreOk(IssueSession(s, a, now))
  {
    AddTokenKeeps(s.(nextSession := s.nextSession + 1), a, s.nextSession, now);
  }

  lemma RegisterKeeps(s: Store, username: string, password: string, i: InviteId, now: Time)
    requires StoreOk(s)
    ensures StoreOk(Register(s, username, password, i, now).0)
  {
    if InviteAvailable(s, i, now) && !UsernameTaken(s, username) {
      var a := s.nextAccount;
      var created := s.(accounts := s.accounts[a := Account(username, password, false, false)], nextAccount := a + 1,
                        invites := s.invites[i := s.invites[i].(useCount := s.invites[i].useCount + 1)]);
      IssueKeeps(created, a, now);
    }
  }

  /** Revoking a token keeps the store in order. */
  lemma RevokedKeeps(s: Store, t: TokenId, successor: TokenId)
    requires StoreOk(s) && t in s.tokens
    ensures StoreOk(s.(tokens := s.tokens[t := s.tokens[t].(revoked := true, replacedBy := Some(successor))]))
  {
  }

  lemma RotateKeeps(s: Store, t: TokenId, csrf: nat, now: Time)
    requires StoreOk(s)
    ensures StoreOk(Rotate(s, t, csrf, now).0)
  {
    if Rotate(s, t, csrf, now).1.None? {
      var rotated := s.tokens[t].(revoked := true, replacedBy := Some(s.nextToken));
      RevokedKeeps(s, t, s.nextToken);
      AddTokenKeeps(s.(tokens := s.tokens[t := rotated]), rotated.account, rotated.session, now);
    }
  }

  lemma SetDisabledKeeps(s: Store, actor: AccountId, a: AccountId, disabled: Option<bool>)
    requires StoreOk(s)
    ensures StoreOk(SetDisabled(s, actor, a, disabled).0)
  {
  }

  lemma LogoutKeeps(s: Store, t: TokenId, csrf: nat)
    requires StoreOk(s)
    ensures StoreOk(Logout(s, t, csrf).0)
  {
  }

  lemma StepKeeps(s: Store, call: Call)
    requires StoreOk(s)
    ensures StoreOk(Step(s, call).0)
  {
    match call {
      case DoRegister(username, password, i, now) => RegisterKeeps(s, username, password, i, now);
      case DoLogin(a, _, now) => IssueKeeps(s, a, now);
      case DoRotate(t, csrf, now) => RotateKeeps(s, t, csrf, now);
      case DoLogout(t, csrf) => LogoutKeeps(s, t, csrf);
      case DoSetDisabled(actor, a, disabled) => SetDisabledKeeps(s, actor, a, disabled);
      case _ =>
    }
  }

  lemma {:induction false} RunKeeps(s: Store, calls: seq<Call>)
    requires StoreOk(s)
    ensures StoreOk(Run(s, calls))
    decreases |calls|
  {
    if calls != [] {
      StepKeeps(s, calls[0]);
      RunKeeps(Step(s, calls[0]).0, calls[1..]);
    }
  }

  /** The one-or-none lookup of access validation never meets two rows. */
  lemma AtMostOneRow(accounts: map<AccountId, Account>, nextAccount: AccountId, calls: seq<Call>,
                     a: AccountId, session: SessionId, now: Time)
    requires InitOk(accounts, nextAccount)
    ensures |ActiveRows(Run(Init(accounts, nextAccount), calls), a, session, now)| <= 1
  {
    RunKeeps(Init(accounts, nextAccount), calls);
    var rows := ActiveRows(Run(Init(accounts, nextAccount), calls), a, session, now);
    if rows != {} {
      var t :| t in rows;
      assert rows == {t};
    }
  }

  // ---------------------------------------------------------------- replay

  /** A session that existed and has no unrevoked token. */
  predicate Dead(s: Store, session: SessionId) {
    session < s.nextSession && forall t | t in s.tokens && s.tokens[t].session == session :: s.tokens[t].revoked
  }

  lemma StepKeepsDead(s: Store, call: Call, session: SessionId)
    requires StoreOk(s) && Dead(s, session)
    ensures Dead(Step(s, call).0, session)
  {
  }

  lemma {:induction false} DeadForever(s: Store, calls: seq<Call>, session: SessionId)
    requires StoreOk(s) && Dead(s, session)
    ensures Dead(Run(s, calls), session)
    decreases |calls|
  {
    if calls != [] {
      StepKeeps(s, calls[0]);
      StepKeepsDead(s, calls[0], session);
      DeadForever(Step(s, calls[0]).0, calls[1..], session);
    }
  }

  /** The token was handed out for this session and has been revoked, or its row is gone. */
  predicate RotatedOut(s: Store, t: TokenId, session: SessionId) {
    && t < s.nextToken && session < s.nextSession
    && if t in s.tokens then s.tokens[t].session == session && s.tokens[t].revoked
       else forall k | k in s.tokens :: s.tokens[k].session != session
  }

  lemma StepKeepsRotatedOut(s: Store, call: Call, t: TokenId, session: SessionId)
    requires StoreOk(s) && RotatedOut(s, t, session)
    ensures RotatedOut(Step(s, call).0, t, session)
  {
  }

  lemma {:induction false} RotatedOutForever(s: Store, calls: seq<Call>, t: TokenId, session: SessionId)
    requires StoreOk(s) && RotatedOut(s, t, session)
    ensures StoreOk(Run(s, calls)) && RotatedOut(Run(s, calls), t, session)
    decreases |calls|
  {
    if calls != [] {
      StepKeeps(s, calls[0]);
      StepKeepsRotatedOut(s, calls[0], t, session);
      RotatedOutForever(Step(s, calls[0]).0, calls[1..], t, session);
    }
  }

  /** A successful rotation leaves the session with exactly the new token, and the old one rotated out. */
  lemma RotationHandsOver(s: Store, t: TokenId, csrf: nat, now: Time)
    requires StoreOk(s) && Rotate(s, t, csrf, now).1.None?
    ensures var after := Rotate(s, t, csrf, now).0;
            var session := s.tokens[t].session;
            && RotatedOut(after, t, session)
            && LivesFrom(after, s.tokens[t].account, session, s.nextToken, now)
            && ActiveRows(after, s.tokens[t].account, session, now) == {s.nextToken}
            && after.tokens[t].replacedBy == Some(s.nextToken)
            && (forall k | k in s.tokens && k != t :: after.tokens[k] == s.tokens[k])
  {
  }

  lemma ReplayRevokes(s: Store, t: TokenId, csrf: nat, now: Time, session: SessionId)
    requires RotatedOut(s, t, session)
    ensures Rotate(s, t, csrf, now).1 == Some(InvalidSession) && Dead(Rotate(s, t, csrf, now).0, session)
  {
  }

  /**
   Replaying a token that a rotation replaced, however much later, leaves its session
   without an unrevoked token for ever.
   */
  lemma ReplayEndsSession(s: Store, t: TokenId, csrf: nat, now: Time,
                          between: seq<Call>, replayCsrf: nat, later: Time, rest: seq<Call>)
    requires StoreOk(s) && Rotate(s, t, csrf, now).1.None?
    ensures var replayed := Rotate(Run(Rotate(s, t, csrf, now).0, between), t, replayCsrf, later);
            && replayed.1 == Some(InvalidSession)
            && Dead(Run(replayed.0, rest), s.tokens[t].session)
  {
    var session := s.tokens[t].session;
    RotationHandsOver(s, t, csrf, now);
    StepKeeps(s, DoRotate(t, csrf, now));
    var middle := Run(Rotate(s, t, csrf, now).0, between);
    RotatedOutForever(Rotate(s, t, csrf, now).0, between, t, session);
    ReplayRevokes(middle, t, replayCsrf, later, session);
    StepKeeps(middle, DoRotate(t, replayCsrf, later));
    DeadForever(Rotate(middle, t, replayCsrf, later).0, rest, session);
  }

  /** A logout ends its session for ever. */
  lemma LogoutEndsSession(s: Store, t: TokenId, csrf: nat, rest: seq<Call>)
    requires StoreOk(s) && Logout(s, t, csrf).1.None?
    ensures Dead(Run(Logout(s, t, csrf).0, rest), s.tokens[t].session)
  {
    LogoutKeeps(s, t, csrf);
    DeadForever(Logout(s, t, csrf).0, rest, s.tokens[t].session);
  }

  /** Disabling an account ends every session it had for ever, even if the account is enabled again. */
  lemma DisablingEndsSessions(s: Store, actor: AccountId, a: AccountId, rest: seq<Call>, session: SessionId)
    requires StoreOk(s) && SetDisabled(s, actor, a, Some(true)).1.None?
    requires exists t :: t in s.tokens && s.tokens[t].account == a && s.tokens[t].session == session
    ensures Dead(Run(SetDisabled(s, actor, a, Some(true)).0, rest), session)
  {
    var t :| t in s.tokens && s.tokens[t].account == a && s.tokens[t].session == session;
    var after := SetDisabled(s, actor, a, Some(true)).0;
    SetDisabledKeeps(s, actor, a, Some(true));
    forall k | k in after.tokens && after.tokens[k].session == session ensures after.tokens[k].revoked {
      assert k == t || s.tokens[k].account == s.tokens[t].account;
    }
    DeadForever(after, rest, session);
  }

  // ---------------------------------------------------------------- invites

  /** The registrations of a run that succeed with this invite. */
  function Registrations(s: Store, calls: seq<Call>, i: InviteId): nat
    decreases |calls|
  {
    if calls == [] then 0
    else
      var (next, error) := Step(s, calls[0]);
      (if calls[0].DoRegister? && calls[0].invite == i && error.None? then 1 else 0)
      + Registrations(next, calls[1..], i)
  }

  lemma StepInvite(s: Store, call: Call, i: InviteId)
    requires StoreOk(s) && i in s.invites
    ensures var (next, error) := Step(s, call);
            && i in next.invites && next.invites[i].maxUses == s.invites[i].maxUses
            && next.invites[i].useCount
               == s.invites[i].useCount + (if call.DoRegister? && call.invite == i && error.None? then 1 else 0)
  {
  }

  /** However many people try, an invite registers at most `maxUses` accounts. */
  lemma {:induction false} InviteIsBudgeted(s: Store, calls: seq<Call>, i: InviteId)
    requires StoreOk(s) && i in s.invites
    ensures s.invites[i].useCount + Registrations(s, calls, i) <= s.invites[i].maxUses
    decreases |calls|
  {
    if calls != [] {
      StepInvite(s, calls[0], i);
      StepKeeps(s, calls[0]);
      InviteIsBudgeted(Step(s, calls[0]).0, calls[1..], i);
    }
  }

  // ---------------------------------------------------------------- what a call leaves behind

  /** From now on the token is the one active row of its session, for the refresh lifetime and no longer. */
  ghost predicate LivesFrom(s: Store, a: AccountId, session: SessionId, t: TokenId, now: Time) {
    forall at | now <= at ::
      ActiveRows(s, a, session, at) == if at < now + REFRESH_LIFETIME then {t} else {}
  }

  /** A new session of the account with one token, and no other token touched. */
  ghost predicate Opens(s: Store, t: Store, a: AccountId, now: Time) {
    && (forall k | k in s.tokens :: k in t.tokens && t.tokens[k] == s.tokens[k])
    && LivesFrom(t, a, s.nextSession, s.nextToken, now)
  }

  lemma IssueOpens(s: Store, a: AccountId, now: Time)
    requires StoreOk(s)
    ensures Opens(s, IssueSession(s, a, now), a, now)
  {
  }

  lemma RegisterOpens(s: Store, username: string, password: string, i: InviteId, now: Time)
    requires StoreOk(s) && Register(s, username, password, i, now).1.None?
    ensures var t := Register(s, username, password, i, now).0;
            Opens(s, t, s.nextAccount, now) && UsernameTaken(t, username)
  {
    var t := Register(s, username, password, i, now).0;
    assert t.accounts[s.nextAccount].username == username;
    IssueOpens(s.(accounts := t.accounts, nextAccount := t.nextAccount, invites := t.invites), s.nextAccount, now);
  }

  /** Tokens of other sessions are as they were. */
  predicate OthersKept(s: Store, t: Store, session: SessionId) {
    forall k | k in s.tokens && s.tokens[k].session != session :: k in t.tokens && t.tokens[k] == s.tokens[k]
  }

  predicate IsLive(s: Store, t: TokenId, now: Time) {
    t in s.tokens && !s.tokens[t].revoked && s.tokens[t].expires > now
  }

  predicate IsEnabled(s: Store, a: AccountId) {
    a in s.accounts && !s.accounts[a].disabled
  }

  /**
   Only a live token of an enabled account, with its CSRF value, is rotated; then the new
   token is the one active row for a whole refresh lifetime. Any other known token loses its
   session, unless only the CSRF value was wrong.
   */
  ghost predicate Rotates(s: Store, after: Store, t: TokenId, csrf: nat, now: Time, error: Option<Error>) {
    if t !in s.tokens then error == Some(InvalidSession) && after == s
    else
      var presented := s.tokens[t];
      && OthersKept(s, after, presented.session)
      && (error.None? <==> IsLive(s, t, now) && presented.csrf == csrf && IsEnabled(s, presented.account))
      && (error.None? ==>
            && RotatedOut(after, t, presented.session) && t in after.tokens
            && after.tokens[t].replacedBy == Some(s.nextToken)
            && LivesFrom(after, presented.account, presented.session, s.nextToken, now))
      && (error == Some(CsrfMismatch) <==> IsLive(s, t, now) && presented.csrf != csrf)
      && (error == Some(CsrfMismatch) ==> after == s)
      && (error.Some? && error != Some(CsrfMismatch) ==> error == Some(InvalidSession) && Dead(after, presented.session))
  }

  lemma RotateRotates(s: Store, t: TokenId, csrf: nat, now: Time)
    requires StoreOk(s)
    ensures var (after, error) := Rotate(s, t, csrf, now); Rotates(s, after, t, csrf, now, error)
  {
    if Rotate(s, t, csrf, now).1.None? {
      RotationHandsOver(s, t, csrf, now);
    }
  }

  // ---------------------------------------------------------------- the service

  class AuthService {
    var accounts: map<AccountId, Account>
    var tokens: map<TokenId, Token>
    var invites: map<InviteId, Invite>
    var nextAccount: AccountId
    var nextToken: TokenId
    var nextSession: SessionId
    var nextInvite: InviteId

    constructor (accounts: map<AccountId, Account>, nextAccount: AccountId)
      ensures Snapshot() == Init(accounts, nextAccount)
    {
      this.accounts, this.nextAccount := accounts, nextAccount;
      tokens, invites := map[], map[];
      nextToken, nextSession, nextInvite := 0, 0, 0;
    }

    function Snapshot(): Store
      reads this
    {
      Store(accounts, tokens, invites, nextAccount, nextToken, nextSession, nextInvite)
    }

    ghost predicate Valid()
      reads this
    {
      StoreOk(Snapshot())
    }

    method RevokeTokens(session: SessionId)
      modifies this`tokens
      ensures Snapshot() == RevokeSession(old(Snapshot()), session)
    {
      tokens := map t | t in tokens ::
        if tokens[t].session == session then tokens[t].(revoked := true) else tokens[t];
    }

    method BuildSession(account: AccountId, session: SessionId, now: Time) returns (refresh: TokenId)
      modifies this`tokens, this`nextToken
      ensures refresh == old(nextToken)
      ensures Snapshot() == AddToken(old(Snapshot()), account, session, now)
    {
      refresh := nextToken;
      nextToken := nextToken + 1;
      tokens := tokens[refresh := Token(account, session, refresh, now + REFRESH_LIFETIME, false, None)];
    }

    method DoRegister(username: string, password: string, i: InviteId, now: Time) returns (error: Option<Error>)
      modifies this
      ensures (Snapshot(), error) == Register(old(Snapshot()), username, password, i, now)
      ensures old(Valid()) ==> Valid()
      ensures error == Some(InvalidInvite) <==> !InviteAvailable(old(Snapshot()), i, now)
      ensures error == Some(UsernameUnavailable)
              <==> InviteAvailable(old(Snapshot()), i, now) && UsernameTaken(old(Snapshot()), username)
      ensures error.Some? ==> Snapshot() == old(Snapshot())
      ensures error.None? && old(Valid()) ==>
                && Opens(old(Snapshot()), Snapshot(), old(nextAccount), now) && UsernameTaken(Snapshot(), username)
                && accounts == old(accounts)[old(nextAccount) := Account(username, password, false, false)]
                && (forall given, at :: Login(Snapshot(), old(nextAccount), given, at).1.None? <==> given == password)
                && invites == old(invites)[i := old(invites[i]).(useCount := old(invites[i].useCount) + 1)]
    {
      if Valid() {
        RegisterKeeps(Snapshot(), username, password, i, now);
        if Register(Snapshot(), username, password, i, now).1.None? {
          RegisterOpens(Snapshot(), username, password, i, now);
        }
      }
      if i !in invites || invites[i].disabled || invites[i].useCount >= invites[i].maxUses || invites[i].expires <= now {
        return Some(InvalidInvite);
      }
      if exists a | a in accounts :: accounts[a].username == username {
        return Some(UsernameUnavailable);
      }
      var a := nextAccount;
      nextAccount := a + 1;
      accounts := accounts[a := Account(username, password, false, false)];
      invites := invites[i := invites[i].(useCount := invites[i].useCount + 1)];
      var session := nextSession;
      nextSession := session + 1;
      var refresh := BuildSession(a, session, now);
      return None;
    }

    method DoLogin(a: AccountId, password: string, now: Time) returns (error: Option<Error>)
      modifies this
      ensures (Snapshot(), error) == Login(old(Snapshot()), a, password, now)
      ensures old(Valid()) ==> Valid()
      ensures error.None? <==> IsEnabled(old(Snapshot()), a) && old(accounts[a].password) == password
      ensures error.Some? ==> Snapshot() == old(Snapshot())
      ensures error.None? && old(Valid()) ==> Opens(old(Snapshot()), Snapshot(), a, now) && accounts == old(accounts)
    {
      if Valid() {
        IssueKeeps(Snapshot(), a, now);
        IssueOpens(Snapshot(), a, now);
      }
      if a !in accounts || accounts[a].password != password || accounts[a].disabled {
        return Some(InvalidCredentials);
      }
      var session := nextSession;
      nextSession := session + 1;
      var refresh := BuildSession(a, session, now);
      return None;
    }

    /** In a store in good order the replacement never takes the place of another row. */
    method RotateRefreshToken(t: TokenId, csrf: nat, now: Time) returns (error: Option<Error>)
      requires Valid()
      modifies this
      ensures (Snapshot(), error) == Rotate(old(Snapshot()), t, csrf, now)
      ensures Valid()
      ensures Rotates(old(Snapshot()), Snapshot(), t, csrf, now, error)
    {
      RotateKeeps(Snapshot(), t, csrf, now);
      RotateRotates(Snapshot(), t, csrf, now);
      if t !in tokens {
        return Some(InvalidSession);
      }
      var current := tokens[t];
      if current.revoked {
        RevokeTokens(current.session);
        return Some(InvalidSession);
      }
      if current.expires <= now {
        RevokeTokens(current.session);
        return Some(InvalidSession);
      }
      if current.csrf != csrf {
        return Some(CsrfMismatch);
      }
      if current.account !in accounts || accounts[current.account].disabled {
        RevokeTokens(current.session);
        return Some(InvalidSession);
      }
      current := current.(revoked := true);
      tokens := tokens[t := current];
      var replacement := BuildSession(current.account, current.session, now);
      current := current.(replacedBy := Some(replacement));
      tokens := tokens[t := current];
      assert tokens == old(tokens)[t := current][replacement := tokens[replacement]];
      return None;
    }

    method DoLogout(t: TokenId, csrf: nat) returns (error: Option<Error>)
      modifies this
      ensures (Snapshot(), error) == Logout(old(Snapshot()), t, csrf)
      ensures old(Valid()) ==> Valid()
      ensures error.None? <==> old(t in tokens && !tokens[t].revoked && tokens[t].csrf == csrf)
      ensures error.Some? ==> Snapshot() == old(Snapshot())
      ensures error.None? ==> OthersKept(old(Snapshot()), Snapshot(), old(tokens[t].session))
      ensures error.None? && old(Valid()) ==> Dead(Snapshot(), old(tokens[t].session))
    {
      if Valid() {
        LogoutKeeps(Snapshot(), t, csrf);
      }
      if t !in tokens || tokens[t].revoked {
        return Some(InvalidSession);
      }
      if tokens[t].csrf != csrf {
        return Some(CsrfMismatch);
      }
      RevokeTokens(tokens[t].session);
      return None;
    }

    method UpdateUser(actor: AccountId, a: AccountId, disabled: Option<bool>) returns (error: Option<Error>)
      modifies this
      ensures (Snapshot(), error) == SetDisabled(old(Snapshot()), actor, a, disabled)
      ensures old(Valid()) ==> Valid()
      ensures error.None? <==> IsAdmin(old(Snapshot()), actor) && a in old(accounts)
      ensures error.Some? ==> Snapshot() == old(Snapshot())
      ensures error.None? && disabled == Some(true) ==>
                !IsEnabled(Snapshot(), a) && forall session, at :: ActiveRows(Snapshot(), a, session, at) == {}
      ensures error.None? && disabled == Some(false) ==> IsEnabled(Snapshot(), a)
      ensures error.None? ==>
                accounts == old(accounts)[a := old(accounts[a]).(disabled := disabled.GetOr(old(accounts[a].disabled)))]
      ensures disabled != Some(true) ==> tokens == old(tokens)
      ensures forall k | k in old(tokens) && old(tokens)[k].account != a :: k in tokens && tokens[k] == old(tokens)[k]
    {
      if Valid() {
        SetDisabledKeeps(Snapshot(), actor, a, disabled);
      }
      if actor !in accounts || !accounts[actor].admin || accounts[actor].disabled {
        return Some(Forbidden);
      }
      if a !in accounts {
        return Some(MissingAccount);
      }
      if disabled.Some? {
        accounts := accounts[a := accounts[a].(disabled := disabled.value)];
        if disabled.value {
          tokens := map t | t in tokens ::
            if tokens[t].account == a then tokens[t].(revoked := true) else tokens[t];
        }
      }
      return None;
    }

    /** The one-or-none lookup; a store in good order never gives it two rows to choose from. */
    method ValidateAccessToken(a: AccountId, session: SessionId, now: Time) returns (row: Option<TokenId>)
      requires Valid()
      ensures row.Some? <==> a in accounts && !accounts[a].disabled && ActiveRows(Snapshot(), a, session, now) != {}
      ensures row.Some? ==> ActiveRows(Snapshot(), a, session, now) == {row.value}
    {
      if a !in accounts || accounts[a].disabled {
        return None;
      }
      var rows := ActiveRows(Snapshot(), a, session, now);
      if rows == {} {
        return None;
      }
      var t :| t in rows;
      assert rows == {t};
      return Some(t);
    }
  }
}
