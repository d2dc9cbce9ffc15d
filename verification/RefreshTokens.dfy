/** Refresh-token families: what one login or refresh request commits (app/modules/users/
    router.py over service.py), first as a function of the state, then as the router runs it. */
module RefreshTokens {
  import opened Prelude

  const GRACE_SECONDS: int := 30

  // A row of refresh_tokens under its unique token_hash.
  datatype Record = Record(userId: nat, family: nat, expiresAt: int, revoked: bool)

  type Tokens = map<nat, Record>

  // The answer to a refresh: an access token, and a refresh token known by its jti.
  datatype Pair = Pair(access: string, refresh: nat)

  // SET jti ... EX 30, readable while the clock is below `until`.
  datatype Grace = Grace(pair: Pair, until: int)

  // History: this jti was exchanged for this pair.
  datatype Rotation = Rotation(spent: nat, pair: Pair)

  datatype State = State(tokens: Tokens, grace: map<nat, Grace>, users: map<string, nat>, rotations: seq<Rotation>)

  // An unexpected error, by where it strikes; `applied` says that the write took effect.
  datatype Fault =
    | NoFault
    | DbFails
    | GraceReadFails
    | CommitFails(applied: bool)
    | AfterCommitFails
    | GraceWriteFails(applied: bool)

  // A decoded refresh request with its instants: the UPDATE, the second clock or Redis read,
  // the grace write; and the identifiers generated for it.
  datatype Request = Request(
    jti: nat, sub: string, now: int, later: int, writtenAt: int,
    newJti: nat, newAccess: string, newExpiry: int, fault: Fault)

  datatype Response =
    | Issued(pair: Pair)
    | InvalidToken       // 401, unknown jti
    | TokenReplayed      // 401, family revoked
    | TokenExpired       // 401
    | UserNotFound       // 401, family revoked
    | NotTheUser         // 403
    | Conflict           // 409
    | ServerError        // 500

  function RevokeToken(tokens: Tokens, jti: nat): Tokens {
    if jti in tokens then tokens[jti := tokens[jti].(revoked := true)] else tokens
  }

  function RevokeFamily(tokens: Tokens, family: nat): Tokens {
    map j | j in tokens :: if tokens[j].family == family then tokens[j].(revoked := true) else tokens[j]
  }

  /** Rows the first UPDATE of a refresh finds. */
  predicate Spendable(tokens: Tokens, jti: nat, now: int) {
    jti in tokens && !tokens[jti].revoked && tokens[jti].expiresAt > now
  }

  predicate InGrace(s: State, jti: nat, at: int) {
    jti in s.grace && at < s.grace[jti].until
  }

  /** The end of a branch that commits and then raises. */
  function Refuse(s: State, tokens: Tokens, r: Request, refusal: Response): (State, Response) {
    if r.fault.CommitFails? then (if r.fault.applied then s.(tokens := tokens) else s, ServerError)
    else (s.(tokens := tokens), refusal)
  }

  function Rotated(s: State, r: Request): State
    requires r.jti in s.tokens
  {
    var old' := s.tokens[r.jti];
    s.(tokens := RevokeToken(s.tokens, r.jti)[r.newJti := Record(old'.userId, old'.family, r.newExpiry, false)],
       rotations := s.rotations + [Rotation(r.jti, Pair(r.newAccess, r.newJti))])
  }

  function WithGrace(s: State, r: Request): State {
    s.(grace := s.grace[r.jti := Grace(Pair(r.newAccess, r.newJti), r.writtenAt + GRACE_SECONDS)])
  }

  function Rotate(s: State, r: Request): (State, Response)
    requires r.jti in s.tokens
  {
    match r.fault
    case CommitFails(applied) => (if applied then Rotated(s, r) else s, ServerError)
    case AfterCommitFails => (Rotated(s, r), ServerError)
    case GraceWriteFails(applied) => (if applied then WithGrace(Rotated(s, r), r) else Rotated(s, r), ServerError)
    case _ => (WithGrace(Rotated(s, r), r), Issued(Pair(r.newAccess, r.newJti)))
  }

  /** One refresh request, as the atomic step its transaction makes it. */
  function Serve(s: State, r: Request): (State, Response) {
    if r.fault.DbFails? then (s, ServerError)
    else if Spendable(s.tokens, r.jti, r.now) then
      if r.sub !in s.users then Refuse(s, RevokeFamily(s.tokens, s.tokens[r.jti].family), r, UserNotFound)
      else if s.users[r.sub] != s.tokens[r.jti].userId then (s, NotTheUser)
      else if r.newJti in s.tokens then (s, Conflict)
      else Rotate(s, r)
    else if r.jti !in s.tokens then (s, InvalidToken)
    else if s.tokens[r.jti].revoked then
      if r.fault.GraceReadFails? then (s, ServerError)
      else if InGrace(s, r.jti, r.later) then (s, Issued(s.grace[r.jti].pair))
      else Refuse(s, RevokeFamily(s.tokens, s.tokens[r.jti].family), r, TokenReplayed)
    else if s.tokens[r.jti].expiresAt < r.later then Refuse(s, RevokeToken(s.tokens, r.jti), r, TokenExpired)
    else (s, ServerError)  // an attribute of the missing record is read
  }

  /** One login of an authenticated user: the first token of a family. */
  function LogIn(s: State, userId: nat, jti: nat, family: nat, expiry: int): State {
    if jti in s.tokens then s else s.(tokens := s.tokens[jti := Record(userId, family, expiry, false)])
  }

  // ---------- the cases of a refresh ----------

  /** The token is valid at `now`: the UPDATE finds it. */
  predicate Valid(s: State, r: Request) {
    r.jti in s.tokens && !s.tokens[r.jti].revoked && r.now < s.tokens[r.jti].expiresAt
  }

  /** A valid token of a user who still exists, exchanged for an identifier nobody has. */
  predicate Rotates(s: State, r: Request) {
    && !r.fault.DbFails? && r.fault != CommitFails(false)
    && Valid(s, r) && r.sub in s.users && s.users[r.sub] == s.tokens[r.jti].userId
    && r.newJti !in s.tokens
  }

  predicate UserGone(s: State, r: Request) {
    Valid(s, r) && r.sub !in s.users
  }

  /** The token was revoked before. */
  predicate SpentBefore(s: State, r: Request) {
    r.jti in s.tokens && s.tokens[r.jti].revoked
  }

  /** A spent token whose exchange is not, or not any more, in the cache. */
  predicate Replayed(s: State, r: Request) {
    && SpentBefore(s, r) && !r.fault.GraceReadFails?
    && !(r.jti in s.grace && r.later < s.grace[r.jti].until)
  }

  /** A token that ran out before the UPDATE, and before the clock was read again. */
  predicate RanOut(s: State, r: Request) {
    && r.jti in s.tokens && !s.tokens[r.jti].revoked
    && s.tokens[r.jti].expiresAt <= r.now && s.tokens[r.jti].expiresAt < r.later
  }

  /** The tokens in `which` have been revoked, and nothing else has changed in the table. */
  ghost predicate OnlyRevoked(tokens: Tokens, tokens': Tokens, which: set<nat>) {
    && tokens'.Keys == tokens.Keys
    && forall j :: j in tokens ==> tokens'[j] == if j in which then tokens[j].(revoked := true) else tokens[j]
  }

  function FamilyOf(tokens: Tokens, jti: nat): set<nat> {
    set j | j in tokens && jti in tokens && tokens[j].family == tokens[jti].family
  }

  /** The presented token is revoked; the new one belongs to the same user and family, runs out
      at `newExpiry` and is not revoked; every other token is as it was. */
  ghost predicate OnlyExchanged(tokens: Tokens, tokens': Tokens, r: Request) {
    && r.jti in tokens && tokens'.Keys == tokens.Keys + {r.newJti}
    && tokens'[r.newJti] == Record(tokens[r.jti].userId, tokens[r.jti].family, r.newExpiry, false)
    && (forall j :: j in tokens && j != r.newJti ==>
          tokens'[j] == if j == r.jti then tokens[j].(revoked := true) else tokens[j])
  }

  /** A rotation: the table, the history, the cache and the answer, error by error. */
  ghost predicate ExchangeServed(s: State, s': State, r: Request, answer: Response) {
    var pair := Pair(r.newAccess, r.newJti);
    && OnlyExchanged(s.tokens, s'.tokens, r) && s'.users == s.users
    && s'.rotations == s.rotations + [Rotation(r.jti, pair)]
    && s'.grace == (if r.fault in {CommitFails(true), AfterCommitFails, GraceWriteFails(false)} then s.grace
                    else s.grace[r.jti := Grace(pair, r.writtenAt + 30)])
    && answer == if r.fault in {NoFault, GraceReadFails} then Issued(pair) else ServerError
  }

  /** Every other request: when each answer is given, and which tokens it revokes. A user who is gone
      and a replay cost the whole family, an expiry the presented token, and no other case any. */
  ghost predicate OtherwiseServed(s: State, s': State, r: Request, answer: Response) {
    var reached := !r.fault.DbFails?;
    var committed := reached && !r.fault.CommitFails?;
    && s' == s.(tokens := s'.tokens)
    && OnlyRevoked(s.tokens, s'.tokens,
                   if !reached || r.fault == CommitFails(false) then {}
                   else if UserGone(s, r) || Replayed(s, r) then FamilyOf(s.tokens, r.jti)
                   else if RanOut(s, r) then {r.jti} else {})
    && (answer.InvalidToken? <==> reached && r.jti !in s.tokens)
    && (answer.UserNotFound? <==> committed && UserGone(s, r))
    && (answer.NotTheUser? <==>
          reached && Valid(s, r) && r.sub in s.users && s.users[r.sub] != s.tokens[r.jti].userId)
    && (answer.Conflict? <==>
          && reached && Valid(s, r) && r.sub in s.users && s.users[r.sub] == s.tokens[r.jti].userId
          && r.newJti in s.tokens)
    && (answer.TokenReplayed? <==> committed && Replayed(s, r))
    && (answer.TokenExpired? <==> committed && RanOut(s, r))
    && (answer.Issued? <==> reached && SpentBefore(s, r) && !r.fault.GraceReadFails? && !Replayed(s, r))
    && (answer.Issued? ==> answer.pair == s.grace[r.jti].pair)
  }

  lemma ServedAsStated(s: State, r: Request)
    ensures var (s', answer) := Serve(s, r);
            if Rotates(s, r) then ExchangeServed(s, s', r, answer) else OtherwiseServed(s, s', r, answer)
  {
  }

  // ---------- the router ----------

  /** Statements run on a session's copy of the table; only a commit publishes it. */
  class AuthService {
    var tokens: Tokens
    var grace: map<nat, Grace>
    var users: map<string, nat>
    var rotations: seq<Rotation>

    function Now(): State
      reads this
    {
      State(tokens, grace, users, rotations)
    }

    constructor (s: State)
      ensures Now() == s
    {
      tokens, grace, users, rotations := s.tokens, s.grace, s.users, s.rotations;
    }

    /** UPDATE ... SET is_revoked RETURNING: at most one row, and only a spendable one. */
    static method ValidateAndRevoke(session: Tokens, jti: nat, now: int)
      returns (session': Tokens, found: Option<Record>)
      ensures found.Some? <==> Spendable(session, jti, now)
      ensures found.Some? ==> session' == session[jti := session[jti].(revoked := true)] && found == Some(session'[jti])
      ensures found.None? ==> session' == session
    {
      if jti in session && session[jti].expiresAt > now && !session[jti].revoked {
        session' := session[jti := session[jti].(revoked := true)];
        return session', Some(session'[jti]);
      }
      return session, None;
    }

    /** INSERT under the unique token_hash; None when it is taken. */
    static method CreateRecord(session: Tokens, userId: nat, jti: nat, expiry: int, family: nat)
      returns (session': Tokens, created: Option<Record>)
      ensures created.None? <==> jti in session
      ensures created.None? ==> session' == session
      ensures created.Some? ==> session' == session[jti := Record(userId, family, expiry, false)]
    {
      if jti in session {
        return session, None;
      }
      var record := Record(userId, family, expiry, false);
      return session[jti := record], Some(record);
    }

    /** A commit raises when the fault says so, and may have taken effect even then. */
    method Commit(session: Tokens, fault: Fault) returns (ok: bool)
      modifies this`tokens
      ensures ok <==> !fault.CommitFails?
      ensures tokens == if ok || fault.applied then session else old(tokens)
    {
      if !fault.CommitFails? || fault.applied {
        tokens := session;
      }
      return !fault.CommitFails?;
    }

    method LoginUser(userId: nat, jti: nat, family: nat, expiry: int, fault: Fault) returns (ok: bool)
      modifies this`tokens
      ensures ok <==> jti !in old(tokens) && !fault.CommitFails?
      ensures Now() == if ok || (fault.CommitFails? && fault.applied)
                       then LogIn(old(Now()), userId, jti, family, expiry) else old(Now())
      ensures tokens == if jti !in old(tokens) && (ok || fault == CommitFails(true))
                        then old(tokens)[jti := Record(userId, family, expiry, false)] else old(tokens)
    {
      var session, created := CreateRecord(tokens, userId, jti, expiry, family);
      if created.None? {
        return false;
      }
      ok := Commit(session, fault);
    }

    method RefreshToken(r: Request) returns (response: Response)
      modifies this
      ensures (Now(), response) == Serve(old(Now()), r)
      ensures if Rotates(old(Now()), r) then ExchangeServed(old(Now()), Now(), r, response)
              else OtherwiseServed(old(Now()), Now(), r, response)
    {
      ServedAsStated(Now(), r);
      if r.fault.DbFails? {
        return ServerError;
      }
      var session, record := ValidateAndRevoke(tokens, r.jti, r.now);
      if record.None? {
        response := RefreshWithoutRecord(r);
        return;
      }
      var family := record.value.family;
      if r.sub !in users {
        FamilyOfSpent(tokens, r.jti, family);
        var ok := Commit(RevokeFamily(session, family), r.fault);
        return if ok then UserNotFound else ServerError;
      }
      if users[r.sub] != record.value.userId {
        return NotTheUser;
      }
      var session', created := CreateRecord(session, users[r.sub], r.newJti, r.newExpiry, family);
      if created.None? {
        return Conflict;
      }
      var ok := Commit(session', r.fault);
      // The history follows the commit.
      if ok || r.fault.applied {
        rotations := rotations + [Rotation(r.jti, Pair(r.newAccess, r.newJti))];
      }
      if !ok || r.fault.AfterCommitFails? {
        return ServerError;
      }
      if !r.fault.GraceWriteFails? || r.fault.applied {
        grace := grace[r.jti := Grace(Pair(r.newAccess, r.newJti), r.writtenAt + GRACE_SECONDS)];
      }
      if r.fault.GraceWriteFails? {
        return ServerError;
      }
      return Issued(Pair(r.newAccess, r.newJti));
    }

    /** The branch in which the UPDATE found no spendable token: it never adds or restores one. An
        answer can only come from the cache, and then nothing changes; a replay takes the whole
        family with it, an expiry the presented token alone. */
    method RefreshWithoutRecord(r: Request) returns (response: Response)
      requires !r.fault.DbFails? && !Spendable(tokens, r.jti, r.now)
      modifies this`tokens
      ensures (Now(), response) == Serve(old(Now()), r)
      ensures tokens.Keys == old(tokens).Keys
      ensures forall j :: j in tokens ==>
                tokens[j] == old(tokens)[j] || tokens[j] == old(tokens)[j].(revoked := true)
      ensures response.Issued? ==> r.jti in grace && response.pair == grace[r.jti].pair && tokens == old(tokens)
      ensures response.TokenReplayed? || response.TokenExpired? ==> r.jti in tokens
      ensures response.TokenReplayed? ==>
                forall j :: j in tokens ==>
                  tokens[j].revoked == (tokens[j].family == tokens[r.jti].family || old(tokens)[j].revoked)
      ensures response.TokenExpired? ==>
                forall j :: j in tokens ==> tokens[j].revoked == (j == r.jti || old(tokens)[j].revoked)
    {
      if r.jti !in tokens {
        return InvalidToken;
      }
      var record := tokens[r.jti];
      if record.revoked {
        if r.fault.GraceReadFails? {
          return ServerError;
        }
        if r.jti !in grace || r.later >= grace[r.jti].until {
          var ok := Commit(RevokeFamily(tokens, record.family), r.fault);
          return if ok then TokenReplayed else ServerError;
        }
        return Issued(grace[r.jti].pair);
      }
      if record.expiresAt < r.later {
        var ok := Commit(RevokeToken(tokens, r.jti), r.fault);
        return if ok then TokenExpired else ServerError;
      }
      return ServerError;
    }
  }

  // Revoking a family revokes the token that was just spent, too.
  lemma FamilyOfSpent(tokens: Tokens, jti: nat, family: nat)
    requires jti in tokens && tokens[jti].family == family
    ensures RevokeFamily(tokens[jti := tokens[jti].(revoked := true)], family) == RevokeFamily(tokens, family)
  {
  }
}
