/** Device pairing: the two tables, the guarded updates on them, and the handlers' decisions. */
module Pairing {
  import opened Common

  datatype Status = Pending | ApprovedUnfetched | Done | Denied | Expired

  datatype Row = Row(userCode: string, status: Status, createdAt: Time, expiresAt: Time, userId: Option<string>,
                     requested: seq<string>, plaintext: Option<string>, tokenId: Option<string>)

  datatype Token = Token(name: string, scopes: seq<string>, owner: string)

  datatype User = User(id: string, admin: bool, defaultScopes: seq<string>)

  /** device_pairings by device code, and listener_tokens by id. */
  datatype Db = Db(rows: map<string, Row>, tokens: map<string, Token>)

  const PAIRING_TTL: Time := 15 * MINUTE

  /** The row a guarded update by user code can touch. */
  predicate Awaits(row: Row, userCode: string) {
    row.userCode == userCode && row.status.Pending?
  }

  predicate AnyAwaits(db: Db, userCode: string) {
    exists code :: code in db.rows && Awaits(db.rows[code], userCode)
  }

  // ----- The statements ------------------------------------------------------------------------

  /** None is a violated UNIQUE constraint or an empty code. */
  function Inserted(db: Db, deviceCode: string, row: Row): Option<Db> {
    if deviceCode == "" || row.userCode == "" || deviceCode in db.rows ||
       exists code :: code in db.rows && db.rows[code].userCode == row.userCode
    then None
    else Some(db.(rows := db.rows[deviceCode := row]))
  }

  function ApprovedRow(row: Row, approver: string, plaintext: string, tokenId: string): Row {
    row.(status := ApprovedUnfetched, userId := Some(approver), plaintext := Some(plaintext), tokenId := Some(tokenId))
  }

  /** The whole approve transaction; None leaves nothing behind. */
  function Approved(db: Db, userCode: string, tokenId: string, token: Token, plaintext: string): Option<Db> {
    if userCode == "" || tokenId == "" || tokenId in db.tokens || !AnyAwaits(db, userCode) then None
    else
      Some(Db(map code | code in db.rows ::
                if Awaits(db.rows[code], userCode) then ApprovedRow(db.rows[code], token.owner, plaintext, tokenId)
                else db.rows[code],
              db.tokens[tokenId := token]))
  }

  function DeniedBy(db: Db, userCode: string, denier: string): Option<Db> {
    if !AnyAwaits(db, userCode) then None
    else
      Some(db.(rows := map code | code in db.rows ::
                 if Awaits(db.rows[code], userCode) then db.rows[code].(status := Denied, userId := Some(denier))
                 else db.rows[code]))
  }

  function Fetched(db: Db, deviceCode: string): Option<Db> {
    if deviceCode !in db.rows || !db.rows[deviceCode].status.ApprovedUnfetched? then None
    else Some(db.(rows := db.rows[deviceCode := db.rows[deviceCode].(status := Done, plaintext := None)]))
  }

  function ExpiredAt(db: Db, now: Time): Db {
    db.(rows := map code | code in db.rows ::
          if db.rows[code].status.Pending? && db.rows[code].expiresAt < now then db.rows[code].(status := Expired)
          else db.rows[code])
  }

  predicate Finished(row: Row) {
    row.status.Done? || row.status.Denied? || row.status.Expired?
  }

  function DeletedBefore(db: Db, before: Time): Db {
    db.(rows := map code | code in db.rows && !(Finished(db.rows[code]) && db.rows[code].createdAt < before) ::
        db.rows[code])
  }

  /** What the statements come to, table by table. An insert wants two codes that are not empty and not in use. */
  lemma {:induction false} InsertMeans(db: Db, deviceCode: string, row: Row)
    ensures var db' := Inserted(db, deviceCode, row);
            && (db' == None <==>
                  || deviceCode == "" || row.userCode == "" || deviceCode in db.rows
                  || exists code :: code in db.rows && db.rows[code].userCode == row.userCode)
            && (db' != None ==> db'.value.rows == db.rows[deviceCode := row] && db'.value.tokens == db.tokens)
  {
  }

  /** An approval wants a pending pairing with the user code and a free token id. It adds the token as given, and each
    * such pairing now holds the plaintext, the token's id and its owner; nothing else changes. */
  lemma {:induction false} ApproveMeans(db: Db, userCode: string, tokenId: string, token: Token, plaintext: string)
    ensures var db' := Approved(db, userCode, tokenId, token, plaintext);
            && (db' != None <==>
                  && userCode != "" && tokenId != "" && tokenId !in db.tokens
                  && exists code :: code in db.rows && db.rows[code].userCode == userCode &&
                                    db.rows[code].status == Pending)
            && (db' != None ==>
                  && db'.value.tokens == db.tokens[tokenId := token] && db'.value.rows.Keys == db.rows.Keys
                  && forall code :: code in db.rows ==>
                       var row, row' := db.rows[code], db'.value.rows[code];
                       if row.userCode == userCode && row.status == Pending then
                         row' == Row(userCode, ApprovedUnfetched, row.createdAt, row.expiresAt, Some(token.owner),
                                     row.requested, Some(plaintext), Some(tokenId))
                       else row' == row)
  {
  }

  /** A denial wants a pending pairing with the user code, and leaves it denied by the denier. */
  lemma {:induction false} DenyMeans(db: Db, userCode: string, denier: string)
    ensures var db' := DeniedBy(db, userCode, denier);
            && (db' != None <==> exists code :: code in db.rows && db.rows[code].userCode == userCode &&
                                              db.rows[code].status == Pending)
            && (db' != None ==>
                  && db'.value.tokens == db.tokens && db'.value.rows.Keys == db.rows.Keys
                  && forall code :: code in db.rows ==>
                       var row, row' := db.rows[code], db'.value.rows[code];
                       if row.userCode == userCode && row.status == Pending then
                         row' == Row(userCode, Denied, row.createdAt, row.expiresAt, Some(denier), row.requested,
                                     row.plaintext, row.tokenId)
                       else row' == row)
  {
  }

  /** A fetch mark wants an approved, unfetched pairing, and leaves it done without the plaintext. */
  lemma {:induction false} FetchMeans(db: Db, deviceCode: string)
    ensures var db' := Fetched(db, deviceCode);
            && (db' == None <==> deviceCode !in db.rows || db.rows[deviceCode].status != ApprovedUnfetched)
            && (db' != None ==>
                  var row := db.rows[deviceCode];
                  && db'.value.tokens == db.tokens
                  && db'.value.rows == db.rows[deviceCode := Row(row.userCode, Done, row.createdAt, row.expiresAt,
                                                                 row.userId, row.requested, None, row.tokenId)])
  {
  }

  /** A sweep: a pending pairing past its expiry becomes expired, a pairing that is done, denied or expired by then goes
    * once it is more than a day old, and nothing else changes. */
  lemma {:induction false} SweepMeans(db: Db, now: Time)
    ensures var db' := DeletedBefore(ExpiredAt(db, now), now - 24 * HOUR);
            && db'.tokens == db.tokens
            && forall code ::
                 var overdue := code in db.rows && db.rows[code].status == Pending && now > db.rows[code].expiresAt;
                 var closed := code in db.rows && (overdue || db.rows[code].status in {Done, Denied, Expired});
                 && (code in db'.rows <==> code in db.rows && !(closed && now - db.rows[code].createdAt > 24 * HOUR))
                 && (code in db'.rows ==>
                       db'.rows[code] == if overdue then db.rows[code].(status := Expired) else db.rows[code])
  {
  }

  // ----- The store object ----------------------------------------------------------------------

  class PairingStore {
    var rows: map<string, Row>
    var tokens: map<string, Token>

    constructor ()
      ensures rows == map[] && tokens == map[]
    {
      rows, tokens := map[], map[];
    }

    function State(): Db
      reads this
    {
      Db(rows, tokens)
    }

    method Insert(deviceCode: string, row: Row) returns (ok: bool)
      modifies this
      ensures ok <==> Inserted(old(State()), deviceCode, row).Some?
      ensures State() == if ok then Inserted(old(State()), deviceCode, row).value else old(State())
    {
      if deviceCode == "" || row.userCode == "" || deviceCode in rows {
        return false;
      }
      if exists code :: code in rows && rows[code].userCode == row.userCode {
        return false;
      }
      rows := rows[deviceCode := row];
      return true;
    }

    /** UPDATE ... WHERE user_code = ? AND status = 'pending', with its affected-row count. */
    method UpdateAwaiting(userCode: string, change: Row -> Row) returns (n: nat)
      modifies this`rows
      ensures rows == map code | code in old(rows) ::
                        if Awaits(old(rows)[code], userCode) then change(old(rows)[code]) else old(rows)[code]
      ensures n == 0 <==> !AnyAwaits(old(State()), userCode)
    {
      hide Awaits;
      var rows0, todo := rows, rows.Keys;
      n := 0;
      while todo != {}
        invariant todo <= rows0.Keys == rows.Keys
        invariant forall code :: code in rows0 ==>
                    rows[code] == if code !in todo && Awaits(rows0[code], userCode) then change(rows0[code])
                                  else rows0[code]
        invariant n > 0 ==> AnyAwaits(old(State()), userCode)
        invariant n == 0 ==> forall code :: code in rows0 && code !in todo ==> !Awaits(rows0[code], userCode)
        decreases |todo|
      {
        var code :| code in todo;
        if Awaits(rows[code], userCode) {
          assert Awaits(rows0[code], userCode);
          rows := rows[code := change(rows[code])];
          n := n + 1;
        }
        todo := todo - {code};
      }
    }

    /** The token row goes in first, for the foreign key; when no pairing awaits approval the
      * transaction rolls back and the token row goes with it. */
    method Approve(userCode: string, tokenId: string, token: Token, plaintext: string) returns (ok: bool)
      modifies this
      ensures ok <==> Approved(old(State()), userCode, tokenId, token, plaintext).Some?
      ensures State() == if ok then Approved(old(State()), userCode, tokenId, token, plaintext).value else old(State())
    {
      if userCode == "" || tokenId == "" {
        return false;
      }
      var rows0, tokens0 := rows, tokens;
      if tokenId in tokens {
        return false;
      }
      tokens := tokens[tokenId := token];
      var n := UpdateAwaiting(userCode, row => ApprovedRow(row, token.owner, plaintext, tokenId));
      if n == 0 {
        rows, tokens := rows0, tokens0;
        return false;
      }
      return true;
    }

    method FindByUserCode(userCode: string) returns (found: Option<Row>)
      ensures found.Some? ==>
                exists code :: code in rows && rows[code] == found.value && found.value.userCode == userCode
      ensures found.None? ==> forall code :: code in rows ==> rows[code].userCode != userCode
    {
      if code :| code in rows && rows[code].userCode == userCode {
        return Some(rows[code]);
      }
      return None;
    }

    method Deny(userCode: string, denier: string) returns (found: bool)
      modifies this
      ensures found <==> DeniedBy(old(State()), userCode, denier).Some?
      ensures State() == if found then DeniedBy(old(State()), userCode, denier).value else old(State())
    {
      var n := UpdateAwaiting(userCode, (row: Row) => row.(status := Denied, userId := Some(denier)));
      found := n > 0;
      assert !found ==> rows == old(rows);
    }

    method MarkFetched(deviceCode: string) returns (found: bool)
      modifies this
      ensures found <==> Fetched(old(State()), deviceCode).Some?
      ensures State() == if found then Fetched(old(State()), deviceCode).value else old(State())
    {
      if deviceCode !in rows || rows[deviceCode].status != ApprovedUnfetched {
        return false;
      }
      rows := rows[deviceCode := rows[deviceCode].(status := Done, plaintext := None)];
      return true;
    }

    /** One tick of the sweeper: expire overdue pairings, then delete finished ones older than a day. */
    method Sweep(now: Time)
      modifies this
      ensures State() == DeletedBefore(ExpiredAt(old(State()), now), now - 24 * HOUR)
    {
      rows := ExpiredAt(State(), now).rows;
      rows := DeletedBefore(State(), now - 24 * HOUR).rows;
    }
  }

  // ----- Scopes --------------------------------------------------------------------------------

  const SCOPE_ALL := "*"
  const SCOPE_ACCOUNT := "account"

  /** Every element is in `have`; the wildcard in `have` grants everything. */
  predicate SubsetOf(scopes: seq<string>, have: seq<string>) {
    SCOPE_ALL in have || forall s :: s in scopes ==> s in have
  }

  function HeldBy(user: User): seq<string> {
    if user.admin then [SCOPE_ALL]
    else if SCOPE_ALL in user.defaultScopes || SCOPE_ACCOUNT in user.defaultScopes then user.defaultScopes
    else user.defaultScopes + [SCOPE_ACCOUNT]
  }

  const SCOPE_ADMIN := "admin"

  /** What a start request records: the account scope when nothing is asked for, and admin on request. */
  function Requested(asked: seq<string>, admin: bool): seq<string> {
    var scopes := if asked == [] then [SCOPE_ACCOUNT] else asked;
    if admin && SCOPE_ADMIN !in scopes then scopes + [SCOPE_ADMIN] else scopes
  }

  /** A start asks for what was asked, for the account when nothing was, and for admin besides exactly when it was asked
    * for and is not among them. */
  lemma {:induction false} RequestedMeans(asked: seq<string>, admin: bool)
    ensures var scopes := Requested(asked, admin);
            && (asked != [] && (!admin || "admin" in asked) ==> scopes == asked)
            && (asked != [] && admin && "admin" !in asked ==> scopes == asked + ["admin"])
            && (asked == [] ==> scopes == if admin then ["account", "admin"] else ["account"])
  {
  }

  // ----- Approval and poll decisions -------------------------------------------------------------

  datatype ApproveError =
    | BadInput | PasswordVerify | UserCodeNotFound | NotPending | PairingExpired | ExceedsRequested | ExceedsAuthority

  datatype Decision = Grant(scopes: seq<string>) | Reject(error: ApproveError)

  /** Everything an approval checks before it mints. `found` is the row the lookup returned. */
  function Decide(caller: User, userCode: string, password: string, passwordOk: bool, found: Option<Row>,
                  asked: seq<string>, now: Time): Decision
  {
    if userCode == "" || password == "" then Reject(BadInput)
    else if !passwordOk then Reject(PasswordVerify)
    else if found.None? then Reject(UserCodeNotFound)
    else if !found.value.status.Pending? then Reject(NotPending)
    else if now > found.value.expiresAt then Reject(PairingExpired)
    else
      var granted := if asked == [] then found.value.requested else asked;
      if !SubsetOf(granted, found.value.requested) then Reject(ExceedsRequested)
      else if !SubsetOf(granted, HeldBy(caller)) then Reject(ExceedsAuthority)
      else Grant(granted)
  }

  /** The caller may give out the scope: an admin any, and everybody the account scope and the caller's own. */
  predicate MayGive(caller: User, scope: string) {
    caller.admin || scope == "account" || scope in caller.defaultScopes || "*" in caller.defaultScopes
  }

  /** When an approval is refused, check by check, and what is granted otherwise: what was asked for, or all that the
    * pairing requested when nothing was. */
  lemma {:induction false} DecideMeans(caller: User, userCode: string, password: string, passwordOk: bool,
                                       found: Option<Row>, asked: seq<string>, now: Time)
    ensures var decision := Decide(caller, userCode, password, passwordOk, found, asked, now);
            var given := userCode != "" && password != "";
            var proven := given && passwordOk && found != None;
            var pending := proven && found.value.status == Pending;
            var current := pending && now <= found.value.expiresAt;
            && (decision == Reject(BadInput) <==> !given)
            && (decision == Reject(PasswordVerify) <==> given && !passwordOk)
            && (decision == Reject(UserCodeNotFound) <==> given && passwordOk && found == None)
            && (decision == Reject(NotPending) <==> proven && !pending)
            && (decision == Reject(PairingExpired) <==> pending && !current)
            && (current ==>
                  var requested := found.value.requested;
                  var wanted := if asked == [] then requested else asked;
                  var within := "*" in requested || forall s :: s in wanted ==> s in requested;
                  && (decision == Reject(ExceedsRequested) <==> !within)
                  && (decision == Reject(ExceedsAuthority) <==>
                        within && exists s :: s in wanted && !MayGive(caller, s))
                  && (decision.Grant? ==> decision.scopes == wanted))
            && (!current ==> decision.Reject?)
  {
    if found.Some? {
      HeldMeans(caller, if asked == [] then found.value.requested else asked);
    }
    hide HeldBy;
  }

  lemma {:induction false} HeldMeans(caller: User, scopes: seq<string>)
    ensures SubsetOf(scopes, HeldBy(caller)) <==> forall s :: s in scopes ==> MayGive(caller, s)
  {
  }

  /** What a grant rests on, whatever was asked for. */
  lemma {:induction false} GrantIsAuthorized(caller: User, userCode: string, password: string, passwordOk: bool,
                                             found: Option<Row>, asked: seq<string>, now: Time)
    ensures var decision := Decide(caller, userCode, password, passwordOk, found, asked, now);
            decision.Grant? ==>
              && passwordOk && found.Some? && found.value.status.Pending? && now <= found.value.expiresAt
              && (asked != [] ==> decision.scopes == asked)
              && forall s :: s in decision.scopes ==>
                   && (s in found.value.requested || SCOPE_ALL in found.value.requested)
                   && (|| caller.admin || s == SCOPE_ACCOUNT
                       || s in caller.defaultScopes || SCOPE_ALL in caller.defaultScopes)
  {
  }

  lemma {:induction false} GrantWithinRequest(caller: User, userCode: string, password: string, passwordOk: bool,
                                              found: Option<Row>, asked: seq<string>, now: Time)
    ensures var decision := Decide(caller, userCode, password, passwordOk, found, asked, now);
            decision.Grant? ==> found.Some? && SubsetOf(decision.scopes, found.value.requested)
  {
  }

  datatype PollReply =
    | StillPending
    | Forbidden
    | Gone
    | NotFound
    | Found(plaintext: string, tokenId: string)
    | Broken

  /** What a poll makes of the row it looked up. */
  function Reply(row: Option<Row>, now: Time): PollReply {
    if row.None? then NotFound
    else
      match row.value.status
      case Pending => if now > row.value.expiresAt then Gone else StillPending
      case Denied => Forbidden
      case Expired => Gone
      case Done => Gone
      case ApprovedUnfetched =>
        if row.value.plaintext.Some? && row.value.tokenId.Some? then
          PollReply.Found(row.value.plaintext.value, row.value.tokenId.value)
        else Broken
  }

  function NewRow(userCode: string, requested: seq<string>, now: Time): Row {
    Row(userCode, Pending, now, now + PAIRING_TTL, None, requested, None, None)
  }

  // ----- The handlers ----------------------------------------------------------------------------

  datatype PollAnswer = Answer(status: int) | Token200(plaintext: string) | WriteFailed

  /** The whole of one poll: what is looked up decides the answer, and only the token answer is a write that can
    * fail. */
  function PollOutcome(db: Db, deviceCode: string, now: Time, tokenReadFails: bool, writeFails: bool): PollAnswer {
    match Reply(if deviceCode in db.rows then Some(db.rows[deviceCode]) else None, now)
    case NotFound => Answer(404)
    case Gone => Answer(410)
    case StillPending => Answer(202)
    case Forbidden => Answer(403)
    case Broken => Answer(500)
    case Found(plaintext, tokenId) =>
      if tokenReadFails || tokenId !in db.tokens then Answer(500)
      else if writeFails then WriteFailed
      else Token200(plaintext)
  }

  /** What a poll is answered, status by status. The plaintext goes out exactly for an approved, unfetched pairing whose
    * token is there, and only when the answer can be written. */
  lemma {:induction false} PollMeans(db: Db, deviceCode: string, now: Time, tokenReadFails: bool, writeFails: bool)
    ensures var answer := PollOutcome(db, deviceCode, now, tokenReadFails, writeFails);
            if deviceCode !in db.rows then answer == Answer(404)
            else
              var row := db.rows[deviceCode];
              var whole := row.plaintext != None && row.tokenId != None && row.tokenId.value in db.tokens &&
                           !tokenReadFails;
              && (row.status == Pending ==> answer == Answer(if now <= row.expiresAt then 202 else 410))
              && (row.status == Denied ==> answer == Answer(403))
              && (row.status == Expired || row.status == Done ==> answer == Answer(410))
              && (row.status == ApprovedUnfetched && !whole ==> answer == Answer(500))
              && (row.status == ApprovedUnfetched && whole && !writeFails ==> answer == Token200(row.plaintext.value))
              && (row.status == ApprovedUnfetched && whole && writeFails ==> answer == WriteFailed)
  {
  }

  datatype ApproveResult = ApproveOk | ApproveRefused(error: ApproveError) | ApproveStoreError

  class Api {
    const store: PairingStore
    var scheduled: seq<string>

    constructor (store: PairingStore)
      ensures this.store == store && scheduled == []
    {
      this.store := store;
      scheduled := [];
    }

    method Start(deviceCode: string, userCode: string, asked: seq<string>, admin: bool, now: Time) returns (ok: bool)
      modifies store
      ensures var db := Inserted(old(store.State()), deviceCode, NewRow(userCode, Requested(asked, admin), now));
              && (ok <==> db.Some?)
              && store.State() == if ok then db.value else old(store.State())
      ensures ok ==>
                && store.tokens == old(store.tokens) && deviceCode !in old(store.rows)
                && store.rows == old(store.rows)[deviceCode := Row(userCode, Pending, now, now + 15 * MINUTE, None,
                                                                   Requested(asked, admin), None, None)]
    {
      var scopes := asked;
      if |scopes| == 0 {
        scopes := [SCOPE_ACCOUNT];
      }
      if admin {
        var hasAdmin := false;
        for i := 0 to |scopes|
          invariant hasAdmin <==> SCOPE_ADMIN in scopes[..i]
        {
          if scopes[i] == SCOPE_ADMIN {
            hasAdmin := true;
            assert SCOPE_ADMIN in scopes[..i + 1];
            break;
          }
        }
        assert hasAdmin ==> SCOPE_ADMIN in scopes;
        if !hasAdmin {
          assert scopes[..|scopes|] == scopes;
          scopes := scopes + [SCOPE_ADMIN];
        }
      }
      ok := store.Insert(deviceCode, NewRow(userCode, scopes, now));
    }

    /** Nothing is minted unless every check passes, and then a token is minted exactly when a pairing still awaits
      * it. */
    method ApproveCore(caller: User, userCode: string, password: string, passwordOk: bool, asked: seq<string>,
                       now: Time, tokenId: string, plaintext: string)
      returns (result: ApproveResult, ghost found: Option<Row>)
      modifies store
      ensures found.Some? ==>
                && found.value.userCode == userCode
                && exists code :: code in old(store.rows) && old(store.rows)[code] == found.value
      ensures found.None? ==> forall code :: code in old(store.rows) ==> old(store.rows)[code].userCode != userCode
      ensures var decision := Decide(caller, userCode, password, passwordOk, found, asked, now);
              match decision
              case Reject(error) => result == ApproveRefused(error) && store.State() == old(store.State())
              case Grant(scopes) =>
                var db := Approved(old(store.State()), userCode, tokenId, Token("device-pairing", scopes, caller.id),
                                   plaintext);
                && (result.ApproveOk? <==> db.Some?)
                && store.State() == if db.Some? then db.value else old(store.State())
    {
      var row := store.FindByUserCode(userCode);
      found := row;
      if userCode == "" || password == "" {
        return ApproveRefused(BadInput), found;
      }
      if !passwordOk {
        return ApproveRefused(PasswordVerify), found;
      }
      if row.None? {
        return ApproveRefused(UserCodeNotFound), found;
      }
      if row.value.status != Pending {
        return ApproveRefused(NotPending), found;
      }
      if now > row.value.expiresAt {
        return ApproveRefused(PairingExpired), found;
      }
      var granted := asked;
      if |granted| == 0 {
        granted := row.value.requested;
      }
      if !SubsetOf(granted, row.value.requested) {
        return ApproveRefused(ExceedsRequested), found;
      }
      if !SubsetOf(granted, HeldBy(caller)) {
        return ApproveRefused(ExceedsAuthority), found;
      }
      var ok := store.Approve(userCode, tokenId, Token("device-pairing", granted, caller.id), plaintext);
      return if ok then ApproveOk else ApproveStoreError, found;
    }

    /** A fetch is marked only behind a successful token answer; the tables are left alone. */
    method Poll(deviceCode: string, now: Time, tokenReadFails: bool, writeFails: bool) returns (answer: PollAnswer)
      modifies this
      ensures answer == PollOutcome(store.State(), deviceCode, now, tokenReadFails, writeFails)
      ensures scheduled == old(scheduled) + if answer.Token200? then [deviceCode] else []
    {
      if deviceCode !in store.rows {
        return Answer(404);
      }
      var row := store.rows[deviceCode];
      match row.status {
        case Pending => return Answer(if now > row.expiresAt then 410 else 202);
        case Denied => return Answer(403);
        case Expired => return Answer(410);
        case Done => return Answer(410);
        case ApprovedUnfetched =>
          if row.plaintext.None? || row.tokenId.None? || tokenReadFails || row.tokenId.value !in store.tokens {
            return Answer(500);
          }
          if writeFails {
            return WriteFailed;
          }
          scheduled := scheduled + [deviceCode];
          return Token200(row.plaintext.value);
      }
    }
  }
}
