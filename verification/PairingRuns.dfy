/** Every interleaving of device-pairing requests: starts, approvals (a lookup, then a transaction),
  * denials, polls (a lookup, then a write), deferred fetch marks, sweeps, other token mints, crashes.
  *
  * `minted` and `answers` record history: the plaintext minted for each device code, and every
  * plaintext written in a 200. */
module PairingRuns {
  import opened Common
  import opened Pairing

  /** An approval that has passed its checks and not yet run its transaction. */
  datatype Approval = Approval(userCode: string, scopes: seq<string>, owner: string, requested: seq<string>)

  datatype Holding = Holding(deviceCode: string, plaintext: string, tokenId: string)

  datatype Sent = Sent(deviceCode: string, plaintext: string)

  datatype World = World(db: Db, approvals: map<int, Approval>, polls: map<int, Holding>, scheduled: multiset<string>,
                         answers: set<Sent>, minted: map<string, string>, usedDevices: set<string>,
                         usedUsers: set<string>)

  datatype Step =
    | Start(deviceCode: string, userCode: string, asked: seq<string>, admin: bool, now: Time)
    | BeginApprove(id: int, caller: User, userCode: string, password: string, passwordOk: bool, asked: seq<string>,
                   now: Time)
    | CommitApprove(id: int, tokenId: string, plaintext: string)
    | Deny(userCode: string, denier: string)
    | Lookup(id: int, deviceCode: string, now: Time)
    | Write(id: int, tokenReadFails: bool, writeFails: bool)
    | MarkFetched(deviceCode: string, fails: bool)
    | Expire(now: Time)
    | DeleteOld(before: Time)
    | MintElsewhere(tokenId: string, token: Token)
    | Crash

  const EMPTY := World(Db(map[], map[]), map[], map[], multiset{}, {}, map[], {}, {})

  function Find(db: Db, deviceCode: string): Option<Row> {
    if deviceCode in db.rows then Some(db.rows[deviceCode]) else None
  }

  ghost function FindByUser(db: Db, userCode: string): (found: Option<Row>)
    ensures found.Some? ==>
              exists code :: code in db.rows && db.rows[code] == found.value && found.value.userCode == userCode
  {
    if exists code :: code in db.rows && db.rows[code].userCode == userCode then
      var code :| code in db.rows && db.rows[code].userCode == userCode;
      Some(db.rows[code])
    else None
  }

  function Mint(w: World, userCode: string, plaintext: string): map<string, string> {
    w.minted + map code | code in w.db.rows && Awaits(w.db.rows[code], userCode) :: plaintext
  }

  ghost function Next(w: World, step: Step): World {
    match step
    case Start(deviceCode, userCode, asked, admin, now) =>
      var db := Inserted(w.db, deviceCode, NewRow(userCode, Requested(asked, admin), now));
      if db.None? then w
      else w.(db := db.value, usedDevices := w.usedDevices + {deviceCode}, usedUsers := w.usedUsers + {userCode})
    case BeginApprove(id, caller, userCode, password, passwordOk, asked, now) =>
      var found := FindByUser(w.db, userCode);
      var decision := Decide(caller, userCode, password, passwordOk, found, asked, now);
      if decision.Reject? || id in w.approvals then w
      else w.(approvals := w.approvals[id := Approval(userCode, decision.scopes, caller.id, found.value.requested)])
    case CommitApprove(id, tokenId, plaintext) =>
      if id !in w.approvals then w
      else
        var a := w.approvals[id];
        var db := Approved(w.db, a.userCode, tokenId, Token("device-pairing", a.scopes, a.owner), plaintext);
        if db.None? then w.(approvals := w.approvals - {id})
        else w.(approvals := w.approvals - {id}, db := db.value, minted := Mint(w, a.userCode, plaintext))
    case Deny(userCode, denier) =>
      var db := DeniedBy(w.db, userCode, denier);
      if db.None? then w else w.(db := db.value)
    case Lookup(id, deviceCode, now) =>
      var reply := Reply(Find(w.db, deviceCode), now);
      if !reply.Found? || id in w.polls then w
      else w.(polls := w.polls[id := Holding(deviceCode, reply.plaintext, reply.tokenId)])
    case Write(id, tokenReadFails, writeFails) =>
      if id !in w.polls then w
      else
        var p := w.polls[id];
        var done := w.(polls := w.polls - {id});
        if tokenReadFails || p.tokenId !in w.db.tokens || writeFails then done
        else done.(answers := w.answers + {Sent(p.deviceCode, p.plaintext)},
                   scheduled := w.scheduled + multiset{p.deviceCode})
    case MarkFetched(deviceCode, fails) =>
      if deviceCode !in w.scheduled then w
      else
        var done := w.(scheduled := w.scheduled - multiset{deviceCode});
        var db := Fetched(w.db, deviceCode);
        if fails || db.None? then done else done.(db := db.value)
    case Expire(now) => w.(db := ExpiredAt(w.db, now))
    case DeleteOld(before) => w.(db := DeletedBefore(w.db, before))
    case MintElsewhere(tokenId, token) =>
      if tokenId in w.db.tokens then w else w.(db := w.db.(tokens := w.db.tokens[tokenId := token]))
    case Crash => w.(approvals := map[], polls := map[], scheduled := multiset{})
  }

  ghost function Run(steps: seq<Step>): World {
    if steps == [] then EMPTY else Next(Run(Init(steps)), Last(steps))
  }

  /** Random codes do not come up twice. */
  ghost predicate FreshStart(w: World, step: Step) {
    step.Start? ==> step.deviceCode !in w.usedDevices && step.userCode !in w.usedUsers
  }

  ghost predicate Fresh(steps: seq<Step>) {
    steps == [] || (Fresh(Init(steps)) && FreshStart(Run(Init(steps)), Last(steps)))
  }

  // ----- The invariant -------------------------------------------------------------------------

  predicate Answered(w: World, code: string) {
    code in w.minted && Sent(code, w.minted[code]) in w.answers
  }

  /** A row shows its plaintext exactly while it is approved and unfetched, names its token from then
    * on, and that token was minted for the approver with no more than the scopes requested. */
  predicate RowOk(w: World, code: string, row: Row) {
    && code in w.usedDevices && row.userCode in w.usedUsers
    && (row.plaintext.Some? <==> row.status.ApprovedUnfetched?)
    && (row.tokenId.Some? <==> row.status.ApprovedUnfetched? || row.status.Done?)
    && (row.tokenId.Some? <==> code in w.minted)
    && (row.plaintext.Some? ==> code in w.minted && row.plaintext.value == w.minted[code])
    && (row.tokenId.Some? ==>
          && row.tokenId.value in w.db.tokens
          && row.userId == Some(w.db.tokens[row.tokenId.value].owner)
          && SubsetOf(w.db.tokens[row.tokenId.value].scopes, row.requested))
    && (row.status.Done? ==> Answered(w, code))
  }

  ghost predicate RowsOk(w: World) {
    forall code :: code in w.db.rows ==> RowOk(w, code, w.db.rows[code])
  }

  ghost predicate Distinct(db: Db) {
    forall a, b :: a in db.rows && b in db.rows && a != b ==>
      && db.rows[a].userCode != db.rows[b].userCode
      && (db.rows[a].tokenId.Some? ==> db.rows[a].tokenId != db.rows[b].tokenId)
  }

  /** A plaintext is handed out for the code it was minted for, and a row disappears only after that. */
  ghost predicate HistoryOk(w: World) {
    && (forall s :: s in w.answers ==> s.deviceCode in w.minted && s.plaintext == w.minted[s.deviceCode])
    && (forall code :: code in w.scheduled ==> Answered(w, code))
    && (forall code :: code in w.minted ==> code in w.usedDevices && (code in w.db.rows || Answered(w, code)))
  }

  predicate HoldingOk(w: World, p: Holding) {
    p.deviceCode in w.minted && p.plaintext == w.minted[p.deviceCode]
  }

  ghost predicate ApprovalOk(w: World, a: Approval) {
    && SubsetOf(a.scopes, a.requested) && a.userCode in w.usedUsers
    && forall code :: code in w.db.rows && w.db.rows[code].userCode == a.userCode ==>
         w.db.rows[code].requested == a.requested
  }

  ghost predicate PollsOk(w: World) {
    forall id :: id in w.polls ==> HoldingOk(w, w.polls[id])
  }

  ghost predicate ApprovalsOk(w: World) {
    forall id :: id in w.approvals ==> ApprovalOk(w, w.approvals[id])
  }

  ghost predicate Ok(w: World) {
    RowsOk(w) && Distinct(w.db) && HistoryOk(w) && PollsOk(w) && ApprovalsOk(w)
  }

  // ----- Each step keeps it --------------------------------------------------------------------

  /** Nothing recorded is forgotten. */
  ghost predicate Extends(w: World, w': World) {
    && (forall id :: id in w.db.tokens ==> id in w'.db.tokens && w'.db.tokens[id] == w.db.tokens[id])
    && (forall code :: code in w.minted ==> code in w'.minted && w'.minted[code] == w.minted[code])
    && w.answers <= w'.answers && w.usedDevices <= w'.usedDevices && w.usedUsers <= w'.usedUsers
  }

  lemma {:induction false} RowFrame(w: World, w': World, code: string, row: Row)
    requires RowOk(w, code, row) && Extends(w, w') && (code in w.minted <==> code in w'.minted)
    ensures RowOk(w', code, row)
  {
  }

  /** Approvals in flight only look at their row's codes and request. */
  lemma {:induction false} ApprovalsKept(w: World, w': World)
    requires ApprovalsOk(w) && w'.approvals == w.approvals && w.usedUsers <= w'.usedUsers
    requires forall code :: code in w'.db.rows ==>
               if code in w.db.rows then
                 w'.db.rows[code].userCode == w.db.rows[code].userCode &&
                 w'.db.rows[code].requested == w.db.rows[code].requested
               else w'.db.rows[code].userCode !in w.usedUsers
    ensures ApprovalsOk(w')
  {
    forall id | id in w.approvals ensures ApprovalOk(w', w.approvals[id]) {
      assert ApprovalOk(w, w.approvals[id]);
    }
  }

  lemma {:induction false} PollsKept(w: World, w': World)
    requires PollsOk(w) && w'.polls == w.polls && Extends(w, w')
    ensures PollsOk(w')
  {
  }

  lemma {:induction false} RowsKept(w: World, w': World)
    requires RowsOk(w) && w'.db.rows == w.db.rows && w'.minted == w.minted && Extends(w, w')
    ensures RowsOk(w')
  {
    forall code | code in w.db.rows ensures RowOk(w', code, w.db.rows[code]) {
      RowFrame(w, w', code, w.db.rows[code]);
    }
  }

  /** A row that a denial or an expiry may produce. */
  predicate Closes(row: Row, row': Row) {
    row' == row || (row.status.Pending? && (row'.status.Denied? || row'.status.Expired?) &&
                    row' == row.(status := row'.status, userId := row'.userId))
  }

  ghost predicate ClosesAll(rows: map<string, Row>, rows': map<string, Row>) {
    && (forall code :: code in rows' ==> code in rows && Closes(rows[code], rows'[code]))
    && (forall code :: code in rows && code !in rows' ==> Finished(rows[code]))
  }

  lemma {:induction false} ClosingOk(w: World, rows': map<string, Row>)
    requires Ok(w) && ClosesAll(w.db.rows, rows')
    ensures Ok(w.(db := w.db.(rows := rows')))
  {
    var w' := w.(db := w.db.(rows := rows'));
    assert RowsOk(w') by {
      forall code | code in rows' ensures RowOk(w', code, rows'[code]) {
        assert RowOk(w, code, w.db.rows[code]) && Closes(w.db.rows[code], rows'[code]);
      }
    }
    assert Distinct(w'.db) by { ClosingDistinct(w.db, rows'); }
    assert HistoryOk(w') by { ClosingHistory(w, rows'); }
    hide RowsOk, Distinct, HistoryOk, RowOk;
    PollsKept(w, w');
    ApprovalsKept(w, w');
  }

  lemma {:induction false} ClosingDistinct(db: Db, rows': map<string, Row>)
    requires Distinct(db) && ClosesAll(db.rows, rows')
    ensures Distinct(db.(rows := rows'))
  {
  }

  lemma {:induction false} ClosingHistory(w: World, rows': map<string, Row>)
    requires RowsOk(w) && HistoryOk(w) && ClosesAll(w.db.rows, rows')
    ensures HistoryOk(w.(db := w.db.(rows := rows')))
  {
    forall code | code in w.minted && code !in rows' ensures Answered(w, code) {
      if code in w.db.rows {
        assert RowOk(w, code, w.db.rows[code]);
      }
    }
  }

  lemma {:induction false} StartOk(w: World, step: Step)
    requires Ok(w) && step.Start? && FreshStart(w, step)
    ensures Ok(Next(w, step))
  {
    var w' := Next(w, step);
    if w' != w {
      StartRows(w, step);
      StartRest(w, step);
      StartFrames(w, step);
      hide RowsOk, Distinct, HistoryOk, PollsOk, ApprovalsOk, Extends, Next;
      PollsKept(w, w');
      ApprovalsKept(w, w');
    }
  }

  lemma {:induction false} StartRest(w: World, step: Step)
    requires RowsOk(w) && Distinct(w.db) && HistoryOk(w) && step.Start? && FreshStart(w, step)
    ensures Distinct(Next(w, step).db) && HistoryOk(Next(w, step))
  {
    forall code | code in w.db.rows ensures w.db.rows[code].userCode in w.usedUsers {
      assert RowOk(w, code, w.db.rows[code]);
    }
    var row := NewRow(step.userCode, Requested(step.asked, step.admin), step.now);
    StartIs(w, step, row);
    hide Next, Requested, RowsOk, RowOk;
    if Next(w, step) != w {
      DistinctWith(w.db, step.deviceCode, row);
      hide Distinct;
      HistoryWith(w, Next(w, step));
    }
  }

  lemma {:induction false} StartIs(w: World, step: Step, row: Row)
    requires step.Start? && row == NewRow(step.userCode, Requested(step.asked, step.admin), step.now)
    ensures var w' := Next(w, step);
            w' != w ==>
              && w' == w.(db := w.db.(rows := w.db.rows[step.deviceCode := row]), usedDevices := w'.usedDevices,
                          usedUsers := w'.usedUsers)
              && w.usedDevices <= w'.usedDevices && row.tokenId.None? && row.userCode == step.userCode
  {
    hide Requested;
  }

  lemma {:induction false} DistinctWith(db: Db, code: string, row: Row)
    requires Distinct(db) && row.tokenId.None?
    requires forall other :: other in db.rows ==> db.rows[other].userCode != row.userCode
    ensures Distinct(db.(rows := db.rows[code := row]))
  {
  }

  lemma {:induction false} HistoryWith(w: World, w': World)
    requires HistoryOk(w) && w'.minted == w.minted && w'.answers == w.answers && w'.scheduled == w.scheduled
    requires w.usedDevices <= w'.usedDevices && w.db.rows.Keys <= w'.db.rows.Keys
    ensures HistoryOk(w')
  {
  }

  lemma {:induction false} StartFrames(w: World, step: Step)
    requires step.Start? && FreshStart(w, step)
    ensures var w' := Next(w, step);
            && Extends(w, w') && w'.polls == w.polls && w'.approvals == w.approvals
            && forall code :: code in w'.db.rows ==>
                 if code in w.db.rows then
                   w'.db.rows[code].userCode == w.db.rows[code].userCode &&
                   w'.db.rows[code].requested == w.db.rows[code].requested
                 else w'.db.rows[code].userCode !in w.usedUsers
  {
    hide Requested;
  }

  lemma {:induction false} StartRows(w: World, step: Step)
    requires RowsOk(w) && HistoryOk(w) && step.Start? && FreshStart(w, step)
    ensures RowsOk(Next(w, step))
  {
    hide Requested, SubsetOf, Answered;
    var w' := Next(w, step);
    if w' != w {
      forall code | code in w'.db.rows ensures RowOk(w', code, w'.db.rows[code]) {
        if code in w.db.rows {
          RowFrame(w, w', code, w.db.rows[code]);
        }
      }
    }
  }

  lemma {:induction false} BeginOk(w: World, step: Step)
    requires Ok(w) && step.BeginApprove?
    ensures Ok(Next(w, step))
  {
    hide Decide, SubsetOf, RowsOk, Distinct, HistoryOk;
    var w' := Next(w, step);
    if w' != w {
      var found := FindByUser(w.db, step.userCode);
      GrantWithinRequest(step.caller, step.userCode, step.password, step.passwordOk, found, step.asked, step.now);
      SameRequest(w, step.userCode);
      assert ApprovalOk(w, w'.approvals[step.id]);
      ApprovalsApart(w, w'.approvals);
    }
  }

  lemma {:induction false} ApprovalsApart(w: World, approvals: map<int, Approval>)
    requires Ok(w) && forall id :: id in approvals ==> ApprovalOk(w, approvals[id])
    ensures Ok(w.(approvals := approvals))
  {
    var w' := w.(approvals := approvals);
    RowsKept(w, w');
    hide RowsOk, RowOk;
    forall id | id in approvals ensures ApprovalOk(w', approvals[id]) {
      assert ApprovalOk(w, approvals[id]);
    }
  }

  lemma {:induction false} SameRequest(w: World, userCode: string)
    requires RowsOk(w) && Distinct(w.db) && FindByUser(w.db, userCode).Some?
    ensures userCode in w.usedUsers
    ensures forall code :: code in w.db.rows && w.db.rows[code].userCode == userCode ==>
              w.db.rows[code].requested == FindByUser(w.db, userCode).value.requested
  {
    var found := FindByUser(w.db, userCode).value;
    var code :| code in w.db.rows && w.db.rows[code] == found && found.userCode == userCode;
    assert RowOk(w, code, found);
    forall other | other in w.db.rows && w.db.rows[other].userCode == userCode
      ensures w.db.rows[other].requested == found.requested
    {
      assert other == code;
    }
  }

  /** An approval that commits changes exactly one pairing and adds exactly one token. */
  lemma {:induction false} ApprovesOne(w: World, userCode: string, tokenId: string, token: Token,
                                       plaintext: string) returns (code: string)
    requires Distinct(w.db) && Approved(w.db, userCode, tokenId, token, plaintext).Some?
    ensures code in w.db.rows && Awaits(w.db.rows[code], userCode) && tokenId !in w.db.tokens
    ensures Approved(w.db, userCode, tokenId, token, plaintext).value
         == Db(w.db.rows[code := ApprovedRow(w.db.rows[code], token.owner, plaintext, tokenId)],
               w.db.tokens[tokenId := token])
    ensures Mint(w, userCode, plaintext) == w.minted[code := plaintext]
  {
    code :| code in w.db.rows && Awaits(w.db.rows[code], userCode);
    assert forall other :: other in w.db.rows && Awaits(w.db.rows[other], userCode) ==> other == code;
  }

  lemma {:induction false} CommitOk(w: World, step: Step)
    requires Ok(w) && step.CommitApprove?
    ensures Ok(Next(w, step))
  {
    if step.id in w.approvals {
      hide Approved, Mint, RowsOk, Distinct, HistoryOk;
      var a, rest := w.approvals[step.id], w.(approvals := w.approvals - {step.id});
      var token := Token("device-pairing", a.scopes, a.owner);
      assert ApprovalOk(w, a);
      ApprovalsApart(w, rest.approvals);
      if Approved(w.db, a.userCode, step.tokenId, token, step.plaintext).Some? {
        var code := ApprovesOne(w, a.userCode, step.tokenId, token, step.plaintext);
        MintOk(rest, code, step.tokenId, token, step.plaintext);
      }
    }
  }

  lemma {:induction false} MintOk(w: World, code: string, tokenId: string, token: Token, plaintext: string)
    requires Ok(w) && code in w.db.rows && w.db.rows[code].status.Pending? && tokenId !in w.db.tokens
    requires SubsetOf(token.scopes, w.db.rows[code].requested)
    ensures Ok(AfterMint(w, code, tokenId, token, plaintext))
  {
    var w' := AfterMint(w, code, tokenId, token, plaintext);
    MintRows(w, code, tokenId, token, plaintext);
    MintDistinct(w, code, tokenId, w'.db.rows[code]);
    MintHistory(w, code, tokenId, token, plaintext);
    assert code !in w.minted by { assert RowOk(w, code, w.db.rows[code]); }
    hide RowsOk, Distinct, HistoryOk, SubsetOf, PollsOk, ApprovalsOk;
    PollsKept(w, w');
    ApprovalsKept(w, w');
  }

  function AfterMint(w: World, code: string, tokenId: string, token: Token, plaintext: string): World
    requires code in w.db.rows
  {
    w.(db := Db(w.db.rows[code := ApprovedRow(w.db.rows[code], token.owner, plaintext, tokenId)],
                w.db.tokens[tokenId := token]),
       minted := w.minted[code := plaintext])
  }

  lemma {:induction false} MintRows(w: World, code: string, tokenId: string, token: Token, plaintext: string)
    requires RowsOk(w) && code in w.db.rows && w.db.rows[code].status.Pending? && tokenId !in w.db.tokens
    requires SubsetOf(token.scopes, w.db.rows[code].requested)
    ensures RowsOk(AfterMint(w, code, tokenId, token, plaintext))
  {
    hide SubsetOf;
    var w' := AfterMint(w, code, tokenId, token, plaintext);
    assert RowOk(w, code, w.db.rows[code]) && code !in w.minted;
    forall other | other in w'.db.rows ensures RowOk(w', other, w'.db.rows[other]) {
      if other != code {
        assert RowOk(w, other, w.db.rows[other]);
        RowFrame(w, w', other, w.db.rows[other]);
      }
    }
  }

  lemma {:induction false} MintHistory(w: World, code: string, tokenId: string, token: Token, plaintext: string)
    requires RowsOk(w) && HistoryOk(w) && code in w.db.rows && w.db.rows[code].status.Pending?
    ensures HistoryOk(AfterMint(w, code, tokenId, token, plaintext))
  {
    assert RowOk(w, code, w.db.rows[code]) && code !in w.minted;
    hide RowOk, SubsetOf;
  }

  lemma {:induction false} MintDistinct(w: World, code: string, tokenId: string, row: Row)
    requires RowsOk(w) && Distinct(w.db) && code in w.db.rows && tokenId !in w.db.tokens
    requires row.userCode == w.db.rows[code].userCode && row.tokenId == Some(tokenId)
    ensures Distinct(Db(w.db.rows[code := row], w.db.tokens))
  {
    forall other | other in w.db.rows && other != code ensures w.db.rows[other].tokenId != Some(tokenId) {
      assert RowOk(w, other, w.db.rows[other]);
    }
  }

  lemma {:induction false} LookupOk(w: World, step: Step)
    requires Ok(w) && step.Lookup?
    ensures Ok(Next(w, step))
  {
    hide SubsetOf;
    if step.deviceCode in w.db.rows {
      assert RowOk(w, step.deviceCode, w.db.rows[step.deviceCode]);
    }
    hide RowsOk, RowOk, ApprovalsOk;
    RecordsApart(w, Next(w, step));
  }

  lemma {:induction false} WriteOk(w: World, step: Step)
    requires Ok(w) && step.Write?
    ensures Ok(Next(w, step))
  {
    if step.id in w.polls {
      assert HoldingOk(w, w.polls[step.id]);
    }
    RecordsApart(w, Next(w, step));
  }

  /** Polls, answers and schedules change apart from the tables. */
  lemma {:induction false} RecordsApart(w: World, w': World)
    requires Ok(w) && w' == w.(polls := w'.polls, scheduled := w'.scheduled, answers := w'.answers)
    requires w.answers <= w'.answers
    requires forall id :: id in w'.polls ==> HoldingOk(w, w'.polls[id])
    requires forall s :: s in w'.answers ==> s.deviceCode in w.minted && s.plaintext == w.minted[s.deviceCode]
    requires forall code :: code in w'.scheduled ==> code in w.minted && Sent(code, w.minted[code]) in w'.answers
    ensures Ok(w')
  {
    RowsKept(w, w');
    hide RowsOk, RowOk, SubsetOf, ApprovalsOk;
    ApprovalsKept(w, w');
  }

  lemma {:induction false} FetchOk(w: World, step: Step)
    requires Ok(w) && step.MarkFetched?
    ensures Ok(Next(w, step))
  {
    if step.deviceCode in w.scheduled {
      hide Fetched, RowOk, HoldingOk;
      assert Answered(w, step.deviceCode);
      var done := w.(scheduled := w.scheduled - multiset{step.deviceCode});
      RecordsApart(w, done);
      hide Ok;
      if Fetched(w.db, step.deviceCode).Some? {
        FetchedRowOk(done, step.deviceCode);
      }
    }
  }

  lemma {:induction false} FetchedRowOk(w: World, code: string)
    requires Ok(w) && Answered(w, code) && Fetched(w.db, code).Some?
    ensures Ok(w.(db := Fetched(w.db, code).value))
  {
    hide SubsetOf;
    assert RowOk(w, code, w.db.rows[code]);
    RowReplacedOk(w, code, w.db.rows[code].(status := Done, plaintext := None));
  }

  /** Replacing one row by one that keeps its codes, its request and its token. */
  lemma {:induction false} RowReplacedOk(w: World, code: string, row: Row)
    requires Ok(w) && code in w.db.rows && RowOk(w, code, row)
    requires row.userCode == w.db.rows[code].userCode && row.requested == w.db.rows[code].requested
    requires row.tokenId == w.db.rows[code].tokenId
    ensures Ok(w.(db := w.db.(rows := w.db.rows[code := row])))
  {
    hide SubsetOf, Answered;
    var w' := w.(db := w.db.(rows := w.db.rows[code := row]));
    RowReplacedRows(w, code, row);
    hide RowOk, RowsOk, PollsOk, ApprovalsOk, HistoryOk;
    HistoryApart(w, w');
    PollsKept(w, w');
    ApprovalsKept(w, w');
  }

  lemma {:induction false} RowReplacedRows(w: World, code: string, row: Row)
    requires RowsOk(w) && code in w.db.rows && RowOk(w, code, row)
    ensures RowsOk(w.(db := w.db.(rows := w.db.rows[code := row])))
  {
    hide SubsetOf, Answered;
    var w' := w.(db := w.db.(rows := w.db.rows[code := row]));
    forall other | other in w'.db.rows ensures RowOk(w', other, w'.db.rows[other]) {
      if other != code { RowFrame(w, w', other, w.db.rows[other]); } else { RowFrame(w, w', code, row); }
    }
  }

  lemma {:induction false} HistoryApart(w: World, w': World)
    requires HistoryOk(w) && w' == w.(db := w'.db) && w'.db.rows.Keys == w.db.rows.Keys
    ensures HistoryOk(w')
  {
  }

  lemma {:induction false} MintElsewhereOk(w: World, step: Step)
    requires Ok(w) && step.MintElsewhere?
    ensures Ok(Next(w, step))
  {
    var w' := Next(w, step);
    hide RowOk, RowsOk, PollsOk, ApprovalsOk, HistoryOk;
    RowsKept(w, w');
    HistoryApart(w, w');
    PollsKept(w, w');
    ApprovalsKept(w, w');
  }

  lemma {:induction false} CrashOk(w: World)
    requires Ok(w)
    ensures Ok(Next(w, Crash))
  {
    ApprovalsApart(w, map[]);
    RecordsApart(w.(approvals := map[]), Next(w, Crash));
  }

  lemma {:induction false} NextOk(w: World, step: Step)
    requires Ok(w) && FreshStart(w, step)
    ensures Ok(Next(w, step))
  {
    match step {
      case Start(_, _, _, _, _) => StartOk(w, step);
      case BeginApprove(_, _, _, _, _, _, _) => BeginOk(w, step);
      case CommitApprove(_, _, _) => CommitOk(w, step);
      case Deny(userCode, denier) =>
        hide Ok;
        if DeniedBy(w.db, userCode, denier).Some? { ClosingOk(w, Next(w, step).db.rows); }
      case Lookup(_, _, _) => LookupOk(w, step);
      case Write(_, _, _) => WriteOk(w, step);
      case MarkFetched(_, _) => FetchOk(w, step);
      case Expire(_) => hide Ok; ClosingOk(w, Next(w, step).db.rows);
      case DeleteOld(_) => hide Ok; ClosingOk(w, Next(w, step).db.rows);
      case MintElsewhere(_, _) => MintElsewhereOk(w, step);
      case Crash => CrashOk(w);
    }
  }

  lemma {:induction false} ReachableOk(steps: seq<Step>)
    requires Fresh(steps)
    ensures Ok(Run(steps))
  {
    if steps != [] {
      hide Ok, Next;
      ReachableOk(Init(steps));
      NextOk(Run(Init(steps)), Last(steps));
    }
  }

  // ----- What is promised ------------------------------------------------------------------------

  /** In every reachable state a pairing shows a plaintext exactly while it is approved and unfetched, and
    * names a token exactly once approved: a token of the approver's, no wider than requested, that no other
    * pairing names. */
  lemma {:induction false} RowsConsistent(steps: seq<Step>, code: string)
    requires Fresh(steps) && code in Run(steps).db.rows
    ensures var db := Run(steps).db;
            var row := db.rows[code];
            && (row.plaintext.Some? <==> row.status.ApprovedUnfetched?)
            && (row.tokenId.Some? <==> row.status.ApprovedUnfetched? || row.status.Done?)
            && (row.tokenId.Some? ==>
                  && row.tokenId.value in db.tokens
                  && row.userId == Some(db.tokens[row.tokenId.value].owner)
                  && SubsetOf(db.tokens[row.tokenId.value].scopes, row.requested)
                  && forall other :: other in db.rows && other != code ==> db.rows[other].tokenId != row.tokenId)
  {
    hide Run;
    ReachableOk(steps);
    var w := Run(steps);
    assert RowOk(w, code, w.db.rows[code]);
  }

  /** The only moves a status makes. */
  predicate Moves(a: Status, b: Status) {
    a == b || (a.Pending? && (b.ApprovedUnfetched? || b.Denied? || b.Expired?)) || (a.ApprovedUnfetched? && b.Done?)
  }

  /** A pairing moves along those, and its codes, times, request and, once it has one, its token never change. */
  predicate Advances(row: Row, row': Row) {
    && Moves(row.status, row'.status)
    && row' == row.(status := row'.status, userId := row'.userId, plaintext := row'.plaintext, tokenId := row'.tokenId)
    && (row.tokenId.Some? && !row.status.Pending? ==> row'.tokenId == row.tokenId)
  }

  lemma {:induction false} StatementsAdvance(db: Db, code: string, a: string, b: string, token: Token, c: string,
                                             now: Time)
    requires code in db.rows
    ensures Approved(db, a, b, token, c).Some? ==>
              code in Approved(db, a, b, token, c).value.rows &&
              Advances(db.rows[code], Approved(db, a, b, token, c).value.rows[code])
    ensures DeniedBy(db, a, b).Some? ==>
              code in DeniedBy(db, a, b).value.rows && Advances(db.rows[code], DeniedBy(db, a, b).value.rows[code])
    ensures Fetched(db, a).Some? ==>
              code in Fetched(db, a).value.rows && Advances(db.rows[code], Fetched(db, a).value.rows[code])
    ensures code in ExpiredAt(db, now).rows && Advances(db.rows[code], ExpiredAt(db, now).rows[code])
    ensures if code in DeletedBefore(db, now).rows then DeletedBefore(db, now).rows[code] == db.rows[code]
            else Finished(db.rows[code])
    ensures Advances(db.rows[code], db.rows[code])
  {
  }

  /** A step advances each pairing or leaves it alone, and removes only finished ones. */
  lemma {:induction false} StepMoves(w: World, step: Step, code: string)
    requires code in w.db.rows
    ensures var rows' := Next(w, step).db.rows;
            if code in rows' then Advances(w.db.rows[code], rows'[code]) else Finished(w.db.rows[code])
  {
    hide Decide, SubsetOf, Reply, Advances, Approved, DeniedBy, Fetched, ExpiredAt, DeletedBefore, Inserted, Mint,
        Finished;
    InsertKeeps(w.db, step, code);
    match step {
      case CommitApprove(id, tokenId, plaintext) =>
        if id in w.approvals {
          var a := w.approvals[id];
          StatementsAdvance(w.db, code, a.userCode, tokenId, Token("device-pairing", a.scopes, a.owner), plaintext, 0);
        } else {
          StatementsAdvance(w.db, code, "", "", Token("", [], ""), "", 0);
        }
      case Deny(userCode, denier) => StatementsAdvance(w.db, code, userCode, denier, Token("", [], ""), "", 0);
      case MarkFetched(deviceCode, _) => StatementsAdvance(w.db, code, deviceCode, "", Token("", [], ""), "", 0);
      case Expire(now) => StatementsAdvance(w.db, code, "", "", Token("", [], ""), "", now);
      case DeleteOld(before) => StatementsAdvance(w.db, code, "", "", Token("", [], ""), "", before);
      case _ => StatementsAdvance(w.db, code, "", "", Token("", [], ""), "", 0);
    }
  }

  /** Where a status can still go. */
  predicate Reaches(a: Status, b: Status) {
    a == b || a.Pending? || (a.ApprovedUnfetched? && b.Done?)
  }

  /** The same pairing, further on. */
  predicate Later(row: Row, row': Row) {
    && Reaches(row.status, row'.status)
    && row'.userCode == row.userCode && row'.requested == row.requested
    && row'.createdAt == row.createdAt && row'.expiresAt == row.expiresAt
    && (!row.status.Pending? && row.tokenId.Some? ==> row'.tokenId == row.tokenId)
  }

  lemma {:induction false} GoneStaysGone(w: World, steps: seq<Step>, code: string)
    requires code in w.usedDevices && code !in w.db.rows && FreshFrom(w, steps)
    ensures code !in RunFrom(w, steps).db.rows
    decreases steps
  {
    if steps != [] {
      NoRevival(w, steps[0], code);
      hide Next;
      GoneStaysGone(Next(w, steps[0]), steps[1..], code);
    }
  }

  lemma {:induction false} NoRevival(w: World, step: Step, code: string)
    requires code in w.usedDevices && code !in w.db.rows && FreshStart(w, step)
    ensures code in Next(w, step).usedDevices && code !in Next(w, step).db.rows
  {
    hide Decide, SubsetOf, Reply, Requested;
  }

  lemma {:induction false} UsedStays(w: World, step: Step, code: string)
    requires code in w.usedDevices
    ensures code in Next(w, step).usedDevices
  {
    hide Decide, SubsetOf, Reply, Requested, Inserted, Approved, DeniedBy, Fetched, ExpiredAt, DeletedBefore, Mint;
  }

  /** Through any run a pairing only moves on, and it disappears only after reaching an end. */
  lemma {:induction false} PairingHistory(w: World, steps: seq<Step>, code: string)
    requires code in w.db.rows && code in w.usedDevices && FreshFrom(w, steps)
    ensures code in RunFrom(w, steps).db.rows ==> Later(w.db.rows[code], RunFrom(w, steps).db.rows[code])
    decreases steps
  {
    if steps != [] {
      var next := Next(w, steps[0]);
      StepMoves(w, steps[0], code);
      UsedStays(w, steps[0], code);
      hide Next;
      if code in next.db.rows {
        PairingHistory(next, steps[1..], code);
      } else {
        GoneStaysGone(next, steps[1..], code);
      }
    }
  }

  lemma {:induction false} InsertKeeps(db: Db, step: Step, code: string)
    requires code in db.rows
    ensures step.Start? ==>
              var db' := Inserted(db, step.deviceCode,
                                  NewRow(step.userCode, Requested(step.asked, step.admin), step.now));
              db'.Some? ==> code in db'.value.rows && db'.value.rows[code] == db.rows[code]
  {
    hide Requested;
  }

  /** No step removes or rewrites a token. */
  lemma {:induction false} TokensKept(w: World, step: Step, id: string)
    requires id in w.db.tokens
    ensures id in Next(w, step).db.tokens && Next(w, step).db.tokens[id] == w.db.tokens[id]
  {
    hide Decide, SubsetOf, Reply, Mint, Requested;
  }

  /** Every 200 for a device code carries one and the same plaintext, whatever the interleaving. */
  lemma {:induction false} AnswersAgree(steps: seq<Step>, a: Sent, b: Sent)
    requires Fresh(steps) && a in Run(steps).answers && b in Run(steps).answers && a.deviceCode == b.deviceCode
    ensures a.plaintext == b.plaintext
  {
    hide Run;
    ReachableOk(steps);
  }

  /** Until some 200 has been written, the plaintext minted for a device code is still there for the next poll. */
  lemma {:induction false} UnansweredIsFetchable(steps: seq<Step>, code: string, now: Time)
    requires Fresh(steps)
    requires var w := Run(steps); code in w.minted && Sent(code, w.minted[code]) !in w.answers
    ensures var w := Run(steps);
            var reply := Reply(Find(w.db, code), now);
            reply.Found? && reply.plaintext == w.minted[code] && reply.tokenId in w.db.tokens
  {
    hide Run;
    ReachableOk(steps);
    var w := Run(steps);
    assert code in w.db.rows && RowOk(w, code, w.db.rows[code]);
  }

  /** A poll whose write fails changes nothing but itself, so no fetch is marked for it. */
  lemma {:induction false} FailedWriteMarksNothing(w: World, id: int, tokenReadFails: bool)
    ensures Next(w, Write(id, tokenReadFails, true)) == w.(polls := w.polls - {id})
  {
  }

  /** The pairing has been fetched, or is gone. */
  predicate Over(w: World, code: string) {
    code in w.usedDevices && (code in w.db.rows ==> w.db.rows[code].status.Done?)
  }

  lemma {:induction false} OverStays(w: World, step: Step, code: string)
    requires Over(w, code) && FreshStart(w, step)
    ensures Over(Next(w, step), code)
  {
    hide Decide, SubsetOf, Reply;
  }

  /** Once a fetch is marked, every later poll is told 410, or 404 when the row is deleted, for good. */
  lemma {:induction false} GoneForGood(w: World, steps: seq<Step>, code: string, now: Time)
    requires Over(w, code) && FreshFrom(w, steps)
    ensures var w' := RunFrom(w, steps);
            Reply(Find(w'.db, code), now) == if code in w'.db.rows then Gone else NotFound
    decreases steps
  {
    if steps != [] {
      hide Next;
      OverStays(w, steps[0], code);
      GoneForGood(Next(w, steps[0]), steps[1..], code, now);
    }
  }

  lemma {:induction false} MarkMakesOver(steps: seq<Step>, code: string)
    requires Fresh(steps) && code in Run(steps).scheduled
    ensures Over(Next(Run(steps), MarkFetched(code, false)), code)
  {
    hide Run;
    ReachableOk(steps);
    var w := Run(steps);
    assert Answered(w, code);
    if code in w.db.rows {
      assert RowOk(w, code, w.db.rows[code]);
    }
  }

  ghost function RunFrom(w: World, steps: seq<Step>): World
    decreases steps
  {
    if steps == [] then w else RunFrom(Next(w, steps[0]), steps[1..])
  }

  ghost predicate FreshFrom(w: World, steps: seq<Step>)
    decreases steps
  {
    steps == [] || (FreshStart(w, steps[0]) && FreshFrom(Next(w, steps[0]), steps[1..]))
  }

  // ----- The handlers are runs of these steps --------------------------------------------------------

  /** A poll nothing interrupts is a lookup and a write, and leaves behind just its answer and its mark. */
  lemma {:induction false} PollIsTwoSteps(w: World, id: int, code: string, now: Time, tokenReadFails: bool,
                                          writeFails: bool)
    requires id !in w.polls
    ensures var w' := Next(Next(w, Lookup(id, code, now)), Write(id, tokenReadFails, writeFails));
            var answer := PollOutcome(w.db, code, now, tokenReadFails, writeFails);
            w' == if answer.Token200? then
                    w.(answers := w.answers + {Sent(code, answer.plaintext)}, scheduled := w.scheduled + multiset{code})
                  else w
  {
    var reply := Reply(Find(w.db, code), now);
    if reply.Found? {
      assert w.polls[id := Holding(code, reply.plaintext, reply.tokenId)] - {id} == w.polls;
    }
  }

  /** An approval nothing interrupts is a lookup and a transaction. */
  lemma {:induction false} ApproveIsTwoSteps(w: World, id: int, caller: User, userCode: string, password: string,
                                             passwordOk: bool,
                                             asked: seq<string>, now: Time, tokenId: string, plaintext: string)
    requires id !in w.approvals
    ensures var w' := Next(Next(w, BeginApprove(id, caller, userCode, password, passwordOk, asked, now)),
                           CommitApprove(id, tokenId, plaintext));
            match Decide(caller, userCode, password, passwordOk, FindByUser(w.db, userCode), asked, now)
            case Reject(_) => w' == w
            case Grant(scopes) =>
              var db := Approved(w.db, userCode, tokenId, Token("device-pairing", scopes, caller.id), plaintext);
              w' == if db.Some? then w.(db := db.value, minted := Mint(w, userCode, plaintext)) else w
  {
    hide Approved;
    GrantWithinRequest(caller, userCode, password, passwordOk, FindByUser(w.db, userCode), asked, now);
    match Decide(caller, userCode, password, passwordOk, FindByUser(w.db, userCode), asked, now) {
      case Reject(_) =>
      case Grant(scopes) =>
        hide Decide;
        var requested := FindByUser(w.db, userCode).value.requested;
        assert w.approvals[id := Approval(userCode, scopes, caller.id, requested)] - {id} == w.approvals;
    }
  }
}
