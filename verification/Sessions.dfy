/** Cookie sessions with a sliding expiry. */
module Sessions {
  import opened Common

  datatype Session = Session(userId: string, secretHash: string, lastUsedAt: Time, expiresAt: Time)

  datatype UserState = Missing | Inactive | Active

  datatype Verdict = Accepted(userId: string) | Invalid | Expired

  const DEFAULT_TTL: Time := 30 * DAY
  const MIN_SLIDE: Time := HOUR

  // ----- Cookies ---------------------------------------------------------------------------------

  datatype Cut = NoCut | Halves(id: string, plaintext: string)

  /** The cookie split at its first dot; an empty half is malformed. */
  function Parse(cookie: string): Cut {
    var i := IndexOf(cookie, '.');
    if i < 0 || i == 0 || i + 1 == |cookie| then NoCut else Halves(cookie[..i], cookie[i + 1..])
  }

  function Join(id: string, plaintext: string): string {
    id + "." + plaintext
  }

  /** A cookie made from an id without dots comes apart into the halves it was made from. */
  lemma {:induction false} CookieRoundTrip(id: string, plaintext: string)
    requires id != "" && plaintext != ""
    ensures '.' !in id <==> Parse(Join(id, plaintext)) == Halves(id, plaintext)
  {
    var cookie := Join(id, plaintext);
    if '.' !in id {
      FirstAt(id, '.', plaintext);
      assert cookie[..|id|] == id && cookie[|id| + 1..] == plaintext;
    }
  }

  /** A cookie comes apart exactly at its first dot, into two halves that are not empty. */
  lemma {:induction false} ParseMeans(cookie: string, id: string, plaintext: string)
    ensures Parse(cookie) == Halves(id, plaintext) <==>
              cookie == id + "." + plaintext && '.' !in id && id != "" && plaintext != ""
  {
    if cookie == id + "." + plaintext && '.' !in id {
      FirstAt(id, '.', plaintext);
      assert cookie[..|id|] == id && cookie[|id| + 1..] == plaintext;
    }
    var i := IndexOf(cookie, '.');
    assert i >= 0 ==> cookie == cookie[..i] + "." + cookie[i + 1..];
  }

  // ----- One session, one lookup -----------------------------------------------------------------

  function Judge(row: Option<Session>, secretOk: bool, user: UserState, now: Time): Verdict {
    if row.None? || !secretOk then Invalid
    else if now > row.value.expiresAt then Expired
    else if !user.Active? then Invalid
    else Accepted(row.value.userId)
  }

  /** The row after a lookup: an overdue row or one of an inactive user is deleted, a stale one is extended. */
  function AfterLookup(row: Option<Session>, ttl: Time, secretOk: bool, user: UserState, now: Time,
                       writes: bool): Option<Session> {
    if row.None? || !secretOk || !writes then row
    else if now > row.value.expiresAt then None
    else if user.Missing? then row
    else if user.Inactive? then None
    else if now - row.value.lastUsedAt >= MIN_SLIDE then Some(row.value.(lastUsedAt := now, expiresAt := now + ttl))
    else row
  }

  function AfterExpiry(row: Option<Session>, now: Time): Option<Session> {
    if row.Some? && row.value.expiresAt < now then None else row
  }

  /** Who is let in: the holder of the secret of a stored session, up to its expiry, whose user is active. A right
    * secret after the expiry is told so; everything else is invalid. */
  lemma {:induction false} JudgeMeans(row: Option<Session>, secretOk: bool, user: UserState, now: Time)
    ensures var verdict := Judge(row, secretOk, user, now);
            && (verdict.Accepted? <==> row != None && secretOk && now <= row.value.expiresAt && user == Active)
            && (verdict == Expired <==> row != None && secretOk && now > row.value.expiresAt)
            && (verdict.Accepted? ==> verdict.userId == row.value.userId)
  {
  }

  /** What a lookup leaves of the row. One with the right secret deletes it after its expiry or when the user is
    * inactive, and extends it to TTL from now when it lets in a user it last stamped an hour ago or more; any other,
    * and any whose write fails, leaves it. */
  lemma {:induction false} LookupMeans(row: Option<Session>, ttl: Time, secretOk: bool, user: UserState, now: Time,
                                       writes: bool)
    ensures var row' := AfterLookup(row, ttl, secretOk, user, now, writes);
            var known := row != None && secretOk && writes;
            && (!known ==> row' == row)
            && (known ==>
                  var overdue := now > row.value.expiresAt;
                  && (row' == None <==> overdue || user == Inactive)
                  && (!overdue && user == Missing ==> row' == row)
                  && (!overdue && user == Active ==>
                        row' == Some(if now - row.value.lastUsedAt >= HOUR then
                                       Session(row.value.userId, row.value.secretHash, now, now + ttl)
                                     else row.value)))
  {
  }

  class SessionManager {
    const ttl: Time
    const hash: string -> string
    var rows: map<string, Session>

    constructor (ttl: Time, hash: string -> string)
      ensures rows == map[] && this.ttl == (if ttl == 0 then 30 * DAY else ttl) && this.hash == hash
    {
      this.ttl := if ttl == 0 then DEFAULT_TTL else ttl;
      this.hash := hash;
      rows := map[];
    }

    function Row(id: string): Option<Session>
      reads this`rows
    {
      if id in rows then Some(rows[id]) else None
    }

    /** The cookie a login sets. None is a failed insert. */
    method CreateSession(id: string, plaintext: string, userId: string, now: Time) returns (cookie: Option<string>)
      modifies this`rows
      ensures cookie.Some? <==> id != "" && id !in old(rows)
      ensures cookie.Some? ==> cookie == Some(Join(id, plaintext))
      ensures rows == if cookie.Some? then old(rows)[id := Session(userId, hash(plaintext), now, now + ttl)]
                      else old(rows)
    {
      if id == "" || id in rows {
        return None;
      }
      rows := rows[id := Session(userId, hash(plaintext), now, now + ttl)];
      return Some(Join(id, plaintext));
    }

    /** `writes` tells whether a delete or touch the lookup makes goes through: neither affects the verdict. */
    method Lookup(cookie: string, users: map<string, UserState>, now: Time, writes: bool) returns (verdict: Verdict)
      modifies this`rows
      ensures Parse(cookie).NoCut? ==> verdict.Invalid? && rows == old(rows)
      ensures Parse(cookie).Halves? ==>
                var id := Parse(cookie).id;
                var row := old(Row(id));
                var secretOk := row.Some? && hash(Parse(cookie).plaintext) == row.value.secretHash;
                var user := if row.Some? && row.value.userId in users then users[row.value.userId] else Missing;
                && verdict == Judge(row, secretOk, user, now)
                && Row(id) == AfterLookup(row, ttl, secretOk, user, now, writes)
                && forall other :: other != id ==> Row(other) == old(Row(other))
    {
      var cut := Parse(cookie);
      if cut.NoCut? || cut.id !in rows {
        return Invalid;
      }
      var sess := rows[cut.id];
      if hash(cut.plaintext) != sess.secretHash {
        return Invalid;
      }
      if now > sess.expiresAt {
        if writes {
          rows := rows - {cut.id};
        }
        return Expired;
      }
      if sess.userId !in users || users[sess.userId].Missing? {
        return Invalid;
      }
      if users[sess.userId].Inactive? {
        if writes {
          rows := rows - {cut.id};
        }
        return Invalid;
      }
      if now - sess.lastUsedAt >= MIN_SLIDE {
        if writes {
          rows := rows[cut.id := sess.(lastUsedAt := now, expiresAt := now + ttl)];
        }
      }
      return Accepted(sess.userId);
    }

    /** Logs out only the holder of the secret half. */
    method DeleteSession(cookie: string) returns (id: Option<string>)
      modifies this`rows
      ensures id.Some? <==>
                && Parse(cookie).Halves? && Parse(cookie).id in old(rows)
                && hash(Parse(cookie).plaintext) == old(rows)[Parse(cookie).id].secretHash
      ensures id.Some? ==> id == Some(Parse(cookie).id)
      ensures rows == if id.Some? then old(rows) - {id.value} else old(rows)
    {
      var cut := Parse(cookie);
      if cut.NoCut? || cut.id !in rows || hash(cut.plaintext) != rows[cut.id].secretHash {
        return None;
      }
      rows := rows - {cut.id};
      return Some(cut.id);
    }

    method DeleteExpired(now: Time)
      modifies this`rows
      ensures forall id :: Row(id) == AfterExpiry(old(Row(id)), now)
      ensures forall id :: id in rows <==> id in old(rows) && now <= old(rows)[id].expiresAt
      ensures forall id :: id in rows ==> rows[id] == old(rows)[id]
    {
      rows := map id | id in rows && !(rows[id].expiresAt < now) :: rows[id];
    }
  }

  // ----- Runs of one session -----------------------------------------------------------------------

  /** A lookup that found the row and whose secret is right: what it read and when, or the write it has still to
    * make. */
  datatype Phase = Read(sess: Session, since: Time) | Sliding(now: Time, since: Time) | Killing

  /** The row, and any number of lookups on their way. */
  datatype State = State(row: Option<Session>, requests: map<int, Phase>)

  /** Reading the row, deciding by the clock and the user, and writing are separate steps; a lookup without the row or
    * with a wrong secret ends at the first. */
  datatype Op =
    | Look(id: int, at: Time, secretOk: bool)
    | Decide(id: int, at: Time, user: UserState)
    | Write(id: int, at: Time, ok: bool)
    | Sweep(at: Time)

  predicate Chronological(from: Time, ops: seq<Op>)
    decreases ops
  {
    ops == [] || (from <= ops[0].at && Chronological(ops[0].at, ops[1..]))
  }

  predicate Reading(s: State, id: int) {
    id in s.requests && s.requests[id].Read?
  }

  function Slid(row: Option<Session>, ttl: Time, now: Time): Option<Session> {
    if row.Some? then Some(row.value.(lastUsedAt := now, expiresAt := now + ttl)) else None
  }

  function Next(s: State, ttl: Time, op: Op): State {
    match op
    case Look(id, at, secretOk) =>
      if id in s.requests || s.row.None? || !secretOk then s
      else s.(requests := s.requests[id := Read(s.row.value, at)])
    case Decide(id, at, user) =>
      if !Reading(s, id) then s
      else
        var sess, since := s.requests[id].sess, s.requests[id].since;
        if at > sess.expiresAt || user.Inactive? then s.(requests := s.requests[id := Killing])
        else if user.Active? && at - sess.lastUsedAt >= MIN_SLIDE then
          s.(requests := s.requests[id := Sliding(at, since)])
        else s.(requests := s.requests - {id})
    case Write(id, _, ok) =>
      if id !in s.requests || s.requests[id].Read? then s
      else
        var row := if s.requests[id].Killing? then None else Slid(s.row, ttl, s.requests[id].now);
        State(if ok then row else s.row, s.requests - {id})
    case Sweep(at) => s.(row := AfterExpiry(s.row, at))
  }

  /** The step lets its caller in. */
  predicate LetsIn(s: State, op: Op) {
    op.Decide? && Reading(s, op.id) && Judge(Some(s.requests[op.id].sess), true, op.user, op.at).Accepted?
  }

  function RunOn(s: State, ttl: Time, ops: seq<Op>): State
    decreases ops
  {
    if ops == [] then s else RunOn(Next(s, ttl, ops[0]), ttl, ops[1..])
  }

  /** For each step of a run that is not a sweep, whether it lets its caller in. */
  function LetIn(s: State, ttl: Time, ops: seq<Op>): seq<bool>
    decreases ops
  {
    if ops == [] then []
    else (if ops[0].Sweep? then [] else [LetsIn(s, ops[0])]) + LetIn(Next(s, ttl, ops[0]), ttl, ops[1..])
  }

  function WithoutSweeps(ops: seq<Op>): seq<Op> {
    if ops == [] then [] else (if ops[0].Sweep? then [] else [ops[0]]) + WithoutSweeps(ops[1..])
  }

  /** A lookup nothing interrupts does what SessionManager.Lookup does. */
  lemma {:induction false} LookupIsSteps(s: State, ttl: Time, id: int, at: Time, secretOk: bool, user: UserState,
                                         ok: bool)
    requires id !in s.requests
    ensures var looked := Next(s, ttl, Look(id, at, secretOk));
            var s' := Next(Next(looked, ttl, Decide(id, at, user)), ttl, Write(id, at, ok));
            && s' == State(AfterLookup(s.row, ttl, secretOk, user, at, ok), s.requests)
            && (LetsIn(looked, Decide(id, at, user)) <==> Judge(s.row, secretOk, user, at).Accepted?)
  {
    if s.row.Some? && secretOk {
      FoundSteps(s, ttl, id, at, user, ok);
    }
  }

  lemma {:induction false} FoundSteps(s: State, ttl: Time, id: int, at: Time, user: UserState, ok: bool)
    requires id !in s.requests && s.row.Some?
    ensures var looked := s.(requests := s.requests[id := Read(s.row.value, at)]);
            var s' := Next(Next(looked, ttl, Decide(id, at, user)), ttl, Write(id, at, ok));
            s' == State(AfterLookup(s.row, ttl, true, user, at, ok), s.requests)
  {
    var read := Read(s.row.value, at);
    PutTake(s.requests, id, read, Killing);
    PutTake(s.requests, id, read, Sliding(at, at));
  }

  lemma {:induction false} PutTake(requests: map<int, Phase>, id: int, p: Phase, q: Phase)
    requires id !in requests
    ensures requests[id := p] - {id} == requests && requests[id := p][id := q] - {id} == requests
  {
  }

  // ----- Sweeps ----------------------------------------------------------------------------------------

  /** A lookup that can still bring a row that is overdue at `now` back to life: it has read one that is not overdue,
    * or has a newer expiry to write. */
  predicate Hot(p: Phase, ttl: Time, now: Time) {
    match p
    case Read(sess, _) => sess.expiresAt >= now
    case Sliding(t, _) => t + ttl >= now
    case Killing => false
  }

  ghost predicate AnyHot(s: State, ttl: Time, now: Time) {
    exists id :: id in s.requests && Hot(s.requests[id], ttl, now)
  }

  predicate Overdue(row: Option<Session>, now: Time) {
    row.Some? && row.value.expiresAt < now
  }

  predicate AllOut(b: seq<bool>) {
    b == [] || (!b[0] && AllOut(b[1..]))
  }

  lemma {:induction false} DeadStep(s: State, ttl: Time, from: Time, op: Op)
    requires (s.row.None? || Overdue(s.row, from)) && !AnyHot(s, ttl, from) && from <= op.at
    ensures var s' := Next(s, ttl, op); (s'.row.None? || Overdue(s'.row, op.at)) && !AnyHot(s', ttl, op.at)
    ensures !LetsIn(s, op)
  {
    var s' := Next(s, ttl, op);
    forall id | id in s'.requests ensures !Hot(s'.requests[id], ttl, op.at) {
      assert id in s.requests ==> !Hot(s.requests[id], ttl, from);
      assert op.Decide? && op.id in s.requests ==> !Hot(s.requests[op.id], ttl, from);
    }
    if op.Decide? || op.Write? {
      assert op.id in s.requests ==> !Hot(s.requests[op.id], ttl, from);
    }
  }

  /** With the row gone or overdue and nothing to bring it back, nobody is let in again. */
  lemma {:induction false} DeadStaysDead(s: State, ttl: Time, from: Time, ops: seq<Op>)
    requires (s.row.None? || Overdue(s.row, from)) && !AnyHot(s, ttl, from) && Chronological(from, ops)
    ensures AllOut(LetIn(s, ttl, ops))
    decreases ops
  {
    if ops != [] {
      DeadStep(s, ttl, from, ops[0]);
      hide Next, AnyHot, LetsIn;
      var rest := LetIn(Next(s, ttl, ops[0]), ttl, ops[1..]);
      DeadStaysDead(Next(s, ttl, ops[0]), ttl, ops[0].at, ops[1..]);
      assert ops[0].Sweep? ==> LetIn(s, ttl, ops) == rest;
      assert !ops[0].Sweep? ==> LetIn(s, ttl, ops)[1..] == rest;
    }
  }

  lemma {:induction false} AllOutAlike(a: seq<bool>, b: seq<bool>)
    requires AllOut(a) && AllOut(b) && |a| == |b|
    ensures a == b
  {
    if a != [] {
      AllOutAlike(a[1..], b[1..]);
      assert a == [a[0]] + a[1..] && b == [b[0]] + b[1..];
    }
  }

  lemma {:induction false} LetInLength(s: State, ttl: Time, ops: seq<Op>)
    ensures |LetIn(s, ttl, ops)| == |WithoutSweeps(ops)|
    decreases ops
  {
    if ops != [] {
      LetInLength(Next(s, ttl, ops[0]), ttl, ops[1..]);
    }
  }

  /** What is known of the lookups: what they read, and set out to write, runs TTL from its stamp. */
  ghost predicate Sane(s: State, ttl: Time) {
    && (s.row.Some? ==> s.row.value.expiresAt == s.row.value.lastUsedAt + ttl)
    && forall id :: id in s.requests && s.requests[id].Read? ==>
         s.requests[id].sess.expiresAt == s.requests[id].sess.lastUsedAt + ttl
  }

  lemma {:induction false} SaneRun(s: State, ttl: Time, ops: seq<Op>)
    requires Sane(s, ttl)
    ensures Sane(RunOn(s, ttl, ops), ttl)
    decreases ops
  {
    if ops != [] {
      SaneRun(Next(s, ttl, ops[0]), ttl, ops[1..]);
    }
  }

  /** The row a login leaves. */
  function Login(userId: string, secretHash: string, ttl: Time, at: Time): State {
    State(Some(Session(userId, secretHash, at, at + ttl)), map[])
  }

  /** When deleting an overdue row shows, after any run from a login. Some later lookup then gets another answer than
    * without the sweep, in some continuation, if and only if a lookup on its way can still bring the row back. */
  lemma {:induction false} SweepShowsIff(userId: string, secretHash: string, ttl: Time, login: Time, before: seq<Op>,
                                         at: Time)
    requires ttl >= MIN_SLIDE && Overdue(RunOn(Login(userId, secretHash, ttl, login), ttl, before).row, at)
    ensures var s := RunOn(Login(userId, secretHash, ttl, login), ttl, before);
            var swept := Next(s, ttl, Sweep(at));
            (exists ops :: Chronological(at, ops) && LetIn(swept, ttl, ops) != LetIn(s, ttl, ops)) <==>
              AnyHot(s, ttl, at)
  {
    SaneRun(Login(userId, secretHash, ttl, login), ttl, before);
    SweepShows(RunOn(Login(userId, secretHash, ttl, login), ttl, before), ttl, at);
  }

  lemma {:induction false} SweepShows(s: State, ttl: Time, at: Time)
    requires Sane(s, ttl) && ttl >= MIN_SLIDE && Overdue(s.row, at)
    ensures var swept := Next(s, ttl, Sweep(at));
            (exists ops :: Chronological(at, ops) && LetIn(swept, ttl, ops) != LetIn(s, ttl, ops)) <==>
              AnyHot(s, ttl, at)
  {
    var swept := Next(s, ttl, Sweep(at));
    if AnyHot(s, ttl, at) {
      var id :| id in s.requests && Hot(s.requests[id], ttl, at);
      var ops := Revives(s, ttl, at, id);
    } else {
      forall ops | Chronological(at, ops) ensures LetIn(swept, ttl, ops) == LetIn(s, ttl, ops) {
        DeadStaysDead(s, ttl, at, ops);
        DeadStaysDead(swept, ttl, at, ops);
        LetInLength(s, ttl, ops);
        LetInLength(swept, ttl, ops);
        AllOutAlike(LetIn(swept, ttl, ops), LetIn(s, ttl, ops));
      }
    }
  }

  /** The row is brought back, and then let in on; or it is gone. */
  lemma {:induction false} Revives(s: State, ttl: Time, at: Time, id: int) returns (ops: seq<Op>)
    requires Sane(s, ttl) && ttl >= MIN_SLIDE && Overdue(s.row, at)
    requires id in s.requests && Hot(s.requests[id], ttl, at)
    ensures Chronological(at, ops) && LetIn(Next(s, ttl, Sweep(at)), ttl, ops) != LetIn(s, ttl, ops)
  {
    var swept := Next(s, ttl, Sweep(at));
    if s.requests[id].Sliding? {
      ops := Lands(s, swept, ttl, at, id);
    } else {
      var sess := s.requests[id].sess;
      var now := if at < sess.lastUsedAt + MIN_SLIDE then sess.lastUsedAt + MIN_SLIDE else at;
      var decide := Decide(id, now, Active);
      var a, b := Next(s, ttl, decide), Next(swept, ttl, decide);
      var more := Lands(a, b, ttl, now, id);
      ops := [decide] + more;
      assert ops[1..] == more;
      assert LetIn(s, ttl, ops)[1..] == LetIn(a, ttl, more);
      assert LetIn(swept, ttl, ops)[1..] == LetIn(b, ttl, more);
    }
  }

  lemma {:induction false} Lands(s: State, swept: State, ttl: Time, at: Time, id: int) returns (ops: seq<Op>)
    requires id in s.requests && s.requests[id].Sliding? && s.requests[id].now + ttl >= at && s.row.Some?
    requires swept == s.(row := None)
    ensures Chronological(at, ops) && LetIn(swept, ttl, ops) != LetIn(s, ttl, ops)
  {
    var write, look, decide := Write(id, at, true), Look(id, at, true), Decide(id, at, Active);
    ops := [write, look, decide];
    assert ops[1..] == [look, decide] && ops[1..][1..] == [decide] && [decide][1..] == [];
    var a1, b1 := Next(s, ttl, write), Next(swept, ttl, write);
    var a2, b2 := Next(a1, ttl, look), Next(b1, ttl, look);
    assert a2.requests[id] == Read(a1.row.value, at) && id !in b2.requests;
    assert LetsIn(a2, decide) && !LetsIn(b2, decide);
    ThreeSteps(s, ttl, write, look, decide);
    ThreeSteps(swept, ttl, write, look, decide);
    assert Chronological(at, [decide]) && Chronological(at, [look, decide]);
  }

  lemma {:induction false} ThreeSteps(s: State, ttl: Time, a: Op, b: Op, c: Op)
    requires !a.Sweep? && !b.Sweep? && !c.Sweep?
    ensures var s1 := Next(s, ttl, a);
            LetIn(s, ttl, [a, b, c]) == [LetsIn(s, a), LetsIn(s1, b), LetsIn(Next(s1, ttl, b), c)]
  {
    hide Next, LetsIn;
    var s1 := Next(s, ttl, a);
    var s2 := Next(s1, ttl, b);
    assert [a, b, c][1..] == [b, c] && [b, c][1..] == [c] && [c][1..] == [];
    assert LetIn(s2, ttl, [c]) == [LetsIn(s2, c)] + LetIn(Next(s2, ttl, c), ttl, []);
    assert LetIn(s1, ttl, [b, c]) == [LetsIn(s1, b)] + LetIn(s2, ttl, [c]);
  }

  /** It does happen: a lookup lets its caller in on the last instant of the row, which a sweep deletes before the new
    * expiry is written. */
  lemma {:induction false} SweptInFlight(userId: string, secretHash: string, ttl: Time) returns (before: seq<Op>)
    requires ttl >= MIN_SLIDE
    ensures Chronological(0, before)
    ensures var s := RunOn(Login(userId, secretHash, ttl, 0), ttl, before);
            Overdue(s.row, ttl + 1) && AnyHot(s, ttl, ttl + 1)
  {
    var s0, look, decide := Login(userId, secretHash, ttl, 0), Look(1, ttl, true), Decide(1, ttl, Active);
    before := [look, decide];
    assert before[1..] == [decide] && Chronological(ttl, []) && Chronological(ttl, [decide]);
    var s1 := Next(s0, ttl, look);
    var s2 := Next(s1, ttl, decide);
    assert RunOn(s0, ttl, before) == s2 by {
      assert RunOn(s2, ttl, []) == s2;
      assert RunOn(s1, ttl, [decide]) == RunOn(s2, ttl, []);
    }
    assert 1 in s2.requests && s2.requests[1] == Sliding(ttl, ttl);
  }

  /** No sweep of the run deletes the row while a lookup can still bring it back. */
  ghost predicate ColdSweeps(s: State, ttl: Time, ops: seq<Op>)
    decreases ops
  {
    ops == [] ||
    (&& (ops[0].Sweep? && Overdue(s.row, ops[0].at) ==> !AnyHot(s, ttl, ops[0].at))
     && ColdSweeps(Next(s, ttl, ops[0]), ttl, ops[1..]))
  }

  /** Such sweeps, at whatever moments and however lookups overlap, change nobody's access. */
  lemma {:induction false} SweepIsInvisible(s: State, ttl: Time, from: Time, ops: seq<Op>)
    requires Chronological(from, ops) && ColdSweeps(s, ttl, ops)
    ensures LetIn(s, ttl, ops) == LetIn(s, ttl, WithoutSweeps(ops))
    decreases ops
  {
    if ops != [] {
      var op, rest := ops[0], ops[1..];
      var next := Next(s, ttl, op);
      if op.Sweep? && next != s {
        WithoutLater(op.at, rest);
        DeadStaysDead(next, ttl, op.at, rest);
        DeadStaysDead(s, ttl, op.at, WithoutSweeps(rest));
        LetInLength(next, ttl, rest);
        LetInLength(s, ttl, WithoutSweeps(rest));
        WithoutTwice(rest);
        AllOutAlike(LetIn(next, ttl, rest), LetIn(s, ttl, WithoutSweeps(rest)));
        assert WithoutSweeps(ops) == WithoutSweeps(rest);
      } else {
        hide Next, LetsIn, AnyHot;
        SweepIsInvisible(next, ttl, op.at, rest);
        if op.Sweep? {
          assert WithoutSweeps(ops) == WithoutSweeps(rest);
        } else {
          assert WithoutSweeps(ops)[0] == op && WithoutSweeps(ops)[1..] == WithoutSweeps(rest);
        }
      }
    }
  }

  lemma {:induction false} WithoutLater(from: Time, ops: seq<Op>)
    requires Chronological(from, ops)
    ensures Chronological(from, WithoutSweeps(ops))
    decreases ops
  {
    if ops != [] {
      var rest := WithoutSweeps(ops[1..]);
      WithoutLater(ops[0].at, ops[1..]);
      if ops[0].Sweep? {
        assert WithoutSweeps(ops) == rest;
        assert rest != [] ==> ops[0].at <= rest[0].at;
      } else {
        assert WithoutSweeps(ops)[1..] == rest;
      }
    }
  }

  lemma {:induction false} WithoutTwice(ops: seq<Op>)
    ensures WithoutSweeps(WithoutSweeps(ops)) == WithoutSweeps(ops)
  {
    if ops != [] {
      WithoutTwice(ops[1..]);
      if ops[0].Sweep? {
        assert WithoutSweeps(ops) == WithoutSweeps(ops[1..]);
      } else {
        assert WithoutSweeps(ops)[1..] == WithoutSweeps(ops[1..]);
      }
    }
  }

  // ----- The sliding window ------------------------------------------------------------------------

  /** A lookup on its way at `now` began no more than `delay` before. */
  predicate Prompt(p: Phase, delay: Time, now: Time) {
    !p.Killing? ==> now <= p.since + delay
  }

  /** The owner's lookups find an active user, their writes go through, none takes longer than `delay` from its read to
    * its write, and none decides more than `gap` after the one before it. They may overlap in any way, and lookups with
    * a wrong secret may come from anyone at any time. `last` is when the owner was last let in or logged in. */
  ghost predicate Regular(s: State, ttl: Time, last: Time, from: Time, gap: Time, delay: Time, ops: seq<Op>)
    decreases ops
  {
    ops == [] ||
    (&& from <= ops[0].at && (forall id :: id in s.requests ==> Prompt(s.requests[id], delay, ops[0].at))
     && (ops[0].Decide? ==> ops[0].user.Active? && ops[0].at <= last + gap) && (ops[0].Write? ==> ops[0].ok)
     && Regular(Next(s, ttl, ops[0]), ttl, LastAfter(s, last, ops[0]), ops[0].at, gap, delay, ops[1..]))
  }

  function LastAfter(s: State, last: Time, op: Op): Time {
    if LetsIn(s, op) then op.at else last
  }

  /** Every one of the owner's lookups that comes to its decision is let in. */
  predicate OwnerLetIn(s: State, ttl: Time, ops: seq<Op>)
    decreases ops
  {
    ops == [] ||
    (&& (ops[0].Decide? && Reading(s, ops[0].id) ==> LetsIn(s, ops[0]))
     && OwnerLetIn(Next(s, ttl, ops[0]), ttl, ops[1..]))
  }

  /** What the bounds come to: how far the stamp may lie behind the last use when no stamp is on its way, and behind one
    * that is. */
  function Slack(delay: Time): Time {
    MIN_SLIDE + 2 * delay
  }

  function Reserve(gap: Time, delay: Time): Time {
    gap + Slack(delay)
  }

  predicate IsSliding(s: State, id: int) {
    id in s.requests && s.requests[id].Sliding?
  }

  /** With no stamp on its way the stored one is near the last use; otherwise it is in reach of one on its way. */
  ghost predicate Stamped(s: State, last: Time, gap: Time, delay: Time)
    requires s.row.Some?
  {
    var stamp := s.row.value.lastUsedAt;
    || (stamp > last - Slack(delay) && forall id :: !IsSliding(s, id))
    || exists id :: IsSliding(s, id) && stamp > s.requests[id].now - Reserve(gap, delay)
  }

  predicate PhaseOk(s: State, p: Phase, ttl: Time, last: Time, now: Time, gap: Time, delay: Time)
    requires s.row.Some?
  {
    match p
    case Read(sess, since) =>
      && since <= now && sess.expiresAt == sess.lastUsedAt + ttl
      && sess.lastUsedAt > since - delay - Reserve(gap, delay)
      && (s.row.value.lastUsedAt == sess.lastUsedAt || s.row.value.lastUsedAt >= since - delay)
    case Sliding(t, since) => since <= t <= last
    case Killing => false
  }

  ghost predicate Kept(s: State, ttl: Time, last: Time, now: Time, gap: Time, delay: Time) {
    && s.row.Some? && s.row.value.expiresAt == s.row.value.lastUsedAt + ttl && last <= now
    && Stamped(s, last, gap, delay)
    && forall id :: id in s.requests ==> PhaseOk(s, s.requests[id], ttl, last, now, gap, delay)
  }

  /** The stored stamp is never far behind the clock while the owner keeps coming back. */
  lemma {:induction false} StampNear(s: State, ttl: Time, last: Time, now: Time, at: Time, gap: Time, delay: Time)
    requires Kept(s, ttl, last, now, gap, delay) && now <= at <= last + gap && delay >= 0
    requires forall id :: id in s.requests ==> Prompt(s.requests[id], delay, at)
    ensures s.row.value.lastUsedAt > at - delay - Reserve(gap, delay)
  {
    if exists id :: IsSliding(s, id) && s.row.value.lastUsedAt > s.requests[id].now - Reserve(gap, delay) {
      var id :| IsSliding(s, id) && s.row.value.lastUsedAt > s.requests[id].now - Reserve(gap, delay);
      assert Prompt(s.requests[id], delay, at) && PhaseOk(s, s.requests[id], ttl, last, now, gap, delay);
    }
  }

  lemma {:induction false} DecideKept(s: State, ttl: Time, last: Time, now: Time, op: Op, gap: Time, delay: Time)
    requires Kept(s, ttl, last, now, gap, delay) && now <= op.at <= last + gap && gap >= 0 && delay >= 0
    requires forall id :: id in s.requests ==> Prompt(s.requests[id], delay, op.at)
    requires op.Decide? && Reading(s, op.id) && op.user.Active? && ttl >= Reserve(gap, delay) + 2 * delay
    ensures LetsIn(s, op) && Kept(Next(s, ttl, op), ttl, op.at, op.at, gap, delay)
  {
    var s', id := Next(s, ttl, op), op.id;
    assert Prompt(s.requests[id], delay, op.at) && PhaseOk(s, s.requests[id], ttl, last, now, gap, delay);
    forall other | other in s'.requests ensures PhaseOk(s', s'.requests[other], ttl, op.at, op.at, gap, delay) {
      assert PhaseOk(s, s.requests[other], ttl, last, now, gap, delay);
    }
    assert s'.row == s.row;
    if exists one :: IsSliding(s, one) && s.row.value.lastUsedAt > s.requests[one].now - Reserve(gap, delay) {
      var one :| IsSliding(s, one) && s.row.value.lastUsedAt > s.requests[one].now - Reserve(gap, delay);
      assert IsSliding(s', one) && s'.requests[one] == s.requests[one];
    } else if IsSliding(s', id) {
      assert s'.requests[id].now == op.at;
    } else {
      assert forall other :: IsSliding(s', other) ==> IsSliding(s, other);
    }
  }

  lemma {:induction false} WriteKept(s: State, ttl: Time, last: Time, now: Time, op: Op, gap: Time, delay: Time)
    requires Kept(s, ttl, last, now, gap, delay) && now <= op.at && gap >= 0 && delay >= 0
    requires forall id :: id in s.requests ==> Prompt(s.requests[id], delay, op.at)
    requires op.Write? && op.ok && IsSliding(s, op.id)
    ensures Kept(Next(s, ttl, op), ttl, last, op.at, gap, delay)
  {
    var s', id := Next(s, ttl, op), op.id;
    assert Prompt(s.requests[id], delay, op.at) && PhaseOk(s, s.requests[id], ttl, last, now, gap, delay);
    forall other | other in s'.requests
      ensures PhaseOk(s', s'.requests[other], ttl, last, op.at, gap, delay)
    {
      assert PhaseOk(s, s.requests[other], ttl, last, now, gap, delay);
    }
    if exists other :: IsSliding(s', other) {
      var other :| IsSliding(s', other);
      assert PhaseOk(s', s'.requests[other], ttl, last, op.at, gap, delay);
      assert s'.row.value.lastUsedAt > s'.requests[other].now - Reserve(gap, delay);
    }
  }

  lemma {:induction false} LookKept(s: State, ttl: Time, last: Time, now: Time, op: Op, gap: Time, delay: Time)
    requires Kept(s, ttl, last, now, gap, delay) && now <= op.at <= last + gap && delay >= 0 && op.Look?
    requires forall id :: id in s.requests ==> Prompt(s.requests[id], delay, op.at)
    ensures Kept(Next(s, ttl, op), ttl, last, op.at, gap, delay)
  {
    var s' := Next(s, ttl, op);
    StampNear(s, ttl, last, now, op.at, gap, delay);
    forall id | id in s'.requests ensures PhaseOk(s', s'.requests[id], ttl, last, op.at, gap, delay) {
      assert id in s.requests ==> PhaseOk(s, s.requests[id], ttl, last, now, gap, delay);
    }
    SameSliding(s, s', last, gap, delay);
  }

  lemma {:induction false} SameSliding(s: State, s': State, last: Time, gap: Time, delay: Time)
    requires s.row.Some? && s'.row == s.row && Stamped(s, last, gap, delay)
    requires forall id :: IsSliding(s', id) <==> IsSliding(s, id)
    requires forall id :: IsSliding(s, id) ==> id in s'.requests && s'.requests[id] == s.requests[id]
    ensures Stamped(s', last, gap, delay)
  {
    if exists id :: IsSliding(s, id) && s.row.value.lastUsedAt > s.requests[id].now - Reserve(gap, delay) {
      var id :| IsSliding(s, id) && s.row.value.lastUsedAt > s.requests[id].now - Reserve(gap, delay);
      assert IsSliding(s', id) && s'.requests[id] == s.requests[id];
    }
  }

  lemma {:induction false} TimeKept(s: State, ttl: Time, last: Time, now: Time, at: Time, gap: Time, delay: Time)
    requires Kept(s, ttl, last, now, gap, delay) && now <= at
    ensures Kept(s, ttl, last, at, gap, delay)
  {
    hide Stamped;
    forall id | id in s.requests ensures PhaseOk(s, s.requests[id], ttl, last, at, gap, delay) {
      assert PhaseOk(s, s.requests[id], ttl, last, now, gap, delay);
    }
  }

  lemma {:induction false} StepKept(s: State, ttl: Time, last: Time, now: Time, op: Op, gap: Time, delay: Time)
    requires Kept(s, ttl, last, now, gap, delay) && now <= op.at <= last + gap && gap >= 0 && delay >= 0
    requires forall id :: id in s.requests ==> Prompt(s.requests[id], delay, op.at)
    requires (op.Decide? ==> op.user.Active?) && (op.Write? ==> op.ok)
    requires ttl >= Reserve(gap, delay) + 2 * delay
    ensures Kept(Next(s, ttl, op), ttl, LastAfter(s, last, op), op.at, gap, delay)
    ensures op.Decide? && Reading(s, op.id) ==> LetsIn(s, op)
  {
    hide Kept, Judge;
    match op {
      case Look(_, _, _) => LookKept(s, ttl, last, now, op, gap, delay);
      case Decide(id, at, _) =>
        if Reading(s, id) {
          DecideKept(s, ttl, last, now, op, gap, delay);
        } else {
          TimeKept(s, ttl, last, now, at, gap, delay);
        }
      case Write(id, at, _) =>
        if IsSliding(s, id) {
          WriteKept(s, ttl, last, now, op, gap, delay);
        } else {
          NoKilling(s, ttl, last, now, gap, delay, id);
          TimeKept(s, ttl, last, now, at, gap, delay);
        }
      case Sweep(at) =>
        StampNear(s, ttl, last, now, at, gap, delay);
        RowKept(s, ttl, last, now, gap, delay);
        TimeKept(s, ttl, last, now, at, gap, delay);
        assert Next(s, ttl, op) == s;
    }
  }

  lemma {:induction false} NoKilling(s: State, ttl: Time, last: Time, now: Time, gap: Time, delay: Time, id: int)
    requires Kept(s, ttl, last, now, gap, delay)
    ensures id in s.requests ==> !s.requests[id].Killing?
  {
    assert id in s.requests ==> PhaseOk(s, s.requests[id], ttl, last, now, gap, delay);
  }

  lemma {:induction false} RowKept(s: State, ttl: Time, last: Time, now: Time, gap: Time, delay: Time)
    requires Kept(s, ttl, last, now, gap, delay)
    ensures s.row.Some? && s.row.value.expiresAt == s.row.value.lastUsedAt + ttl
  {
  }

  lemma {:induction false} StaysAlive(s: State, ttl: Time, last: Time, from: Time, gap: Time, delay: Time, ops: seq<Op>)
    requires Regular(s, ttl, last, from, gap, delay, ops) && last <= from && gap >= 0 && delay >= 0
    requires from <= last + gap ==> Kept(s, ttl, last, from, gap, delay)
    requires ttl >= Reserve(gap, delay) + 2 * delay
    ensures OwnerLetIn(s, ttl, ops)
    decreases ops
  {
    if ops != [] {
      var op := ops[0];
      hide Kept, Next, LetsIn;
      if op.at <= last + gap {
        StepKept(s, ttl, last, from, op, gap, delay);
      }
      StaysAlive(Next(s, ttl, op), ttl, LastAfter(s, last, op), op.at, gap, delay, ops[1..]);
    }
  }

  /** From a login on, an owner whose lookups take up to `delay` each, and who comes back within TTL - 1h - 4 * delay
    * every time, is always let in, however long that goes on, however the lookups overlap, whatever is swept, and
    * whatever wrong secrets others try in between. */
  lemma {:induction false} KeptAlive(userId: string, secretHash: string, ttl: Time, login: Time, delay: Time,
                                     ops: seq<Op>)
    requires delay >= 0 && ttl >= MIN_SLIDE + 4 * delay
    requires Regular(Login(userId, secretHash, ttl, login), ttl, login, login, ttl - MIN_SLIDE - 4 * delay, delay, ops)
    ensures OwnerLetIn(Login(userId, secretHash, ttl, login), ttl, ops)
  {
    var s := Login(userId, secretHash, ttl, login);
    assert forall id :: !IsSliding(s, id);
    StaysAlive(s, ttl, login, login, ttl - MIN_SLIDE - 4 * delay, delay, ops);
  }

  // ----- The end of a session ------------------------------------------------------------------------

  /** When the run last let its owner in; `last` if it never did. */
  function LastIn(s: State, ttl: Time, last: Time, ops: seq<Op>): Time
    decreases ops
  {
    if ops == [] then last else LastIn(Next(s, ttl, ops[0]), ttl, LastAfter(s, last, ops[0]), ops[1..])
  }

  /** No stamp, stored, read or to be written, is newer than the last success. */
  ghost predicate Bounded(s: State, ttl: Time, last: Time) {
    && (s.row.Some? ==> s.row.value.expiresAt <= last + ttl)
    && forall id :: id in s.requests ==> BoundedPhase(s.requests[id], ttl, last)
  }

  predicate BoundedPhase(p: Phase, ttl: Time, last: Time) {
    match p
    case Read(sess, _) => sess.expiresAt <= last + ttl
    case Sliding(t, _) => t <= last
    case Killing => true
  }

  lemma {:induction false} BoundedStep(s: State, ttl: Time, last: Time, op: Op)
    requires Bounded(s, ttl, last) && last <= op.at
    ensures Bounded(Next(s, ttl, op), ttl, LastAfter(s, last, op))
  {
    var s', last' := Next(s, ttl, op), LastAfter(s, last, op);
    forall id | id in s'.requests ensures BoundedPhase(s'.requests[id], ttl, last') {
      assert id in s.requests ==> BoundedPhase(s.requests[id], ttl, last);
    }
    if op.Write? && op.id in s.requests {
      assert BoundedPhase(s.requests[op.id], ttl, last);
    }
  }

  lemma {:induction false} ExpiryTracksLast(s: State, ttl: Time, last: Time, from: Time, ops: seq<Op>)
    requires Bounded(s, ttl, last) && last <= from && Chronological(from, ops)
    ensures Bounded(RunOn(s, ttl, ops), ttl, LastIn(s, ttl, last, ops))
    decreases ops
  {
    if ops != [] {
      var op := ops[0];
      BoundedStep(s, ttl, last, op);
      hide Bounded, Next, LetsIn;
      ExpiryTracksLast(Next(s, ttl, op), ttl, LastAfter(s, last, op), op.at, ops[1..]);
    }
  }

  /** In every run from a login, however lookups overlap, none that comes to its decision more than TTL after the last
    * success is let in, whoever makes it and however many there are. */
  lemma {:induction false} TooLateFails(userId: string, secretHash: string, ttl: Time, login: Time, ops: seq<Op>,
                                        late: seq<Op>)
    requires Chronological(login, ops)
    requires var last := LastIn(Login(userId, secretHash, ttl, login), ttl, login, ops);
             Chronological(last + ttl + 1, late)
    ensures AllOut(LetIn(RunOn(Login(userId, secretHash, ttl, login), ttl, ops), ttl, late))
  {
    var s := Login(userId, secretHash, ttl, login);
    var last := LastIn(s, ttl, login, ops);
    ExpiryTracksLast(s, ttl, login, login, ops);
    var s' := RunOn(s, ttl, ops);
    forall id | id in s'.requests ensures !Hot(s'.requests[id], ttl, last + ttl + 1) {
      assert BoundedPhase(s'.requests[id], ttl, last);
    }
    DeadStaysDead(s', ttl, last + ttl + 1, late);
  }
}
