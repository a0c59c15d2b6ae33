/** Bearer tokens: resolving one, the debounced last_used_at stamp, and the idle sweep that reads it. */
module TokenUse {
  import opened Common

  datatype Token = Token(secretHash: string, ephemeral: bool, createdAt: Time, lastUsedAt: Option<Time>,
                         revokedAt: Option<Time>, expiresAt: Option<Time>)

  const TOUCH_INTERVAL: Time := MINUTE
  const EPHEMERAL_IDLE: Time := 24 * HOUR

  /** Live, ephemeral, and last used (or, if never used, created) before the cutoff. */
  predicate Idle(token: Token, cutoff: Time) {
    token.ephemeral && token.revokedAt.None? &&
    if token.lastUsedAt.Some? then token.lastUsedAt.value < cutoff else token.createdAt < cutoff
  }

  function Swept(token: Token, now: Time, cutoff: Time): Token {
    if Idle(token, cutoff) then token.(revokedAt := Some(now)) else token
  }

  /** Whether a resolved token passes the checks after the lookup. */
  predicate Unexpired(token: Token, now: Time) {
    token.expiresAt.None? || now <= token.expiresAt.value
  }

  class TokenStore {
    var rows: map<string, Token>
    const verifies: (string, string) -> bool

    constructor (verifies: (string, string) -> bool)
      ensures rows == map[] && this.verifies == verifies
    {
      rows := map[];
      this.verifies := verifies;
    }

    predicate Matches(id: string, plaintext: string)
      reads this
    {
      id in rows && rows[id].revokedAt.None? && verifies(plaintext, rows[id].secretHash)
    }

    /** Some live row's hash verifies, and every such row is unexpired. */
    predicate AllMatchesUnexpired(plaintext: string, now: Time)
      reads this
    {
      && (exists id :: id in rows && rows[id].revokedAt == None && verifies(plaintext, rows[id].secretHash))
      && forall id :: id in rows && rows[id].revokedAt == None && verifies(plaintext, rows[id].secretHash) ==>
           rows[id].expiresAt == None || now <= rows[id].expiresAt.value
    }

    /** Tries the live rows in some order and returns the first whose hash verifies. */
    method LookupByPlaintext(plaintext: string) returns (id: Option<string>)
      ensures id.Some? ==>
                id.value in rows && rows[id.value].revokedAt == None && verifies(plaintext, rows[id.value].secretHash)
      ensures id.None? ==>
                forall other :: other in rows && rows[other].revokedAt == None ==>
                  !verifies(plaintext, rows[other].secretHash)
    {
      var todo := rows.Keys;
      while todo != {}
        invariant todo <= rows.Keys
        invariant forall other :: other in rows && other !in todo ==> !Matches(other, plaintext)
        decreases |todo|
      {
        var next :| next in todo;
        if rows[next].revokedAt.None? && verifies(plaintext, rows[next].secretHash) {
          return Some(next);
        }
        todo := todo - {next};
      }
      return None;
    }

    method TouchLastUsed(id: string, now: Time)
      modifies this`rows
      ensures rows == if id in old(rows) then old(rows)[id := old(rows)[id].(lastUsedAt := Some(now))] else old(rows)
    {
      if id in rows {
        rows := rows[id := rows[id].(lastUsedAt := Some(now))];
      }
    }

    method ExpireEphemeralTokensIdle(now: Time, cutoff: Time)
      modifies this`rows
      ensures rows.Keys == old(rows).Keys
      ensures forall id :: id in rows ==> rows[id] == Swept(old(rows)[id], now, cutoff)
      ensures forall id :: id in rows ==>
                var token := old(rows)[id];
                var idle := token.ephemeral && token.revokedAt == None &&
                            (if token.lastUsedAt != None then token.lastUsedAt.value else token.createdAt) < cutoff;
                rows[id] == if idle then token.(revokedAt := Some(now)) else token
    {
      rows := map id | id in rows :: Swept(rows[id], now, cutoff);
    }
  }

  class Authenticator {
    const tokens: TokenStore
    var lastTouchedAt: map<string, Time>

    constructor (tokens: TokenStore)
      ensures this.tokens == tokens && lastTouchedAt == map[]
    {
      this.tokens := tokens;
      lastTouchedAt := map[];
    }

    function Memo(id: string): Option<Time>
      reads this
    {
      if id in lastTouchedAt then Some(lastTouchedAt[id]) else None
    }

    /** Resolves to a live, unexpired token whose hash verifies, and stamps it unless it was stamped in the last
      * minute. A refusal writes nothing. */
    method ResolvePlaintext(plaintext: string, now: Time) returns (id: Option<string>)
      modifies this`lastTouchedAt, tokens`rows
      ensures id.None? ==> tokens.rows == old(tokens.rows) && lastTouchedAt == old(lastTouchedAt)
      ensures id.Some? ==>
                && plaintext != "" && id.value in old(tokens.rows) && old(tokens.rows)[id.value].revokedAt == None
                && tokens.verifies(plaintext, old(tokens.rows)[id.value].secretHash)
                && (|| old(tokens.rows)[id.value].expiresAt == None
                    || now <= old(tokens.rows)[id.value].expiresAt.value)
                && tokens.rows ==
                     old(tokens.rows)[id.value := Touched(old(tokens.rows[id.value]), old(Memo(id.value)), now)]
                && Memo(id.value) == MemoAfter(old(Memo(id.value)), now)
                && forall other :: other != id.value ==> Memo(other) == old(Memo(other))
      ensures plaintext == "" ==> id.None?
      ensures id.Some? && (old(Memo(id.value)) == None || now - old(Memo(id.value)).value >= MINUTE) ==>
                && tokens.rows == old(tokens.rows)[id.value := old(tokens.rows[id.value]).(lastUsedAt := Some(now))]
                && Memo(id.value) == Some(now)
      ensures id.Some? && old(Memo(id.value)) != None && now - old(Memo(id.value)).value < MINUTE ==>
                tokens.rows == old(tokens.rows) && Memo(id.value) == old(Memo(id.value))
      ensures plaintext != "" && old(tokens.AllMatchesUnexpired(plaintext, now)) ==> id.Some?
    {
      if plaintext == "" {
        return None;
      }
      var found := tokens.LookupByPlaintext(plaintext);
      if found.None? {
        return None;
      }
      var token := tokens.rows[found.value];
      if token.expiresAt.Some? && now > token.expiresAt.value {
        return None;
      }
      MaybeTouch(found.value, now);
      return found;
    }

    method MaybeTouch(id: string, now: Time)
      requires id in tokens.rows
      modifies this`lastTouchedAt, tokens`rows
      ensures tokens.rows == old(tokens.rows)[id := Touched(old(tokens.rows[id]), old(Memo(id)), now)]
      ensures Memo(id) == MemoAfter(old(Memo(id)), now)
      ensures forall other :: other != id ==> Memo(other) == old(Memo(other))
    {
      if id in lastTouchedAt && now - lastTouchedAt[id] < TOUCH_INTERVAL {
        assert tokens.rows == tokens.rows[id := tokens.rows[id]];
        return;
      }
      lastTouchedAt := lastTouchedAt[id := now];
      tokens.TouchLastUsed(id, now);
    }
  }

  // ----- One token over a run ----------------------------------------------------------------------

  predicate Recent(memo: Option<Time>, now: Time) {
    memo.Some? && now - memo.value < TOUCH_INTERVAL
  }

  function Touched(token: Token, memo: Option<Time>, now: Time): Token {
    if Recent(memo, now) then token else token.(lastUsedAt := Some(now))
  }

  function MemoAfter(memo: Option<Time>, now: Time): Option<Time> {
    if Recent(memo, now) then memo else Some(now)
  }

  /** A request has found the token and let its caller in, has read the clock, or has a stamp to write. */
  datatype Phase = Found | Timed(now: Time) | Touching(now: Time)

  /** Any number of requests may be on their way at once. Looking the token up, reading the clock, consulting the memo
    * under its mutex and writing the stamp are separate steps; a restart ends the requests with the process. */
  datatype Op =
    | Look(id: int, at: Time)
    | Clock(id: int, at: Time)
    | Touch(id: int, at: Time)
    | Land(id: int, at: Time, ok: bool)
    | Sweep(at: Time)
    | Revoke(at: Time)
    | Restart(at: Time)

  /** `latest` is the newest stamp any process set out to write, and `active` the newest time any request read off the
    * clock to do so, or when the token was minted. */
  datatype State = State(token: Token, memo: Option<Time>, latest: Option<Time>, active: Time,
                         requests: map<int, Phase>)

  function Mint(token: Token): State {
    State(token.(lastUsedAt := None, revokedAt := None), None, None, token.createdAt, map[])
  }

  function Max(a: Time, b: Time): Time {
    if a < b then b else a
  }

  function Next(s: State, op: Op): State {
    match op
    case Look(id, at) =>
      if id in s.requests || s.token.revokedAt.Some? || !Unexpired(s.token, at) then s
      else s.(requests := s.requests[id := Found])
    case Clock(id, at) =>
      if id in s.requests && s.requests[id].Found? then s.(requests := s.requests[id := Timed(at)]) else s
    case Touch(id, _) =>
      if id !in s.requests || !s.requests[id].Timed? then s
      else
        var now := s.requests[id].now;
        if Recent(s.memo, now) then s.(active := Max(s.active, now), requests := s.requests - {id})
        else s.(memo := Some(now), latest := Some(now), active := Max(s.active, now),
                requests := s.requests[id := Touching(now)])
    case Land(id, _, ok) =>
      if id !in s.requests || !s.requests[id].Touching? then s
      else s.(token := if ok then s.token.(lastUsedAt := Some(s.requests[id].now)) else s.token,
              requests := s.requests - {id})
    case Sweep(at) => s.(token := Swept(s.token, at, at - EPHEMERAL_IDLE))
    case Revoke(at) => if s.token.revokedAt.Some? then s else s.(token := s.token.(revokedAt := Some(at)))
    case Restart(_) => s.(memo := None, requests := map[])
  }

  function Run(s: State, ops: seq<Op>): State
    decreases ops
  {
    if ops == [] then s else Run(Next(s, ops[0]), ops[1..])
  }

  predicate Chronological(from: Time, ops: seq<Op>)
    decreases ops
  {
    ops == [] || (from <= ops[0].at && Chronological(ops[0].at, ops[1..]))
  }

  /** A new request finds the token exactly while it is neither revoked nor expired. */
  lemma {:induction false} LookMeans(s: State, id: int, at: Time)
    requires id !in s.requests
    ensures var s', t := Next(s, Look(id, at)), s.token;
            && (id in s'.requests <==> t.revokedAt == None && (t.expiresAt == None || at <= t.expiresAt.value))
            && s'.token == t && s'.memo == s.memo
  {
  }

  /** A request nothing interrupts does what Authenticator.MaybeTouch does. */
  lemma {:induction false} ResolveIsSteps(s: State, id: int, at: Time)
    requires id !in s.requests && s.token.revokedAt == None
    requires s.token.expiresAt == None || at <= s.token.expiresAt.value
    ensures var s' := Run(s, [Look(id, at), Clock(id, at), Touch(id, at), Land(id, at, true)]);
            && s'.token == Touched(s.token, s.memo, at) && s'.memo == MemoAfter(s.memo, at)
            && s'.requests == s.requests && s'.active == Max(s.active, at)
  {
    var found, timed := s.(requests := s.requests[id := Found]), s.(requests := s.requests[id := Timed(at)]);
    assert s.requests[id := Found][id := Timed(at)] == s.requests[id := Timed(at)];
    assert Next(Next(s, Look(id, at)), Clock(id, at)) == timed;
    var touched := Next(timed, Touch(id, at));
    assert s.requests[id := Timed(at)] - {id} == s.requests;
    assert s.requests[id := Timed(at)][id := Touching(at)] - {id} == s.requests;
    calc {
      Run(s, [Look(id, at), Clock(id, at), Touch(id, at), Land(id, at, true)]);
    ==
      Run(Next(s, Look(id, at)), [Clock(id, at), Touch(id, at), Land(id, at, true)]);
    ==
      Run(timed, [Touch(id, at), Land(id, at, true)]);
    ==
      Run(touched, [Land(id, at, true)]);
    ==
      Next(touched, Land(id, at, true));
    }
  }

  /** The instant the sweep goes by. */
  function LastUse(token: Token): Time {
    if token.lastUsedAt.Some? then token.lastUsedAt.value else token.createdAt
  }

  /** The newest instant a stamp was set out to be written for, or when the token was minted. */
  function Newest(s: State): Time {
    if s.latest.Some? then s.latest.value else s.token.createdAt
  }

  /** The newest stamp has landed, and no older one after it. */
  predicate Settled(s: State) {
    LastUse(s.token) == Newest(s)
  }

  /** What holds up to the moment `now` of any run: no stamp, stored or on its way, is newer than the newest, which is
    * less than a touch interval behind the last use. */
  ghost predicate Tracked(s: State, now: Time) {
    && (s.memo.Some? ==> s.latest == s.memo)
    && (s.token.lastUsedAt.Some? ==> s.latest.Some?) && LastUse(s.token) <= Newest(s) <= s.active <= now
    && s.active < Newest(s) + TOUCH_INTERVAL
    && forall id :: id in s.requests ==> RequestOk(s, s.requests[id], now)
  }

  predicate RequestOk(s: State, p: Phase, now: Time) {
    match p
    case Found => true
    case Timed(t) => t <= now && (s.memo.None? ==> Newest(s) <= t)
    case Touching(t) => s.latest.Some? && t <= s.latest.value
  }

  lemma {:induction false} TrackedStep(s: State, now: Time, op: Op)
    requires Tracked(s, now) && now <= op.at
    ensures Tracked(Next(s, op), op.at)
  {
    var s' := Next(s, op);
    hide Unexpired, Idle;
    forall id | id in s'.requests ensures RequestOk(s', s'.requests[id], op.at) {
      assert id in s.requests ==> RequestOk(s, s.requests[id], now);
    }
  }

  /** The time of a run's last step. */
  function Until(from: Time, ops: seq<Op>): Time
    decreases ops
  {
    if ops == [] then from else Until(ops[0].at, ops[1..])
  }

  lemma {:induction false} TrackedRun(s: State, from: Time, ops: seq<Op>)
    requires Tracked(s, from) && Chronological(from, ops)
    ensures Tracked(Run(s, ops), Until(from, ops))
    decreases ops
  {
    if ops != [] {
      hide Tracked, Next;
      TrackedStep(s, from, ops[0]);
      TrackedRun(Next(s, ops[0]), ops[0].at, ops[1..]);
    }
  }

  /** Over every run with a forward clock, however requests overlap, restarts and sweeps included: the newest stamp
    * written or on its way is less than a minute behind the last use, and none is newer. */
  lemma {:induction false} LagBounded(token: Token, ops: seq<Op>)
    requires Chronological(token.createdAt, ops)
    ensures var s := Run(Mint(token), ops);
            && Newest(s) <= s.active < Newest(s) + TOUCH_INTERVAL
            && LastUse(s.token) <= Newest(s)
            && (Settled(s) ==> s.active < LastUse(s.token) + TOUCH_INTERVAL)
  {
    TrackedRun(Mint(token), token.createdAt, ops);
  }

  /** When a token in use is safe from the idle sweep, after any run from minting. With its newest stamp in place, no
    * sweep up to 24 hours less a minute after the last use revokes it; and that stamp being in place is the exact
    * condition for every sweep up to 24 hours after it to spare a live ephemeral token. */
  lemma {:induction false} InUseIsSpared(token: Token, ops: seq<Op>)
    requires Chronological(token.createdAt, ops)
    ensures var s := Run(Mint(token), ops);
            && (Settled(s) ==>
                  forall at :: at <= s.active + EPHEMERAL_IDLE - TOUCH_INTERVAL ==> Next(s, Sweep(at)) == s)
            && (s.token.ephemeral && s.token.revokedAt.None? ==>
                  ((forall at :: at <= Newest(s) + EPHEMERAL_IDLE ==> Next(s, Sweep(at)) == s) <==> Settled(s)))
  {
    TrackedRun(Mint(token), token.createdAt, ops);
    var s := Run(Mint(token), ops);
    hide Run;
    if s.token.ephemeral && s.token.revokedAt.None? && !Settled(s) {
      assert Next(s, Sweep(Newest(s) + EPHEMERAL_IDLE)).token.revokedAt.Some?;
    }
  }

  /** What takes the newest stamp out of its place: setting out to write a newer one, or an older one landing late. */
  lemma {:induction false} StaysSettled(s: State, now: Time, op: Op)
    requires Tracked(s, now) && now <= op.at && Settled(s)
    ensures var s' := Next(s, op);
            Settled(s') <==>
              && (op.Touch? ==> Newest(s') == Newest(s))
              && (op.Land? && op.ok && op.id in s.requests && s.requests[op.id].Touching? ==>
                    s.requests[op.id].now == Newest(s))
  {
    hide Unexpired, Idle;
    TrackedStep(s, now, op);
    if op.Land? && op.id in s.requests {
      assert RequestOk(s, s.requests[op.id], now);
    }
  }

  /** And landing puts it back. */
  lemma {:induction false} LandSettles(s: State, now: Time, id: int, at: Time)
    requires Tracked(s, now) && id in s.requests && s.requests[id].Touching?
    ensures Settled(Next(s, Land(id, at, true))) <==> s.requests[id].now == Newest(s)
  {
    assert RequestOk(s, s.requests[id], now);
  }

  /** It does happen that a token in use is swept away: one that was idle for a day is used, and the sweep comes before
    * its stamp has landed. */
  lemma {:induction false} SweptInFlight() returns (token: Token, ops: seq<Op>)
    ensures Chronological(token.createdAt, ops)
    ensures var s := Run(Mint(token), ops);
            Next(s, Sweep(s.active + 1)).token.revokedAt.Some? && s.token.revokedAt.None?
  {
    var day := EPHEMERAL_IDLE;
    token := Token("", true, 0, None, None, None);
    ops := [Look(1, day), Clock(1, day), Touch(1, day)];
    assert ops[1..] == [Clock(1, day), Touch(1, day)] && ops[1..][1..] == [Touch(1, day)];
    var s := Mint(token);
    var found, timed := s.(requests := map[1 := Found]), s.(requests := map[1 := Timed(day)]);
    assert Next(s, ops[0]) == found && Next(found, ops[1]) == timed by {
      assert map[1 := Found][1 := Timed(day)] == map[1 := Timed(day)];
    }
    var touched := Next(timed, ops[2]);
    assert Run(s, ops) == touched by {
      assert Run(timed, [ops[2]]) == Run(touched, []);
      assert Run(found, ops[1..]) == Run(timed, [ops[2]]);
    }
    assert touched.active == day && touched.token == s.token;
    assert Idle(s.token, 1) && Next(touched, Sweep(day + 1)).token == Swept(s.token, day + 1, 1);
    assert Chronological(0, ops) by {
      assert Chronological(day, []) && Chronological(day, [ops[2]]) && Chronological(day, ops[1..]);
    }
  }

  /** A token out of use for more than 24 hours is always swept. One that was never stamped is swept exactly then. */
  lemma {:induction false} OutOfUseIsSwept(token: Token, ops: seq<Op>, at: Time)
    requires Chronological(token.createdAt, ops)
    ensures var s := Run(Mint(token), ops);
            var swept := Next(s, Sweep(at)).token != s.token;
            && (s.token.ephemeral && s.token.revokedAt.None? && at > s.active + EPHEMERAL_IDLE ==> swept)
            && (s.token.lastUsedAt.None? ==>
                  (swept <==>
                     s.token.ephemeral && s.token.revokedAt.None? && at > token.createdAt + EPHEMERAL_IDLE))
  {
    TrackedRun(Mint(token), token.createdAt, ops);
    CreatedStays(Mint(token), ops);
    hide Run;
  }

  lemma {:induction false} CreatedStays(s: State, ops: seq<Op>)
    ensures Run(s, ops).token.createdAt == s.token.createdAt
    decreases ops
  {
    if ops != [] {
      CreatedStays(Next(s, ops[0]), ops[1..]);
    }
  }

  /** Stamps one process sets out to write are at least a touch interval apart, however its requests overlap. */
  lemma {:induction false} Debounced(token: Token, ops: seq<Op>, op: Op)
    requires Chronological(token.createdAt, ops)
    ensures var s := Run(Mint(token), ops);
            var s' := Next(s, op);
            s.memo.Some? && s'.latest != s.latest ==>
              op.Touch? && s'.latest.value - s.memo.value >= TOUCH_INTERVAL && s.latest == s.memo
  {
    TrackedRun(Mint(token), token.createdAt, ops);
    hide Run, Unexpired, Idle;
  }

  /** Once revoked, a token stays so with the same stamp of revocation, and no further request finds it. Only those that
    * had found it already can still stamp it; without them nothing changes. */
  lemma {:induction false} RevokedForGood(s: State, ops: seq<Op>)
    requires s.token.revokedAt.Some?
    ensures var s' := Run(s, ops);
            && s'.token == s.token.(lastUsedAt := s'.token.lastUsedAt) && s'.requests.Keys <= s.requests.Keys
            && (s.requests == map[] ==> s'.token == s.token && s'.active == s.active)
    decreases ops
  {
    if ops != [] {
      RevokedForGood(Next(s, ops[0]), ops[1..]);
    }
  }
}
