/** Users, what they own, and invites: the transactions that sign up, deactivate and bootstrap. */
module Accounts {
  import opened Common

  datatype Role = Admin | Member

  datatype User = User(email: string, name: string, role: Role, scopes: seq<string>, deactivatedAt: Option<Time>)

  /** A token with its revoked_at, or a push subscription with its paused_at. */
  datatype Owned = Owned(owner: Option<string>, stoppedAt: Option<Time>)

  datatype Invite = Invite(role: Role, scopes: seq<string>, bootstrap: bool, createdAt: Time, expiresAt: Option<Time>,
                           consumedAt: Option<Time>, consumedBy: Option<string>)

  datatype Db = Db(users: map<string, User>, tokens: map<string, Owned>, subs: map<string, Owned>,
                   invites: map<string, Invite>)

  // ----- Well-formed tables ----------------------------------------------------------------------

  predicate EmailTaken(users: map<string, User>, email: string) {
    exists id :: id in users && Fold(users[id].email) == Fold(email)
  }

  ghost predicate UsersOk(users: map<string, User>) {
    forall a, b :: a in users && b in users && a != b ==> Fold(users[a].email) != Fold(users[b].email)
  }

  /** At most one bootstrap invite, and an invite is consumed by an existing user or not at all. */
  ghost predicate InvitesOk(db: Db) {
    && (forall a, b :: a in db.invites && b in db.invites && db.invites[a].bootstrap && db.invites[b].bootstrap ==>
        a == b)
    && forall code :: code in db.invites ==> ConsumerOk(db, db.invites[code])
  }

  predicate ConsumerOk(db: Db, invite: Invite) {
    && (invite.consumedAt.Some? <==> invite.consumedBy.Some?)
    && (invite.consumedBy.Some? ==> invite.consumedBy.value in db.users)
  }

  ghost predicate Ok(db: Db) {
    UsersOk(db.users) && InvitesOk(db)
  }

  // ----- Deactivation ----------------------------------------------------------------------------

  predicate LiveFor(item: Owned, owner: string) {
    item.owner == Some(owner) && item.stoppedAt.None?
  }

  function Live(table: map<string, Owned>, owner: string): set<string> {
    set id | id in table && LiveFor(table[id], owner)
  }

  function Stopped(table: map<string, Owned>, owner: string, when: Time): map<string, Owned> {
    map id | id in table :: if LiveFor(table[id], owner) then table[id].(stoppedAt := Some(when)) else table[id]
  }

  predicate ActiveAdmin(user: User) {
    user.role.Admin? && user.deactivatedAt.None?
  }

  function ActiveAdminsExcluding(users: map<string, User>, id: string): set<string> {
    set other | other in users && ActiveAdmin(users[other]) && other != id
  }

  datatype Refusal = UserNotFound | AlreadyDeactivated | LastAdmin

  datatype CascadeResult = Refused(reason: Refusal) | Committed(tokensRevoked: nat, subsPaused: nat)

  function CascadeOutcome(db: Db, id: string): CascadeResult {
    if id !in db.users then Refused(UserNotFound)
    else if db.users[id].deactivatedAt.Some? then Refused(AlreadyDeactivated)
    else if db.users[id].role.Admin? && ActiveAdminsExcluding(db.users, id) == {} then Refused(LastAdmin)
    else Committed(|Live(db.tokens, id)|, |Live(db.subs, id)|)
  }

  function AfterCascade(db: Db, id: string, when: Time): Db {
    if CascadeOutcome(db, id).Refused? then db
    else Db(db.users[id := db.users[id].(deactivatedAt := Some(when))], Stopped(db.tokens, id, when),
            Stopped(db.subs, id, when), db.invites)
  }

  /** Some active admin other than `id`. */
  predicate OtherAdmin(users: map<string, User>, id: string) {
    exists other :: other in users && other != id && users[other].role == Admin && users[other].deactivatedAt == None
  }

  /** When a deactivation is refused, and what a committed one does: the user is stamped, each of the user's live tokens
    * and subscriptions is stamped too, and nothing else changes. */
  lemma {:induction false} CascadeMeans(db: Db, id: string, when: Time)
    ensures var outcome := CascadeOutcome(db, id);
            && (outcome == Refused(UserNotFound) <==> id !in db.users)
            && (outcome == Refused(AlreadyDeactivated) <==> id in db.users && db.users[id].deactivatedAt != None)
            && (outcome == Refused(LastAdmin) <==>
                  && id in db.users && db.users[id].deactivatedAt == None
                  && db.users[id].role == Admin && !OtherAdmin(db.users, id))
    ensures CascadeOutcome(db, id).Refused? ==> AfterCascade(db, id, when) == db
    ensures CascadeOutcome(db, id).Committed? ==>
              var db' := AfterCascade(db, id, when);
              && id in db.users && db'.users == db.users[id := db.users[id].(deactivatedAt := Some(when))]
              && StampedFor(db.tokens, db'.tokens, id, when) && StampedFor(db.subs, db'.subs, id, when)
              && db'.invites == db.invites
  {
    if OtherAdmin(db.users, id) {
      var other :| other in db.users && other != id && db.users[other].role == Admin &&
                   db.users[other].deactivatedAt == None;
      assert other in ActiveAdminsExcluding(db.users, id);
    } else {
      assert ActiveAdminsExcluding(db.users, id) == {};
    }
  }

  /** The rows of `owner` without a stamp got one, and nothing else changed. */
  predicate StampedFor(table: map<string, Owned>, table': map<string, Owned>, owner: string, when: Time) {
    && table'.Keys == table.Keys
    && forall id :: id in table ==>
         && table'[id].owner == table[id].owner
         && table'[id].stoppedAt ==
              if table[id].owner == Some(owner) && table[id].stoppedAt == None then Some(when) else table[id].stoppedAt
  }

  /** A committed cascade leaves the user owning nothing live, keeps earlier stamps and other owners' rows, and
    * reports exactly how many tokens and subscriptions it stopped; a refused one changes nothing. */
  lemma {:induction false} CascadeConserves(db: Db, id: string, when: Time)
    ensures var db', outcome := AfterCascade(db, id, when), CascadeOutcome(db, id);
            && (outcome.Refused? ==> db' == db)
            && (outcome.Committed? ==>
                  && outcome.tokensRevoked == |Live(db.tokens, id)| - |Live(db'.tokens, id)|
                  && Live(db'.tokens, id) == {}
                  && outcome.subsPaused == |Live(db.subs, id)| - |Live(db'.subs, id)| && Live(db'.subs, id) == {}
                  && KeepsOthers(db.tokens, db'.tokens, id) && KeepsOthers(db.subs, db'.subs, id))
  {
  }

  /** Same rows; one that was stopped already, or is someone else's, is untouched. */
  ghost predicate KeepsOthers(table: map<string, Owned>, table': map<string, Owned>, owner: string) {
    && table'.Keys == table.Keys
    && forall id :: id in table && !LiveFor(table[id], owner) ==> table'[id] == table[id]
  }

  // ----- Signup and invites ------------------------------------------------------------------------

  datatype SignupResult = SignedUp | EmailInUse | InviteConsumed | IdTaken

  predicate Unconsumed(invites: map<string, Invite>, code: string) {
    code in invites && invites[code].consumedAt.None?
  }

  function SignupOutcome(db: Db, code: string, id: string, user: User): SignupResult {
    if EmailTaken(db.users, user.email) then EmailInUse
    else if id in db.users then IdTaken
    else if !Unconsumed(db.invites, code) then InviteConsumed
    else SignedUp
  }

  function Consume(invite: Invite, id: string, now: Time): Invite {
    invite.(consumedAt := Some(now), consumedBy := Some(id))
  }

  function AfterSignup(db: Db, code: string, id: string, user: User, now: Time): Db {
    if !SignupOutcome(db, code, id, user).SignedUp? then db
    else
      db.(users := db.users[id := user],
          invites := SweptBy(db.invites, code, id, now))
  }

  /** The invite used and any bootstrap invite, consumed together. */
  function SweptBy(invites: map<string, Invite>, code: string, id: string, now: Time): map<string, Invite> {
    map c | c in invites ::
      if invites[c].consumedAt.None? && (c == code || invites[c].bootstrap) then Consume(invites[c], id, now)
      else invites[c]
  }

  function RetireBootstrap(invites: map<string, Invite>, id: string, now: Time): map<string, Invite> {
    map c | c in invites ::
      if invites[c].consumedAt.None? && invites[c].bootstrap then Consume(invites[c], id, now) else invites[c]
  }

  lemma {:induction false} RetiredBoth(invites: map<string, Invite>, code: string, id: string, now: Time)
    requires Unconsumed(invites, code)
    ensures RetireBootstrap(invites[code := Consume(invites[code], id, now)], id, now) ==
        SweptBy(invites, code, id, now)
  {
  }

  /** When a signup is refused, and what one that goes through does: the user is added as given, the invite used and any
    * bootstrap invite still open are marked consumed by the user now, and nothing else changes. */
  lemma {:induction false} SignupMeans(db: Db, code: string, id: string, user: User, now: Time)
    ensures var outcome := SignupOutcome(db, code, id, user);
            var inUse := exists u :: u in db.users && Fold(db.users[u].email) == Fold(user.email);
            var open := code in db.invites && db.invites[code].consumedAt == None;
            && (outcome == EmailInUse <==> inUse)
            && (outcome == IdTaken <==> !inUse && id in db.users)
            && (outcome == InviteConsumed <==> !inUse && id !in db.users && !open)
    ensures SignupOutcome(db, code, id, user) != SignedUp ==> AfterSignup(db, code, id, user, now) == db
    ensures SignupOutcome(db, code, id, user) == SignedUp ==>
              var db' := AfterSignup(db, code, id, user, now);
              && id !in db.users && db'.users == db.users[id := user]
              && db'.tokens == db.tokens && db'.subs == db.subs && db'.invites.Keys == db.invites.Keys
              && forall c :: c in db.invites ==>
                   db'.invites[c] ==
                     if db.invites[c].consumedAt == None && (c == code || db.invites[c].bootstrap)
                     then db.invites[c].(consumedAt := Some(now), consumedBy := Some(id)) else db.invites[c]
  {
    hide Fold;
  }

  /** A bootstrap invite that can be handed out again. */
  predicate Usable(invite: Invite, now: Time) {
    invite.consumedAt.None? && (invite.expiresAt.None? || invite.expiresAt.value > now)
  }

  function BootstrapInvite(ttl: Time, now: Time): Invite {
    Invite(Admin, [], true, now, Some(now + ttl), None, None)
  }

  function WithoutBootstrap(invites: map<string, Invite>): map<string, Invite> {
    map code | code in invites && !invites[code].bootstrap :: invites[code]
  }

  ghost predicate BootstrapInForce(invites: map<string, Invite>, code: string, now: Time) {
    code in invites && invites[code].bootstrap && Usable(invites[code], now)
  }

  ghost predicate AnyInForce(invites: map<string, Invite>, now: Time) {
    exists code :: BootstrapInForce(invites, code, now)
  }

  /** A usable bootstrap invite is kept; anything else marked bootstrap is replaced, unless the new code is taken. */
  ghost function AfterEnsure(invites: map<string, Invite>, newCode: string, ttl: Time, now: Time): map<string, Invite> {
    if AnyInForce(invites, now) || newCode in WithoutBootstrap(invites) then invites
    else WithoutBootstrap(invites)[newCode := BootstrapInvite(ttl, now)]
  }

  datatype ProvisionResult = Created | InviteNotFound | InviteUsed | InviteExpired | BadPassword | EmailUsed | Internal

  /** The user an invite makes. */
  function Invited(invite: Invite, email: string, name: string): User {
    User(email, name, invite.role, invite.scopes, None)
  }

  function ProvisionOutcome(db: Db, code: string, id: string, email: string, name: string, passwordOk: bool,
                            now: Time): ProvisionResult {
    if code !in db.invites then InviteNotFound
    else if db.invites[code].consumedAt.Some? then InviteUsed
    else if db.invites[code].expiresAt.Some? && db.invites[code].expiresAt.value < now then InviteExpired
    else if !passwordOk then BadPassword
    else
      match SignupOutcome(db, code, id, Invited(db.invites[code], email, name))
      case SignedUp => Created
      case EmailInUse => EmailUsed
      case InviteConsumed => InviteUsed
      case IdTaken => Internal
  }

  /** When signing up with an invite is refused, check by check, and the user it makes: with the invite's role and
    * scopes, and active. */
  lemma {:induction false} ProvisionMeans(db: Db, code: string, id: string, email: string, name: string,
                                          passwordOk: bool, now: Time)
    ensures var outcome := ProvisionOutcome(db, code, id, email, name, passwordOk, now);
            var known := code in db.invites;
            var inUse := exists u :: u in db.users && Fold(db.users[u].email) == Fold(email);
            var open := known && db.invites[code].consumedAt == None;
            var current := open && (db.invites[code].expiresAt == None || now <= db.invites[code].expiresAt.value);
            && (outcome == InviteNotFound <==> !known)
            && (outcome == InviteUsed <==> known && !open)
            && (outcome == InviteExpired <==> open && !current)
            && (outcome == BadPassword <==> current && !passwordOk)
            && (outcome == EmailUsed <==> current && passwordOk && inUse)
            && (outcome == Internal <==> current && passwordOk && !inUse && id in db.users)
    ensures ProvisionOutcome(db, code, id, email, name, passwordOk, now) == Created ==>
              && code in db.invites
              && var user := Invited(db.invites[code], email, name);
                 && user == User(email, name, db.invites[code].role, db.invites[code].scopes, None)
                 && AfterSignup(db, code, id, user, now).users == db.users[id := user]
  {
    hide Fold, SweptBy;
  }

  /** What asking for the bootstrap invite comes to: one that is open and runs past `now` stays and nothing changes;
    * otherwise those marked bootstrap go, and an admin invite without scopes that runs for `ttl` takes their place,
    * unless an ordinary invite has the code. */
  lemma {:induction false} EnsureMeans(invites: map<string, Invite>, newCode: string, ttl: Time, now: Time)
    ensures var invites' := AfterEnsure(invites, newCode, ttl, now);
            var inForce := exists c :: c in invites && invites[c].bootstrap && invites[c].consumedAt == None &&
                                       (invites[c].expiresAt == None || invites[c].expiresAt.value > now);
            var taken := newCode in invites && !invites[newCode].bootstrap;
            if inForce || taken then invites' == invites
            else
              && newCode in invites'
              && invites'[newCode] == Invite(Admin, [], true, now, Some(now + ttl), None, None)
              && forall c :: c != newCode ==>
                   && (c in invites' <==> c in invites && !invites[c].bootstrap)
                   && (c in invites' ==> invites'[c] == invites[c])
  {
    if AnyInForce(invites, now) {
      var code :| BootstrapInForce(invites, code, now);
    } else {
      forall c | c in invites && invites[c].bootstrap && invites[c].consumedAt == None
        ensures invites[c].expiresAt != None && invites[c].expiresAt.value <= now
      {
        assert !BootstrapInForce(invites, c, now);
      }
    }
  }

  // ----- The store object ----------------------------------------------------------------------

  class AccountStore {
    var users: map<string, User>
    var tokens: map<string, Owned>
    var subs: map<string, Owned>
    var invites: map<string, Invite>

    constructor ()
      ensures State() == Db(map[], map[], map[], map[]) && Ok(State())
    {
      users, tokens, subs, invites := map[], map[], map[], map[];
    }

    function State(): Db
      reads this
    {
      Db(users, tokens, subs, invites)
    }

    /** The cascade: all of it, or none. */
    method DeactivateUserCascade(id: string, when: Time) returns (result: CascadeResult)
      modifies this
      ensures result == CascadeOutcome(old(State()), id)
      ensures State() == AfterCascade(old(State()), id, when)
      ensures result.Committed? <==>
                && id in old(users) && old(users)[id].deactivatedAt == None
                && (old(users)[id].role == Admin ==> OtherAdmin(old(users), id))
      ensures result.Refused? ==> State() == old(State())
      ensures result.Committed? ==>
                && users == old(users)[id := old(users)[id].(deactivatedAt := Some(when))]
                && StampedFor(old(tokens), tokens, id, when) && StampedFor(old(subs), subs, id, when)
                && invites == old(invites)
    {
      CascadeMeans(State(), id, when);
      hide StampedFor, OtherAdmin, Stopped;
      if id !in users {
        return Refused(UserNotFound);
      }
      var u := users[id];
      if u.deactivatedAt.Some? {
        return Refused(AlreadyDeactivated);
      }
      if u.role.Admin? && |ActiveAdminsExcluding(users, id)| == 0 {
        return Refused(LastAdmin);
      }
      users := users[id := u.(deactivatedAt := Some(when))];
      var tokensRevoked, subsPaused;
      tokens, tokensRevoked := StopOwned(tokens, id, when);
      subs, subsPaused := StopOwned(subs, id, when);
      return Committed(tokensRevoked, subsPaused);
    }

    method ReactivateUser(id: string) returns (found: bool)
      modifies this`users
      ensures found <==> id in old(users)
      ensures users == if found then old(users)[id := old(users)[id].(deactivatedAt := None)] else old(users)
    {
      if id !in users {
        return false;
      }
      users := users[id := users[id].(deactivatedAt := None)];
      return true;
    }

    method UpdateUserProfile(id: string, name: string, scopes: seq<string>) returns (found: bool)
      modifies this`users
      ensures found <==> id in old(users)
      ensures users == if found then old(users)[id := old(users)[id].(name := name, scopes := scopes)] else old(users)
    {
      if id !in users {
        return false;
      }
      users := users[id := users[id].(name := name, scopes := scopes)];
      return true;
    }

    /** Inserts the user, consumes the invite, and retires any bootstrap invite; a step that fails undoes the
      * earlier ones. */
    method SignupTx(code: string, id: string, user: User, now: Time) returns (result: SignupResult)
      modifies this
      ensures result == SignupOutcome(old(State()), code, id, user)
      ensures State() == AfterSignup(old(State()), code, id, user, now)
    {
      var users0 := users;
      ghost var invites0 := invites;
      if EmailTaken(users, user.email) {
        return EmailInUse;
      }
      if id in users {
        return IdTaken;
      }
      users := users[id := user];
      if code !in invites || invites[code].consumedAt.Some? {
        users := users0;
        return InviteConsumed;
      }
      invites := invites[code := Consume(invites[code], id, now)];
      invites := RetireBootstrap(invites, id, now);
      RetiredBoth(invites0, code, id, now);
      return SignedUp;
    }

    /** Returns the bootstrap invite in force, making one if need be. None is a failed insert. */
    method EnsureBootstrapInvite(newCode: string, ttl: Time, now: Time) returns (code: Option<string>)
      requires Ok(State())
      modifies this`invites
      ensures invites == AfterEnsure(old(invites), newCode, ttl, now)
      ensures AnyInForce(old(invites), now) ==> code.Some? && BootstrapInForce(old(invites), code.value, now)
      ensures !AnyInForce(old(invites), now) ==>
                code == if newCode in WithoutBootstrap(old(invites)) then None else Some(newCode)
    {
      if c :| c in invites && invites[c].bootstrap {
        if Usable(invites[c], now) {
          assert BootstrapInForce(invites, c, now);
          return Some(c);
        }
      }
      var kept := WithoutBootstrap(invites);
      if newCode in kept {
        return None;
      }
      invites := kept[newCode := BootstrapInvite(ttl, now)];
      return Some(newCode);
    }

    /** Signing up with an invite: checks first, then the transaction. */
    method Provision(code: string, id: string, email: string, name: string, passwordOk: bool,
                     now: Time) returns (result: ProvisionResult)
      modifies this
      ensures result == ProvisionOutcome(old(State()), code, id, email, name, passwordOk, now)
      ensures result.Created? ==>
                State() == AfterSignup(old(State()), code, id, Invited(old(invites)[code], email, name), now)
      ensures !result.Created? ==> State() == old(State())
    {
      if code !in invites {
        return InviteNotFound;
      }
      var invite := invites[code];
      if invite.consumedAt.Some? {
        return InviteUsed;
      }
      if invite.expiresAt.Some? && invite.expiresAt.value < now {
        return InviteExpired;
      }
      if !passwordOk {
        return BadPassword;
      }
      var outcome := SignupTx(code, id, Invited(invite, email, name), now);
      match outcome {
        case SignedUp => result := Created;
        case EmailInUse => result := EmailUsed;
        case InviteConsumed => result := InviteUsed;
        case IdTaken => result := Internal;
      }
    }

    /** An invite made through the API, which never sets the bootstrap mark. */
    method InsertInvite(code: string, invite: Invite) returns (ok: bool)
      requires !invite.bootstrap && invite.consumedAt.None? && invite.consumedBy.None?
      modifies this`invites
      ensures ok <==> code != "" && code !in old(invites)
      ensures invites == if ok then old(invites)[code := invite] else old(invites)
    {
      if code == "" || code in invites {
        return false;
      }
      invites := invites[code := invite];
      return true;
    }

    method DeleteInvite(code: string) returns (found: bool)
      modifies this`invites
      ensures found <==> code in old(invites) && old(invites)[code].consumedAt == None
      ensures invites == if found then old(invites) - {code} else old(invites)
    {
      if code !in invites || invites[code].consumedAt.Some? {
        return false;
      }
      invites := invites - {code};
      return true;
    }
  }

  /** UPDATE ... SET stamp WHERE owner = ? AND stamp IS NULL, with its affected-row count. */
  method StopOwned(table0: map<string, Owned>, owner: string, when: Time) returns (table: map<string, Owned>, n: nat)
    ensures table == Stopped(table0, owner, when)
    ensures n == |Live(table0, owner)|
  {
    hide LiveFor, PartlyStopped, Live;
    table, n := table0, 0;
    var todo := table0.Keys;
    ghost var all, stopped := Live(table0, owner), {};
    StopBegins(table0, owner, when);
    while todo != {}
      invariant todo <= table0.Keys
      invariant PartlyStopped(table0, table, todo, owner, when)
      invariant stopped + (all * todo) == all && stopped !! todo && n == |stopped|
      decreases |todo|
    {
      var id :| id in todo;
      StopStep(table0, table, todo, owner, when, id);
      CountStep(all, stopped, todo, id);
      if LiveFor(table[id], owner) {
        table := table[id := table[id].(stoppedAt := Some(when))];
        stopped, n := stopped + {id}, n + 1;
      }
      todo := todo - {id};
    }
    StopEnds(table0, table, owner, when);
    assert stopped == all;
  }

  lemma {:induction false} StopBegins(table: map<string, Owned>, owner: string, when: Time)
    ensures PartlyStopped(table, table, table.Keys, owner, when) && Live(table, owner) <= table.Keys
  {
  }

  lemma {:induction false} StopStep(table0: map<string, Owned>, table: map<string, Owned>, todo: set<string>,
                                    owner: string, when: Time, id: string)
    requires PartlyStopped(table0, table, todo, owner, when) && id in todo && todo <= table0.Keys
    ensures id in table && (LiveFor(table[id], owner) <==> id in Live(table0, owner))
    ensures PartlyStopped(table0, if LiveFor(table[id], owner) then table[id := table[id].(stoppedAt := Some(when))]
                          else table,
                          todo - {id}, owner, when)
  {
  }

  lemma {:induction false} CountStep(all: set<string>, stopped: set<string>, todo: set<string>, id: string)
    requires stopped + (all * todo) == all && stopped !! todo && id in todo
    ensures var stopped' := if id in all then stopped + {id} else stopped;
            stopped' + (all * (todo - {id})) == all && stopped' !! (todo - {id}) && id !in stopped
  {
  }

  lemma {:induction false} StopEnds(table0: map<string, Owned>, table: map<string, Owned>, owner: string, when: Time)
    requires PartlyStopped(table0, table, {}, owner, when)
    ensures table == Stopped(table0, owner, when)
  {
  }

  ghost predicate PartlyStopped(table0: map<string, Owned>, table: map<string, Owned>, todo: set<string>,
                                owner: string, when: Time) {
    && table.Keys == table0.Keys
    && forall id :: id in table0 ==>
         table[id] == if id !in todo && LiveFor(table0[id], owner) then table0[id].(stoppedAt := Some(when))
                      else table0[id]
  }
}
