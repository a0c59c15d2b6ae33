/** Every run of account transactions, one after another: the database has a single connection. */
module AccountRuns {
  import opened Common
  import opened Accounts

  datatype Step =
    | Signup(code: string, id: string, email: string, name: string, role: Role, scopes: seq<string>, now: Time)
    | Deactivate(id: string, when: Time)
    | Reactivate(id: string)
    | Profile(id: string, name: string, scopes: seq<string>)
    | EnsureBootstrap(newCode: string, ttl: Time, now: Time)
    | AddInvite(code: string, role: Role, scopes: seq<string>, now: Time, expiresAt: Time)
    | RemoveInvite(code: string)
    | MintToken(id: string, owner: string)
    | RevokeToken(id: string, when: Time)
    | AddSub(id: string, owner: string)
    | PauseSub(id: string, when: Time)
    | ResumeSub(id: string)

  const EMPTY := Db(map[], map[], map[], map[])

  function NewUser(step: Step): User
    requires step.Signup?
  {
    User(step.email, step.name, step.role, step.scopes, None)
  }

  function Add(table: map<string, Owned>, id: string, owner: string): map<string, Owned> {
    if id in table then table else table[id := Owned(Some(owner), None)]
  }

  /** Revoking or pausing one row; a row already stopped keeps its stamp. */
  function Stop(table: map<string, Owned>, id: string, when: Time): map<string, Owned> {
    if id !in table || table[id].stoppedAt.Some? then table else table[id := table[id].(stoppedAt := Some(when))]
  }

  ghost function Next(db: Db, step: Step): Db {
    match step
    case Signup(code, id, _, _, _, _, now) => AfterSignup(db, code, id, NewUser(step), now)
    case Deactivate(id, when) => AfterCascade(db, id, when)
    case Reactivate(id) =>
      if id !in db.users then db else db.(users := db.users[id := db.users[id].(deactivatedAt := None)])
    case Profile(id, name, scopes) =>
      if id !in db.users then db else db.(users := db.users[id := db.users[id].(name := name, scopes := scopes)])
    case EnsureBootstrap(newCode, ttl, now) => db.(invites := AfterEnsure(db.invites, newCode, ttl, now))
    case AddInvite(code, role, scopes, now, expiresAt) =>
      if code == "" || code in db.invites then db
      else db.(invites := db.invites[code := Invite(role, scopes, false, now, Some(expiresAt), None, None)])
    case RemoveInvite(code) => if Unconsumed(db.invites, code) then db.(invites := db.invites - {code}) else db
    case MintToken(id, owner) => db.(tokens := Add(db.tokens, id, owner))
    case RevokeToken(id, when) => db.(tokens := Stop(db.tokens, id, when))
    case AddSub(id, owner) => db.(subs := Add(db.subs, id, owner))
    case PauseSub(id, when) => db.(subs := Stop(db.subs, id, when))
    case ResumeSub(id) =>
      if id !in db.subs then db else db.(subs := db.subs[id := db.subs[id].(stoppedAt := None)])
  }

  ghost function Run(db: Db, steps: seq<Step>): Db
    decreases steps
  {
    if steps == [] then db else Run(Next(db, steps[0]), steps[1..])
  }

  /** What the plain statements on tokens do: minting adds a live token with that owner under a free id, revoking stamps
    * a live one, and nothing else changes. */
  lemma {:induction false} TokenStepsMean(db: Db, id: string, owner: string, when: Time)
    ensures var minted, revoked := Next(db, MintToken(id, owner)), Next(db, RevokeToken(id, when));
            && id in minted.tokens && minted.tokens.Keys == db.tokens.Keys + {id}
            && (id !in db.tokens ==>
                  minted.tokens[id].owner == Some(owner) && minted.tokens[id].stoppedAt == None)
            && revoked.tokens.Keys == db.tokens.Keys
            && (id in db.tokens ==>
                  && minted.tokens[id] == db.tokens[id]
                  && revoked.tokens[id].owner == db.tokens[id].owner
                  && revoked.tokens[id].stoppedAt ==
                       if db.tokens[id].stoppedAt == None then Some(when) else db.tokens[id].stoppedAt)
            && (forall other :: other in db.tokens && other != id ==>
                  minted.tokens[other] == db.tokens[other] && revoked.tokens[other] == db.tokens[other])
            && minted == db.(tokens := minted.tokens) && revoked == db.(tokens := revoked.tokens)
  {
  }

  /** The same of subscriptions, which a resume starts again. */
  lemma {:induction false} SubStepsMean(db: Db, id: string, owner: string, when: Time)
    ensures var added, paused := Next(db, AddSub(id, owner)), Next(db, PauseSub(id, when));
            var resumed := Next(db, ResumeSub(id));
            && id in added.subs && added.subs.Keys == db.subs.Keys + {id}
            && (id !in db.subs ==> added.subs[id].owner == Some(owner) && added.subs[id].stoppedAt == None)
            && paused.subs.Keys == db.subs.Keys == resumed.subs.Keys
            && (id in db.subs ==>
                  && added.subs[id] == db.subs[id]
                  && paused.subs[id].owner == resumed.subs[id].owner == db.subs[id].owner
                  && paused.subs[id].stoppedAt ==
                       (if db.subs[id].stoppedAt == None then Some(when) else db.subs[id].stoppedAt)
                  && resumed.subs[id].stoppedAt == None)
            && (forall other :: other in db.subs && other != id ==>
                  added.subs[other] == db.subs[other] == paused.subs[other] == resumed.subs[other])
            && added == db.(subs := added.subs) && paused == db.(subs := paused.subs)
            && resumed == db.(subs := resumed.subs)
  {
  }

  /** Profile, reactivation, and the ordinary invites. */
  lemma {:induction false} UserStepsMean(db: Db, id: string, name: string, scopes: seq<string>)
    ensures var active, renamed := Next(db, Reactivate(id)), Next(db, Profile(id, name, scopes));
            && active.users.Keys == db.users.Keys == renamed.users.Keys
            && (id in db.users ==>
                  && active.users[id] == db.users[id].(deactivatedAt := None)
                  && renamed.users[id] == db.users[id].(name := name, scopes := scopes))
            && (forall other :: other in db.users && other != id ==>
                  active.users[other] == db.users[other] == renamed.users[other])
            && active == db.(users := active.users) && renamed == db.(users := renamed.users)
  {
  }

  lemma {:induction false} InviteStepsMean(db: Db, code: string, role: Role, scopes: seq<string>, now: Time, end: Time)
    ensures var added, removed := Next(db, AddInvite(code, role, scopes, now, end)), Next(db, RemoveInvite(code));
            && (code != "" && code !in db.invites ==>
                  && added.invites.Keys == db.invites.Keys + {code}
                  && var i := added.invites[code];
                     && i.role == role && i.scopes == scopes && !i.bootstrap && i.expiresAt == Some(end)
                     && i.consumedAt == None && i.consumedBy == None)
            && (code == "" || code in db.invites ==> added == db)
            && (forall other :: other in removed.invites <==>
                  other in db.invites && (other != code || db.invites[code].consumedAt != None))
            && (forall other :: other in db.invites ==> added.invites[other] == db.invites[other])
            && (forall other :: other in removed.invites ==> removed.invites[other] == db.invites[other])
            && added == db.(invites := added.invites) && removed == db.(invites := removed.invites)
  {
  }

  // ----- What every transaction keeps --------------------------------------------------------------

  lemma {:induction false} SignupOk(db: Db, step: Step)
    requires Ok(db) && step.Signup?
    ensures Ok(Next(db, step))
  {
    var db' := Next(db, step);
    if db' != db {
      forall code | code in db'.invites ensures ConsumerOk(db', db'.invites[code]) {
        assert ConsumerOk(db, db.invites[code]);
      }
    }
  }

  lemma {:induction false} ConsumersKept(db: Db, db': Db)
    requires InvitesOk(db) && db'.users.Keys == db.users.Keys && db'.invites == db.invites
    ensures InvitesOk(db')
  {
    forall code | code in db'.invites ensures ConsumerOk(db', db'.invites[code]) {
      assert ConsumerOk(db, db.invites[code]);
    }
  }

  lemma {:induction false} EnsureOk(db: Db, newCode: string, ttl: Time, now: Time)
    requires InvitesOk(db)
    ensures InvitesOk(db.(invites := AfterEnsure(db.invites, newCode, ttl, now)))
  {
    var db' := db.(invites := AfterEnsure(db.invites, newCode, ttl, now));
    forall code | code in db'.invites ensures ConsumerOk(db', db'.invites[code]) {
      if code in db.invites { assert ConsumerOk(db, db.invites[code]); }
    }
  }

  lemma {:induction false} InviteOk(db: Db, step: Step)
    requires Ok(db) && (step.AddInvite? || step.RemoveInvite?)
    ensures Ok(Next(db, step))
  {
    var db' := Next(db, step);
    forall code | code in db'.invites ensures ConsumerOk(db', db'.invites[code]) {
      if code in db.invites { assert ConsumerOk(db, db.invites[code]); }
    }
  }

  /** The other transactions add no user, change no email and leave the invites alone. */
  lemma {:induction false} OthersKeep(db: Db, step: Step)
    requires !step.Signup? && !step.EnsureBootstrap? && !step.AddInvite? && !step.RemoveInvite?
    ensures var db' := Next(db, step);
            && db'.invites == db.invites && db'.users.Keys == db.users.Keys
            && forall id :: id in db.users ==> db'.users[id].email == db.users[id].email
  {
    hide Add, Stop, Stopped, Live, ActiveAdminsExcluding;
  }

  lemma {:induction false} NextOk(db: Db, step: Step)
    requires Ok(db)
    ensures Ok(Next(db, step))
  {
    hide UsersOk, InvitesOk;
    match step {
      case Signup(_, _, _, _, _, _, _) => SignupOk(db, step);
      case EnsureBootstrap(newCode, ttl, now) => EnsureOk(db, newCode, ttl, now);
      case AddInvite(_, _, _, _, _) => InviteOk(db, step);
      case RemoveInvite(_) => InviteOk(db, step);
      case _ =>
        OthersKeep(db, step);
        hide Next;
        EmailsKept(db.users, Next(db, step).users);
        ConsumersKept(db, Next(db, step));
    }
  }

  lemma {:induction false} EmailsKept(users: map<string, User>, users': map<string, User>)
    requires UsersOk(users) && users'.Keys == users.Keys
    requires forall id :: id in users ==> users'[id].email == users[id].email
    ensures UsersOk(users')
  {
    hide Fold;
  }

  /** Over every run: emails stay distinct up to case, there is at most one bootstrap invite, and every consumed
    * invite names an existing user. */
  lemma {:induction false} RunOk(db: Db, steps: seq<Step>)
    requires Ok(db)
    ensures Ok(Run(db, steps))
    decreases steps
  {
    if steps != [] {
      NextOk(db, steps[0]);
      RunOk(Next(db, steps[0]), steps[1..]);
    }
  }

  // ----- The last admin --------------------------------------------------------------------------

  ghost predicate HasAdmin(db: Db) {
    exists id :: id in db.users && ActiveAdmin(db.users[id])
  }

  lemma {:induction false} AdminStays(db: Db, step: Step)
    requires HasAdmin(db)
    ensures HasAdmin(Next(db, step))
  {
    hide Fold, AfterEnsure, Stopped, SweptBy;
    var id :| id in db.users && ActiveAdmin(db.users[id]);
    var db' := Next(db, step);
    if step.Deactivate? && step.id == id && db' != db {
      var other :| other in ActiveAdminsExcluding(db.users, id);
      assert other in db'.users && ActiveAdmin(db'.users[other]);
    } else {
      assert id in db'.users && ActiveAdmin(db'.users[id]);
    }
  }

  /** Once there is an active admin there always is one. */
  lemma {:induction false} LastAdminSafe(db: Db, steps: seq<Step>)
    requires HasAdmin(db)
    ensures HasAdmin(Run(db, steps))
    decreases steps
  {
    if steps != [] {
      AdminStays(db, steps[0]);
      LastAdminSafe(Next(db, steps[0]), steps[1..]);
    }
  }

  /** A deactivation is refused for want of another admin exactly when it would leave none. */
  lemma {:induction false} RefusedIffLast(db: Db, id: string)
    requires id in db.users && ActiveAdmin(db.users[id])
    ensures CascadeOutcome(db, id) == Refused(LastAdmin) <==>
              forall other :: other in db.users && ActiveAdmin(db.users[other]) ==> other == id
  {
    if ActiveAdminsExcluding(db.users, id) != {} {
      var other :| other in ActiveAdminsExcluding(db.users, id);
    } else {
      assert forall other :: other in db.users && ActiveAdmin(db.users[other]) && other != id ==>
               other in ActiveAdminsExcluding(db.users, id);
    }
  }

  // ----- What a deactivation stops stays stopped ---------------------------------------------------

  predicate NoResume(steps: seq<Step>, id: string) {
    steps == [] || (steps[0] != ResumeSub(id) && NoResume(steps[1..], id))
  }

  /** A revoked token stays revoked with its stamp, and a paused subscription stays paused until it is resumed
    * itself: reactivating its owner is not enough. */
  lemma {:induction false} StoppedStays(db: Db, steps: seq<Step>, id: string)
    ensures id in db.tokens && db.tokens[id].stoppedAt.Some? ==>
              id in Run(db, steps).tokens && Run(db, steps).tokens[id] == db.tokens[id]
    ensures id in db.subs && db.subs[id].stoppedAt.Some? && NoResume(steps, id) ==>
              id in Run(db, steps).subs && Run(db, steps).subs[id] == db.subs[id]
    decreases steps
  {
    if steps != [] {
      StopKept(db, steps[0], id);
      StoppedStays(Next(db, steps[0]), steps[1..], id);
    }
  }

  lemma {:induction false} StopKept(db: Db, step: Step, id: string)
    ensures id in db.tokens && db.tokens[id].stoppedAt.Some? ==>
              id in Next(db, step).tokens && Next(db, step).tokens[id] == db.tokens[id]
    ensures id in db.subs && db.subs[id].stoppedAt.Some? && step != ResumeSub(id) ==>
              id in Next(db, step).subs && Next(db, step).subs[id] == db.subs[id]
  {
    hide AfterEnsure, SignupOutcome, ActiveAdminsExcluding, SweptBy;
  }

  /** After a committed deactivation, whatever follows, each token the user owned is revoked for good. */
  lemma {:induction false} CascadeIsFinal(db: Db, owner: string, when: Time, steps: seq<Step>, id: string)
    requires CascadeOutcome(db, owner).Committed? && id in db.tokens && db.tokens[id].owner == Some(owner)
    ensures var after := Run(Next(db, Deactivate(owner, when)), steps);
            && id in after.tokens
            && after.tokens[id].stoppedAt == if db.tokens[id].stoppedAt.Some? then db.tokens[id].stoppedAt
                                             else Some(when)
  {
    StoppedStays(Next(db, Deactivate(owner, when)), steps, id);
  }

  predicate NoReturn(steps: seq<Step>, id: string) {
    steps == [] || (steps[0] != Reactivate(id) && NoReturn(steps[1..], id))
  }

  /** After a committed deactivation the user is inactive, with the stamp it was given, through any run in which that
    * user is not reactivated; and every other user is as before it. */
  lemma {:induction false} StaysInactive(db: Db, id: string, when: Time, steps: seq<Step>)
    requires CascadeOutcome(db, id).Committed? && NoReturn(steps, id)
    ensures var after := Run(Next(db, Deactivate(id, when)), steps);
            && id in after.users && after.users[id].deactivatedAt == Some(when)
            && forall other :: other in db.users && other != id ==>
                 && other in Next(db, Deactivate(id, when)).users
                 && Next(db, Deactivate(id, when)).users[other] == db.users[other]
  {
    CascadeMeans(db, id, when);
    InactiveStays(Next(db, Deactivate(id, when)), id, when, steps);
  }

  lemma {:induction false} InactiveStays(db: Db, id: string, when: Time, steps: seq<Step>)
    requires id in db.users && db.users[id].deactivatedAt == Some(when) && NoReturn(steps, id)
    ensures id in Run(db, steps).users && Run(db, steps).users[id].deactivatedAt == Some(when)
    decreases steps
  {
    if steps != [] {
      InactiveStep(db, steps[0], id, when);
      InactiveStays(Next(db, steps[0]), id, when, steps[1..]);
    }
  }

  lemma {:induction false} InactiveStep(db: Db, step: Step, id: string, when: Time)
    requires id in db.users && db.users[id].deactivatedAt == Some(when) && step != Reactivate(id)
    ensures id in Next(db, step).users && Next(db, step).users[id].deactivatedAt == Some(when)
  {
    hide Fold, AfterEnsure, Stopped, SweptBy, ActiveAdminsExcluding;
  }

  // ----- Invites ---------------------------------------------------------------------------------

  /** A signup that succeeds adds exactly one user and leaves no bootstrap invite to use; one that fails leaves
    * users and invites as they were. */
  lemma {:induction false} SignupEffect(db: Db, step: Step)
    requires step.Signup?
    ensures var db' := Next(db, step);
            if SignupOutcome(db, step.code, step.id, NewUser(step)).SignedUp? then
              && step.id !in db.users && db'.users == db.users[step.id := NewUser(step)]
              && |db'.users| == |db.users| + 1
              && Unconsumed(db.invites, step.code) && db'.invites.Keys == db.invites.Keys
              && db'.invites[step.code].consumedBy == Some(step.id)
              && (forall c :: c in db'.invites && db'.invites[c].bootstrap ==> db'.invites[c].consumedAt.Some?)
              && (forall c :: c in db.invites && c != step.code && !db.invites[c].bootstrap ==>
                  db'.invites[c] == db.invites[c])
            else db' == db
  {
    hide Fold;
  }

  /** An invite is consumed at most once: from then on it never changes, and only replacing a spent bootstrap
    * invite removes it. */
  lemma {:induction false} ConsumedOnce(db: Db, step: Step, code: string)
    requires code in db.invites && db.invites[code].consumedAt.Some?
    requires step.EnsureBootstrap? ==> !db.invites[code].bootstrap
    ensures code in Next(db, step).invites && Next(db, step).invites[code] == db.invites[code]
  {
    hide Fold, Stopped, ActiveAdminsExcluding;
  }

  /** An ordinary invite, once consumed, stays as it is through any run: it is never consumed again. */
  lemma {:induction false} ConsumedForGood(db: Db, steps: seq<Step>, code: string)
    requires code in db.invites && db.invites[code].consumedAt.Some? && !db.invites[code].bootstrap
    ensures code in Run(db, steps).invites && Run(db, steps).invites[code] == db.invites[code]
    decreases steps
  {
    if steps != [] {
      ConsumedOnce(db, steps[0], code);
      ConsumedForGood(Next(db, steps[0]), steps[1..], code);
    }
  }

  predicate LeavesBootstrap(step: Step, code: string, until: Time) {
    && !step.Signup? && step != RemoveInvite(code)
    && (step.EnsureBootstrap? ==> step.now < until)
  }

  predicate AllLeaveBootstrap(steps: seq<Step>, code: string, until: Time) {
    steps == [] || (LeavesBootstrap(steps[0], code, until) && AllLeaveBootstrap(steps[1..], code, until))
  }

  lemma {:induction false} BootstrapKept(db: Db, step: Step, code: string, until: Time)
    requires code in db.invites && db.invites[code].bootstrap && db.invites[code].consumedAt.None?
    requires db.invites[code].expiresAt == Some(until) && LeavesBootstrap(step, code, until)
    ensures code in Next(db, step).invites && Next(db, step).invites[code] == db.invites[code]
  {
    hide Fold, Stopped, ActiveAdminsExcluding;
    if step.EnsureBootstrap? {
      assert BootstrapInForce(db.invites, code, step.now);
    }
  }

  /** Until it expires, is used or is deleted, the bootstrap invite is the one that is handed out every time. */
  lemma {:induction false} SameBootstrap(db: Db, steps: seq<Step>, code: string, until: Time, now: Time, other: string)
    requires Ok(db) && code in db.invites && db.invites[code].bootstrap && db.invites[code].consumedAt.None?
    requires db.invites[code].expiresAt == Some(until) && AllLeaveBootstrap(steps, code, until) && now < until
    ensures BootstrapInForce(Run(db, steps).invites, code, now)
    ensures BootstrapInForce(Run(db, steps).invites, other, now) ==> other == code
    decreases steps
  {
    if steps != [] {
      BootstrapKept(db, steps[0], code, until);
      NextOk(db, steps[0]);
      SameBootstrap(Next(db, steps[0]), steps[1..], code, until, now, other);
    }
  }

  /** A bootstrap invite in force after the call, with a positive lifetime, is the only one and any other invite
    * is as it was. */
  lemma {:induction false} EnsureEffect(db: Db, newCode: string, ttl: Time, now: Time)
    requires Ok(db) && ttl > 0 && newCode !in WithoutBootstrap(db.invites)
    ensures var db' := Next(db, EnsureBootstrap(newCode, ttl, now));
            && AnyInForce(db'.invites, now)
            && WithoutBootstrap(db'.invites) == WithoutBootstrap(db.invites)
            && (AnyInForce(db.invites, now) ==> db' == db)
  {
    if !AnyInForce(db.invites, now) {
      assert BootstrapInForce(Next(db, EnsureBootstrap(newCode, ttl, now)).invites, newCode, now);
    }
  }
}
