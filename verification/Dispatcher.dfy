/** The push dispatcher's code: the subscription rows, one worker's loop, and the manager's tables of
  * workers and signing secrets. */
module Dispatcher {
  import opened Common
  import opened EventLog
  import Pubsub
  import Push
  import Subscribe

  // ----- Subscription rows ----------------------------------------------------------------------

  datatype Row = Row(source: string, targetUrl: string, cursor: int, pausedAt: Option<Time>,
                     lastAttemptAt: Option<Time>, lastSuccessAt: Option<Time>, lastError: string,
                     failures: nat)

  const ERROR_CAP := 1024

  function Succeeded(row: Row, cursor: int, now: Time): Row {
    row.(cursor := cursor, lastAttemptAt := Some(now), lastSuccessAt := Some(now), lastError := "", failures := 0)
  }

  function FailedOnce(row: Row, error: string, now: Time): Row {
    row.(lastAttemptAt := Some(now), lastError := Truncated(error), failures := row.failures + 1)
  }

  function Truncated(error: string): string {
    if |error| > ERROR_CAP then error[..ERROR_CAP] else error
  }

  class SubStore {
    var rows: map<string, Row>

    constructor ()
      ensures rows == map[]
    {
      rows := map[];
    }

    function Lookup(id: string): Option<Row>
      reads this
    {
      if id in rows then Some(rows[id]) else None
    }

    method UpdateCursorAndSuccess(id: string, cursor: int, now: Time) returns (found: bool)
      modifies this
      ensures found == (id in old(rows))
      ensures found ==>
                rows == old(rows)[id := old(rows)[id].(cursor := cursor, failures := 0, lastError := "",
                                                       lastAttemptAt := Some(now), lastSuccessAt := Some(now))]
      ensures !found ==> rows == old(rows)
    {
      if id !in rows {
        return false;
      }
      rows := rows[id := Succeeded(rows[id], cursor, now)];
      return true;
    }

    method RecordFailure(id: string, error: string, now: Time) returns (found: bool)
      modifies this
      ensures found == (id in old(rows))
      ensures found ==>
                rows == old(rows)[id := old(rows)[id].(failures := old(rows)[id].failures + 1,
                                                       lastError := if |error| > 1024 then error[..1024] else error,
                                                       lastAttemptAt := Some(now))]
      ensures !found ==> rows == old(rows)
    {
      if id !in rows {
        return false;
      }
      rows := rows[id := FailedOnce(rows[id], error, now)];
      return true;
    }

    /** Pausing a paused row is reported as not found and keeps its stamp. */
    method Pause(id: string, now: Time) returns (found: bool)
      modifies this
      ensures found == (id in old(rows) && old(rows)[id].pausedAt.None?)
      ensures rows == if found then old(rows)[id := old(rows)[id].(pausedAt := Some(now))] else old(rows)
    {
      if id !in rows || rows[id].pausedAt.Some? {
        return false;
      }
      rows := rows[id := rows[id].(pausedAt := Some(now))];
      return true;
    }

    method Resume(id: string) returns (found: bool)
      modifies this
      ensures found == (id in old(rows))
      ensures rows == if found then old(rows)[id := old(rows)[id].(pausedAt := None)] else old(rows)
    {
      if id !in rows {
        return false;
      }
      rows := rows[id := rows[id].(pausedAt := None)];
      return true;
    }
  }

  // ----- One pass of the worker loop --------------------------------------------------------------

  /** How one attempt to deliver went. */
  datatype Attempt = BuildError(reason: string) | TransportError(reason: string) | Status(code: int, reason: string)

  predicate Delivered(a: Attempt) {
    a.Status? && Accepted(a.code)
  }

  /** What a pass meets: cancellation, the table it reads, the target's answer, and statements that fail. */
  datatype PassEnv = PassEnv(cancelled: bool, getFails: bool, readFails: bool, table: seq<Event>, batchSize: int,
                             answer: Attempt, writeFails: bool, recordFails: bool, now: Time)

  datatype After = Exit | Sleep | Wait | Again

  /** One pass over a row: where the loop goes next, the row it leaves, and the event it posted. */
  datatype Effect = Effect(after: After, row: Option<Row>, posted: Option<Event>)

  /** The events a pass adds to those some target has acknowledged. */
  function AckedBy(effect: Effect, env: PassEnv): set<Event> {
    if effect.posted.Some? && env.answer.Status? && 200 <= env.answer.code <= 299 then {effect.posted.value} else {}
  }

  function PassEffect(row: Option<Row>, armed: bool, env: PassEnv): Effect {
    if env.cancelled then Effect(Exit, row, None)
    else if env.getFails || row.None? then Effect(Sleep, row, None)
    else if row.value.pausedAt.Some? then Effect(Exit, row, None)
    else if !armed then Effect(Wait, row, None)
    else if env.readFails then Effect(Sleep, row, None)
    else
      var batch := Batch(env.table, row.value.cursor, env.batchSize);
      if batch == [] then Effect(Wait, row, None) else AttemptEffect(row.value, batch[0], env)
  }

  /** One attempt to deliver `event`. */
  function AttemptEffect(row: Row, event: Event, env: PassEnv): Effect {
    if !Delivered(env.answer) then
      Effect(Sleep, Some(if env.recordFails then row else FailedOnce(row, env.answer.reason, env.now)),
             if env.answer.BuildError? then None else Some(event))
    else if env.writeFails then Effect(Sleep, Some(row), Some(event))
    else Effect(Again, Some(Succeeded(row, event.sequence, env.now)), Some(event))
  }

  /** What a pass comes to. It ends the worker when cancelled or when the row is seen paused. It sends something exactly
    * when the row is there and not paused, a secret is at hand, and some row lies past the cursor; that is the lowest
    * one past it. The cursor moves exactly when the target answers with a status from 200 to 299 and the write goes
    * through, to the sequence of what was sent; and only a refused attempt counts a failure. */
  lemma {:induction false} PassMeans(row: Option<Row>, armed: bool, env: PassEnv)
    requires Ordered(env.table)
    ensures var effect := PassEffect(row, armed, env);
            var paused := row.Some? && row.value.pausedAt.Some?;
            var ready := !env.cancelled && !env.getFails && row.Some? && !paused && armed && !env.readFails;
            var due := ready && exists e :: e in env.table && e.sequence > row.value.cursor;
            var accepted := env.answer.Status? && 200 <= env.answer.code <= 299;
            && (effect.after.Exit? <==> env.cancelled || (!env.getFails && paused))
            && (effect.after.Wait? <==>
                  !env.cancelled && !env.getFails && row.Some? && !paused && (!armed || (ready && !due)))
            && (effect.after.Again? <==> due && accepted && !env.writeFails)
            && (effect.posted.Some? <==> due && !env.answer.BuildError?)
            && (effect.posted.Some? ==>
                  && effect.posted.value in env.table && effect.posted.value.sequence > row.value.cursor
                  && forall e :: e in env.table && e.sequence > row.value.cursor ==>
                       effect.posted.value.sequence <= e.sequence)
            && (effect.row.Some? <==> row.Some?)
            && (effect.after.Again? ==>
                  && effect.posted.Some?
                  && effect.row.value == row.value.(cursor := effect.posted.value.sequence, failures := 0,
                                                    lastError := "", lastAttemptAt := Some(env.now),
                                                    lastSuccessAt := Some(env.now)))
            && (due && !accepted && !env.recordFails ==>
                  var reason := env.answer.reason;
                  effect.row.value == row.value.(failures := row.value.failures + 1, lastAttemptAt := Some(env.now),
                                                 lastError := if |reason| > 1024 then reason[..1024] else reason))
            && (!effect.after.Again? && (!due || accepted || env.recordFails) ==> effect.row == row)
  {
    if row.Some? {
      BatchFacts(env.table, row.value.cursor, env.batchSize);
      if Batch(env.table, row.value.cursor, env.batchSize) != [] {
        BatchFirst(env.table, row.value.cursor, env.batchSize);
        assert Batch(env.table, row.value.cursor, env.batchSize)[0] in env.table;
      }
    }
    hide Batch, Ordered;
  }

  datatype Loop = Loop(row: Option<Row>, posts: seq<Event>, stopped: bool)

  /** A script of passes in a row; after an exit nothing more happens. */
  function LoopEffect(row: Option<Row>, armed: bool, envs: seq<PassEnv>): Loop {
    if envs == [] then Loop(row, [], false)
    else
      var before := LoopEffect(row, armed, Init(envs));
      if before.stopped then before
      else
        var effect := PassEffect(before.row, armed, Last(envs));
        Loop(effect.row, before.posts + (if effect.posted.Some? then [effect.posted.value] else []), effect.after.Exit?)
  }

  lemma {:induction false} LoopBegins(row: Option<Row>, armed: bool)
    ensures LoopEffect(row, armed, []) == Loop(row, [], false)
  {
  }

  lemma {:induction false} LoopGoesOn(row: Option<Row>, armed: bool, envs: seq<PassEnv>, k: nat)
    requires k < |envs| && !LoopEffect(row, armed, envs[..k]).stopped
    ensures var before, effect := LoopEffect(row, armed, envs[..k]),
        PassEffect(LoopEffect(row, armed, envs[..k]).row, armed, envs[k]);
            LoopEffect(row, armed, envs[..k + 1])
              == Loop(effect.row,
                      before.posts + (if effect.posted.Some? then [effect.posted.value] else []),
                      effect.after.Exit?)
  {
    assert Init(envs[..k + 1]) == envs[..k];
  }

  lemma {:induction false} LoopStops(row: Option<Row>, armed: bool, envs: seq<PassEnv>, k: nat)
    requires k <= |envs| && (k < |envs| ==> LoopEffect(row, armed, envs[..k]).stopped)
    ensures LoopEffect(row, armed, envs) == LoopEffect(row, armed, envs[..k])
  {
    if k < |envs| {
      assert Init(envs)[..k] == envs[..k];
      assert k == |Init(envs)| ==> Init(envs) == envs[..k];
      LoopStops(row, armed, Init(envs), k);
    } else {
      assert envs[..k] == envs;
    }
  }

  /** What one worker has done against a fixed table: `n` events of the selection past the starting
    * cursor are committed. The i-th post was of selection[at[i]]: posts run through the selection in
    * ascending order, each event repeated until it is committed, none left out, and at most the next
    * one tried besides. */
  ghost predicate InOrder(selection: seq<Event>, start: int, cursor: int, posts: seq<Event>, at: seq<nat>, n: nat) {
    && n <= |selection| && cursor == Subscribe.CursorAfter(start, selection[..n])
    && |at| == |posts|
    && (forall i :: 0 <= i < |at| ==> at[i] < |selection| && at[i] <= n && posts[i] == selection[at[i]])
    && (forall i, j :: 0 <= i < j < |at| ==> at[i] <= at[j])
    && (forall k :: 0 <= k < n ==> k in at)
  }

  lemma {:induction false} OneWorkerInOrder(row: Row, armed: bool, envs: seq<PassEnv>, table: seq<Event>)
    returns (at: seq<nat>, n: nat)
    requires Ordered(table) && forall i :: 0 <= i < |envs| ==> envs[i].table == table
    ensures var loop := LoopEffect(Some(row), armed, envs);
            && loop.row.Some?
            && InOrder(Above(table, row.cursor), row.cursor, loop.row.value.cursor, loop.posts, at, n)
  {
    at, n := [], 0;
    if envs != [] {
      at, n := OneWorkerInOrder(row, armed, Init(envs), table);
      var before := LoopEffect(Some(row), armed, Init(envs));
      if !before.stopped {
        at, n := PassInOrder(row, armed, Last(envs), before.row.value, before.posts, at, n);
      }
    }
  }

  lemma {:induction false} PassInOrder(row: Row, armed: bool, env: PassEnv, now: Row, posts: seq<Event>,
                                       at: seq<nat>, n: nat)
    returns (at': seq<nat>, n': nat)
    requires Ordered(env.table)
    requires InOrder(Above(env.table, row.cursor), row.cursor, now.cursor, posts, at, n)
    ensures var effect := PassEffect(Some(now), armed, env);
            && effect.row.Some?
            && InOrder(Above(env.table, row.cursor), row.cursor, effect.row.value.cursor,
                       posts + (if effect.posted.Some? then [effect.posted.value] else []), at', n')
  {
    var selection := Above(env.table, row.cursor);
    var effect := PassEffect(Some(now), armed, env);
    SelectionPast(env.table, row.cursor, n);
    if effect.posted.None? {
      assert posts + [] == posts;
      return at, n;
    }
    PostNext(selection, row.cursor, now.cursor, posts, at, n);
    return at + [n], if effect.row.value.cursor == now.cursor then n else n + 1;
  }

  lemma {:induction false} SelectionPast(table: seq<Event>, start: int, n: nat)
    requires Ordered(table) && n <= |Above(table, start)|
    ensures var selection := Above(table, start);
            Above(table, Subscribe.CursorAfter(start, selection[..n])) == selection[n..]
  {
    var selection := Above(table, start);
    if n > 0 {
      AboveDrop(table, start, n - 1);
      assert Last(selection[..n]) == selection[n - 1];
    }
  }

  lemma {:induction false} PostNext(selection: seq<Event>, start: int, cursor: int, posts: seq<Event>, at: seq<nat>,
                                    n: nat)
    requires InOrder(selection, start, cursor, posts, at, n) && n < |selection|
    ensures InOrder(selection, start, cursor, posts + [selection[n]], at + [n], n)
    ensures InOrder(selection, start, selection[n].sequence, posts + [selection[n]], at + [n], n + 1)
  {
    assert forall k :: k in at ==> k in at + [n];
    assert (at + [n])[|at|] == n;
    assert Last(selection[..n + 1]) == selection[n];
  }

  class Worker {
    const id: string
    const subs: SubStore
    const mgr: Manager
    const signal: Pubsub.Channel
    var cancelled: bool
    var exited: bool
    var posts: seq<Event>

    constructor (id: string, subs: SubStore, mgr: Manager, signal: Pubsub.Channel)
      ensures this.id == id && this.subs == subs && this.mgr == mgr && this.signal == signal
      ensures !cancelled && !exited && posts == []
    {
      this.id, this.subs, this.mgr, this.signal := id, subs, mgr, signal;
      cancelled, exited, posts := false, false, [];
    }

    /** The loop over a script of passes. A pass that exits ends it, and then the deferred unsubscribe runs; when the
      * script ends first the worker is still running. */
    method Run(envs: seq<PassEnv>, source: string)
      requires mgr.notifier.Valid() && !exited
      modifies this`posts, this`exited, subs, mgr.notifier`subs, signal`closed
      ensures var loop := LoopEffect(old(subs.Lookup(id)), id in mgr.secrets, envs);
              && subs.Lookup(id) == loop.row && posts == old(posts) + loop.posts && exited == loop.stopped
      ensures forall other :: other != id ==> subs.Lookup(other) == old(subs.Lookup(other))
      ensures mgr.notifier.Valid()
      ensures mgr.notifier.Subscribers(source) ==
                old(mgr.notifier.Subscribers(source)) - (if exited then {signal} else {})
      ensures forall other :: other != source ==>
                mgr.notifier.Subscribers(other) == old(mgr.notifier.Subscribers(other))
    {
      hide LoopEffect, PassEffect;
      ghost var row0, armed := subs.Lookup(id), id in mgr.secrets;
      LoopBegins(row0, armed);
      var k, running := 0, true;
      assert envs[..0] == [];
      while k < |envs| && running
        invariant 0 <= k <= |envs|
        invariant old(posts) <= posts && !exited
        invariant LoopEffect(row0, armed, envs[..k]) == Loop(subs.Lookup(id), posts[|old(posts)|..], !running)
        invariant forall other :: other != id ==> subs.Lookup(other) == old(subs.Lookup(other))
        invariant mgr.notifier.Valid() && mgr.notifier.subs == old(mgr.notifier.subs)
      {
        LoopGoesOn(row0, armed, envs, k);
        var after := Pass(envs[k]);
        running := !after.Exit?;
        k := k + 1;
      }
      LoopStops(row0, armed, envs, k);
      if !running {
        mgr.notifier.Unsubscribe(source, signal);
        exited := true;
      }
    }

    method Cancel()
      modifies this`cancelled
      ensures cancelled
    {
      cancelled := true;
    }

    /** The body of the worker's loop. */
    method Pass(env: PassEnv) returns (after: After)
      modifies this`posts, subs
      ensures var effect := PassEffect(old(subs.Lookup(id)), id in mgr.secrets, env);
              && after == effect.after && subs.Lookup(id) == effect.row
              && posts == old(posts) + (if effect.posted.Some? then [effect.posted.value] else [])
      ensures forall other :: other != id ==> subs.Lookup(other) == old(subs.Lookup(other))
    {
      if env.cancelled {
        return Exit;
      }
      if env.getFails || id !in subs.rows {
        return Sleep;
      }
      var sub := subs.rows[id];
      if sub.pausedAt.Some? {
        return Exit;
      }
      if id !in mgr.secrets {
        return Wait;
      }
      if env.readFails {
        return Sleep;
      }
      var batch := Batch(env.table, sub.cursor, env.batchSize);
      if |batch| == 0 {
        return Wait;
      }
      var ok := Deliver(batch[0], env);
      after := if ok then Again else Sleep;
    }

    /** Posts one event. Only a status from 200 to 299 whose write goes through delivers it, and then the cursor is
      * its sequence; any other outcome leaves the cursor, and a refusal by the target is recorded. */
    method Deliver(event: Event, env: PassEnv) returns (ok: bool)
      requires id in subs.rows
      modifies this`posts, subs
      ensures ok <==> env.answer.Status? && 200 <= env.answer.code <= 299 && !env.writeFails
      ensures posts == old(posts) + (if env.answer.BuildError? then [] else [event])
      ensures ok ==>
                subs.rows == old(subs.rows)[id := old(subs.rows)[id].(
                  cursor := event.sequence, failures := 0, lastError := "",
                  lastAttemptAt := Some(env.now), lastSuccessAt := Some(env.now))]
      ensures (env.answer.Status? && 200 <= env.answer.code <= 299) || env.recordFails ==>
                ok || subs.rows == old(subs.rows)
      ensures !(env.answer.Status? && 200 <= env.answer.code <= 299) && !env.recordFails ==>
                var reason := env.answer.reason;
                subs.rows == old(subs.rows)[id := old(subs.rows)[id].(
                  failures := old(subs.rows)[id].failures + 1, lastAttemptAt := Some(env.now),
                  lastError := if |reason| > 1024 then reason[..1024] else reason)]
    {
      if !env.answer.BuildError? {
        posts := posts + [event];
      }
      if !Delivered(env.answer) {
        if !env.recordFails {
          var found := subs.RecordFailure(id, env.answer.reason, env.now);
        }
        return false;
      }
      if env.writeFails {
        return false;
      }
      ok := subs.UpdateCursorAndSuccess(id, event.sequence, env.now);
    }
  }

  /** The protocol's row for a stored one; a missing row reads as deleted. */
  predicate SameRow(sub: Push.Sub, row: Option<Row>) {
    if row.Some? then sub == Push.Sub(row.value.cursor, row.value.pausedAt.Some?, row.value.failures, false)
    else sub.deleted
  }

  /** A pass is five steps of the push protocol run without interruption, so whatever holds of every
    * interleaving of those steps holds of the code's passes. */
  lemma {:induction false} PassRefinesProtocol(w: Push.World, window: Time, id: int, row: Option<Row>, armed: bool,
                                               env: PassEnv)
    requires id in w.workers && w.workers[id].phase.Top? && w.workers[id].cancelled == env.cancelled
    requires w.secret == armed && w.log.rows == env.table && SameRow(w.sub, row)
    ensures var effect := PassEffect(row, armed, env);
            var w' := FiveSteps(w, window, id, env);
            && SameRow(w'.sub, effect.row)
            && w'.posts == w.posts + (if effect.posted.Some? then [effect.posted.value] else [])
            && w'.acked == w.acked + AckedBy(effect, env)
            && (effect.after.Exit? <==> w'.workers[id].phase.Exited?)
            && (effect.after.Again? <==> w'.workers[id].phase.Top?)
  {
    hide Batch, Truncated;
    var w1 := Push.Next(w, window, Push.Load(id, env.getFails));
    if !w1.workers[id].phase.Loaded? {
      RestIdle(w1, window, id, env);
    } else {
      hide Push.Next;
      FromLoaded(w1, window, id, row.value, env);
    }
  }

  /** The four steps after the load. */
  function FourSteps(w: Push.World, window: Time, id: int, env: PassEnv): Push.World {
    ThreeSteps(Push.Next(w, window, Push.Read(id, env.batchSize, env.readFails)), window, id, env)
  }

  lemma {:induction false} NoMove(w: Push.World, window: Time, id: int, step: Push.Step)
    requires id in w.workers && (step.Read? || step.Send? || step.Answer? || step.Commit?) && step.id == id
    requires var p := w.workers[id].phase;
             !(p.Loaded? && step.Read?) && !(p.Chosen? && step.Send?) && !(p.Posting? && step.Answer?)
               && !(p.Answered? && step.Commit?)
    ensures Push.Next(w, window, step) == w
  {
    assert w.workers[id := w.workers[id]] == w.workers;
  }

  /** A worker that is not on its way to a delivery is left alone by the steps of one. */
  lemma {:induction false} RestIdle(w: Push.World, window: Time, id: int, env: PassEnv)
    requires id in w.workers
    requires var p := w.workers[id].phase; !p.Loaded? && !p.Chosen? && !p.Posting? && !p.Answered?
    ensures FourSteps(w, window, id, env) == w
  {
    hide Push.Next;
    NoMove(w, window, id, Push.Read(id, env.batchSize, env.readFails));
    NoMove(w, window, id, Push.Send(id, !env.answer.BuildError?, !env.recordFails));
    NoMove(w, window, id, Push.Answer(id, Delivered(env.answer), !env.recordFails));
    NoMove(w, window, id, Push.Commit(id, env.writeFails));
  }

  lemma {:induction false} FromLoaded(w: Push.World, window: Time, id: int, row: Row, env: PassEnv)
    requires id in w.workers && w.workers[id].phase == Push.Loaded(row.cursor) && !w.workers[id].cancelled
    requires w.log.rows == env.table && SameRow(w.sub, Some(row))
    requires !env.cancelled && !env.getFails && row.pausedAt.None?
    ensures var effect := PassEffect(Some(row), true, env);
            var w' := FourSteps(w, window, id, env);
            && SameRow(w'.sub, effect.row)
            && w'.posts == w.posts + (if effect.posted.Some? then [effect.posted.value] else [])
            && w'.acked == w.acked + AckedBy(effect, env)
            && id in w'.workers && !w'.workers[id].phase.Exited?
            && (effect.after.Again? <==> w'.workers[id].phase.Top?)
  {
    hide Batch, AttemptEffect;
    var w2 := Push.Next(w, window, Push.Read(id, env.batchSize, env.readFails));
    if w2.workers[id].phase.Chosen? {
      hide Push.Next;
      FromChosen(w2, window, id, row, w2.workers[id].phase.event, env);
    } else {
      hide Push.Next;
      NoMove(w2, window, id, Push.Send(id, !env.answer.BuildError?, !env.recordFails));
      NoMove(w2, window, id, Push.Answer(id, Delivered(env.answer), !env.recordFails));
      NoMove(w2, window, id, Push.Commit(id, env.writeFails));
    }
  }

  /** Send, answer and commit. */
  function ThreeSteps(w: Push.World, window: Time, id: int, env: PassEnv): Push.World {
    var w3 := Push.Next(w, window, Push.Send(id, !env.answer.BuildError?, !env.recordFails));
    var w4 := Push.Next(w3, window, Push.Answer(id, Delivered(env.answer), !env.recordFails));
    Push.Next(w4, window, Push.Commit(id, env.writeFails))
  }

  lemma {:induction false} FromChosen(w: Push.World, window: Time, id: int, row: Row, event: Event, env: PassEnv)
    requires id in w.workers && w.workers[id].phase == Push.Chosen(row.cursor, event) && !w.workers[id].cancelled
    requires SameRow(w.sub, Some(row))
    ensures var effect := AttemptEffect(row, event, env);
            var w' := ThreeSteps(w, window, id, env);
            && SameRow(w'.sub, effect.row)
            && w'.posts == w.posts + (if effect.posted.Some? then [effect.posted.value] else [])
            && w'.acked == w.acked + AckedBy(effect, env)
            && id in w'.workers && !w'.workers[id].phase.Exited?
            && (effect.after.Again? <==> w'.workers[id].phase.Top?)
  {
    hide Truncated;
    var answer, commit := Push.Answer(id, Delivered(env.answer), !env.recordFails), Push.Commit(id, env.writeFails);
    var w3 := Push.Next(w, window, Push.Send(id, !env.answer.BuildError?, !env.recordFails));
    if env.answer.BuildError? {
      NoMove(w3, window, id, answer);
      NoMove(w3, window, id, commit);
    } else if !Delivered(env.answer) {
      NoMove(Push.Next(w3, window, answer), window, id, commit);
    }
  }

  function FiveSteps(w: Push.World, window: Time, id: int, env: PassEnv): Push.World {
    FourSteps(Push.Next(w, window, Push.Load(id, env.getFails)), window, id, env)
  }

  /** The statements on the row are the protocol's steps. */
  lemma {:induction false} RowSteps(w: Push.World, window: Time, row: Row, now: Time)
    requires SameRow(w.sub, Some(row))
    ensures SameRow(Push.Next(w, window, Push.PauseRow).sub, Some(row.(pausedAt := Some(now))))
    ensures SameRow(Push.Next(w, window, Push.ResumeRow).sub, Some(row.(pausedAt := None)))
    ensures SameRow(Push.Next(w, window, Push.DeleteRow).sub, None)
    ensures SameRow(Push.Next(w, window, Push.Rotate).sub, Some(row)) && Push.Next(w, window, Push.Rotate).secret
  {
  }

  // ----- The manager --------------------------------------------------------------------------

  /** A delivery made outside the worker loop: a synthetic test, or a replay of a stored event. */
  datatype Probe = Test(id: string) | Replay(id: string, event: Event)

  /** Whether a replay of `event` goes to the subscription. */
  predicate Eligible(row: Row, armed: bool, event: Event) {
    row.source == event.source && row.pausedAt.None? && armed
  }

  ghost function Replays(event: Event, ids: set<string>): set<Probe> {
    set id | id in ids :: Replay(id, event)
  }

  lemma {:induction false} NoReplays(event: Event)
    ensures Replays(event, {}) == {}
  {
  }

  lemma {:induction false} OneMoreReplay(event: Event, ids: set<string>, id: string)
    requires id !in ids
    ensures multiset(Replays(event, ids + {id})) == multiset(Replays(event, ids)) + multiset{Replay(id, event)}
  {
    assert Replays(event, ids + {id}) == Replays(event, ids) + {Replay(id, event)};
    assert Replay(id, event) !in Replays(event, ids);
  }

  class Manager {
    var workers: map<string, Worker>
    var secrets: map<string, string>
    var sent: seq<Probe>
    const subs: SubStore
    const notifier: Pubsub.Notifier

    constructor (subs: SubStore, notifier: Pubsub.Notifier)
      ensures workers == map[] && secrets == map[] && sent == []
      ensures this.subs == subs && this.notifier == notifier
    {
      workers, secrets, sent := map[], map[], [];
      this.subs, this.notifier := subs, notifier;
    }

    /** Each registered worker is registered under its own id and belongs to this manager. */
    ghost predicate Valid()
      reads this, notifier, notifier.Repr()
    {
      && notifier.Valid()
      && forall id :: id in workers ==> workers[id].id == id && workers[id].mgr == this && workers[id].subs == subs
    }

    /** Starts a worker, with its channel subscribed first, unless one is registered: a registered
      * worker is left alone even if it has already exited. */
    method EnsureWorker(id: string, source: string)
      requires Valid()
      modifies this`workers, notifier`subs
      ensures Valid()
      ensures id in old(workers) ==> workers == old(workers) && notifier.subs == old(notifier.subs)
      ensures id !in old(workers) ==>
                && id in workers && workers == old(workers)[id := workers[id]]
                && fresh(workers[id]) && !workers[id].cancelled && !workers[id].exited
                && workers[id].signal in notifier.Subscribers(source)
    {
      if id in workers {
        return;
      }
      var signal := notifier.Subscribe(source);
      var w := new Worker(id, subs, this, signal);
      workers := workers[id := w];
    }

    method Add(id: string, source: string, plaintext: string)
      requires Valid()
      modifies this`workers, this`secrets, notifier`subs
      ensures Valid() && secrets == old(secrets)[id := plaintext]
      ensures workers.Keys == old(workers).Keys + {id}
      ensures forall other :: other in old(workers) ==> workers[other] == old(workers)[other]
    {
      secrets := secrets[id := plaintext];
      EnsureWorker(id, source);
    }

    method Rotate(id: string, plaintext: string)
      modifies this`secrets
      ensures secrets == old(secrets)[id := plaintext]
    {
      secrets := secrets[id := plaintext];
    }

    /** The half of a pause that runs under the mutex: the worker leaves the table and goes on running. */
    method Deregister(id: string) returns (w: Option<Worker>)
      requires Valid()
      modifies this`workers
      ensures Valid() && workers == old(workers) - {id}
      ensures w == if id in old(workers) then Some(old(workers)[id]) else None
    {
      w := if id in workers then Some(workers[id]) else None;
      workers := workers - {id};
    }

    /** Deregisters the worker and then cancels it; the row, its cursor and the secret are untouched. */
    method Pause(id: string)
      requires Valid()
      modifies this`workers, (if id in workers then {workers[id]} else {})`cancelled
      ensures Valid() && workers == old(workers) - {id}
      ensures id in old(workers) ==> old(workers)[id].cancelled
    {
      var w := Deregister(id);
      if w.Some? {
        w.value.Cancel();
      }
    }

    /** Pause, and forget the secret. */
    method Remove(id: string)
      requires Valid()
      modifies this`workers, this`secrets, (if id in workers then {workers[id]} else {})`cancelled
      ensures Valid() && workers == old(workers) - {id} && secrets == old(secrets) - {id}
      ensures id in old(workers) ==> old(workers)[id].cancelled
    {
      var w := Deregister(id);
      secrets := secrets - {id};
      if w.Some? {
        w.value.Cancel();
      }
    }

    /** After a resume a live worker is registered exactly when none was registered before, or the
      * registered one is still live. A worker that exited by itself on seeing the pause stamp stays
      * registered, so resuming does not replace it. */
    method Resume(id: string) returns (found: bool)
      requires Valid()
      modifies this`workers, notifier`subs
      ensures Valid() && found == (id in subs.rows)
      ensures !found ==> workers == old(workers)
      ensures found ==>
                && id in workers
                && (!workers[id].exited && !workers[id].cancelled <==>
                      id !in old(workers) || (!old(workers[id].exited) && !old(workers[id].cancelled)))
                && (id in old(workers) ==> workers == old(workers))
                && (id !in old(workers) ==> fresh(workers[id]))
    {
      if id !in subs.rows {
        return false;
      }
      EnsureWorker(id, subs.rows[id].source);
      found := true;
    }

    /** Cancels every registered worker and empties the table. */
    method Stop()
      requires Valid()
      modifies this`workers, workers.Values`cancelled
      ensures workers == map[]
      ensures forall w :: w in old(workers.Values) ==> w.cancelled
    {
      var all := workers.Values;
      workers := map[];
      var todo := all;
      while todo != {}
        invariant todo <= all && workers == map[]
        invariant forall w :: w in all && w !in todo ==> w.cancelled
        decreases |todo|
      {
        var w :| w in todo;
        w.cancelled := true;
        todo := todo - {w};
      }
    }

    /** One worker per subscription that is not paused; nothing when the listing fails. */
    method Start(listFails: bool) returns (ok: bool)
      requires Valid()
      modifies this`workers, notifier`subs
      ensures Valid() && ok == !listFails
      ensures !ok ==> workers == old(workers)
      ensures ok ==> workers.Keys == old(workers).Keys + (set id | id in subs.rows && subs.rows[id].pausedAt.None?)
      ensures forall id :: id in old(workers) ==> workers[id] == old(workers)[id]
    {
      if listFails {
        return false;
      }
      var todo := subs.rows.Keys;
      ghost var live := set id | id in subs.rows && subs.rows[id].pausedAt.None?;
      while todo != {}
        invariant Valid() && todo <= subs.rows.Keys
        invariant workers.Keys == old(workers).Keys + (live - todo)
        invariant forall id :: id in old(workers) ==> workers[id] == old(workers)[id]
        decreases |todo|
      {
        hide Valid, Pubsub.Notifier.Valid;
        var id :| id in todo;
        todo := todo - {id};
        if subs.rows[id].pausedAt.None? {
          EnsureWorker(id, subs.rows[id].source);
        }
      }
      return true;
    }

    /** Sends a synthetic event, without a retry. No row changes, so no cursor moves. */
    method SendTest(id: string, attempt: Attempt) returns (ok: bool)
      modifies this`sent
      ensures ok <==> id in subs.rows && id in secrets && attempt.Status? && 200 <= attempt.code <= 299
      ensures sent == old(sent) + (if id in subs.rows && id in secrets && !attempt.BuildError? then [Test(id)] else [])
    {
      if id !in subs.rows || id !in secrets || attempt.BuildError? {
        return false;
      }
      sent := sent + [Test(id)];
      return Delivered(attempt);
    }

    /** The subscriptions a replay of `event` goes to: those of its source that are not paused, have a secret at hand,
      * and whose request can be built. */
    function Audience(event: Event, unbuildable: set<string>): (ids: set<string>)
      reads this`secrets, subs
      ensures forall id :: id in ids <==>
                && id in subs.rows && subs.rows[id].source == event.source && subs.rows[id].pausedAt == None
                && id in secrets && id !in unbuildable
    {
      set id | id in subs.rows && Eligible(subs.rows[id], id in secrets, event) && id !in unbuildable
    }

    /** Posts a stored event once to each subscription of its audience, whatever the targets answer; to none when the
      * listing fails. No row changes. */
    method ReplayOne(event: Event, listFails: bool, unbuildable: set<string>)
      modifies this`sent
      ensures listFails ==> sent == old(sent)
      ensures !listFails ==>
                multiset(sent) == multiset(old(sent)) + multiset(Replays(event, Audience(event, unbuildable)))
    {
      hide Replays, Audience;
      if listFails {
        return;
      }
      var todo := subs.rows.Keys;
      ghost var all := Audience(event, unbuildable);
      NoReplays(event);
      assert all - todo == {};
      while todo != {}
        invariant todo <= subs.rows.Keys
        invariant multiset(sent) == multiset(old(sent)) + multiset(Replays(event, all - todo))
        decreases |todo|
      {
        var id :| id in todo;
        if Eligible(subs.rows[id], id in secrets, event) && id !in unbuildable {
          OneMoreReplay(event, all - todo, id);
          assert all - (todo - {id}) == (all - todo) + {id};
          sent := sent + [Replay(id, event)];
        } else {
          assert all - (todo - {id}) == all - todo;
        }
        todo := todo - {id};
      }
      assert all - todo == all;
    }
  }

  // ----- Two ways a resume goes wrong --------------------------------------------------------------

  predicate LiveWorker(w: Worker)
    reads w
  {
    !w.exited && !w.cancelled
  }

  /** A resume that comes between the two halves of a pause starts a second worker beside one that is still live: the
    * situation of PushOrder.PauseThenResumeCanRegress. */
  method ResumeDuringPause(mgr: Manager, id: string) returns (older: Worker, newer: Worker)
    requires mgr.Valid() && id in mgr.workers && id in mgr.subs.rows && LiveWorker(mgr.workers[id])
    modifies mgr`workers, mgr.notifier`subs
    ensures older == old(mgr.workers[id]) && id in mgr.workers && newer == mgr.workers[id] && newer != older
    ensures LiveWorker(older) && LiveWorker(newer) && older.id == newer.id
  {
    older := mgr.workers[id];
    var dropped := mgr.Deregister(id);
    var found := mgr.Resume(id);
    newer := mgr.workers[id];
  }

  lemma {:induction false} PausedStops(row: Row, armed: bool, env: PassEnv)
    requires row.pausedAt.Some? && !env.cancelled && !env.getFails
    ensures LoopEffect(Some(row), armed, [env]) == Loop(Some(row), [], true)
  {
    assert Init([env]) == [] && Last([env]) == env;
  }

  /** A pause made by SQL alone, as the deactivation cascade makes it, is noticed by the worker at its next pass. It
    * exits and stays registered, and resuming the subscription starts nothing in its place: the row is unpaused and
    * its only registered worker has gone. */
  method CascadeThenResume(mgr: Manager, id: string, w: Worker, env: PassEnv, now: Time)
    requires mgr.Valid() && id in mgr.workers && mgr.workers[id] == w && LiveWorker(w)
    requires id in mgr.subs.rows && mgr.subs.rows[id].pausedAt.None? && !env.cancelled && !env.getFails
    modifies mgr`workers, mgr.subs, mgr.notifier`subs, w`posts, w`exited, w.signal`closed
    ensures mgr.Valid() && mgr.workers == old(mgr.workers) && mgr.subs.rows == old(mgr.subs.rows)
    ensures w.exited && w.posts == old(w.posts)
  {
    var paused := mgr.subs.Pause(id, now);
    PausedStops(mgr.subs.rows[id], id in mgr.secrets, env);
    ghost var stamped := mgr.subs.rows;
    w.Run([env], mgr.subs.rows[id].source);
    SameRows(mgr.subs, stamped);
    var resumed := mgr.subs.Resume(id);
    var found := mgr.Resume(id);
  }

  lemma {:induction false} SameRows(subs: SubStore, rows: map<string, Row>)
    requires forall id :: subs.Lookup(id) == if id in rows then Some(rows[id]) else None
    ensures subs.rows == rows
  {
    assert forall id :: id in subs.rows <==> subs.Lookup(id).Some?;
  }
}
