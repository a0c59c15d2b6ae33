/** Push delivery of one subscription: any number of overlapping workers, pauses, resumes, rotations,
  * crashes, appends and prunes.
  *
  * A worker loads the row, reads the first event past the loaded cursor, sends it, and on 2xx writes
  * the event's sequence into the row. Each of those is a separate step, so another worker may move the
  * row in between. The manager drops a worker from its table in one step and cancels it in a later one,
  * as its pause does around the mutex; a cancelled worker's statements and requests fail. */
module Push {
  import opened Common
  import opened EventLog
  import Stream

  datatype Phase =
    | Top
    | Parked
    | Loaded(cursor: int)
    | Chosen(cursor: int, event: Event)
    | Posting(cursor: int, event: Event)
    | Answered(cursor: int, event: Event)
    | Idle(cursor: int)
    | Backoff
    | Exited

  datatype Worker = Worker(phase: Phase, full: bool, cancelled: bool)

  /** The row; once deleted, its other columns are what it last held. */
  datatype Sub = Sub(cursor: int, paused: bool, failures: nat, deleted: bool)

  /** `registered` is the worker in the manager's table. `posts` lists the events sent to the target, in order,
    * and `acked` the ones it answered 2xx to. */
  datatype World = World(log: Log, pending: multiset<int>, sub: Sub, secret: bool, posts: seq<Event>,
                         acked: set<Event>, registered: Option<int>, workers: map<int, Worker>)

  datatype Step =
    | Ingest(input: AppendInput, now: Time)
    | Publish(sequence: int)
    | PruneRows(cutoff: Time)
    | Spawn(id: int)
    | Deregister
    | Cancel(id: int)
    | Load(id: int, getFails: bool)
    | Read(id: int, limit: int, readFails: bool)
    | Send(id: int, built: bool, recorded: bool)
    | Answer(id: int, success: bool, recorded: bool)
    | Commit(id: int, writeFails: bool)
    | Wake(id: int)
    | Timer(id: int)
    | Exit(id: int)
    | PauseRow
    | ResumeRow
    | DeleteRow
    | Rotate
    | SideDelivery(success: bool)  // Test or ReplayOne
    | Crash

  function Begin(start: int): World {
    World(Log([], []), multiset{}, Sub(start, false, 0, false), false, [], {}, None, map[])
  }

  predicate Resting(p: Phase) {
    p.Parked? || p.Idle? || p.Backoff?
  }

  /** One worker's move. The row, the posts and the acknowledged set are handled by `Next`. */
  function WorkerStep(w: World, k: Worker, step: Step): Worker {
    match step
    case Exit(_) => if k.cancelled && (Resting(k.phase) || k.phase.Top?) then k.(phase := Exited) else k
    case Load(_, getFails) =>
      if !k.phase.Top? then k
      else if k.cancelled then k.(phase := Exited)
      else if getFails || w.sub.deleted then k.(phase := Backoff)
      else if w.sub.paused then k.(phase := Exited)
      else if !w.secret then k.(phase := Parked)
      else k.(phase := Loaded(w.sub.cursor))
    case Read(_, limit, readFails) =>
      if !k.phase.Loaded? then k
      else if readFails || k.cancelled then k.(phase := Backoff)
      else
        var batch := Batch(w.log.rows, k.phase.cursor, limit);
        if batch == [] then k.(phase := Idle(k.phase.cursor)) else k.(phase := Chosen(k.phase.cursor, batch[0]))
    case Send(_, built, _) =>
      if !k.phase.Chosen? then k
      else if built && !k.cancelled then k.(phase := Posting(k.phase.cursor, k.phase.event))
      else k.(phase := Backoff)
    case Answer(_, success, _) =>
      if !k.phase.Posting? then k
      else if success && !k.cancelled then k.(phase := Answered(k.phase.cursor, k.phase.event))
      else k.(phase := Backoff)
    case Commit(_, writeFails) =>
      if !k.phase.Answered? then k
      else if writeFails || k.cancelled || w.sub.deleted then k.(phase := Backoff)
      else k.(phase := Top)
    case Wake(_) => if Resting(k.phase) && k.full then k.(phase := Top, full := false) else k
    case Timer(_) => if Resting(k.phase) then k.(phase := Top) else k
    case _ => k
  }

  function Signalled(k: Worker): Worker {
    if k.phase.Exited? then k else k.(full := true)
  }

  /** The effect of a worker's move on the subscription row: a failed delivery counts a failure, a commit
    * stores the posted sequence and clears the count. A cancelled worker writes nothing. */
  function SubStep(w: World, k: Worker, step: Step): Sub {
    if w.sub.deleted || k.cancelled then w.sub
    else
      match step
      case Send(_, built, recorded) =>
        if k.phase.Chosen? && !built && recorded then w.sub.(failures := w.sub.failures + 1) else w.sub
      case Answer(_, success, recorded) =>
        if k.phase.Posting? && !success && recorded then w.sub.(failures := w.sub.failures + 1) else w.sub
      case Commit(_, writeFails) =>
        if k.phase.Answered? && !writeFails then w.sub.(cursor := k.phase.event.sequence, failures := 0) else w.sub
      case _ => w.sub
  }

  function PostsStep(w: World, k: Worker, step: Step): seq<Event> {
    if step.Send? && step.built && k.phase.Chosen? && !k.cancelled then w.posts + [k.phase.event] else w.posts
  }

  function AckedStep(w: World, k: Worker, step: Step): set<Event> {
    if step.Answer? && step.success && k.phase.Posting? && !k.cancelled then w.acked + {k.phase.event} else w.acked
  }

  function Next(w: World, window: Time, step: Step): World {
    match step
    case Ingest(input, now) =>
      var log := Apply(w.log, window, AppendOp(input, now));
      if log == w.log then w
      else w.(log := log, pending := w.pending + multiset{Last(log.history).sequence})
    case Publish(sequence) =>
      if sequence !in w.pending then w
      else
        w.(pending := w.pending - multiset{sequence}, workers := map id | id in w.workers :: Signalled(w.workers[id]))
    case PruneRows(cutoff) => w.(log := Apply(w.log, window, PruneOp(cutoff)))
    case Spawn(id) =>
      if id in w.workers || w.registered.Some? then w
      else w.(registered := Some(id), workers := w.workers[id := Worker(Top, false, false)])
    case Deregister => w.(registered := None)
    case Cancel(id) =>
      if id !in w.workers || w.registered == Some(id) then w
      else w.(workers := w.workers[id := w.workers[id].(cancelled := true)])
    case PauseRow => w.(sub := w.sub.(paused := true))
    case ResumeRow => w.(sub := w.sub.(paused := false))
    case DeleteRow => w.(sub := w.sub.(deleted := true))
    case Rotate => w.(secret := true)
    case SideDelivery(_) => w
    case Crash => w.(workers := map[], registered := None, pending := multiset{}, secret := false)
    case _ =>
      if step.id !in w.workers then w
      else
        var k := w.workers[step.id];
        w.(sub := SubStep(w, k, step), posts := PostsStep(w, k, step), acked := AckedStep(w, k, step),
           workers := w.workers[step.id := WorkerStep(w, k, step)])
  }

  function Run(steps: seq<Step>, window: Time, start: int): World {
    if steps == [] then Begin(start) else Next(Run(Init(steps), window, start), window, Last(steps))
  }

  // ----- Wake-ups ------------------------------------------------------------------------------

  ghost predicate Woken(w: World, k: Worker) {
    k.phase.Idle? && !k.full ==> AllPending(w.log.rows, k.phase.cursor, w.pending)
  }

  ghost predicate AllWoken(w: World) {
    forall id :: id in w.workers ==> Woken(w, w.workers[id])
  }

  /** A worker idling on an empty channel has no stored event past the cursor it read whose publish
    * has already run, in any interleaving. */
  lemma {:induction false} NoLostWakeup(steps: seq<Step>, window: Time, start: int)
    ensures AllWoken(Run(steps, window, start))
  {
    if steps != [] {
      NoLostWakeup(Init(steps), window, start);
      AllWokenStep(Run(Init(steps), window, start), window, Last(steps));
    }
  }

  lemma {:induction false} AllWokenStep(w: World, window: Time, step: Step)
    requires AllWoken(w)
    ensures AllWoken(Next(w, window, step))
  {
    hide AllPending, Apply, Batch;
    var w' := Next(w, window, step);
    forall id | id in w'.workers ensures Woken(w', w'.workers[id]) {
      if id in w.workers {
        WokenStep(w, window, step, id);
      }
    }
  }

  lemma {:induction false} WokenStep(w: World, window: Time, step: Step, id: int)
    requires id in w.workers && Woken(w, w.workers[id]) && id in Next(w, window, step).workers
    ensures Woken(Next(w, window, step), Next(w, window, step).workers[id])
  {
    hide Apply, Batch, AllPending, SubStep, PostsStep, AckedStep;
    var k := w.workers[id];
    if step.Ingest? {
      if k.phase.Idle? && !k.full {
        PendingAfterAppend(w.log, window, step.input, step.now, k.phase.cursor, w.pending);
      }
    } else if step.PruneRows? {
      if k.phase.Idle? && !k.full {
        PendingAfterPrune(w.log, window, step.cutoff, k.phase.cursor, w.pending);
      }
    } else {
      MoveWoken(w, k, step);
      hide Woken, WorkerStep;
      StillWoken(w, window, step, id);
    }
  }

  /** A worker's own move to idling is an empty read. */
  lemma {:induction false} MoveWoken(w: World, k: Worker, step: Step)
    requires Woken(w, k)
    ensures Woken(w, WorkerStep(w, k, step))
  {
    if step.Read? && !k.phase.Idle? {
      EmptyReadWoken(w, k, step);
    }
    hide Batch, AllPending;
  }

  /** Elsewhere the log and what is pending stay, but for a publish, which signals everybody. */
  lemma {:induction false} StillWoken(w: World, window: Time, step: Step, id: int)
    requires id in w.workers && id in Next(w, window, step).workers && !step.Ingest? && !step.PruneRows?
    requires Woken(w, w.workers[id]) && Woken(w, WorkerStep(w, w.workers[id], step))
    ensures Woken(Next(w, window, step), Next(w, window, step).workers[id])
  {
    hide Apply, AllPending, SubStep, PostsStep, AckedStep, WorkerStep;
  }

  lemma {:induction false} EmptyReadWoken(w: World, k: Worker, step: Step)
    requires step.Read? && !k.phase.Idle?
    ensures Woken(w, WorkerStep(w, k, step))
  {
    if k.phase.Loaded? && Batch(w.log.rows, k.phase.cursor, step.limit) == [] {
      NothingPendingAfterEmptyRead(w.log.rows, k.phase.cursor, step.limit, w.pending);
    }
    hide Batch, AllPending;
  }

  /** What a publish does: every worker that has not returned then has a signal, and one that waits starts another pass
    * with its slot free again. */
  lemma {:induction false} SignalWakes(w: World, window: Time, sequence: int, id: int)
    requires id in w.workers && w.workers[id].phase != Exited && sequence in w.pending
    ensures var w' := Next(w, window, Publish(sequence));
            && w'.pending == w.pending - multiset{sequence} && w'.workers.Keys == w.workers.Keys
            && w'.workers[id] == w.workers[id].(full := true)
            && (w.workers[id].phase.Parked? || w.workers[id].phase.Idle? || w.workers[id].phase.Backoff? ==>
                  Next(w', window, Wake(id)).workers[id] == w.workers[id].(phase := Top, full := false))
  {
    hide Batch;
  }

  // ----- No loss -------------------------------------------------------------------------------

  /** Every prune of the run leaves the newest row of the source in place. */
  ghost predicate Guarded(steps: seq<Step>, window: Time, start: int) {
    steps == [] ||
    (Guarded(Init(steps), window, start) &&
     (Last(steps).PruneRows? ==> NewestKept(Run(Init(steps), window, start).log.rows, Last(steps).cutoff)))
  }

  /** Every stored event from the start of the subscription up to `cursor` was answered 2xx. */
  ghost predicate Safe(w: World, start: int, cursor: int) {
    && (cursor <= start || cursor <= |w.log.history|)
    && forall e :: e in w.log.rows && start < e.sequence <= cursor ==> e in w.acked
  }

  /** `event` is the first stored event past a safe cursor. */
  ghost predicate FirstPast(w: World, start: int, cursor: int, event: Event) {
    && Safe(w, start, cursor) && cursor < event.sequence <= |w.log.history| && event in w.log.history
    && forall e :: e in w.log.rows && e.sequence > cursor ==> e.sequence >= event.sequence
  }

  ghost predicate WorkerOk(w: World, start: int, k: Worker) {
    match k.phase
    case Loaded(cursor) => Safe(w, start, cursor)
    case Idle(cursor) => Safe(w, start, cursor)
    case Chosen(cursor, event) => FirstPast(w, start, cursor, event)
    case Posting(cursor, event) => FirstPast(w, start, cursor, event)
    case Answered(cursor, event) => FirstPast(w, start, cursor, event) && event in w.acked
    case _ => true
  }

  ghost predicate Ok(w: World, window: Time, start: int) {
    && Stream.LogOk(w.log) && Spaced(w.log.rows, window)
    && Safe(w, start, w.sub.cursor)
    && forall id :: id in w.workers ==> WorkerOk(w, start, w.workers[id])
  }

  /** Appends, prunes and further acknowledgements keep what a worker relies on. */
  lemma {:induction false} WorkerFrame(w: World, w': World, start: int, k: Worker)
    requires WorkerOk(w, start, k) && Stream.Grows(w.log, w'.log) && w.acked <= w'.acked
    ensures WorkerOk(w', start, k)
  {
  }

  lemma {:induction false} ReadOk(w: World, start: int, k: Worker, limit: int)
    requires Stream.LogOk(w.log) && WorkerOk(w, start, k) && k.phase.Loaded?
    ensures WorkerOk(w, start, WorkerStep(w, k, Read(0, limit, false)))
  {
    hide Batch;
    if Batch(w.log.rows, k.phase.cursor, limit) != [] {
      BatchFirst(w.log.rows, k.phase.cursor, limit);
      Stream.StoredInHistory(w.log, Batch(w.log.rows, k.phase.cursor, limit)[0]);
      assert Batch(w.log.rows, k.phase.cursor, limit)[0] in w.log.history;
    }
    hide Stream.LogOk;
  }

  lemma {:induction false} WorkerStepOk(w: World, window: Time, start: int, step: Step, id: int)
    requires Ok(w, window, start) && id in w.workers
    ensures WorkerOk(w.(acked := AckedStep(w, w.workers[id], step)), start, WorkerStep(w, w.workers[id], step))
  {
    var k := w.workers[id];
    assert WorkerOk(w, start, k);
    WorkerFrame(w, w.(acked := AckedStep(w, k, step)), start, k);
    match step {
      case Read(_, limit, readFails) =>
        if k.phase.Loaded? && !readFails { ReadOk(w, start, k, limit); }
      case _ =>
    }
  }

  lemma {:induction false} NextLogOk(w: World, window: Time, step: Step)
    requires Stream.LogOk(w.log) && Spaced(w.log.rows, window)
    requires step.PruneRows? ==> NewestKept(w.log.rows, step.cutoff)
    ensures var w' := Next(w, window, step);
            && Stream.LogOk(w'.log) && Spaced(w'.log.rows, window)
            && Stream.Grows(w.log, w'.log) && w.acked <= w'.acked
  {
    hide Apply, Stream.LogOk, Stream.Grows, Spaced;
    match step {
      case Ingest(input, now) => Stream.LogStep(w.log, window, AppendOp(input, now));
      case PruneRows(cutoff) => Stream.LogStep(w.log, window, PruneOp(cutoff));
      case _ => Stream.GrowsSelf(w.log);
    }
  }

  lemma {:induction false} NextWorkerOk(w: World, window: Time, start: int, step: Step, id: int)
    requires Ok(w, window, start) && id in w.workers && id in Next(w, window, step).workers
    requires Stream.Grows(w.log, Next(w, window, step).log) && w.acked <= Next(w, window, step).acked
    ensures WorkerOk(Next(w, window, step), start, Next(w, window, step).workers[id])
  {
    hide Apply, Batch, Stream.LogOk, Spaced;
    var k, w' := w.workers[id], Next(w, window, step);
    assert WorkerOk(w, start, k);
    WorkerFrame(w, w', start, k);
    WorkerStepOk(w, window, start, step, id);
    if w'.workers[id] != k && w'.workers[id] != Signalled(k) {
      WorkerFrame(w.(acked := AckedStep(w, k, step)), w', start, w'.workers[id]);
    }
  }

  lemma {:induction false} NextSubOk(w: World, window: Time, start: int, step: Step)
    requires Ok(w, window, start)
    requires Stream.Grows(w.log, Next(w, window, step).log) && w.acked <= Next(w, window, step).acked
    ensures Safe(Next(w, window, step), start, Next(w, window, step).sub.cursor)
  {
    hide Apply, Batch, Spaced;
    if step.Commit? && step.id in w.workers {
      var k := w.workers[step.id];
      assert WorkerOk(w, start, k);
      if k.phase.Answered? {
        AckedUpTo(w, start, k.phase.cursor, k.phase.event);
      }
    }
  }

  /** Once the first event past a safe cursor is acknowledged, its own sequence is a safe cursor. */
  lemma {:induction false} AckedUpTo(w: World, start: int, cursor: int, event: Event)
    requires Stream.LogOk(w.log) && FirstPast(w, start, cursor, event) && event in w.acked
    ensures Safe(w, start, event.sequence)
  {
    Stream.GaplessUnique(w.log.history, event, event);
    forall e | e in w.log.rows && start < e.sequence <= event.sequence ensures e in w.acked {
      if e.sequence > cursor {
        Stream.GaplessUnique(w.log.history, e, event);
      }
    }
  }

  lemma {:induction false} NextOk(w: World, window: Time, start: int, step: Step)
    requires Ok(w, window, start)
    requires step.PruneRows? ==> NewestKept(w.log.rows, step.cutoff)
    ensures Ok(Next(w, window, step), window, start)
  {
    hide Safe, FirstPast, Stream.LogOk, Stream.Grows, Spaced, Apply, Batch;
    var w' := Next(w, window, step);
    NextLogOk(w, window, step);
    NextSubOk(w, window, start, step);
    forall id | id in w'.workers ensures WorkerOk(w', start, w'.workers[id]) {
      if id in w.workers {
        NextWorkerOk(w, window, start, step, id);
      }
    }
  }

  lemma {:induction false} ReachableOk(steps: seq<Step>, window: Time, start: int)
    requires Guarded(steps, window, start)
    ensures Ok(Run(steps, window, start), window, start)
  {
    if steps != [] {
      ReachableOk(Init(steps), window, start);
      NextOk(Run(Init(steps), window, start), window, start, Last(steps));
    }
  }

  /** Push no-loss: in every reachable state, whatever workers overlapped or crashed, each event ever
    * appended between the starting cursor and the persisted cursor was answered 2xx or has been pruned. */
  lemma {:induction false} NoLoss(steps: seq<Step>, window: Time, start: int, e: Event)
    requires Guarded(steps, window, start)
    requires var w := Run(steps, window, start); e in w.log.history && start < e.sequence <= w.sub.cursor
    ensures var w := Run(steps, window, start); e in w.acked || e !in w.log.rows
  {
    ReachableOk(steps, window, start);
  }

  /** At-least-once: when no publish is pending, a worker idling on an empty channel has had every stored event
    * past the starting cursor answered 2xx. */
  lemma {:induction false} CaughtUpWhenQuiet(steps: seq<Step>, window: Time, start: int, id: int, e: Event)
    requires Guarded(steps, window, start)
    requires var w := Run(steps, window, start);
             && id in w.workers && w.workers[id].phase.Idle? && !w.workers[id].full && w.pending == multiset{}
             && e in w.log.rows && e.sequence > start
    ensures e in Run(steps, window, start).acked
  {
    NoLostWakeup(steps, window, start);
    ReachableOk(steps, window, start);
    hide Run;
    var w := Run(steps, window, start);
    assert Woken(w, w.workers[id]) && WorkerOk(w, start, w.workers[id]);
  }

  /** Nothing is posted past a stored event that has not been answered 2xx. */
  lemma {:induction false} PostedInOrder(steps: seq<Step>, window: Time, start: int, step: Step, e: Event)
    requires Guarded(steps, window, start)
    requires var w := Run(steps, window, start);
             && Next(w, window, step).posts != w.posts
             && e in w.log.rows && start < e.sequence < Last(Next(w, window, step).posts).sequence
    ensures e in Run(steps, window, start).acked
  {
    ReachableOk(steps, window, start);
    hide Run, Apply, Batch, SubStep, PostsStep, AckedStep, WorkerStep, Spaced;
    var w := Run(steps, window, start);
    assert WorkerOk(w, start, w.workers[step.id]);
    PostIsChosen(w, w.workers[step.id], step);
  }

  lemma {:induction false} PostIsChosen(w: World, k: Worker, step: Step)
    ensures PostsStep(w, k, step) != w.posts ==>
              k.phase.Chosen? && PostsStep(w, k, step) != [] && Last(PostsStep(w, k, step)) == k.phase.event
  {
  }

  /** Only a commit moves the cursor, and only to an event answered 2xx and past the cursor the committing,
    * uncancelled worker loaded: failures, tests, replays, pauses, rotations and crashes leave it. */
  lemma {:induction false} CursorMovesOnlyOnSuccess(steps: seq<Step>, window: Time, start: int, step: Step)
    requires Guarded(steps, window, start)
    ensures var w := Run(steps, window, start);
            var cursor' := Next(w, window, step).sub.cursor;
            cursor' != w.sub.cursor ==>
              && step.Commit? && step.id in w.workers && w.workers[step.id].phase.Answered?
              && !w.workers[step.id].cancelled
              && cursor' == w.workers[step.id].phase.event.sequence
              && w.workers[step.id].phase.event in w.acked && cursor' > w.workers[step.id].phase.cursor
  {
    ReachableOk(steps, window, start);
    hide Apply, Run, Guarded, SubStep, PostsStep, AckedStep, WorkerStep;
    var w := Run(steps, window, start);
    if Next(w, window, step).sub.cursor != w.sub.cursor {
      assert step.id in w.workers && WorkerOk(w, start, w.workers[step.id]);
      RowMovesOnCommit(w, w.workers[step.id], step);
    }
  }

  lemma {:induction false} RowMovesOnCommit(w: World, k: Worker, step: Step)
    ensures SubStep(w, k, step).cursor != w.sub.cursor ==>
              && step.Commit? && k.phase.Answered? && !k.cancelled
              && SubStep(w, k, step).cursor == k.phase.event.sequence
  {
  }

  // ----- Why the guard is needed -------------------------------------------------------------------

  const FIRST := Row(Sample("a"), 1, 10)
  const SECOND := Row(Sample("b"), 1, 30)

  /** One worker over a subscription that started at 0. */
  function OneWorker(log: Log, pending: multiset<int>, cursor: int, posts: seq<Event>, acked: set<Event>,
                     p: Phase): World {
    World(log, pending, Sub(cursor, false, 0, false), true, posts, acked, Some(1), map[1 := Worker(p, false, false)])
  }

  lemma {:induction false} RunOn(steps: seq<Step>, window: Time, start: int, w: World, step: Step, w': World)
    returns (longer: seq<Step>)
    requires Run(steps, window, start) == w && Next(w, window, step) == w'
    ensures Run(longer, window, start) == w'
  {
    longer := steps + [step];
    assert Init(longer) == steps && Last(longer) == step;
  }

  lemma {:induction false} HeadOfOne()
    ensures Batch([FIRST], 0, 1) == [FIRST] && Retained([FIRST], 20) == [] && MaxSequence([]) == 0
  {
    assert Above([FIRST], 0) == Above([], 0) + [FIRST];
  }

  lemma {:induction false} FirstIngest(window: Time, w: World)
    requires w.log == Log([], []) && w.pending == multiset{}
    ensures Next(w, window, Ingest(Sample("a"), 10)) == w.(log := Log([FIRST], [FIRST]), pending := multiset{1})
  {
    HeadOfOne();
    assert AppendOutcome([], window, Sample("a"), 10) == Appended(FIRST);
  }

  lemma {:induction false} ToLoaded(window: Time, log: Log, due: multiset<int>)
    ensures Next(OneWorker(log, due, 0, [], {}, Top), window, Load(1, false)) ==
        OneWorker(log, due, 0, [], {}, Loaded(0))
  {
  }

  lemma {:induction false} ToChosen(window: Time, due: multiset<int>)
    ensures Next(OneWorker(Log([FIRST], [FIRST]), due, 0, [], {}, Loaded(0)), window, Read(1, 1, false))
         == OneWorker(Log([FIRST], [FIRST]), due, 0, [], {}, Chosen(0, FIRST))
  {
    HeadOfOne();
    hide Batch;
  }

  lemma {:induction false} ToPosting(window: Time, log: Log, due: multiset<int>, e: Event)
    ensures Next(OneWorker(log, due, 0, [], {}, Chosen(0, e)), window, Send(1, true, true))
         == OneWorker(log, due, 0, [e], {}, Posting(0, e))
  {
  }

  lemma {:induction false} ToAnswered(window: Time, log: Log, due: multiset<int>, e: Event)
    ensures Next(OneWorker(log, due, 0, [e], {}, Posting(0, e)), window, Answer(1, true, true))
         == OneWorker(log, due, 0, [e], {e}, Answered(0, e))
  {
  }

  lemma {:induction false} ToCommitted(window: Time, log: Log, due: multiset<int>, e: Event)
    ensures Next(OneWorker(log, due, 0, [e], {e}, Answered(0, e)), window, Commit(1, false))
         == OneWorker(log, due, e.sequence, [e], {e}, Top)
  {
  }

  lemma {:induction false} Started(window: Time) returns (steps: seq<Step>)
    ensures Run(steps, window, 0) == OneWorker(Log([FIRST], [FIRST]), multiset{1}, 0, [], {}, Top)
  {
    var w0 := Begin(0);
    FirstIngest(window, w0);
    hide Apply;
    var w1 := w0.(log := Log([FIRST], [FIRST]), pending := multiset{1});
    steps := RunOn([], window, 0, w0, Ingest(Sample("a"), 10), w1);
    steps := RunOn(steps, window, 0, w1, Rotate, w1.(secret := true));
    steps := RunOn(steps, window, 0, w1.(secret := true), Spawn(1),
                   OneWorker(Log([FIRST], [FIRST]), multiset{1}, 0, [], {}, Top));
  }

  lemma {:induction false} OneDelivered(window: Time) returns (steps: seq<Step>)
    ensures Run(steps, window, 0) == OneWorker(Log([FIRST], [FIRST]), multiset{1}, 1, [FIRST], {FIRST}, Top)
  {
    hide Next, OneWorker;
    var log, due := Log([FIRST], [FIRST]), multiset{1};
    steps := Started(window);
    ToLoaded(window, log, due);
    steps := RunOn(steps, window, 0, OneWorker(log, due, 0, [], {}, Top), Load(1, false),
                   OneWorker(log, due, 0, [], {}, Loaded(0)));
    ToChosen(window, due);
    steps := RunOn(steps, window, 0, OneWorker(log, due, 0, [], {}, Loaded(0)), Read(1, 1, false),
                   OneWorker(log, due, 0, [], {}, Chosen(0, FIRST)));
    ToPosting(window, log, due, FIRST);
    steps := RunOn(steps, window, 0, OneWorker(log, due, 0, [], {}, Chosen(0, FIRST)), Send(1, true, true),
                   OneWorker(log, due, 0, [FIRST], {}, Posting(0, FIRST)));
    ToAnswered(window, log, due, FIRST);
    steps := RunOn(steps, window, 0, OneWorker(log, due, 0, [FIRST], {}, Posting(0, FIRST)), Answer(1, true, true),
                   OneWorker(log, due, 0, [FIRST], {FIRST}, Answered(0, FIRST)));
    ToCommitted(window, log, due, FIRST);
    steps := RunOn(steps, window, 0, OneWorker(log, due, 0, [FIRST], {FIRST}, Answered(0, FIRST)), Commit(1, false),
                   OneWorker(log, due, 1, [FIRST], {FIRST}, Top));
  }

  lemma {:induction false} Restarted(window: Time)
    ensures Apply(Log([FIRST], [FIRST]), window, PruneOp(20)) == Log([], [FIRST])
    ensures Apply(Log([], [FIRST]), window, AppendOp(Sample("b"), 30)) == Log([SECOND], [FIRST, SECOND])
  {
    HeadOfOne();
    assert AppendOutcome([], window, Sample("b"), 30) == Appended(SECOND);
    assert [FIRST] + [SECOND] == [FIRST, SECOND];
  }

  /** Without the guard an event can be lost: one is delivered, a prune removes it, and the next event gets its
    * sequence, at the persisted cursor. It is stored, was never sent, and no later read past the cursor returns it. */
  lemma {:induction false} LostWithoutGuard(window: Time, limit: int) returns (steps: seq<Step>, e: Event)
    ensures var w := Run(steps, window, 0);
            && e in w.log.rows && 0 < e.sequence <= w.sub.cursor && e !in w.posts && e !in w.acked
            && Batch(w.log.rows, w.sub.cursor, limit) == []
  {
    e := SECOND;
    steps := OneDelivered(window);
    Restarted(window);
    hide Apply;
    var before := OneWorker(Log([FIRST], [FIRST]), multiset{1}, 1, [FIRST], {FIRST}, Top);
    var pruned := before.(log := Log([], [FIRST]));
    var after := before.(log := Log([SECOND], [FIRST, SECOND]), pending := multiset{1, 1});
    steps := RunOn(steps, window, 0, before, PruneRows(20), pruned);
    steps := RunOn(steps, window, 0, pruned, Ingest(Sample("b"), 30), after);
    assert FIRST.deliveryId != SECOND.deliveryId;
    assert Above([SECOND], 1) == Above([], 1);
  }
}
