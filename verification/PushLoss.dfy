/** When a prune can lose a push delivery: exactly when it leaves some position in use past every number still stored.
  *
  * New rows are numbered from the largest surviving one. A cursor past that number is waiting for rows that will be
  * stored at or below it, where no read looks. */
module PushLoss {
  import opened Common
  import opened EventLog
  import opened Push

  /** The worker, not cancelled, holds a position past `n` that it can still commit, or read on from. */
  predicate Ahead(k: Worker, n: int) {
    !k.cancelled &&
      match k.phase
      case Loaded(cursor) => cursor > n
      case Chosen(_, event) => event.sequence > n
      case Posting(_, event) => event.sequence > n
      case Answered(_, event) => event.sequence > n
      case _ => false
  }

  /** A prune at `cutoff` would leave the row's cursor, or a position that can still get into the row, past the
    * level. */
  ghost predicate Hazard(w: World, start: int, cutoff: Time) {
    var n := Level(Retained(w.log.rows, cutoff), start);
    w.sub.cursor > n || (!w.sub.deleted && exists id :: id in w.workers && Ahead(w.workers[id], n))
  }

  /** No prune of the run was one. */
  ghost predicate Harmless(steps: seq<Step>, window: Time, start: int) {
    steps == [] ||
    (Harmless(Init(steps), window, start) &&
     (Last(steps).PruneRows? ==> !Hazard(Run(Init(steps), window, start), start, Last(steps).cutoff)))
  }

  /** Some stored event between the starting and the persisted cursor was never answered 2xx. */
  ghost predicate Loses(w: World, start: int) {
    exists e :: e in w.log.rows && start < e.sequence <= w.sub.cursor && e !in w.acked
  }

  predicate NoPrunes(steps: seq<Step>) {
    steps == [] || (!Last(steps).PruneRows? && NoPrunes(Init(steps)))
  }

  // ----- What harmless prunes keep -------------------------------------------------------------------

  /** `n` is not past the level, and everything owed at or below it was answered 2xx. */
  ghost predicate Clear(w: World, start: int, n: int) {
    && n <= Level(w.log.rows, start)
    && forall e :: e in w.log.rows && start < e.sequence <= n ==> e in w.acked
  }

  /** Between a clear cursor and `event` nothing owed is stored but `event` itself. */
  ghost predicate NextUp(w: World, start: int, cursor: int, event: Event) {
    && Clear(w, start, cursor) && cursor < event.sequence <= Level(w.log.rows, start)
    && forall e :: e in w.log.rows && start < e.sequence && cursor < e.sequence <= event.sequence ==> e == event
  }

  ghost predicate WorkerClear(w: World, start: int, k: Worker) {
    !k.cancelled ==>
      match k.phase
      case Loaded(cursor) => Clear(w, start, cursor)
      case Chosen(cursor, event) => NextUp(w, start, cursor, event)
      case Posting(cursor, event) => NextUp(w, start, cursor, event)
      case Answered(cursor, event) => NextUp(w, start, cursor, event) && event in w.acked
      case _ => true
  }

  ghost predicate AllClear(w: World, start: int) {
    && Ordered(w.log.rows) && Clear(w, start, w.sub.cursor)
    && (!w.sub.deleted ==> forall id :: id in w.workers ==> WorkerClear(w, start, w.workers[id]))
  }

  /** `w'` is `w` with rows gone, rows appended past the level, or further acknowledgements. */
  ghost predicate Follows(w: World, w': World, start: int) {
    && w.acked <= w'.acked
    && forall e :: e in w'.log.rows && e.sequence > start ==> e in w.log.rows || e.sequence > Level(w.log.rows, start)
  }

  lemma {:induction false} ClearFrame(w: World, w': World, start: int, n: int)
    requires Clear(w, start, n) && Follows(w, w', start) && n <= Level(w'.log.rows, start)
    ensures Clear(w', start, n)
  {
    hide Level;
  }

  lemma {:induction false} WorkerFrame(w: World, w': World, start: int, k: Worker)
    requires WorkerClear(w, start, k) && Follows(w, w', start) && !Ahead(k, Level(w'.log.rows, start))
    ensures WorkerClear(w', start, k)
  {
    hide Level;
    if !k.cancelled {
      match k.phase {
        case Loaded(cursor) => ClearFrame(w, w', start, cursor);
        case Chosen(cursor, event) => NextUpFrame(w, w', start, cursor, event);
        case Posting(cursor, event) => NextUpFrame(w, w', start, cursor, event);
        case Answered(cursor, event) => NextUpFrame(w, w', start, cursor, event);
        case _ =>
      }
    }
  }

  lemma {:induction false} NextUpFrame(w: World, w': World, start: int, cursor: int, event: Event)
    requires NextUp(w, start, cursor, event) && Follows(w, w', start) && event.sequence <= Level(w'.log.rows, start)
    ensures NextUp(w', start, cursor, event)
  {
    hide Level;
  }

  /** What a worker holds is not past the level. */
  lemma {:induction false} NotAhead(w: World, start: int, k: Worker)
    requires WorkerClear(w, start, k)
    ensures !Ahead(k, Level(w.log.rows, start))
  {
    hide Level;
  }

  lemma {:induction false} ReadClear(w: World, start: int, cursor: int, limit: int)
    requires Ordered(w.log.rows) && Clear(w, start, cursor) && Batch(w.log.rows, cursor, limit) != []
    ensures NextUp(w, start, cursor, Batch(w.log.rows, cursor, limit)[0])
  {
    BatchFirst(w.log.rows, cursor, limit);
    hide Batch;
  }

  /** Once the next event is acknowledged its own sequence is clear. */
  lemma {:induction false} AckedClear(w: World, start: int, cursor: int, event: Event)
    requires NextUp(w, start, cursor, event) && event in w.acked
    ensures Clear(w, start, event.sequence)
  {
    hide Level;
  }

  /** A worker's own move keeps what it holds, and what it writes, clear. */
  lemma {:induction false} MoveClear(w: World, start: int, k: Worker, step: Step)
    requires Ordered(w.log.rows) && Clear(w, start, w.sub.cursor) && WorkerClear(w, start, k) && !w.sub.deleted
    ensures var w' := w.(acked := AckedStep(w, k, step));
            WorkerClear(w', start, WorkerStep(w, k, step)) && Clear(w', start, SubStep(w, k, step).cursor)
  {
    hide WorkerStep, SubStep;
    var w' := w.(acked := AckedStep(w, k, step));
    assert WorkerClear(w', start, k) && Clear(w', start, w.sub.cursor) by {
      NotAhead(w, start, k);
      CursorFits(w, start, w.sub.cursor);
      hide Clear, WorkerClear, Level;
      WorkerFrame(w, w', start, k);
      ClearFrame(w, w', start, w.sub.cursor);
    }
    hide Clear, WorkerClear, Ordered;
    MoveHolds(w, w', start, k, step);
    MoveWrites(w, w', start, k, step);
  }

  lemma {:induction false} MoveHolds(w: World, w': World, start: int, k: Worker, step: Step)
    requires Ordered(w.log.rows) && WorkerClear(w', start, k) && Clear(w', start, w.sub.cursor)
    requires w' == w.(acked := AckedStep(w, k, step))
    ensures WorkerClear(w', start, WorkerStep(w, k, step))
  {
    hide Batch, Clear, NextUp, Ordered;
    if step.Read? && k.phase.Loaded? && Batch(w.log.rows, k.phase.cursor, step.limit) != [] && !k.cancelled {
      ReadClear(w', start, k.phase.cursor, step.limit);
    }
  }

  lemma {:induction false} MoveWrites(w: World, w': World, start: int, k: Worker, step: Step)
    requires WorkerClear(w', start, k) && Clear(w', start, w.sub.cursor)
    requires w'.log == w.log && w.acked <= w'.acked
    ensures Clear(w', start, SubStep(w, k, step).cursor)
  {
    hide Clear, NextUp;
    if step.Commit? && k.phase.Answered? && !k.cancelled {
      AckedClear(w', start, k.phase.cursor, k.phase.event);
    }
  }

  lemma {:induction false} CursorFits(w: World, start: int, n: int)
    requires Clear(w, start, n)
    ensures n <= Level(w.log.rows, start)
  {
    hide Level;
  }

  predicate IsMove(step: Step) {
    step.Load? || step.Read? || step.Send? || step.Answer? || step.Commit? || step.Wake? || step.Timer? || step.Exit?
  }

  lemma {:induction false} MoveOk(w: World, window: Time, start: int, step: Step)
    requires AllClear(w, start) && IsMove(step) && step.id in w.workers
    ensures AllClear(Next(w, window, step), start)
  {
    var k, w' := w.workers[step.id], Next(w, window, step);
    assert Follows(w, w', start) && w'.log == w.log by {
      hide Clear, Level, SubStep, WorkerStep, PostsStep;
    }
    hide Ordered;
    if w.sub.deleted {
      assert w'.sub == w.sub;
      ClearFrame(w, w', start, w.sub.cursor);
    } else {
      MoveClear(w, start, k, step);
      assert Clear(w', start, w'.sub.cursor) && WorkerClear(w', start, w'.workers[step.id]) by {
        SameClear(w.(acked := AckedStep(w, k, step)), w', start, SubStep(w, k, step).cursor, WorkerStep(w, k, step));
      }
      hide SubStep, WorkerStep, PostsStep, AckedStep, Level, Clear, WorkerClear, Follows;
      forall id | id in w'.workers ensures WorkerClear(w', start, w'.workers[id]) {
        if id != step.id {
          NotAhead(w, start, w.workers[id]);
          WorkerFrame(w, w', start, w.workers[id]);
        }
      }
    }
  }

  lemma {:induction false} SameClear(w: World, w': World, start: int, n: int, k: Worker)
    requires Clear(w, start, n) && WorkerClear(w, start, k) && w'.log == w.log && w'.acked == w.acked
    ensures Clear(w', start, n) && WorkerClear(w', start, k)
  {
    hide Level;
  }

  /** The worker is as it was, or cancelled meanwhile, or new. */
  predicate CalmWorker(w: World, w': World, id: int) {
    id in w'.workers ==>
      || w'.workers[id].phase.Top?
      || (id in w.workers && w'.workers[id].phase == w.workers[id].phase
          && (w.workers[id].cancelled ==> w'.workers[id].cancelled))
  }

  /** Any other step leaves the workers, the cursor and the acknowledgements like that. */
  ghost predicate Calm(w: World, w': World) {
    && w'.sub.cursor == w.sub.cursor && w'.acked == w.acked && (w.sub.deleted ==> w'.sub.deleted)
    && forall id :: id in w'.workers ==> CalmWorker(w, w', id)
  }

  lemma {:induction false} CalmSteps(w: World, window: Time, step: Step)
    requires !IsMove(step)
    ensures Calm(w, Next(w, window, step))
  {
    CalmRow(w, window, step);
    hide Next, CalmWorker;
    forall id | id in Next(w, window, step).workers ensures CalmWorker(w, Next(w, window, step), id) {
      CalmOne(w, window, step, id);
    }
  }

  lemma {:induction false} CalmRow(w: World, window: Time, step: Step)
    requires !IsMove(step)
    ensures var w' := Next(w, window, step);
            w'.sub.cursor == w.sub.cursor && w'.acked == w.acked && (w.sub.deleted ==> w'.sub.deleted)
  {
    hide Apply, Signalled, SubStep, PostsStep, AckedStep, WorkerStep;
    if step.Ingest? || step.PruneRows? || step.Publish? {
    } else if step.Spawn? || step.Cancel? {
    } else {
    }
  }

  lemma {:induction false} CalmOne(w: World, window: Time, step: Step, id: int)
    requires !IsMove(step)
    ensures CalmWorker(w, Next(w, window, step), id)
  {
    hide Apply, SubStep, PostsStep, AckedStep, WorkerStep;
  }

  lemma {:induction false} CalmOk(w: World, w': World, start: int)
    requires AllClear(w, start) && Calm(w, w') && Follows(w, w', start) && Ordered(w'.log.rows)
    requires w'.sub.cursor <= Level(w'.log.rows, start)
    requires !w'.sub.deleted ==>
               forall id :: id in w'.workers ==> !Ahead(w'.workers[id], Level(w'.log.rows, start))
    ensures AllClear(w', start)
  {
    hide Ordered;
    ClearFrame(w, w', start, w.sub.cursor);
    hide Level, Clear, WorkerClear, Follows, Ahead;
    if !w'.sub.deleted {
      forall id | id in w'.workers ensures WorkerClear(w', start, w'.workers[id]) {
        CalmKeeps(w, w', start, id);
      }
    }
  }

  lemma {:induction false} CalmKeeps(w: World, w': World, start: int, id: int)
    requires Calm(w, w') && Follows(w, w', start) && id in w'.workers
    requires id in w.workers ==> WorkerClear(w, start, w.workers[id])
    requires !Ahead(w'.workers[id], Level(w'.log.rows, start))
    ensures WorkerClear(w', start, w'.workers[id])
  {
    hide Level, Clear, Follows, NextUp;
    var k' := w'.workers[id];
    if !k'.cancelled && !k'.phase.Top? {
      var k := w.workers[id];
      assert k'.phase == k.phase && !k.cancelled;
      WorkerFrame(w, w', start, k);
    }
  }

  lemma {:induction false} LogFollows(w: World, window: Time, start: int, step: Step)
    requires Ordered(w.log.rows) && !IsMove(step)
    ensures var w' := Next(w, window, step);
            && Follows(w, w', start) && Ordered(w'.log.rows)
            && (!step.PruneRows? ==> Level(w'.log.rows, start) >= Level(w.log.rows, start))
            && (step.PruneRows? ==> w' == w.(log := w.log.(rows := Retained(w.log.rows, step.cutoff))))
  {
    match step {
      case PruneRows(cutoff) =>
        RetainedMembers(w.log.rows, cutoff);
        RetainedOrdered(w.log.rows, cutoff);
      case Ingest(input, now) => AppendFollows(w, window, start, input, now);
      case _ =>
    }
  }

  lemma {:induction false} AppendFollows(w: World, window: Time, start: int, input: AppendInput, now: Time)
    requires Ordered(w.log.rows)
    ensures var w' := Next(w, window, Ingest(input, now));
            && Follows(w, w', start) && Ordered(w'.log.rows)
            && Level(w'.log.rows, start) >= Level(w.log.rows, start)
  {
    IngestIs(w, window, input, now);
    hide Next, AppendOutcome;
    if AppendOutcome(w.log.rows, window, input, now).Appended? {
      AppendLevel(w.log.rows, Row(input, NextSequence(w.log.rows), now), start);
    }
    hide Level, Ordered;
  }

  /** An ingest appends one row, or changes nothing. */
  lemma {:induction false} IngestIs(w: World, window: Time, input: AppendInput, now: Time)
    ensures var outcome, w' := AppendOutcome(w.log.rows, window, input, now), Next(w, window, Ingest(input, now));
            if outcome.Appended? then
              && outcome.event == Row(input, NextSequence(w.log.rows), now)
              && w' == w.(log := Log(w.log.rows + [outcome.event], w.log.history + [outcome.event]),
                          pending := w.pending + multiset{outcome.event.sequence})
            else w' == w
  {
    hide HasDuplicate, NextSequence;
    if AppendOutcome(w.log.rows, window, input, now).Appended? {
      assert |Apply(w.log, window, AppendOp(input, now)).history| == |w.log.history| + 1;
    }
  }

  lemma {:induction false} StepOk(w: World, window: Time, start: int, step: Step)
    requires AllClear(w, start) && (step.PruneRows? ==> !Hazard(w, start, step.cutoff))
    ensures AllClear(Next(w, window, step), start)
  {
    if IsMove(step) {
      if step.id in w.workers {
        MoveOk(w, window, start, step);
      }
    } else {
      var w' := Next(w, window, step);
      LogFollows(w, window, start, step);
      CalmSteps(w, window, step);
      hide Next, Level, Clear, Follows, Ordered;
      if !step.PruneRows? && !w'.sub.deleted {
        forall id | id in w'.workers ensures !Ahead(w'.workers[id], Level(w'.log.rows, start)) {
          if id in w.workers {
            NotAhead(w, start, w.workers[id]);
          }
        }
      }
      CursorFits(w, start, w.sub.cursor);
      CalmOk(w, w', start);
    }
  }

  lemma {:induction false} HarmlessClear(steps: seq<Step>, window: Time, start: int)
    requires Harmless(steps, window, start)
    ensures AllClear(Run(steps, window, start), start)
  {
    if steps != [] {
      HarmlessClear(Init(steps), window, start);
      hide AllClear;
      StepOk(Run(Init(steps), window, start), window, start, Last(steps));
    }
  }

  /** No loss, for every run whose prunes are harmless. */
  lemma {:induction false} NeverLoses(steps: seq<Step>, window: Time, start: int)
    requires Harmless(steps, window, start)
    ensures !Loses(Run(steps, window, start), start)
  {
    HarmlessClear(steps, window, start);
    hide Run, Level;
  }

  // ----- What a hazard allows ------------------------------------------------------------------------

  /** `w` is reached from `base` by `more`, which prunes nothing. */
  ghost predicate At(base: seq<Step>, more: seq<Step>, window: Time, start: int, w: World) {
    NoPrunes(more) && Run(base + more, window, start) == w
  }

  lemma {:induction false} Go(base: seq<Step>, more: seq<Step>, window: Time, start: int, w: World, step: Step)
    returns (longer: seq<Step>)
    requires At(base, more, window, start, w) && !step.PruneRows?
    ensures At(base, longer, window, start, Next(w, window, step))
  {
    longer := more + [step];
    assert base + longer == (base + more) + [step];
    assert Init(base + longer) == base + more && Last(base + longer) == step;
    assert Init(longer) == more && Last(longer) == step;
  }

  /** `w'` is `w` with more rows appended. */
  ghost predicate Longer(w: World, w': World) {
    && w'.sub == w.sub && w'.acked == w.acked && w'.workers == w.workers
    && forall e :: e in w.log.rows ==> e in w'.log.rows
  }

  lemma {:induction false} AppendMove(base: seq<Step>, more: seq<Step>, window: Time, start: int, w: World,
                                      known: set<Event>)
    returns (more': seq<Step>, w': World, e: Event)
    requires At(base, more, window, start, w)
    ensures At(base, more', window, start, w') && Longer(w, w')
    ensures e in w'.log.rows && e !in known && e.sequence == MaxSequence(w.log.rows) + 1
    ensures MaxSequence(w'.log.rows) == e.sequence
  {
    hide At, AppendOutcome, HasDuplicate, MaxSequence;
    var input, now := FreshAppend(w.log.rows, window, known);
    IngestIs(w, window, input, now);
    w' := Next(w, window, Ingest(input, now));
    more' := Go(base, more, window, start, w, Ingest(input, now));
    e := Row(input, NextSequence(w.log.rows), now);
    MaxAfterAppend(w.log.rows, e);
  }

  /** Appends until some event not among `known` is stored at `target`. */
  lemma {:induction false} FillTo(base: seq<Step>, more: seq<Step>, window: Time, start: int, w: World,
                                  target: int, known: set<Event>)
    returns (more': seq<Step>, w': World, e: Event)
    requires At(base, more, window, start, w) && MaxSequence(w.log.rows) < target
    ensures At(base, more', window, start, w') && Longer(w, w')
    ensures e in w'.log.rows && e !in known && e.sequence == target == MaxSequence(w'.log.rows)
    decreases target - MaxSequence(w.log.rows)
  {
    hide At, MaxSequence;
    more', w', e := AppendMove(base, more, window, start, w, known);
    if e.sequence < target {
      more', w', e := FillTo(base, more', window, start, w', target, known);
    }
  }

  /** A worker that is to be driven to its commit. */
  predicate Busy(w: World, id: int) {
    id in w.workers && !w.workers[id].cancelled && !w.sub.deleted
  }

  /** It sends what it chose, has it answered 2xx, and commits. */
  lemma {:induction false} Finish(base: seq<Step>, more: seq<Step>, window: Time, start: int, w: World, id: int)
    returns (more': seq<Step>, w': World)
    requires At(base, more, window, start, w) && Busy(w, id)
    requires var p := w.workers[id].phase; p.Chosen? || p.Posting? || p.Answered?
    ensures At(base, more', window, start, w') && w'.log == w.log
    ensures w'.sub.cursor == w.workers[id].phase.event.sequence
    ensures w'.acked <= w.acked + {w.workers[id].phase.event}
  {
    hide At;
    more', w' := more, w;
    if w'.workers[id].phase.Chosen? {
      SendMove(w', window, id);
      more' := Go(base, more', window, start, w', Send(id, true, true));
      w' := Next(w', window, Send(id, true, true));
    }
    if w'.workers[id].phase.Posting? {
      AnswerMove(w', window, id);
      more' := Go(base, more', window, start, w', Answer(id, true, true));
      w' := Next(w', window, Answer(id, true, true));
    }
    CommitMove(w', window, id);
    more' := Go(base, more', window, start, w', Commit(id, false));
    w' := Next(w', window, Commit(id, false));
  }

  lemma {:induction false} SendMove(w: World, window: Time, id: int)
    requires Busy(w, id) && w.workers[id].phase.Chosen?
    ensures var w' := Next(w, window, Send(id, true, true));
            && Busy(w', id) && w'.log == w.log && w'.acked == w.acked
            && w'.workers[id].phase == Posting(w.workers[id].phase.cursor, w.workers[id].phase.event)
  {
  }

  lemma {:induction false} AnswerMove(w: World, window: Time, id: int)
    requires Busy(w, id) && w.workers[id].phase.Posting?
    ensures var w' := Next(w, window, Answer(id, true, true));
            && Busy(w', id) && w'.log == w.log && w'.acked == w.acked + {w.workers[id].phase.event}
            && w'.workers[id].phase == Answered(w.workers[id].phase.cursor, w.workers[id].phase.event)
  {
  }

  lemma {:induction false} CommitMove(w: World, window: Time, id: int)
    requires Busy(w, id) && w.workers[id].phase.Answered?
    ensures var w' := Next(w, window, Commit(id, false));
            w'.log == w.log && w'.acked == w.acked && w'.sub.cursor == w.workers[id].phase.event.sequence
  {
  }

  /** A worker that loaded a cursor chooses the first row past it. */
  lemma {:induction false} ChooseMove(w: World, window: Time, id: int, e: Event)
    requires Busy(w, id) && w.workers[id].phase.Loaded?
    requires e in w.log.rows && e.sequence > w.workers[id].phase.cursor
    ensures var cursor, w' := w.workers[id].phase.cursor, Next(w, window, Read(id, 1, false));
            && Busy(w', id) && w'.log == w.log && w'.acked == w.acked
            && w'.workers[id].phase.Chosen? && w'.workers[id].phase.event.sequence > cursor
  {
    BatchFacts(w.log.rows, w.workers[id].phase.cursor, 1);
    hide Batch;
    var batch := Batch(w.log.rows, w.workers[id].phase.cursor, 1);
    assert batch != [] && batch[0] in batch;
  }

  /** A cursor past every stored number: the row that gets the cursor's own number is never sent. */
  lemma {:induction false} CursorLoses(base: seq<Step>, window: Time, start: int) returns (more: seq<Step>)
    requires var w := Run(base, window, start); w.sub.cursor > Level(w.log.rows, start)
    ensures NoPrunes(more) && Loses(Run(base + more, window, start), start)
  {
    hide Run, Level;
    var w, w', e := Run(base, window, start), Run(base, window, start), Row(Sample(""), 0, 0);
    assert base + [] == base;
    more, w', e := FillTo(base, [], window, start, w, w.sub.cursor, w.acked);
  }

  /** A worker past every stored number: a row gets its number, and then it commits. */
  lemma {:induction false} WorkerLoses(base: seq<Step>, window: Time, start: int, id: int) returns (more: seq<Step>)
    requires var w := Run(base, window, start);
             Busy(w, id) && Ahead(w.workers[id], Level(w.log.rows, start))
    ensures NoPrunes(more) && Loses(Run(base + more, window, start), start)
  {
    hide Run, Level, Loses, Next, MaxSequence;
    var w := Run(base, window, start);
    var k, w', e := w.workers[id], w, Row(Sample(""), 0, 0);
    assert base + [] == base;
    if k.phase.Loaded? {
      more, w', e := FillTo(base, [], window, start, w, k.phase.cursor, w.acked);
      var next;
      more, w', next := AppendMove(base, more, window, start, w', {});
      ChooseMove(w', window, id, next);
      more := Go(base, more, window, start, w', Read(id, 1, false));
      w' := Next(w', window, Read(id, 1, false));
      more, w' := Finish(base, more, window, start, w', id);
    } else {
      more, w', e := FillTo(base, [], window, start, w, k.phase.event.sequence, w.acked + {k.phase.event});
      more, w' := Finish(base, more, window, start, w', id);
    }
    assert Loses(w', start) by { LosesAt(w', start, e); }
  }

  lemma {:induction false} LosesAt(w: World, start: int, e: Event)
    requires e in w.log.rows && start < e.sequence <= w.sub.cursor && e !in w.acked
    ensures Loses(w, start)
  {
  }

  // ----- The exact condition ---------------------------------------------------------------------------

  lemma {:induction false} HarmlessOn(base: seq<Step>, more: seq<Step>, window: Time, start: int)
    requires Harmless(base, window, start) && NoPrunes(more)
    ensures Harmless(base + more, window, start)
  {
    if more == [] {
      assert base + more == base;
    } else {
      HarmlessOn(base, Init(more), window, start);
      assert Init(base + more) == base + Init(more) && Last(base + more) == Last(more);
    }
  }

  lemma {:induction false} AfterPrune(steps: seq<Step>, window: Time, start: int, cutoff: Time)
    ensures var w := Run(steps, window, start);
            && Run(steps + [PruneRows(cutoff)], window, start) ==
                 w.(log := w.log.(rows := Retained(w.log.rows, cutoff)))
            && (Harmless(steps + [PruneRows(cutoff)], window, start) <==>
                  Harmless(steps, window, start) && !Hazard(w, start, cutoff))
  {
    assert Init(steps + [PruneRows(cutoff)]) == steps && Last(steps + [PruneRows(cutoff)]) == PruneRows(cutoff);
    hide Hazard;
  }

  /** After a run of harmless prunes, one more has a continuation without prunes that loses an event if and only if
    * it is a hazard. */
  lemma {:induction false} PruneLosesIff(steps: seq<Step>, window: Time, start: int, cutoff: Time)
    requires Harmless(steps, window, start)
    ensures (exists more :: NoPrunes(more) && Loses(Run(steps + [PruneRows(cutoff)] + more, window, start), start)) <==>
              Hazard(Run(steps, window, start), start, cutoff)
  {
    var w, base := Run(steps, window, start), steps + [PruneRows(cutoff)];
    AfterPrune(steps, window, start, cutoff);
    hide Run, Loses, Harmless;
    if !Hazard(w, start, cutoff) {
      forall more | NoPrunes(more) ensures !Loses(Run(base + more, window, start), start) {
        HarmlessOn(base, more, window, start);
        NeverLoses(base + more, window, start);
      }
    } else if w.sub.cursor > Level(Retained(w.log.rows, cutoff), start) {
      var more := CursorLoses(base, window, start);
    } else {
      var id :| id in w.workers && Ahead(w.workers[id], Level(Retained(w.log.rows, cutoff), start));
      var more := WorkerLoses(base, window, start, id);
    }
  }

  /** A prune that spares the newest row is harmless, so this condition is the weaker one. */
  lemma {:induction false} GuardedIsHarmless(steps: seq<Step>, window: Time, start: int)
    requires Guarded(steps, window, start)
    ensures Harmless(steps, window, start)
  {
    if steps != [] {
      GuardedIsHarmless(Init(steps), window, start);
      if Last(steps).PruneRows? {
        ReachableOk(Init(steps), window, start);
        SparedIsHarmless(Run(Init(steps), window, start), window, start, Last(steps).cutoff);
      }
      hide Hazard;
    }
  }

  lemma {:induction false} SparedIsHarmless(w: World, window: Time, start: int, cutoff: Time)
    requires Ok(w, window, start) && NewestKept(w.log.rows, cutoff)
    ensures !Hazard(w, start, cutoff)
  {
    RetainedMax(w.log.rows, cutoff);
    hide Retained, NewestKept, Spaced, MaxSequence, Gapless, Ordered;
    forall id | id in w.workers ensures !Ahead(w.workers[id], Level(Retained(w.log.rows, cutoff), start)) {
      assert WorkerOk(w, start, w.workers[id]);
    }
  }

  /** The whole of a run: at whatever moment the prunes stop nothing is lost from then on, if and only if every prune
    * was harmless. */
  lemma {:induction false} LosesNothingIff(steps: seq<Step>, window: Time, start: int)
    ensures (forall k, more :: 0 <= k <= |steps| && NoPrunes(more) ==>
               !Loses(Run(steps[..k] + more, window, start), start)) <==>
              Harmless(steps, window, start)
  {
    hide Loses, Run;
    if Harmless(steps, window, start) {
      forall k, more | 0 <= k <= |steps| && NoPrunes(more)
        ensures !Loses(Run(steps[..k] + more, window, start), start)
      {
        HarmlessPrefix(steps, window, start, k);
        HarmlessOn(steps[..k], more, window, start);
        NeverLoses(steps[..k] + more, window, start);
      }
    } else {
      var k := FirstHazard(steps, window, start);
      PruneLosesIff(steps[..k], window, start, steps[k].cutoff);
      var more :| NoPrunes(more) &&
                  Loses(Run(steps[..k] + [PruneRows(steps[k].cutoff)] + more, window, start), start);
      assert steps[..k] + [PruneRows(steps[k].cutoff)] == steps[..k + 1];
    }
  }

  lemma {:induction false} HarmlessPrefix(steps: seq<Step>, window: Time, start: int, k: nat)
    requires Harmless(steps, window, start) && k <= |steps|
    ensures Harmless(steps[..k], window, start)
  {
    if k < |steps| {
      HarmlessPrefix(Init(steps), window, start, k);
      assert Init(steps)[..k] == steps[..k];
    } else {
      assert steps[..k] == steps;
    }
  }

  lemma {:induction false} FirstHazard(steps: seq<Step>, window: Time, start: int) returns (k: nat)
    requires !Harmless(steps, window, start)
    ensures k < |steps| && steps[k].PruneRows? && Harmless(steps[..k], window, start)
    ensures Hazard(Run(steps[..k], window, start), start, steps[k].cutoff)
  {
    hide Hazard, Run;
    if Harmless(Init(steps), window, start) {
      k := |steps| - 1;
    } else {
      k := FirstHazard(Init(steps), window, start);
      assert Init(steps)[..k] == steps[..k];
    }
  }
}
