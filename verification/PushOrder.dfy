/** When push deliveries stay in order: exactly when no worker is started beside a live, uncancelled one. */
module PushOrder {
  import opened Common
  import opened EventLog
  import opened Push
  import Stream

  predicate Live(k: Worker) {
    !k.phase.Exited? && !k.cancelled
  }

  ghost predicate NoneLive(w: World) {
    forall id :: id in w.workers ==> !Live(w.workers[id])
  }

  /** The step really starts a worker. */
  predicate Starts(w: World, step: Step) {
    step.Spawn? && step.id !in w.workers && w.registered.None?
  }

  /** No worker is started while a live, uncancelled one is still about. */
  ghost predicate Solo(steps: seq<Step>, window: Time, start: int) {
    steps == [] ||
    (&& Solo(Init(steps), window, start)
     && (Starts(Run(Init(steps), window, start), Last(steps)) ==> NoneLive(Run(Init(steps), window, start))))
  }

  // ----- What a lone worker keeps ------------------------------------------------------------------

  ghost predicate Ascending(posts: seq<Event>) {
    forall i, j :: 0 <= i < j < |posts| ==> posts[i].sequence <= posts[j].sequence
  }

  /** The events sent after the first `n` ascend. */
  ghost predicate AscendingFrom(posts: seq<Event>, n: nat) {
    forall i, j :: n <= i < j < |posts| ==> posts[i].sequence <= posts[j].sequence
  }

  /** Nothing sent so far has a sequence above `n`. */
  ghost predicate Bounded(posts: seq<Event>, n: int) {
    forall i :: 0 <= i < |posts| ==> posts[i].sequence <= n
  }

  /** The cursor a live worker loaded is still the row's, and what it chose is not behind anything sent. */
  ghost predicate InStep(sub: Sub, posts: seq<Event>, k: Worker) {
    Live(k) ==>
      match k.phase
      case Loaded(cursor) => cursor == sub.cursor
      case Chosen(cursor, event) => cursor == sub.cursor && Bounded(posts, event.sequence)
      case Posting(cursor, event) => cursor == sub.cursor && Bounded(posts, event.sequence)
      case Answered(cursor, event) => cursor == sub.cursor && Bounded(posts, event.sequence)
      case _ => true
  }

  ghost predicate OneLive(w: World) {
    forall a, b :: a in w.workers && b in w.workers && Live(w.workers[a]) && Live(w.workers[b]) ==> a == b
  }

  /** Every stored event past the cursor is at or past everything sent. */
  ghost predicate Frontier(w: World) {
    forall e :: e in w.log.rows && e.sequence > w.sub.cursor ==> Bounded(w.posts, e.sequence)
  }

  ghost predicate SoloOk(w: World) {
    && OneLive(w) && Ascending(w.posts) && Bounded(w.posts, |w.log.history|) && Frontier(w)
    && forall id :: id in w.workers ==> InStep(w.sub, w.posts, w.workers[id])
  }

  lemma {:induction false} SentUp(posts: seq<Event>, e: Event)
    requires Ascending(posts) && Bounded(posts, e.sequence)
    ensures Ascending(posts + [e]) && Bounded(posts + [e], e.sequence)
  {
  }

  lemma {:induction false} BoundUp(posts: seq<Event>, n: int, m: int)
    requires Bounded(posts, n) && n <= m
    ensures Bounded(posts, m)
  {
  }

  // ----- One step ----------------------------------------------------------------------------------

  /** What a live worker's own move leaves behind. */
  ghost predicate MovedOk(w: World, sub': Sub, posts': seq<Event>, k': Worker) {
    && InStep(sub', posts', k') && Ascending(posts')
    && (posts' != w.posts ==>
          posts' != [] && posts' == w.posts + [Last(posts')] && Last(posts') in w.log.history)
    && w.sub.cursor <= sub'.cursor
    && forall e :: e in w.log.rows && e.sequence > sub'.cursor ==> Bounded(posts', e.sequence)
  }

  lemma {:induction false} OwnMove(w: World, start: int, k: Worker, step: Step)
    requires Stream.LogOk(w.log) && WorkerOk(w, start, k) && Live(k)
    requires Ascending(w.posts) && Frontier(w) && InStep(w.sub, w.posts, k)
    ensures MovedOk(w, SubStep(w, k, step), PostsStep(w, k, step), WorkerStep(w, k, step))
  {
    hide MovedOk;
    match step {
      case Read(_, _, _) => OwnRead(w, k, step);
      case Send(_, _, _) => OwnSend(w, start, k, step);
      case _ => OwnOther(w, start, k, step);
    }
  }

  lemma {:induction false} OwnRead(w: World, k: Worker, step: Step)
    requires Stream.LogOk(w.log) && Live(k) && step.Read?
    requires Ascending(w.posts) && Frontier(w) && InStep(w.sub, w.posts, k)
    ensures MovedOk(w, SubStep(w, k, step), PostsStep(w, k, step), WorkerStep(w, k, step))
  {
    hide Batch, Ascending, Bounded;
    if k.phase.Loaded? && Batch(w.log.rows, k.phase.cursor, step.limit) != [] {
      BatchFirst(w.log.rows, k.phase.cursor, step.limit);
    }
  }

  lemma {:induction false} OwnSend(w: World, start: int, k: Worker, step: Step)
    requires WorkerOk(w, start, k) && Live(k) && step.Send?
    requires Ascending(w.posts) && Frontier(w) && InStep(w.sub, w.posts, k)
    ensures MovedOk(w, SubStep(w, k, step), PostsStep(w, k, step), WorkerStep(w, k, step))
  {
    hide Ascending, Bounded, Safe;
    if k.phase.Chosen? {
      var posts := w.posts + [k.phase.event];
      SentUp(w.posts, k.phase.event);
      forall e | e in w.log.rows && e.sequence > w.sub.cursor ensures Bounded(posts, e.sequence) {
        BoundUp(posts, k.phase.event.sequence, e.sequence);
      }
    }
  }

  lemma {:induction false} OwnOther(w: World, start: int, k: Worker, step: Step)
    requires WorkerOk(w, start, k) && Live(k) && !step.Read? && !step.Send?
    requires Ascending(w.posts) && Frontier(w) && InStep(w.sub, w.posts, k)
    ensures MovedOk(w, SubStep(w, k, step), PostsStep(w, k, step), WorkerStep(w, k, step))
  {
    hide Ascending, Bounded, Safe;
  }

  /** A move of a worker that is cancelled or gone sends nothing and writes nothing. */
  lemma {:induction false} DeadMove(w: World, k: Worker, step: Step)
    requires !Live(k)
    ensures SubStep(w, k, step) == w.sub && PostsStep(w, k, step) == w.posts && !Live(WorkerStep(w, k, step))
  {
    hide Batch;
  }

  /** Steps that leave the row's cursor and the posts alone and make no worker live. */
  ghost predicate Quiet(w: World, w': World) {
    && w'.posts == w.posts && w'.sub.cursor == w.sub.cursor && Stream.Grows(w.log, w'.log)
    && forall id :: id in w'.workers && Live(w'.workers[id]) ==>
         id in w.workers && Live(w.workers[id]) && w'.workers[id].phase == w.workers[id].phase
  }

  lemma {:induction false} QuietOk(w: World, w': World)
    requires SoloOk(w) && Quiet(w, w')
    ensures SoloOk(w')
  {
    BoundUp(w.posts, |w.log.history|, |w'.log.history|);
    forall e | e in w'.log.rows && e.sequence > w'.sub.cursor ensures Bounded(w'.posts, e.sequence) {
      if e !in w.log.rows {
        BoundUp(w.posts, |w.log.history|, e.sequence);
      }
    }
    hide Ascending, Bounded;
    forall id | id in w'.workers ensures InStep(w'.sub, w'.posts, w'.workers[id]) {
      if Live(w'.workers[id]) {
        assert InStep(w.sub, w.posts, w.workers[id]);
      }
    }
  }

  predicate IsMove(step: Step) {
    step.Load? || step.Read? || step.Send? || step.Answer? || step.Commit? || step.Wake? || step.Timer? || step.Exit?
  }

  lemma {:induction false} QuietSteps(w: World, window: Time, step: Step)
    requires !IsMove(step) && !Starts(w, step) && Stream.Grows(w.log, Next(w, window, step).log)
    ensures Quiet(w, Next(w, window, step))
  {
    hide Apply, Stream.Grows;
  }

  lemma {:induction false} StartOk(w: World, window: Time, step: Step)
    requires SoloOk(w) && Starts(w, step) && NoneLive(w)
    ensures SoloOk(Next(w, window, step)) && Next(w, window, step).sub == w.sub
  {
    hide Ascending, Bounded, Frontier;
    assert Frontier(Next(w, window, step)) by { SameFrontier(w, Next(w, window, step)); }
  }

  lemma {:induction false} SameFrontier(w: World, w': World)
    requires Frontier(w) && w'.log == w.log && w'.posts == w.posts && w'.sub.cursor == w.sub.cursor
    ensures Frontier(w')
  {
  }

  lemma {:induction false} MoveOk(w: World, window: Time, start: int, step: Step)
    requires Ok(w, window, start) && SoloOk(w) && IsMove(step) && step.id in w.workers
    ensures SoloOk(Next(w, window, step)) && w.sub.cursor <= Next(w, window, step).sub.cursor
  {
    hide SubStep, PostsStep, AckedStep, WorkerStep, Spaced, Safe, Ascending, FirstPast;
    var w', k := Next(w, window, step), w.workers[step.id];
    assert WorkerOk(w, start, k) && InStep(w.sub, w.posts, k);
    if Live(k) {
      OwnMove(w, start, k, step);
      if w'.posts != w.posts {
        PostedBound(w, Last(w'.posts));
      }
      hide Bounded, WorkerOk;
      forall id | id in w'.workers ensures InStep(w'.sub, w'.posts, w'.workers[id]) {
        if id != step.id { assert !Live(w.workers[id]); }
      }
    } else {
      DeadMove(w, k, step);
      hide Bounded, WorkerOk;
      assert Frontier(w') by { SameFrontier(w, w'); }
    }
  }

  lemma {:induction false} PostedBound(w: World, e: Event)
    requires Stream.LogOk(w.log) && Bounded(w.posts, |w.log.history|) && e in w.log.history
    ensures Bounded(w.posts + [e], |w.log.history|)
  {
    Stream.GaplessUnique(w.log.history, e, e);
  }

  lemma {:induction false} SoloStep(w: World, window: Time, start: int, step: Step)
    requires Ok(w, window, start) && SoloOk(w)
    requires step.PruneRows? ==> NewestKept(w.log.rows, step.cutoff)
    requires Starts(w, step) ==> NoneLive(w)
    ensures SoloOk(Next(w, window, step)) && w.sub.cursor <= Next(w, window, step).sub.cursor
  {
    hide SoloOk, Apply, SubStep, PostsStep, AckedStep, WorkerStep, Ok;
    if Starts(w, step) {
      StartOk(w, window, step);
    } else if IsMove(step) {
      if step.id in w.workers {
        MoveOk(w, window, start, step);
      }
    } else {
      LogOf(w, window, start);
      NextLogOk(w, window, step);
      QuietSteps(w, window, step);
      hide Next;
      QuietOk(w, Next(w, window, step));
    }
  }

  lemma {:induction false} LogOf(w: World, window: Time, start: int)
    requires Ok(w, window, start)
    ensures Stream.LogOk(w.log) && Spaced(w.log.rows, window)
  {
  }

  lemma {:induction false} SoloReachable(steps: seq<Step>, window: Time, start: int)
    requires Guarded(steps, window, start) && Solo(steps, window, start)
    ensures SoloOk(Run(steps, window, start))
  {
    if steps == [] {
      assert SoloOk(Begin(start));
    } else {
      SoloReachable(Init(steps), window, start);
      ReachableOk(Init(steps), window, start);
      hide SoloOk, Ok;
      SoloStep(Run(Init(steps), window, start), window, start, Last(steps));
    }
  }

  /** Worker `id` has a request with the target, and has not been cancelled. */
  predicate InFlight(w: World, id: int) {
    id in w.workers && w.workers[id].phase.Posting? && !w.workers[id].cancelled
  }

  /** With no worker started beside a live one, deliveries are sent in ascending order and at most one uncancelled
    * delivery is in flight at a time. */
  lemma {:induction false} DeliveriesAscend(steps: seq<Step>, window: Time, start: int, a: int, b: int)
    requires Guarded(steps, window, start) && Solo(steps, window, start)
    ensures Ascending(Run(steps, window, start).posts)
    ensures var w := Run(steps, window, start);
            InFlight(w, a) && InFlight(w, b) ==> a == b
  {
    SoloReachable(steps, window, start);
    hide Run, Ascending, Bounded, Frontier;
  }

  /** And the persisted cursor never goes back. */
  lemma {:induction false} CursorGrows(steps: seq<Step>, window: Time, start: int, step: Step)
    requires Guarded(steps + [step], window, start) && Solo(steps + [step], window, start)
    ensures Run(steps, window, start).sub.cursor <= Next(Run(steps, window, start), window, step).sub.cursor
  {
    assert Init(steps + [step]) == steps && Last(steps + [step]) == step;
    SoloReachable(steps, window, start);
    ReachableOk(steps, window, start);
    hide SoloOk, Ok;
    SoloStep(Run(steps, window, start), window, start, step);
  }

  // ----- What a start beside a live worker allows ----------------------------------------------------

  predicate NoStarts(steps: seq<Step>) {
    steps == [] || (!Last(steps).Spawn? && NoStarts(Init(steps)))
  }

  /** `w` is reached from `base` by `more`, which starts no worker. */
  ghost predicate Reached(base: seq<Step>, more: seq<Step>, window: Time, start: int, w: World) {
    Guarded(base + more, window, start) && NoStarts(more) && Run(base + more, window, start) == w
  }

  lemma {:induction false} Go(base: seq<Step>, more: seq<Step>, window: Time, start: int, w: World, step: Step)
    returns (longer: seq<Step>)
    requires Reached(base, more, window, start, w) && !step.PruneRows? && !step.Spawn?
    ensures Reached(base, longer, window, start, Next(w, window, step))
    ensures longer == more + [step]
  {
    longer := more + [step];
    assert base + longer == (base + more) + [step];
    assert Init(base + longer) == base + more && Last(base + longer) == step;
    assert Init(longer) == more && Last(longer) == step;
  }

  /** Two uncancelled workers, a row that lets them run, and where each of them stands. */
  ghost predicate Race(w: World, x: int, y: int, px: Phase, py: Phase, cursor: int) {
    && x != y && x in w.workers && y in w.workers
    && !w.workers[x].cancelled && w.workers[x].phase == px
    && !w.workers[y].cancelled && w.workers[y].phase == py
    && !w.sub.deleted && !w.sub.paused && w.secret && w.sub.cursor == cursor
  }

  lemma {:induction false} LoadMove(w: World, window: Time, x: int, y: int, py: Phase, cursor: int)
    requires Race(w, x, y, Top, py, cursor)
    ensures var w' := Next(w, window, Load(x, false));
            && Race(w', x, y, Loaded(cursor), py, cursor) && Race(w', y, x, py, Loaded(cursor), cursor)
            && w'.log == w.log && w'.posts == w.posts
  {
  }

  /** Reads, chooses the first stored event past `from`, and sends it. */
  lemma {:induction false} SendMoves(base: seq<Step>, more: seq<Step>, window: Time, start: int, w: World, x: int,
                                     y: int, py: Phase, from: int, cursor: int)
    returns (more': seq<Step>, w': World)
    requires Reached(base, more, window, start, w) && Race(w, x, y, Loaded(from), py, cursor)
    requires Batch(w.log.rows, from, 1) != []
    ensures Reached(base, more', window, start, w') && w'.log == w.log
    ensures var e := Batch(w.log.rows, from, 1)[0];
            && Race(w', x, y, Posting(from, e), py, cursor) && Race(w', y, x, py, Posting(from, e), cursor)
            && w'.posts == w.posts + [e]
  {
    hide Batch, Reached;
    var w1 := Next(w, window, Read(x, 1, false));
    more' := Go(base, more, window, start, w, Read(x, 1, false));
    w' := Next(w1, window, Send(x, true, true));
    more' := Go(base, more', window, start, w1, Send(x, true, true));
  }

  lemma {:induction false} AnswerMove(w: World, window: Time, x: int, y: int, py: Phase, from: int, e: Event,
                                      cursor: int)
    requires Race(w, x, y, Posting(from, e), py, cursor)
    ensures var w' := Next(w, window, Answer(x, true, true));
            && Race(w', x, y, Answered(from, e), py, cursor) && Race(w', y, x, py, Answered(from, e), cursor)
            && w'.log == w.log && w'.posts == w.posts
  {
  }

  lemma {:induction false} CommitMove(w: World, window: Time, x: int, y: int, py: Phase, from: int, e: Event,
                                      cursor: int)
    requires Race(w, x, y, Answered(from, e), py, cursor)
    ensures var w' := Next(w, window, Commit(x, false));
            && Race(w', x, y, Top, py, e.sequence) && Race(w', y, x, py, Top, e.sequence)
            && w'.log == w.log && w'.posts == w.posts
  {
  }

  // ----- Bringing any two uncancelled workers to the starting line ------------------------------------

  /** Uncancelled and running, both, over a row that is there. */
  ghost predicate Runners(w: World, x: int, y: int) {
    && x != y && x in w.workers && y in w.workers && Live(w.workers[x]) && Live(w.workers[y]) && !w.sub.deleted
  }

  /** The failing step that takes a busy worker to its back-off. */
  function FailStep(x: int, p: Phase): Step {
    match p
    case Loaded(_) => Read(x, 1, true)
    case Chosen(_, _) => Send(x, false, false)
    case Posting(_, _) => Answer(x, false, false)
    case _ => Commit(x, true)
  }

  lemma {:induction false} FailMove(w: World, window: Time, x: int, y: int)
    requires Runners(w, x, y) && !w.workers[x].phase.Top? && !Resting(w.workers[x].phase)
    ensures var w' := Next(w, window, FailStep(x, w.workers[x].phase));
            && Runners(w', x, y) && w'.workers[x].phase.Backoff? && w'.workers[y] == w.workers[y]
            && w'.log == w.log && w'.sub == w.sub && w'.secret == w.secret
  {
    hide Batch;
  }

  lemma {:induction false} TimerMove(w: World, window: Time, x: int, y: int)
    requires Runners(w, x, y) && Resting(w.workers[x].phase)
    ensures var w' := Next(w, window, Timer(x));
            && Runners(w', x, y) && w'.workers[x].phase.Top? && w'.workers[y] == w.workers[y]
            && w'.log == w.log && w'.sub == w.sub && w'.secret == w.secret
  {
  }

  lemma {:induction false} ToTop(base: seq<Step>, more: seq<Step>, window: Time, start: int, w: World, x: int, y: int)
    returns (more': seq<Step>, w': World)
    requires Reached(base, more, window, start, w) && Runners(w, x, y)
    ensures Reached(base, more', window, start, w') && Runners(w', x, y) && Runners(w', y, x)
    ensures w'.workers[x].phase.Top? && w'.workers[y] == w.workers[y]
    ensures w'.log == w.log && w'.sub == w.sub && w'.secret == w.secret
  {
    hide Next, Reached;
    more', w' := more, w;
    if !w'.workers[x].phase.Top? && !Resting(w'.workers[x].phase) {
      var step := FailStep(x, w'.workers[x].phase);
      FailMove(w', window, x, y);
      more' := Go(base, more', window, start, w', step);
      w' := Next(w', window, step);
    }
    if !w'.workers[x].phase.Top? {
      TimerMove(w', window, x, y);
      more' := Go(base, more', window, start, w', Timer(x));
      w' := Next(w', window, Timer(x));
    }
  }

  /** Both at the top of their loops, over a row that is not paused, with a secret. */
  lemma {:induction false} LineUp(base: seq<Step>, more: seq<Step>, window: Time, start: int, w: World, x: int, y: int)
    returns (more': seq<Step>, w': World)
    requires Reached(base, more, window, start, w) && Runners(w, x, y)
    ensures Reached(base, more', window, start, w') && w'.log == w.log
    ensures Race(w', x, y, Top, Top, w.sub.cursor)
  {
    hide Reached;
    var w1 := Next(w, window, ResumeRow);
    more' := Go(base, more, window, start, w, ResumeRow);
    var w2 := Next(w1, window, Rotate);
    more' := Go(base, more', window, start, w1, Rotate);
    more', w' := ToTop(base, more', window, start, w2, x, y);
    more', w' := ToTop(base, more', window, start, w', y, x);
  }

  // ----- Two stored events past the cursor -----------------------------------------------------------

  lemma {:induction false} GaplessAppend(log: Log, window: Time, input: AppendInput, now: Time) returns (e: Event)
    requires Stream.LogOk(log)
    requires AppendOutcome(log.rows, window, input, now) == Appended(Row(input, NextSequence(log.rows), now))
    ensures Apply(log, window, AppendOp(input, now)) == Log(log.rows + [e], log.history + [e])
    ensures e.sequence == |log.history| + 1
  {
    hide AppendOutcome;
    Stream.NextIs(log);
    e := Row(input, NextSequence(log.rows), now);
  }

  lemma {:induction false} AppendMove(base: seq<Step>, more: seq<Step>, window: Time, start: int, w: World, x: int,
                                      y: int, cursor: int)
    returns (more': seq<Step>, w': World, e: Event)
    requires Reached(base, more, window, start, w) && Race(w, x, y, Top, Top, cursor) && Stream.LogOk(w.log)
    ensures Reached(base, more', window, start, w') && Race(w', x, y, Top, Top, cursor) && Stream.LogOk(w'.log)
    ensures w'.log == Log(w.log.rows + [e], w.log.history + [e]) && e.sequence == |w.log.history| + 1
  {
    hide Apply, Stream.LogOk, Reached;
    var input, now := FreshAppend(w.log.rows, window, {});
    e := GaplessAppend(w.log, window, input, now);
    more' := Go(base, more, window, start, w, Ingest(input, now));
    w' := Next(w, window, Ingest(input, now));
    Stream.AppendStep(w.log, e);
    assert w'.log.history != w.log.history;
  }

  /** Appends until the log has reached the cursor. */
  lemma {:induction false} CatchUp(base: seq<Step>, more: seq<Step>, window: Time, start: int, w: World, x: int,
                                   y: int, cursor: int)
    returns (more': seq<Step>, w': World)
    requires Reached(base, more, window, start, w) && Race(w, x, y, Top, Top, cursor) && Stream.LogOk(w.log)
    ensures Reached(base, more', window, start, w') && Race(w', x, y, Top, Top, cursor) && Stream.LogOk(w'.log)
    ensures |w'.log.history| >= cursor
    decreases cursor - |w.log.history|
  {
    hide Stream.LogOk, Reached, Race;
    more', w' := more, w;
    if |w.log.history| < cursor {
      var e;
      more', w', e := AppendMove(base, more, window, start, w, x, y, cursor);
      more', w' := CatchUp(base, more', window, start, w', x, y, cursor);
    }
  }

  /** The first stored event past the cursor, and the first one past that. */
  lemma {:induction false} TwoAhead(rows: seq<Event>, cursor: int, a: Event, b: Event)
    requires Ordered(rows) && a in rows && b in rows && cursor < a.sequence < b.sequence
    ensures Batch(rows, cursor, 1) != [] && Batch(rows, cursor, 1)[0].sequence > cursor
    ensures Batch(rows, Batch(rows, cursor, 1)[0].sequence, 1) != []
    ensures Batch(rows, Batch(rows, cursor, 1)[0].sequence, 1)[0].sequence > Batch(rows, cursor, 1)[0].sequence
  {
    BatchFacts(rows, cursor, 1);
    BatchFirst(rows, cursor, 1);
    var first := Batch(rows, cursor, 1)[0];
    BatchFacts(rows, first.sequence, 1);
    BatchFirst(rows, first.sequence, 1);
  }

  lemma {:induction false} Supply(base: seq<Step>, more: seq<Step>, window: Time, start: int, w: World, x: int,
                                  y: int, cursor: int)
    returns (more': seq<Step>, w': World)
    requires Reached(base, more, window, start, w) && Race(w, x, y, Top, Top, cursor) && Stream.LogOk(w.log)
    ensures Reached(base, more', window, start, w') && Race(w', x, y, Top, Top, cursor)
    ensures var rows := w'.log.rows;
            && Batch(rows, cursor, 1) != [] && Batch(rows, cursor, 1)[0].sequence > cursor
            && Batch(rows, Batch(rows, cursor, 1)[0].sequence, 1) != []
            && Batch(rows, Batch(rows, cursor, 1)[0].sequence, 1)[0].sequence > Batch(rows, cursor, 1)[0].sequence
  {
    hide Stream.LogOk, Reached, Race, Batch;
    var a, b;
    more', w' := CatchUp(base, more, window, start, w, x, y, cursor);
    more', w', a := AppendMove(base, more', window, start, w', x, y, cursor);
    ghost var rows := w'.log.rows;
    assert a == Last(rows) && a in rows;
    more', w', b := AppendMove(base, more', window, start, w', x, y, cursor);
    assert w'.log.rows == rows + [b] && a in w'.log.rows && b in w'.log.rows;
    assert Ordered(w'.log.rows) by { RowsOrdered(w'.log); }
    TwoAhead(w'.log.rows, cursor, a, b);
  }

  lemma {:induction false} RowsOrdered(log: Log)
    requires Stream.LogOk(log)
    ensures Ordered(log.rows)
  {
  }

  // ----- The race --------------------------------------------------------------------------------

  /** The slow worker loads, the fast one delivers the first event and sends the second, and then the slow one sends
    * the first again: deliveries go back. When both have been answered the slow commit takes the cursor back too. */
  lemma {:induction false} Overtake(base: seq<Step>, more: seq<Step>, window: Time, start: int, w: World,
                                    slow: int, fast: int, cursor: int)
    returns (more': seq<Step>, step: Step)
    requires Reached(base, more, window, start, w) && Race(w, slow, fast, Top, Top, cursor)
    requires var rows := w.log.rows;
             && Batch(rows, cursor, 1) != []
             && Batch(rows, Batch(rows, cursor, 1)[0].sequence, 1) != []
             && Batch(rows, Batch(rows, cursor, 1)[0].sequence, 1)[0].sequence > Batch(rows, cursor, 1)[0].sequence
    ensures Guarded(base + more', window, start) && NoStarts(more') && !step.Spawn? && !step.PruneRows?
    ensures !AscendingFrom(Run(base + more', window, start).posts, |w.posts|)
    ensures var w' := Run(base + more', window, start);
            Next(w', window, step).sub.cursor < w'.sub.cursor
  {
    hide Batch, Reached, Race, Next, AscendingFrom;
    var e1 := Batch(w.log.rows, cursor, 1)[0];
    var e2 := Batch(w.log.rows, e1.sequence, 1)[0];
    LoadMove(w, window, slow, fast, Top, cursor);
    more' := Go(base, more, window, start, w, Load(slow, false));
    var w1 := Next(w, window, Load(slow, false));
    var w2;
    more', w2 := Delivered(base, more', window, start, w1, fast, slow, Loaded(cursor), cursor);
    CommitMove(w2, window, fast, slow, Loaded(cursor), cursor, e1, cursor);
    more' := Go(base, more', window, start, w2, Commit(fast, false));
    var w3 := Next(w2, window, Commit(fast, false));
    var w4;
    more', w4 := Delivered(base, more', window, start, w3, fast, slow, Loaded(cursor), e1.sequence);
    var w5;
    more', w5 := SendMoves(base, more', window, start, w4, slow, fast, Answered(e1.sequence, e2), cursor, e1.sequence);
    WentBack(w.posts, e1, e2, w5.posts);
    AnswerMove(w5, window, slow, fast, Answered(e1.sequence, e2), cursor, e1, e1.sequence);
    more' := Go(base, more', window, start, w5, Answer(slow, true, true));
    var w6 := Next(w5, window, Answer(slow, true, true));
    CommitMove(w6, window, fast, slow, Answered(cursor, e1), e1.sequence, e2, e1.sequence);
    more' := Go(base, more', window, start, w6, Commit(fast, false));
    var w7 := Next(w6, window, Commit(fast, false));
    CommitMove(w7, window, slow, fast, Top, cursor, e1, e2.sequence);
    step := Commit(slow, false);
    assert Guarded(base + more', window, start) && NoStarts(more') && Run(base + more', window, start) == w7 by {
      Unreached(base, more', window, start, w7);
    }
    assert w7.sub.cursor == e2.sequence && Next(w7, window, step).sub.cursor == e1.sequence by {
      RaceCursor(w7, slow, fast, Answered(cursor, e1), Top, e2.sequence);
      RaceCursor(Next(w7, window, step), slow, fast, Top, Top, e1.sequence);
    }
  }

  lemma {:induction false} Unreached(base: seq<Step>, more: seq<Step>, window: Time, start: int, w: World)
    requires Reached(base, more, window, start, w)
    ensures Guarded(base + more, window, start) && NoStarts(more) && Run(base + more, window, start) == w
  {
  }

  lemma {:induction false} RaceCursor(w: World, x: int, y: int, px: Phase, py: Phase, cursor: int)
    requires Race(w, x, y, px, py, cursor)
    ensures w.sub.cursor == cursor
  {
  }

  lemma {:induction false} WentBack(posts: seq<Event>, e1: Event, e2: Event, posts': seq<Event>)
    requires posts' == posts + [e1] + [e2] + [e1] && e1.sequence < e2.sequence
    ensures !AscendingFrom(posts', |posts|)
  {
    var n := |posts|;
    assert posts'[n + 1] == e2 && posts'[n + 2] == e1;
  }

  /** Loads, sends the first stored event past the cursor, and has it answered 2xx. */
  lemma {:induction false} Delivered(base: seq<Step>, more: seq<Step>, window: Time, start: int, w: World, x: int,
                                     y: int, py: Phase, cursor: int)
    returns (more': seq<Step>, w': World)
    requires Reached(base, more, window, start, w) && Race(w, x, y, Top, py, cursor)
    requires Batch(w.log.rows, cursor, 1) != []
    ensures Reached(base, more', window, start, w') && w'.log == w.log
    ensures var e := Batch(w.log.rows, cursor, 1)[0];
            && Race(w', x, y, Answered(cursor, e), py, cursor) && Race(w', y, x, py, Answered(cursor, e), cursor)
            && w'.posts == w.posts + [e]
  {
    hide Batch, Reached, Race, Next;
    var e := Batch(w.log.rows, cursor, 1)[0];
    LoadMove(w, window, x, y, py, cursor);
    more' := Go(base, more, window, start, w, Load(x, false));
    var w1;
    more', w1 := SendMoves(base, more', window, start, Next(w, window, Load(x, false)), x, y, py, cursor, cursor);
    AnswerMove(w1, window, x, y, py, cursor, e, cursor);
    more' := Go(base, more', window, start, w1, Answer(x, true, true));
    w' := Next(w1, window, Answer(x, true, true));
  }

  // ----- The exact condition -----------------------------------------------------------------------

  /** A worker that can be started now, and the row it would work on. */
  predicate CanStart(w: World, id: int) {
    Starts(w, Spawn(id)) && !w.sub.deleted
  }

  /** Started beside a live worker, a new one can be overtaken: some run of the two, starting no other worker, sends
    * events out of order, and one more commit takes the cursor back. */
  lemma {:induction false} BesideLiveRegresses(steps: seq<Step>, window: Time, start: int, older: int, newer: int)
    returns (more: seq<Step>, step: Step)
    requires Guarded(steps, window, start) && CanStart(Run(steps, window, start), newer)
    requires older in Run(steps, window, start).workers && Live(Run(steps, window, start).workers[older])
    ensures var begun := steps + [Spawn(newer)] + more;
            && Guarded(begun + [step], window, start) && NoStarts(more) && !step.Spawn?
            && !AscendingFrom(Run(begun, window, start).posts, |Run(steps + [Spawn(newer)], window, start).posts|)
            && Next(Run(begun, window, start), window, step).sub.cursor < Run(begun, window, start).sub.cursor
  {
    var base := steps + [Spawn(newer)];
    var w := Run(base, window, start);
    Begun(steps, window, start, older, newer);
    hide Run, Reached, Runners, Race, Next, Stream.LogOk, Batch;
    var w1;
    more, w1 := LineUp(base, [], window, start, w, older, newer);
    more, w1 := Supply(base, more, window, start, w1, older, newer, w.sub.cursor);
    assert |w.posts| <= |w1.posts| by {
      Unreached(base, more, window, start, w1);
      PostsGrow(base, more, window, start);
    }
    more, step := Overtake(base, more, window, start, w1, older, newer, w.sub.cursor);
    GuardedOn(base + more, window, start, step);
  }

  /** And some run of the two has both with a request at the target. */
  lemma {:induction false} BesideLiveOverlaps(steps: seq<Step>, window: Time, start: int, older: int, newer: int)
    returns (more: seq<Step>)
    requires Guarded(steps, window, start) && CanStart(Run(steps, window, start), newer)
    requires older in Run(steps, window, start).workers && Live(Run(steps, window, start).workers[older])
    ensures var begun := steps + [Spawn(newer)] + more;
            && Guarded(begun, window, start) && NoStarts(more) && older != newer
            && InFlight(Run(begun, window, start), older) && InFlight(Run(begun, window, start), newer)
  {
    var base := steps + [Spawn(newer)];
    var w := Run(base, window, start);
    var cursor := w.sub.cursor;
    Begun(steps, window, start, older, newer);
    hide Run, Reached, Runners, Race, Next, Stream.LogOk, Batch, InFlight;
    var w1;
    more, w1 := LineUp(base, [], window, start, w, older, newer);
    more, w1 := Supply(base, more, window, start, w1, older, newer, cursor);
    var e := Batch(w1.log.rows, cursor, 1)[0];
    LoadMove(w1, window, older, newer, Top, cursor);
    more := Go(base, more, window, start, w1, Load(older, false));
    w1 := Next(w1, window, Load(older, false));
    more, w1 := SendMoves(base, more, window, start, w1, older, newer, Top, cursor, cursor);
    LoadMove(w1, window, newer, older, Posting(cursor, e), cursor);
    more := Go(base, more, window, start, w1, Load(newer, false));
    w1 := Next(w1, window, Load(newer, false));
    more, w1 := SendMoves(base, more, window, start, w1, newer, older, Posting(cursor, e), cursor, cursor);
    Unreached(base, more, window, start, w1);
    RaceInFlight(w1, newer, older, cursor, e);
  }

  lemma {:induction false} RaceInFlight(w: World, x: int, y: int, cursor: int, e: Event)
    requires Race(w, x, y, Posting(cursor, e), Posting(cursor, e), cursor)
    ensures x != y && InFlight(w, x) && InFlight(w, y)
  {
  }

  lemma {:induction false} PostsGrow(base: seq<Step>, more: seq<Step>, window: Time, start: int)
    ensures |Run(base, window, start).posts| <= |Run(base + more, window, start).posts|
  {
    if more == [] {
      assert base + more == base;
    } else {
      PostsGrow(base, Init(more), window, start);
      assert Init(base + more) == base + Init(more) && Last(base + more) == Last(more);
      StepPosts(Run(base + Init(more), window, start), window, Last(more));
    }
  }

  lemma {:induction false} StepPosts(w: World, window: Time, step: Step)
    ensures |w.posts| <= |Next(w, window, step).posts|
  {
    hide Batch, Apply, SubStep, AckedStep, WorkerStep;
  }

  lemma {:induction false} GuardedOn(steps: seq<Step>, window: Time, start: int, step: Step)
    requires Guarded(steps, window, start) && !step.PruneRows?
    ensures Guarded(steps + [step], window, start)
  {
    assert Init(steps + [step]) == steps && Last(steps + [step]) == step;
  }

  lemma {:induction false} Begun(steps: seq<Step>, window: Time, start: int, older: int, newer: int)
    requires Guarded(steps, window, start) && CanStart(Run(steps, window, start), newer)
    requires older in Run(steps, window, start).workers && Live(Run(steps, window, start).workers[older])
    ensures var base := steps + [Spawn(newer)];
            var w := Run(base, window, start);
            && Reached(base, [], window, start, w) && Runners(w, older, newer) && Stream.LogOk(w.log)
  {
    var base := steps + [Spawn(newer)];
    OneMore(steps, window, start, Spawn(newer));
    GuardedOn(steps, window, start, Spawn(newer));
    assert base + [] == base;
    ReachableOk(base, window, start);
    hide Run, Ok, Stream.LogOk, Guarded;
    LogOf(Run(base, window, start), window, start);
  }

  /** Whatever follows short of another start, the deliveries sent since then ascend. */
  ghost predicate StaysInOrder(base: seq<Step>, window: Time, start: int) {
    forall more :: NoStarts(more) && Guarded(base + more, window, start) ==>
        AscendingFrom(Run(base + more, window, start).posts, |Run(base, window, start).posts|)
  }

  /** And at most one uncancelled delivery is in flight at a time. */
  ghost predicate NeverTwo(base: seq<Step>, window: Time, start: int) {
    forall more, a, b ::
      NoStarts(more) && Guarded(base + more, window, start) ==>
        (InFlight(Run(base + more, window, start), a) && InFlight(Run(base + more, window, start), b) ==> a == b)
  }

  /** And no step takes the cursor back. */
  ghost predicate CursorStays(base: seq<Step>, window: Time, start: int) {
    forall more, step: Step ::
      NoStarts(more) && !step.Spawn? && Guarded((base + more) + [step], window, start) ==>
        Run(base + more, window, start).sub.cursor <= Next(Run(base + more, window, start), window, step).sub.cursor
  }

  /** The exact condition, after any run at all. With the row present, starting a worker keeps the deliveries that
    * follow in order and one at a time, and the cursor from going back, short of another start, if and only if no
    * live, uncancelled worker stands beside it. */
  lemma {:induction false} InOrderIffAlone(steps: seq<Step>, window: Time, start: int, id: int)
    requires Guarded(steps, window, start) && CanStart(Run(steps, window, start), id)
    ensures StaysInOrder(steps + [Spawn(id)], window, start) <==> NoneLive(Run(steps, window, start))
    ensures NeverTwo(steps + [Spawn(id)], window, start) <==> NoneLive(Run(steps, window, start))
    ensures CursorStays(steps + [Spawn(id)], window, start) <==> NoneLive(Run(steps, window, start))
  {
    var base := steps + [Spawn(id)];
    if NoneLive(Run(steps, window, start)) {
      AloneStays(steps, window, start, id);
    } else {
      var older :| older in Run(steps, window, start).workers && Live(Run(steps, window, start).workers[older]);
      var more, step := BesideLiveRegresses(steps, window, start, older, id);
      var overlap := BesideLiveOverlaps(steps, window, start, older, id);
      hide Run, AscendingFrom, Next, InFlight;
      assert Init((base + more) + [step]) == base + more;
      assert Guarded(base + more, window, start) && NoStarts(more);
    }
  }

  lemma {:induction false} AloneStays(steps: seq<Step>, window: Time, start: int, id: int)
    requires Starts(Run(steps, window, start), Spawn(id)) && NoneLive(Run(steps, window, start))
    ensures StaysInOrder(steps + [Spawn(id)], window, start) && CursorStays(steps + [Spawn(id)], window, start)
    ensures NeverTwo(steps + [Spawn(id)], window, start)
  {
    var base := steps + [Spawn(id)];
    var n := |Run(base, window, start).posts|;
    hide Run, Next, AscendingFrom, SoloOk, Starts, NoneLive, InFlight;
    forall more | NoStarts(more) && Guarded(base + more, window, start)
      ensures AscendingFrom(Run(base + more, window, start).posts, n)
    {
      AloneSince(steps, window, start, id, more);
      TailAscends(Run(base + more, window, start), n);
    }
    forall more, step: Step | NoStarts(more) && !step.Spawn? && Guarded((base + more) + [step], window, start)
      ensures Run(base + more, window, start).sub.cursor <=
                Next(Run(base + more, window, start), window, step).sub.cursor
    {
      assert Init((base + more) + [step]) == base + more && Last((base + more) + [step]) == step;
      AloneSince(steps, window, start, id, more);
      TailStep(base + more, window, start, n, step);
    }
    forall more, a, b | NoStarts(more) && Guarded(base + more, window, start)
                        && InFlight(Run(base + more, window, start), a) && InFlight(Run(base + more, window, start), b)
      ensures a == b
    {
      AloneSince(steps, window, start, id, more);
      TailOne(Run(base + more, window, start), n, a, b);
    }
  }

  /** The world with the first `n` deliveries forgotten; no step looks at them. */
  function Tail(w: World, n: nat): World {
    w.(posts := if n <= |w.posts| then w.posts[n..] else [])
  }

  lemma {:induction false} TailAscends(w: World, n: nat)
    requires SoloOk(Tail(w, n)) && n <= |w.posts|
    ensures AscendingFrom(w.posts, n)
  {
    var tail := w.posts[n..];
    assert Ascending(tail);
    forall i, j | n <= i < j < |w.posts| ensures w.posts[i].sequence <= w.posts[j].sequence {
      assert tail[i - n] == w.posts[i] && tail[j - n] == w.posts[j];
    }
  }

  lemma {:induction false} TailOne(w: World, n: nat, a: int, b: int)
    requires SoloOk(Tail(w, n)) && InFlight(w, a) && InFlight(w, b)
    ensures a == b
  {
  }

  lemma {:induction false} TailNext(w: World, n: nat, window: Time, step: Step)
    requires n <= |w.posts|
    ensures n <= |Next(w, window, step).posts| && Next(Tail(w, n), window, step) == Tail(Next(w, window, step), n)
  {
    hide Apply, SubStep, PostsStep, AckedStep, WorkerStep, Signalled;
    if IsMove(step) && step.id in w.workers {
      TailMove(w, n, w.workers[step.id], step);
    }
  }

  lemma {:induction false} TailMove(w: World, n: nat, k: Worker, step: Step)
    requires n <= |w.posts|
    ensures SubStep(Tail(w, n), k, step) == SubStep(w, k, step)
    ensures AckedStep(Tail(w, n), k, step) == AckedStep(w, k, step)
    ensures WorkerStep(Tail(w, n), k, step) == WorkerStep(w, k, step)
    ensures n <= |PostsStep(w, k, step)| && PostsStep(Tail(w, n), k, step) == PostsStep(w, k, step)[n..]
  {
    hide Batch;
  }

  lemma {:induction false} TailStep(steps: seq<Step>, window: Time, start: int, n: nat, step: Step)
    requires Guarded(steps + [step], window, start) && !step.Spawn?
    requires var w := Run(steps, window, start); n <= |w.posts| && SoloOk(Tail(w, n))
    ensures var w := Run(steps, window, start);
            var w' := Next(w, window, step);
            n <= |w'.posts| && SoloOk(Tail(w', n)) && w.sub.cursor <= w'.sub.cursor
  {
    assert Init(steps + [step]) == steps && Last(steps + [step]) == step;
    var w := Run(steps, window, start);
    assert Ok(Tail(w, n), window, start) by {
      ReachableOk(steps, window, start);
      TailOk(w, n, window, start);
    }
    hide SoloOk, Ok, Run;
    SoloStep(Tail(w, n), window, start, step);
    TailNext(w, n, window, step);
  }

  lemma {:induction false} TailOk(w: World, n: nat, window: Time, start: int)
    requires Ok(w, window, start)
    ensures Ok(Tail(w, n), window, start)
  {
    hide Stream.LogOk, Spaced;
  }

  /** From a start beside no live worker on, the deliveries sent since are what a lone worker sends. */
  lemma {:induction false} AloneSince(steps: seq<Step>, window: Time, start: int, id: int, more: seq<Step>)
    requires Starts(Run(steps, window, start), Spawn(id)) && NoneLive(Run(steps, window, start))
    requires Guarded(steps + [Spawn(id)] + more, window, start) && NoStarts(more)
    ensures var n := |Run(steps + [Spawn(id)], window, start).posts|;
            var w := Run(steps + [Spawn(id)] + more, window, start);
            n <= |w.posts| && SoloOk(Tail(w, n))
  {
    var base := steps + [Spawn(id)];
    if more == [] {
      assert base + more == base;
      AloneBegins(steps, window, start, id);
    } else {
      var n := |Run(base, window, start).posts|;
      assert Init(base + more) == base + Init(more) && Last(base + more) == Last(more);
      assert (base + Init(more)) + [Last(more)] == base + more;
      AloneSince(steps, window, start, id, Init(more));
      hide SoloOk, Tail, Next;
      TailStep(base + Init(more), window, start, n, Last(more));
    }
  }

  lemma {:induction false} AloneBegins(steps: seq<Step>, window: Time, start: int, id: int)
    requires Starts(Run(steps, window, start), Spawn(id)) && NoneLive(Run(steps, window, start))
    ensures var w := Run(steps + [Spawn(id)], window, start);
            SoloOk(Tail(w, |w.posts|))
  {
    OneMore(steps, window, start, Spawn(id));
    hide Run;
    assert Tail(Run(steps + [Spawn(id)], window, start), |Run(steps + [Spawn(id)], window, start).posts|).posts == [];
  }

  /** The code can get there: a pause drops the worker from the table, a resume starts another, and the first one is
    * not cancelled until afterwards. Before it is, deliveries can overlap, and they and the cursor can go back. */
  lemma {:induction false} PauseThenResumeCanRegress(window: Time, start: int)
    returns (more: seq<Step>, step: Step, overlap: seq<Step>)
    ensures var steps := [Spawn(1), Deregister] + [Spawn(2)] + more;
            && Guarded(steps + [step], window, start) && NoStarts(more) && !step.Spawn?
            && !Ascending(Run(steps, window, start).posts)
            && Next(Run(steps, window, start), window, step).sub.cursor < Run(steps, window, start).sub.cursor
    ensures var w := Run([Spawn(1), Deregister] + [Spawn(2)] + overlap, window, start);
            && Guarded([Spawn(1), Deregister] + [Spawn(2)] + overlap, window, start)
            && InFlight(w, 1) && InFlight(w, 2)
  {
    var one, two := [Spawn(1)], [Spawn(1), Deregister];
    assert Init(one) == [] && Init(two) == one;
    assert Guarded([], window, start) && Guarded(one, window, start) && Guarded(two, window, start);
    assert Run(one, window, start) == Next(Begin(start), window, Spawn(1));
    assert Run(two, window, start) == Next(Run(one, window, start), window, Deregister);
    more, step := BesideLiveRegresses(two, window, start, 1, 2);
    overlap := BesideLiveOverlaps(two, window, start, 1, 2);
  }

  /** A pause that cancels before the next start keeps the order: a cancelled worker does not count. */
  lemma {:induction false} CancelledFirstIsSafe(steps: seq<Step>, window: Time, start: int, older: int, id: int)
    requires Guarded(steps, window, start) && Solo(steps, window, start)
    requires var w := Run(steps, window, start); w.registered == Some(older) && older in w.workers && id !in w.workers
    requires Live(Run(steps, window, start).workers[older])
    ensures Solo(steps + [Deregister] + [Cancel(older)] + [Spawn(id)], window, start)
  {
    var w := Run(steps, window, start);
    assert OneLive(w) by { SoloReachable(steps, window, start); }
    hide Run;
    var a := steps + [Deregister];
    var b := a + [Cancel(older)];
    OneMore(steps, window, start, Deregister);
    OneMore(a, window, start, Cancel(older));
    OneMore(b, window, start, Spawn(id));
    CancelLeavesNone(w, window, older);
  }

  lemma {:induction false} OneMore(steps: seq<Step>, window: Time, start: int, step: Step)
    ensures Run(steps + [step], window, start) == Next(Run(steps, window, start), window, step)
    ensures Solo(steps + [step], window, start) <==>
              Solo(steps, window, start) &&
              (Starts(Run(steps, window, start), step) ==> NoneLive(Run(steps, window, start)))
  {
    assert Init(steps + [step]) == steps && Last(steps + [step]) == step;
  }

  lemma {:induction false} CancelLeavesNone(w: World, window: Time, older: int)
    requires OneLive(w) && w.registered == Some(older) && older in w.workers && Live(w.workers[older])
    ensures NoneLive(Next(Next(w, window, Deregister), window, Cancel(older)))
  {
  }
}
