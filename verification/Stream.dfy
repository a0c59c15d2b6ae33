/** Every interleaving of ingest, the detached publish, pruning and any number of SSE connections on
  * one source.
  *
  * A connection registers its channel, drains the store with the stale filter, then alternates
  * between waiting in its select and draining without a filter. One step is one store statement,
  * one publish, one event written or passed over, or one select outcome. */
module Stream {
  import opened Common
  import opened EventLog
  import Subscribe

  datatype Phase = Draining | Emitting(rest: seq<Event>) | Waiting | Closed

  /** `full` says whether the connection's one-slot channel holds a signal. `read` collects every event its reads
    * returned. */
  datatype Conn = Conn(start: int, cutoff: Time, initial: bool, phase: Phase, cursor: int, full: bool,
                       read: set<Event>, written: seq<Event>, skipped: seq<Event>)

  /** `pending` holds the sequences whose publish has been spawned and has not run. */
  datatype World = World(log: Log, pending: multiset<int>, conns: map<int, Conn>)

  datatype Step =
    | Ingest(input: AppendInput, now: Time)
    | Publish(sequence: int)
    | Republish
    | PruneRows(cutoff: Time)
    | Connect(id: int, start: int, cutoff: Time)
    | Read(id: int, limit: int)
    | Emit(id: int)
    | Receive(id: int)
    | Tick(id: int)
    | Disconnect(id: int)

  const EMPTY := World(Log([], []), multiset{}, map[])

  /** A connection that has just been accepted. */
  function Fresh(start: int, cutoff: Time): Conn {
    Conn(start, cutoff, true, Draining, start, false, {}, [], [])
  }

  function Signalled(c: Conn): Conn {
    if c.phase.Closed? then c else c.(full := true)
  }

  /** One event of a batch: the cursor moves whether the event is written or passed over. */
  function EmitOne(c: Conn, event: Event, phase: Phase): Conn {
    var moved := c.(cursor := event.sequence, phase := phase);
    if c.initial && Subscribe.Stale(event, c.cutoff) then moved.(skipped := c.skipped + [event])
    else moved.(written := c.written + [event])
  }

  /** A connection's own move against the current rows; a move that is not enabled changes nothing. */
  function ConnStep(rows: seq<Event>, c: Conn, step: Step): Conn {
    match step
    case Read(_, limit) =>
      if !c.phase.Draining? then c
      else
        var batch := Batch(rows, c.cursor, limit);
        if batch == [] then c.(phase := Waiting, initial := false)
        else c.(phase := Emitting(batch), read := c.read + set e | e in batch)
    case Emit(_) =>
      if c.phase.Emitting? && c.phase.rest != [] then
        EmitOne(c, c.phase.rest[0], if |c.phase.rest| == 1 then Draining else Emitting(c.phase.rest[1..]))
      else c
    case Receive(_) => if c.phase.Waiting? && c.full then c.(phase := Draining, full := false) else c
    case Tick(_) => if c.phase.Waiting? then c.(phase := Draining) else c
    case Disconnect(_) => c.(phase := Closed)
    case _ => c
  }

  function LogOf(step: Step): Option<LogOp> {
    match step
    case Ingest(input, now) => Some(AppendOp(input, now))
    case PruneRows(cutoff) => Some(PruneOp(cutoff))
    case _ => None
  }

  function Next(w: World, window: Time, step: Step): World {
    match step
    case Ingest(input, now) =>
      var log := Apply(w.log, window, AppendOp(input, now));
      if log == w.log then w
      else w.(log := log, pending := w.pending + multiset{Last(log.history).sequence})
    case Publish(sequence) =>
      if sequence !in w.pending then w
      else w.(pending := w.pending - multiset{sequence}, conns := map id | id in w.conns :: Signalled(w.conns[id]))
    case Republish => w.(conns := map id | id in w.conns :: Signalled(w.conns[id]))
    case PruneRows(cutoff) => w.(log := Apply(w.log, window, PruneOp(cutoff)))
    case Connect(id, start, cutoff) =>
      if id in w.conns then w
      else w.(conns := w.conns[id := Fresh(start, cutoff)])
    case _ =>
      if step.id !in w.conns then w
      else w.(conns := w.conns[step.id := ConnStep(w.log.rows, w.conns[step.id], step)])
  }

  function Run(steps: seq<Step>, window: Time): World {
    if steps == [] then EMPTY else Next(Run(Init(steps), window), window, Last(steps))
  }

  // ----- Lost wake-ups -------------------------------------------------------------------------

  /** A connection sitting in its select has a signal waiting, or every stored event past its cursor
    * still has its publish to come. */
  ghost predicate Woken(w: World, c: Conn) {
    c.phase.Waiting? && !c.full ==> AllPending(w.log.rows, c.cursor, w.pending)
  }

  ghost predicate AllWoken(w: World) {
    forall id :: id in w.conns ==> Woken(w, w.conns[id])
  }

  lemma {:induction false} AllWokenStep(w: World, window: Time, step: Step)
    requires AllWoken(w)
    ensures AllWoken(Next(w, window, step))
  {
    var w' := Next(w, window, step);
    forall id | id in w'.conns ensures Woken(w', w'.conns[id]) {
      if id in w.conns {
        WokenStep(w, window, step, id);
      }
    }
  }

  /** No wake-up is ever lost, in any interleaving. */
  lemma {:induction false} NoLostWakeup(steps: seq<Step>, window: Time)
    ensures AllWoken(Run(steps, window))
  {
    if steps != [] {
      NoLostWakeup(Init(steps), window);
      AllWokenStep(Run(Init(steps), window), window, Last(steps));
    }
  }

  lemma {:induction false} WokenStep(w: World, window: Time, step: Step, id: int)
    requires id in w.conns && Woken(w, w.conns[id])
    ensures id in Next(w, window, step).conns
    ensures Woken(Next(w, window, step), Next(w, window, step).conns[id])
  {
    hide Apply, Batch, AllPending;
    var c := w.conns[id];
    match step {
      case Ingest(input, now) =>
        if c.phase.Waiting? && !c.full { PendingAfterAppend(w.log, window, input, now, c.cursor, w.pending); }
      case PruneRows(cutoff) =>
        if c.phase.Waiting? && !c.full { PendingAfterPrune(w.log, window, cutoff, c.cursor, w.pending); }
      case Read(_, limit) =>
        if Batch(w.log.rows, c.cursor, limit) == [] {
          NothingPendingAfterEmptyRead(w.log.rows, c.cursor, limit, w.pending);
        }
      case _ =>
    }
  }

  /** What a publish does: every open connection then has a signal, and one that sits in its select wakes up to
    * drain and has its slot free again. Only a publish that was still to come runs. */
  lemma {:induction false} SignalWakes(w: World, window: Time, sequence: int, id: int)
    requires id in w.conns && !w.conns[id].phase.Closed? && sequence in w.pending
    ensures var w' := Next(w, window, Publish(sequence));
            && w'.log == w.log && w'.pending == w.pending - multiset{sequence} && w'.conns.Keys == w.conns.Keys
            && w'.conns[id] == w.conns[id].(full := true)
            && (w.conns[id].phase == Waiting ==>
                  Next(w', window, Receive(id)).conns[id] == w.conns[id].(phase := Draining, full := false))
    ensures Next(w, window, Republish).conns[id] == w.conns[id].(full := true)
    ensures w.conns[id].phase == Waiting && !w.conns[id].full ==> Next(w, window, Receive(id)) == w
  {
    assert w.conns[id := w.conns[id]] == w.conns;
  }

  // ----- Exactly once on one connection --------------------------------------------------------

  /** Every prune of the run leaves the newest row of the source in place. */
  ghost predicate Guarded(steps: seq<Step>, window: Time) {
    steps == [] ||
    (Guarded(Init(steps), window) &&
     (Last(steps).PruneRows? ==> NewestKept(Run(Init(steps), window).log.rows, Last(steps).cutoff)))
  }

  /** Under that guard the history numbers 1, 2, 3, ... and the table is what pruning left of it. */
  ghost predicate LogOk(log: Log) {
    && Ordered(log.rows) && Gapless(log.history)
    && (forall e :: e in log.rows ==> e in log.history)
    && MaxSequence(log.rows) == |log.history|
  }

  /** `log'` follows `log` by appending a row, losing rows, or both. */
  ghost predicate Grows(log: Log, log': Log) {
    && log.history <= log'.history
    && forall e :: e in log'.rows ==> e in log.rows || e.sequence > |log.history|
  }

  ghost predicate Increasing(events: seq<Event>) {
    forall i, j :: 0 <= i < j < |events| ==> events[i].sequence < events[j].sequence
  }

  /** What was written and what was passed over: each strictly increasing, between the starting
    * cursor and the cursor, real events, and never the same event in both. */
  ghost predicate Disjoint(log: Log, c: Conn) {
    && Increasing(c.written) && Increasing(c.skipped)
    && (forall e :: e in c.written || e in c.skipped ==>
          c.start < e.sequence <= c.cursor && e in log.history)
    && (forall e :: e in c.written ==> e !in c.skipped)
    && (forall e :: e in c.skipped ==> Subscribe.Stale(e, c.cutoff))
    && (c.cursor == c.start || c.start < c.cursor <= |log.history|)
  }

  /** Nothing between the starting cursor and the cursor is missing: it was written, passed over, or
    * is no longer stored. */
  ghost predicate Covered(log: Log, c: Conn) {
    forall e :: e in log.rows && c.start < e.sequence <= c.cursor ==> e in c.written || e in c.skipped
  }

  /** A batch being emitted holds every stored row from the cursor up to its last one. */
  ghost predicate BatchOk(log: Log, c: Conn) {
    c.phase.Emitting? ==>
      && c.phase.rest != [] && Increasing(c.phase.rest) && c.phase.rest[0].sequence > c.cursor
      && (forall e :: e in c.phase.rest ==> e in log.history)
      && (forall e :: e in log.rows && c.cursor < e.sequence <= Last(c.phase.rest).sequence ==> e in c.phase.rest)
  }

  /** Everything a connection read it has handled, or is about to while it is still open. */
  ghost predicate Accounted(log: Log, c: Conn) {
    && (forall e :: e in c.read ==> e in log.history && c.start < e.sequence)
    && (forall e :: e in c.read && e.sequence <= c.cursor ==> e in c.written || e in c.skipped)
    && match c.phase
       case Emitting(rest) => forall e :: e in c.read && e.sequence > c.cursor ==> e in rest
       case Closed => true
       case _ => forall e :: e in c.read ==> e.sequence <= c.cursor
  }

  ghost predicate ConnOk(log: Log, c: Conn) {
    Disjoint(log, c) && Covered(log, c) && BatchOk(log, c) && Accounted(log, c)
  }

  lemma {:induction false} LogStep(log: Log, window: Time, op: LogOp)
    requires LogOk(log) && (op.PruneOp? ==> NewestKept(log.rows, op.cutoff))
    requires Spaced(log.rows, window)
    ensures LogOk(Apply(log, window, op)) && Grows(log, Apply(log, window, op))
    ensures Spaced(Apply(log, window, op).rows, window)
  {
    hide LogOk, Grows, Spaced;
    match op {
      case PruneOp(cutoff) =>
        PruneStep(log, cutoff);
        RetainedSpaced(log.rows, cutoff, window);
      case AppendOp(input, now) =>
        if AppendOutcome(log.rows, window, input, now).Appended? {
          NextIs(log);
          AppendStep(log, Row(input, NextSequence(log.rows), now));
          AppendSpaced(log.rows, window, input, now);
        } else {
          GrowsSelf(log);
        }
    }
  }

  lemma {:induction false} NextIs(log: Log)
    requires LogOk(log)
    ensures NextSequence(log.rows) == |log.history| + 1
  {
  }

  lemma {:induction false} GrowsSelf(log: Log)
    ensures Grows(log, log)
  {
  }

  lemma {:induction false} AppendSpaced(rows: seq<Event>, window: Time, input: AppendInput, now: Time)
    requires Spaced(rows, window) && AppendOutcome(rows, window, input, now).Appended?
    ensures Spaced(rows + [Row(input, NextSequence(rows), now)], window)
  {
  }

  lemma {:induction false} PruneStep(log: Log, cutoff: Time)
    requires LogOk(log) && NewestKept(log.rows, cutoff)
    ensures LogOk(log.(rows := Retained(log.rows, cutoff))) && Grows(log, log.(rows := Retained(log.rows, cutoff)))
  {
    RetainedMembers(log.rows, cutoff);
    RetainedOrdered(log.rows, cutoff);
    RetainedMax(log.rows, cutoff);
    hide Retained;
  }

  lemma {:induction false} AppendStep(log: Log, event: Event)
    requires LogOk(log) && event.sequence == |log.history| + 1
    ensures LogOk(Log(log.rows + [event], log.history + [event]))
    ensures Grows(log, Log(log.rows + [event], log.history + [event]))
  {
    var rows, history := log.rows + [event], log.history + [event];
    assert Ordered(rows) && MaxSequence(rows) == |history| by {
      MaxIsLast(log.rows);
      OrderedAppend(log.rows, event);
      MaxIsLast(rows);
    }
    hide MaxSequence, Ordered;
    assert Gapless(history);
    forall e | e in rows ensures e in history && (e in log.rows || e == event) {
    }
  }

  /** Appends and prunes elsewhere do not disturb a connection. */
  lemma {:induction false} ConnFrame(log: Log, log': Log, c: Conn)
    requires LogOk(log) && LogOk(log') && Grows(log, log') && ConnOk(log, c)
    ensures ConnOk(log', c)
  {
    assert forall e :: e in log.history ==> e in log'.history;
    if c.phase.Emitting? {
      assert Last(c.phase.rest) in log.history;
    }
  }

  lemma {:induction false} GaplessUnique(events: seq<Event>, a: Event, b: Event)
    requires Gapless(events) && a in events && b in events && a.sequence == b.sequence
    ensures a == b && 1 <= a.sequence <= |events|
  {
  }

  lemma {:induction false} StoredInHistory(log: Log, e: Event)
    requires LogOk(log) && e in log.rows
    ensures 1 <= e.sequence <= |log.history|
  {
    GaplessUnique(log.history, e, e);
  }

  lemma {:induction false} ReadStep(log: Log, c: Conn, limit: int)
    requires LogOk(log) && ConnOk(log, c) && c.phase.Draining?
    ensures ConnOk(log, ConnStep(log.rows, c, Read(0, limit)))
  {
    ReadAccounted(log, c, limit);
    ReadBatchOk(log, c, limit);
    hide Batch, Accounted, BatchOk, LogOk;
  }

  lemma {:induction false} ReadBatchOk(log: Log, c: Conn, limit: int)
    requires LogOk(log) && c.phase.Draining?
    ensures BatchOk(log, ConnStep(log.rows, c, Read(0, limit)))
  {
    BatchFacts(log.rows, c.cursor, limit);
    hide Batch, Gapless;
  }

  lemma {:induction false} ReadAccounted(log: Log, c: Conn, limit: int)
    requires LogOk(log) && ConnOk(log, c) && c.phase.Draining?
    ensures Accounted(log, ConnStep(log.rows, c, Read(0, limit)))
  {
    BatchFacts(log.rows, c.cursor, limit);
    hide Batch, Covered, BatchOk, Gapless, Ordered;
  }

  lemma {:induction false} EmitStep(log: Log, c: Conn)
    requires LogOk(log) && ConnOk(log, c) && c.phase.Emitting?
    ensures ConnOk(log, ConnStep(log.rows, c, Emit(0)))
  {
    EmitDisjoint(log, c);
    EmitCovered(log, c);
    EmitBatchOk(log, c);
    EmitAccounted(log, c);
  }

  lemma {:induction false} EmitAccounted(log: Log, c: Conn)
    requires BatchOk(log, c) && Accounted(log, c) && c.phase.Emitting?
    ensures Accounted(log, ConnStep(log.rows, c, Emit(0)))
  {
    var rest, event, c' := c.phase.rest, c.phase.rest[0], ConnStep(log.rows, c, Emit(0));
    forall e | e in c.read && e.sequence > c.cursor
      ensures e == event || (e.sequence > event.sequence && |rest| > 1 && e in rest[1..])
    {
      var i :| 0 <= i < |rest| && rest[i] == e;
      if i > 0 {
        assert rest[1..][i - 1] == e;
      }
    }
    hide BatchOk, Subscribe.Stale;
    assert event in c'.written || event in c'.skipped;
    assert forall e :: e in c.written || e in c.skipped ==> e in c'.written || e in c'.skipped;
    hide EmitOne;
  }

  lemma {:induction false} IncreasingAppend(events: seq<Event>, e: Event)
    requires Increasing(events) && forall x :: x in events ==> x.sequence < e.sequence
    ensures Increasing(events + [e])
  {
    assert forall i :: 0 <= i < |events| ==> events[i] in events;
  }

  lemma {:induction false} EmitDisjoint(log: Log, c: Conn)
    requires Disjoint(log, c) && BatchOk(log, c) && c.phase.Emitting? && Gapless(log.history)
    ensures Disjoint(log, ConnStep(log.rows, c, Emit(0)))
  {
    var event := c.phase.rest[0];
    var c' := ConnStep(log.rows, c, Emit(0));
    assert event in log.history && 1 <= event.sequence <= |log.history|;
    IncreasingAppend(c.written, event);
    IncreasingAppend(c.skipped, event);
    assert forall e :: e in c'.written ==> e in c.written || e == event;
    assert forall e :: e in c'.skipped ==> e in c.skipped || e == event;
  }

  lemma {:induction false} EmitCovered(log: Log, c: Conn)
    requires LogOk(log) && Covered(log, c) && BatchOk(log, c) && c.phase.Emitting?
    ensures Covered(log, ConnStep(log.rows, c, Emit(0)))
  {
    var rest, event := c.phase.rest, c.phase.rest[0];
    var c' := ConnStep(log.rows, c, Emit(0));
    forall e | e in log.rows && c.start < e.sequence <= c'.cursor ensures e in c'.written || e in c'.skipped {
      if e.sequence > c.cursor {
        assert event.sequence <= Last(rest).sequence;
        var i :| 0 <= i < |rest| && rest[i] == e;
        assert i == 0;
      }
    }
  }

  lemma {:induction false} IncreasingTail(events: seq<Event>)
    requires Increasing(events) && |events| > 1
    ensures Increasing(events[1..]) && Last(events[1..]) == Last(events)
    ensures forall e :: e in events <==> e == events[0] || e in events[1..]
  {
    assert events == [events[0]] + events[1..];
    assert forall i :: 0 <= i < |events[1..]| ==> events[1..][i] == events[i + 1];
  }

  lemma {:induction false} EmitBatchOk(log: Log, c: Conn)
    requires BatchOk(log, c) && c.phase.Emitting?
    ensures BatchOk(log, ConnStep(log.rows, c, Emit(0)))
  {
    var rest := c.phase.rest;
    if |rest| > 1 {
      IncreasingTail(rest);
      var c' := ConnStep(log.rows, c, Emit(0));
      assert c'.phase == Emitting(rest[1..]) && c'.cursor == rest[0].sequence;
      assert rest[1..][0] == rest[1];
      forall e | e in log.rows && rest[0].sequence < e.sequence <= Last(rest[1..]).sequence ensures e in rest[1..] {
        assert c.cursor < e.sequence <= Last(rest).sequence;
      }
    }
  }

  lemma {:induction false} ConnStepOk(log: Log, c: Conn, step: Step)
    requires LogOk(log) && ConnOk(log, c)
    ensures ConnOk(log, ConnStep(log.rows, c, step))
  {
    hide Disjoint, Covered, BatchOk, Accounted, Batch, EmitOne;
    match step {
      case Read(_, limit) => if c.phase.Draining? { ReadStep(log, c, limit); }
      case Emit(_) => if c.phase.Emitting? { EmitStep(log, c); }
      case Receive(_) => PhaseApart(log, c, ConnStep(log.rows, c, step));
      case Tick(_) => PhaseApart(log, c, ConnStep(log.rows, c, step));
      case Disconnect(_) => PhaseApart(log, c, ConnStep(log.rows, c, step));
      case _ =>
    }
  }

  /** Phases and signals alone do not matter to what was written. */
  lemma {:induction false} PhaseApart(log: Log, c: Conn, c': Conn)
    requires ConnOk(log, c) && c' == c.(phase := c'.phase, full := c'.full)
    requires c'.phase == c.phase || c'.phase.Closed? || (c.phase.Waiting? && c'.phase.Draining?)
    ensures ConnOk(log, c')
  {
  }

  /** Holds in every reachable world of a guarded run. */
  ghost predicate WorldOk(w: World, window: Time) {
    && LogOk(w.log) && Spaced(w.log.rows, window)
    && forall id :: id in w.conns ==> ConnOk(w.log, w.conns[id])
  }

  lemma {:induction false} NextOk(w: World, window: Time, step: Step)
    requires WorldOk(w, window)
    requires step.PruneRows? ==> NewestKept(w.log.rows, step.cutoff)
    ensures WorldOk(Next(w, window, step), window)
  {
    var w' := Next(w, window, step);
    match LogOf(step) {
      case Some(op) =>
        LogStep(w.log, window, op);
        forall id | id in w'.conns ensures ConnOk(w'.log, w'.conns[id]) {
          ConnFrame(w.log, w'.log, w.conns[id]);
        }
      case None =>
        assert w'.log == w.log;
        forall id | id in w'.conns ensures ConnOk(w'.log, w'.conns[id]) {
          ConnNextOk(w, window, step, id);
        }
    }
  }

  lemma {:induction false} ConnNextOk(w: World, window: Time, step: Step, id: int)
    requires LogOk(w.log) && LogOf(step).None? && id in Next(w, window, step).conns
    requires id in w.conns ==> ConnOk(w.log, w.conns[id])
    ensures ConnOk(w.log, Next(w, window, step).conns[id])
  {
    hide Apply, ConnOk, ConnStep;
    if id in w.conns {
      var c := w.conns[id];
      ConnStepOk(w.log, c, step);
      PhaseApart(w.log, c, Signalled(c));
    } else {
      FreshConnOk(w.log, step.start, step.cutoff);
    }
  }

  lemma {:induction false} FreshConnOk(log: Log, start: int, cutoff: Time)
    ensures ConnOk(log, Fresh(start, cutoff))
  {
  }

  lemma {:induction false} ReachableOk(steps: seq<Step>, window: Time)
    requires Guarded(steps, window)
    ensures WorldOk(Run(steps, window), window)
  {
    if steps != [] {
      ReachableOk(Init(steps), window);
      NextOk(Run(Init(steps), window), window, Last(steps));
    }
  }

  function Sequences(events: seq<Event>): multiset<int> {
    if events == [] then multiset{} else Sequences(Init(events)) + multiset{Last(events).sequence}
  }

  lemma {:induction false} SequencesCount(events: seq<Event>, e: Event)
    requires Increasing(events) && e in events
    ensures Sequences(events)[e.sequence] == 1
  {
    if e == Last(events) {
      SequencesAbsent(Init(events), e.sequence);
    } else {
      assert events == Init(events) + [Last(events)];
      SequencesCount(Init(events), e);
      assert exists i :: 0 <= i < |events| - 1 && events[i] == e;
    }
  }

  lemma {:induction false} SequencesAbsent(events: seq<Event>, sequence: int)
    requires forall e :: e in events ==> e.sequence != sequence
    ensures Sequences(events)[sequence] == 0
  {
    if events != [] {
      SequencesAbsent(Init(events), sequence);
    }
  }

  /** Whole-stream exactly-once. In every guarded run and on every connection, an event between the starting cursor
    * and the cursor that the connection read, or that is still stored, was written exactly once and never passed
    * over, or passed over once and never written; none is handled twice or outside those cursors, and only a stale
    * event was ever passed over. */
  lemma {:induction false} ExactlyOnce(steps: seq<Step>, window: Time, id: int, e: Event)
    requires Guarded(steps, window) && id in Run(steps, window).conns
    requires e in Run(steps, window).log.history
    ensures var w := Run(steps, window);
            var c := w.conns[id];
            var sent, passed := Sequences(c.written)[e.sequence], Sequences(c.skipped)[e.sequence];
            && sent + passed <= 1
            && (c.start < e.sequence <= c.cursor && (e in w.log.rows || e in c.read) ==> sent + passed == 1)
            && (sent + passed == 1 ==> c.start < e.sequence <= c.cursor)
            && (passed == 1 ==> SECOND <= e.providerTime < c.cutoff)
  {
    ReachableOk(steps, window);
    hide Run, Sequences, ConnOk, LogOk;
    HandledOnce(Run(steps, window).log, Run(steps, window).conns[id], e);
  }

  lemma {:induction false} HandledOnce(log: Log, c: Conn, e: Event)
    requires LogOk(log) && ConnOk(log, c) && e in log.history
    ensures var sent, passed := Sequences(c.written)[e.sequence], Sequences(c.skipped)[e.sequence];
            && sent + passed <= 1
            && (c.start < e.sequence <= c.cursor && (e in log.rows || e in c.read) ==> sent + passed == 1)
            && (sent + passed == 1 ==> c.start < e.sequence <= c.cursor)
            && (passed == 1 ==> SECOND <= e.providerTime < c.cutoff)
  {
    hide Sequences;
    CountOf(log, c.written, e);
    CountOf(log, c.skipped, e);
  }

  lemma {:induction false} CountOf(log: Log, events: seq<Event>, e: Event)
    requires LogOk(log) && e in log.history && Increasing(events)
    requires forall x :: x in events ==> x in log.history
    ensures Sequences(events)[e.sequence] == if e in events then 1 else 0
  {
    if e in events {
      SequencesCount(events, e);
    } else {
      forall x | x in events ensures x.sequence != e.sequence {
        if x.sequence == e.sequence { GaplessUnique(log.history, x, e); }
      }
      SequencesAbsent(events, e.sequence);
    }
  }

  /** At-least-once: when no publish is pending and a connection waits with an empty channel, every
    * stored event above its starting cursor has been written or passed over as stale. */
  lemma {:induction false} CaughtUpWhenQuiet(steps: seq<Step>, window: Time, id: int, e: Event)
    requires Guarded(steps, window) && id in Run(steps, window).conns
    requires Run(steps, window).pending == multiset{}
    requires Run(steps, window).conns[id].phase.Waiting? && !Run(steps, window).conns[id].full
    requires e in Run(steps, window).log.rows && e.sequence > Run(steps, window).conns[id].start
    ensures e in Run(steps, window).conns[id].written || e in Run(steps, window).conns[id].skipped
  {
    NoLostWakeup(steps, window);
    ReachableOk(steps, window);
    assert Woken(Run(steps, window), Run(steps, window).conns[id]);
  }

  /** Nothing written is taken back, and only the initial drain passes anything over. */
  ghost predicate Continues(c: Conn, c': Conn) {
    && c.written <= c'.written && c.skipped <= c'.skipped
    && (!c.initial ==> !c'.initial && c'.skipped == c.skipped)
    && (c'.phase.Waiting? && !c.phase.Waiting? ==> !c'.initial)
    && c'.start == c.start && c'.cutoff == c.cutoff
  }

  lemma {:induction false} StepContinues(rows: seq<Event>, c: Conn, step: Step)
    ensures Continues(c, ConnStep(rows, c, step)) && Continues(c, Signalled(c)) && Continues(c, c)
  {
    hide Batch, Subscribe.Stale;
  }

  /** Nothing written is ever taken back, and once the initial drain is over nothing more is passed
    * over: live drains write everything they read. */
  lemma {:induction false} OnlyInitialDrainSkips(w: World, window: Time, step: Step, id: int)
    requires id in w.conns
    ensures Continues(w.conns[id], Next(w, window, step).conns[id])
  {
    hide ConnStep, Signalled, Continues, Apply;
    StepContinues(w.log.rows, w.conns[id], step);
  }

  lemma {:induction false} ContinuesOn(a: Conn, b: Conn, c: Conn)
    requires Continues(a, b) && Continues(b, c)
    ensures Continues(a, c)
  {
  }

  lemma {:induction false} RunSplit(steps: seq<Step>, more: seq<Step>, window: Time)
    requires more != []
    ensures Run(steps + more, window) == Next(Run(steps + Init(more), window), window, Last(more))
  {
    assert Init(steps + more) == steps + Init(more) && Last(steps + more) == Last(more);
  }

  /** Over any continuation of a run, what a connection wrote stays written, and once its initial drain is over it
    * passes nothing over again. */
  lemma {:induction false} NothingTakenBack(steps: seq<Step>, more: seq<Step>, window: Time, id: int)
    requires id in Run(steps, window).conns
    ensures id in Run(steps + more, window).conns
    ensures Continues(Run(steps, window).conns[id], Run(steps + more, window).conns[id])
  {
    hide Continues;
    if more == [] {
      assert steps + more == steps;
      StepContinues([], Run(steps, window).conns[id], Republish);
    } else {
      NothingTakenBack(steps, Init(more), window, id);
      var w := Run(steps + Init(more), window);
      RunSplit(steps, more, window);
      OnlyInitialDrainSkips(w, window, Last(more), id);
      hide Run;
      StaysConnected(w, window, Last(more), id);
      ContinuesOn(Run(steps, window).conns[id], w.conns[id], Next(w, window, Last(more)).conns[id]);
    }
  }

  lemma {:induction false} StaysConnected(w: World, window: Time, step: Step, id: int)
    requires id in w.conns
    ensures id in Next(w, window, step).conns
  {
    hide ConnStep, Apply, Signalled;
  }

  // ----- The drain methods are runs of these steps ------------------------------------------------

  /** A step of connection `id`'s own. */
  predicate Own(step: Step, id: int) {
    step == Emit(id) || (step.Read? && step.id == id)
  }

  function ConnRun(rows: seq<Event>, c: Conn, steps: seq<Step>): Conn {
    if steps == [] then c else ConnStep(rows, ConnRun(rows, c, Init(steps)), Last(steps))
  }

  lemma {:induction false} ConnRunJoin(rows: seq<Event>, c: Conn, a: seq<Step>, b: seq<Step>)
    ensures ConnRun(rows, c, a + b) == ConnRun(rows, ConnRun(rows, c, a), b)
  {
    if b == [] {
      assert a + b == a;
    } else {
      assert Init(a + b) == a + Init(b) && Last(a + b) == Last(b);
      ConnRunJoin(rows, c, a, Init(b));
    }
  }

  function Keeps(c: Conn): Event -> bool {
    e => !(c.initial && Subscribe.Stale(e, c.cutoff))
  }

  function Drops(c: Conn): Event -> bool {
    e => c.initial && Subscribe.Stale(e, c.cutoff)
  }

  /** A connection that has consumed `events`. */
  function After(c: Conn, events: seq<Event>, read: set<Event>, phase: Phase): Conn {
    c.(cursor := Subscribe.CursorAfter(c.cursor, events), read := read, phase := phase,
       written := c.written + Subscribe.Emitted(events, Keeps(c)),
       skipped := c.skipped + Subscribe.Emitted(events, Drops(c)))
  }

  lemma {:induction false} EmittedJoin(a: seq<Event>, b: seq<Event>, keep: Event -> bool)
    ensures Subscribe.Emitted(a + b, keep) == Subscribe.Emitted(a, keep) + Subscribe.Emitted(b, keep)
  {
    if b == [] {
      assert a + b == a;
    } else {
      assert Init(a + b) == a + Init(b) && Last(a + b) == Last(b);
      EmittedJoin(a, Init(b), keep);
    }
  }

  lemma {:induction false} AfterJoin(c: Conn, a: seq<Event>, b: seq<Event>, ra: set<Event>, rb: set<Event>, pa: Phase,
                                     pb: Phase)
    ensures After(After(c, a, ra, pa), b, rb, pb) == After(c, a + b, rb, pb)
  {
    EmittedJoin(a, b, Keeps(c));
    EmittedJoin(a, b, Drops(c));
    hide Subscribe.Emitted, Subscribe.Stale;
    var first := After(c, a, ra, pa);
    assert Keeps(first) == Keeps(c) && Drops(first) == Drops(c);
    assert b != [] ==> Last(a + b) == Last(b);
    assert b == [] ==> a + b == a;
  }

  lemma {:induction false} EmitOneIs(c: Conn, event: Event, phase: Phase)
    ensures EmitOne(c, event, phase) == After(c, [event], c.read, phase)
  {
    EmittedOne(event, Keeps(c));
    EmittedOne(event, Drops(c));
    hide Subscribe.Emitted, Subscribe.Stale;
    assert c.written + [] == c.written && c.skipped + [] == c.skipped;
  }

  lemma {:induction false} EmittedOne(event: Event, keep: Event -> bool)
    ensures Subscribe.Emitted([event], keep) == if keep(event) then [event] else []
  {
    assert Init([event]) == [] && Last([event]) == event;
    assert Subscribe.Emitted([], keep) == [];
  }

  lemma {:induction false} ConnRunOne(rows: seq<Event>, c: Conn, step: Step)
    ensures ConnRun(rows, c, [step]) == ConnStep(rows, c, step)
  {
    assert Init([step]) == [] && Last([step]) == step;
    assert ConnRun(rows, c, []) == c;
  }

  /** Emitting the first `n` events of a batch, one a step. */
  lemma {:induction false} EmitSome(rows: seq<Event>, c: Conn, id: int, n: nat) returns (steps: seq<Step>)
    requires c.phase.Emitting? && 0 < n <= |c.phase.rest|
    ensures forall i :: 0 <= i < |steps| ==> Own(steps[i], id)
    ensures ConnRun(rows, c, steps) == After(c, c.phase.rest[..n], c.read, Left(c.phase.rest, n))
    decreases n
  {
    var rest := c.phase.rest;
    var next := ConnStep(rows, c, Emit(id));
    EmitOneIs(c, rest[0], next.phase);
    ConnRunOne(rows, c, Emit(id));
    hide ConnRun;
    assert next.phase == Left(rest, 1);
    if n == 1 {
      steps := [Emit(id)];
      assert rest[..1] == [rest[0]];
    } else {
      var more := EmitSome(rows, next, id, n - 1);
      steps := [Emit(id)] + more;
      ConnRunJoin(rows, c, [Emit(id)], more);
      AfterJoin(c, [rest[0]], rest[1..][..n - 1], c.read, c.read, next.phase, Left(rest, n));
      assert [rest[0]] + rest[1..][..n - 1] == rest[..n];
    }
  }

  /** Where a connection is with `n` of a batch emitted. */
  function Left(rest: seq<Event>, n: nat): Phase
    requires n <= |rest|
  {
    if n == |rest| then Draining else Emitting(rest[n..])
  }

  /** Reading a batch and emitting the first `n` events of it. */
  lemma {:induction false} OneBatch(rows: seq<Event>, c: Conn, id: int, limit: int, n: nat)
    returns (steps: seq<Step>, read: set<Event>)
    requires c.phase.Draining? && 0 < n <= |Batch(rows, c.cursor, limit)|
    ensures forall i :: 0 <= i < |steps| ==> Own(steps[i], id)
    ensures var batch := Batch(rows, c.cursor, limit);
            ConnRun(rows, c, steps) == After(c, batch[..n], read, Left(batch, n))
  {
    var one, next := [Read(id, limit)], ConnStep(rows, c, Read(id, limit));
    ConnRunOne(rows, c, Read(id, limit));
    hide ConnRun, Batch;
    var emits := EmitSome(rows, next, id, n);
    ConnRunJoin(rows, c, one, emits);
    ReadThenEmit(rows, c, id, limit, n, ConnRun(rows, next, emits));
    steps, read := one + emits, next.read;
  }

  /** Any initial stretch of the rows past the cursor is consumed by some run of a connection's own steps, reading at
    * most `limit` at a time, which writes what the filter keeps of it and passes over the rest. */
  lemma {:induction false} DrainIsSteps(rows: seq<Event>, c: Conn, id: int, limit: int, handled: seq<Event>)
    returns (steps: seq<Step>, read: set<Event>, phase: Phase)
    requires Ordered(rows) && c.phase.Draining? && handled <= Above(rows, c.cursor)
    ensures forall i :: 0 <= i < |steps| ==> Own(steps[i], id)
    ensures ConnRun(rows, c, steps) == After(c, handled, read, phase)
    ensures !phase.Closed? && (handled == Above(rows, c.cursor) ==> phase.Draining?)
    decreases |handled|
  {
    if handled == [] {
      steps, read, phase := [], c.read, Draining;
      NothingDone(rows, c);
    } else {
      BatchLeads(rows, c.cursor, limit, handled);
      hide ConnRun, Batch, Above, Own, Subscribe.Emitted, Ordered;
      var batch := Batch(rows, c.cursor, limit);
      if |handled| <= |batch| {
        steps, read := OneBatch(rows, c, id, limit, |handled|);
        phase := Left(batch, |handled|);
      } else {
        var one, more;
        one, read := OneBatch(rows, c, id, limit, |batch|);
        var next := After(c, batch, read, Draining);
        assert batch[..|batch|] == batch;
        more, read, phase := DrainIsSteps(rows, next, id, limit, handled[|batch|..]);
        steps := one + more;
        ConnRunJoin(rows, c, one, more);
        AfterJoin(c, batch, handled[|batch|..], next.read, read, Draining, phase);
        assert batch + handled[|batch|..] == handled;
      }
    }
  }

  lemma {:induction false} NothingDone(rows: seq<Event>, c: Conn)
    ensures ConnRun(rows, c, []) == c == After(c, [], c.read, c.phase)
  {
    assert Subscribe.Emitted([], Keeps(c)) == [] && Subscribe.Emitted([], Drops(c)) == [];
  }

  /** The next batch and what is still to be consumed start alike. */
  lemma {:induction false} BatchLeads(rows: seq<Event>, cursor: int, limit: int, handled: seq<Event>)
    requires Ordered(rows) && handled != [] && handled <= Above(rows, cursor)
    ensures var batch := Batch(rows, cursor, limit);
            && batch != []
            && (|handled| <= |batch| ==> batch[..|handled|] == handled)
            && (|handled| < |batch| ==> handled != Above(rows, cursor))
            && (|batch| <= |handled| ==>
                  && batch == handled[..|batch|] && handled[|batch|..] <= Above(rows, Last(batch).sequence)
                  && (handled == Above(rows, cursor) ==> handled[|batch|..] == Above(rows, Last(batch).sequence)))
  {
    var batch, above := Batch(rows, cursor, limit), Above(rows, cursor);
    assert batch <= above && (batch == [] ==> above == []);
    Subscribe.BatchStep(rows, cursor, limit);
    hide Batch, Above;
    var rest := Above(rows, Last(batch).sequence);
    assert above[|batch|..] == rest;
    if |batch| <= |handled| {
      assert handled[|batch|..] <= above[|batch|..];
    }
  }

  lemma {:induction false} ReadThenEmit(rows: seq<Event>, c: Conn, id: int, limit: int, n: nat, drained: Conn)
    requires c.phase.Draining? && 0 < n <= |Batch(rows, c.cursor, limit)|
    requires var next := ConnStep(rows, c, Read(id, limit));
             drained == After(next, next.phase.rest[..n], next.read, Left(next.phase.rest, n))
    ensures var batch, next := Batch(rows, c.cursor, limit), ConnStep(rows, c, Read(id, limit));
            && drained == After(c, batch[..n], next.read, Left(batch, n))
            && drained.phase == Left(batch, n) && drained.cursor == batch[n - 1].sequence
  {
    hide Batch, Subscribe.Emitted, Subscribe.Stale;
    var next := ConnStep(rows, c, Read(id, limit));
    assert Keeps(next) == Keeps(c) && Drops(next) == Drops(c);
  }

  lemma {:induction false} KeepsIs(c: Conn, events: seq<Event>)
    ensures c.initial ==> Subscribe.Emitted(events, Keeps(c)) == Subscribe.Emitted(events, Subscribe.NotStale(c.cutoff))
    ensures !c.initial ==> Subscribe.Emitted(events, Keeps(c)) == events && Subscribe.Emitted(events, Drops(c)) == []
  {
    if events != [] {
      KeepsIs(c, Init(events));
      InitLast(events);
    }
  }

  function RunFrom(w: World, window: Time, steps: seq<Step>): World {
    if steps == [] then w else Next(RunFrom(w, window, Init(steps)), window, Last(steps))
  }

  lemma {:induction false} OwnRun(w: World, window: Time, id: int, steps: seq<Step>)
    requires id in w.conns && forall i :: 0 <= i < |steps| ==> Own(steps[i], id)
    ensures RunFrom(w, window, steps) == w.(conns := w.conns[id := ConnRun(w.log.rows, w.conns[id], steps)])
  {
    hide ConnStep;
    if steps == [] {
      assert w.conns[id := w.conns[id]] == w.conns;
    } else {
      assert forall i :: 0 <= i < |Init(steps)| ==> Init(steps)[i] == steps[i];
      OwnRun(w, window, id, Init(steps));
      assert Own(Last(steps), id);
    }
  }

  lemma {:induction false} RunFromJoin(w: World, window: Time, a: seq<Step>, b: seq<Step>)
    ensures RunFrom(w, window, a + b) == RunFrom(RunFrom(w, window, a), window, b)
  {
    hide Next;
    if b == [] {
      assert a + b == a;
    } else {
      assert Init(a + b) == a + Init(b) && Last(a + b) == Last(b);
      RunFromJoin(w, window, a, Init(b));
    }
  }

  /** Appends, and nothing else. */
  predicate Ingests(steps: seq<Step>) {
    steps == [] || (Last(steps).Ingest? && Ingests(Init(steps)))
  }

  lemma {:induction false} IngestsOnly(w: World, window: Time, steps: seq<Step>)
    requires Ingests(steps) && Ordered(w.log.rows)
    ensures var w' := RunFrom(w, window, steps);
            w'.conns == w.conns && Ordered(w'.log.rows)
  {
    if steps != [] {
      IngestsOnly(w, window, Init(steps));
      var before := RunFrom(w, window, Init(steps));
      hide RunFrom;
      IngestOrdered(before, window, Last(steps));
    }
  }

  lemma {:induction false} IngestOrdered(w: World, window: Time, step: Step)
    requires step.Ingest? && Ordered(w.log.rows)
    ensures var w' := Next(w, window, step);
            w'.conns == w.conns && Ordered(w'.log.rows)
  {
    hide HasDuplicate;
    if AppendOutcome(w.log.rows, window, step.input, step.now).Appended? {
      MaxIsLast(w.log.rows);
      OrderedAppend(w.log.rows, Row(step.input, NextSequence(w.log.rows), step.now));
    }
  }

  /** Where a drain leaves its connection: waiting when it caught up, and closed, as the handler closes it, when a read
    * or a write failed. */
  function Drained(c: Conn, handled: seq<Event>, end: Subscribe.DrainEnd, read: set<Event>): Conn {
    var done := Subscribe.Sent(handled, end);
    if end.CaughtUp? then After(c, done, read, Waiting).(initial := false)
    else After(c, done, read, Closed)
  }

  /** A drain nothing interrupts. */
  lemma {:induction false} DrainAt(w: World, window: Time, id: int, limit: int, handled: seq<Event>,
                                   end: Subscribe.DrainEnd)
    returns (steps: seq<Step>, read: set<Event>)
    requires id in w.conns && w.conns[id].phase.Draining? && Ordered(w.log.rows)
    requires Subscribe.DrainOutcome(w.log.rows, w.conns[id].cursor, handled, end)
    ensures RunFrom(w, window, steps) == w.(conns := w.conns[id := Drained(w.conns[id], handled, end, read)])
  {
    var c, rows, last := w.conns[id], w.log.rows, if end.CaughtUp? then Read(id, limit) else Disconnect(id);
    var own, phase;
    own, read, phase := DrainIsSteps(rows, c, id, limit, Subscribe.Sent(handled, end));
    LastStep(rows, c, id, limit, handled, end, read, phase);
    hide ConnRun, After, Drained, Subscribe.Sent, Subscribe.DrainOutcome, Ordered, Above;
    OwnRun(w, window, id, own);
    RunFromJoin(w, window, own, [last]);
    RunFromOne(RunFrom(w, window, own), window, last);
    steps := own + [last];
    hide RunFrom, ConnStep;
    OwnStep(RunFrom(w, window, own), window, id, last);
  }

  /** The drains of module Subscribe are runs of this machine. Whatever is appended meanwhile (`ingests`), however much
    * a drain consumed and however it ended, there is a run of those appends and the connection's own steps, reading
    * with the same limit, that leaves the log where the appends leave it and the connection where the drain does. */
  lemma {:induction false} DrainRefines(w: World, window: Time, id: int, limit: int, ingests: seq<Step>,
                                        handled: seq<Event>, end: Subscribe.DrainEnd)
    returns (steps: seq<Step>, read: set<Event>)
    requires id in w.conns && w.conns[id].phase.Draining? && Ordered(w.log.rows) && Ingests(ingests)
    requires Subscribe.DrainOutcome(RunFrom(w, window, ingests).log.rows, w.conns[id].cursor, handled, end)
    ensures RunFrom(w, window, steps) ==
              RunFrom(w, window, ingests).(conns := w.conns[id := Drained(w.conns[id], handled, end, read)])
  {
    IngestsOnly(w, window, ingests);
    hide RunFrom, Drained, Subscribe.DrainOutcome, Ordered;
    var own;
    own, read := DrainAt(RunFrom(w, window, ingests), window, id, limit, handled, end);
    RunFromJoin(w, window, ingests, own);
    steps := ingests + own;
  }

  lemma {:induction false} OwnStep(w: World, window: Time, id: int, step: Step)
    requires id in w.conns && (Own(step, id) || step == Disconnect(id))
    ensures Next(w, window, step) == w.(conns := w.conns[id := ConnStep(w.log.rows, w.conns[id], step)])
  {
    hide ConnStep;
  }

  lemma {:induction false} RunFromOne(w: World, window: Time, step: Step)
    ensures RunFrom(w, window, [step]) == Next(w, window, step)
  {
    assert Init([step]) == [] && Last([step]) == step;
    assert RunFrom(w, window, []) == w;
  }

  /** The read that finds nothing, or the end of the connection. */
  lemma {:induction false} LastStep(rows: seq<Event>, c: Conn, id: int, limit: int, handled: seq<Event>,
                                    end: Subscribe.DrainEnd, read: set<Event>, phase: Phase)
    requires Subscribe.DrainOutcome(rows, c.cursor, handled, end) && Ordered(rows)
    requires end.CaughtUp? ==> phase.Draining?
    ensures var done := Subscribe.Sent(handled, end);
            ConnStep(rows, After(c, done, read, phase), if end.CaughtUp? then Read(id, limit) else Disconnect(id)) ==
              Drained(c, handled, end, read)
  {
    if end.CaughtUp? {
      NothingPast(rows, c.cursor, limit);
    }
    hide Batch, Subscribe.Emitted, Above;
  }

  lemma {:induction false} NothingPast(rows: seq<Event>, cursor: int, limit: int)
    requires Ordered(rows)
    ensures Batch(rows, Subscribe.CursorAfter(cursor, Above(rows, cursor)), limit) == []
  {
    var above := Above(rows, cursor);
    if above != [] {
      AboveDrop(rows, cursor, |above| - 1);
    }
  }

  /** What a drain writes is what its filter keeps. */
  lemma {:induction false} DrainedWrites(c: Conn, handled: seq<Event>, end: Subscribe.DrainEnd, read: set<Event>)
    ensures var done, c' := Subscribe.Sent(handled, end), Drained(c, handled, end, read);
            && c'.cursor == Subscribe.CursorAfter(c.cursor, done)
            && c'.written ==
                 c.written + (if c.initial then Subscribe.Emitted(done, Subscribe.NotStale(c.cutoff)) else done)
  {
    KeepsIs(c, Subscribe.Sent(handled, end));
    hide Subscribe.Emitted;
  }

  // ----- A whole connection is a run of these steps --------------------------------------------------

  /** Appends do not look at connections. */
  lemma {:induction false} IngestsApart(w: World, window: Time, steps: seq<Step>, conns: map<int, Conn>)
    requires Ingests(steps)
    ensures RunFrom(w.(conns := conns), window, steps) == RunFrom(w, window, steps).(conns := conns)
    ensures w.log.rows <= RunFrom(w, window, steps).log.rows
  {
    if steps != [] {
      IngestsApart(w, window, Init(steps), conns);
      var before := RunFrom(w, window, Init(steps));
      hide RunFrom, AppendOutcome;
      IngestApart(before, window, Last(steps), conns);
    }
  }

  lemma {:induction false} IngestApart(w: World, window: Time, step: Step, conns: map<int, Conn>)
    requires step.Ingest?
    ensures Next(w.(conns := conns), window, step) == Next(w, window, step).(conns := conns)
    ensures w.log.rows <= Next(w, window, step).log.rows
  {
    hide AppendOutcome;
  }

  /** From one world to the next by some run. */
  ghost predicate Leads(w: World, window: Time, steps: seq<Step>, w': World) {
    RunFrom(w, window, steps) == w'
  }

  lemma {:induction false} LeadsOn(w: World, window: Time, a: seq<Step>, w1: World, b: seq<Step>, w2: World)
    requires Leads(w, window, a, w1) && Leads(w1, window, b, w2)
    ensures Leads(w, window, a + b, w2)
  {
    RunFromJoin(w, window, a, b);
  }

  lemma {:induction false} LeadsOne(w: World, window: Time, step: Step)
    ensures Leads(w, window, [step], Next(w, window, step))
  {
    RunFromOne(w, window, step);
  }

  lemma {:induction false} LeadsSelf(w: World, window: Time, steps: seq<Step>)
    ensures Leads(w, window, steps, RunFrom(w, window, steps))
  {
  }

  lemma {:induction false} MapTwice(conns: map<int, Conn>, id: int, a: Conn, b: Conn)
    ensures conns[id := a][id := b] == conns[id := b]
  {
  }

  /** One step of a connection's own, with the other connections left alone. */
  lemma {:induction false} LeadsOwn(w: World, window: Time, id: int, step: Step, conns: map<int, Conn>, c: Conn)
    requires Own(step, id) || step == Tick(id) || step == Disconnect(id)
    ensures Leads(w.(conns := conns[id := c]), window, [step],
                  w.(conns := conns[id := ConnStep(w.log.rows, c, step)]))
  {
    var at := w.(conns := conns[id := c]);
    LeadsOne(at, window, step);
    hide ConnStep, Leads;
    MapTwice(conns, id, c, ConnStep(w.log.rows, c, step));
  }

  lemma {:induction false} LeadsDrain(w: World, window: Time, id: int, limit: int, rest: seq<Step>,
                                      conns: map<int, Conn>, c: Conn, later: seq<Event>, end: Subscribe.DrainEnd)
    returns (steps: seq<Step>, read: set<Event>)
    requires Ordered(w.log.rows) && Ingests(rest) && c.phase.Draining?
    requires Subscribe.DrainOutcome(RunFrom(w, window, rest).log.rows, c.cursor, later, end)
    ensures Leads(w.(conns := conns[id := c]), window, steps,
                  RunFrom(w, window, rest).(conns := conns[id := Drained(c, later, end, read)]))
  {
    var at := w.(conns := conns[id := c]);
    IngestsApart(w, window, rest, conns[id := c]);
    hide RunFrom, Drained, Subscribe.DrainOutcome, Ordered;
    steps, read := DrainRefines(at, window, id, limit, rest, later, end);
    LeadsSelf(at, window, steps);
    MapTwice(conns, id, c, Drained(c, later, end, read));
  }

  /** Connecting, and the initial drain. */
  lemma {:induction false} Opens(w: World, window: Time, id: int, start: int, cutoff: Time, limit: int,
                                 opening: seq<Step>, first: seq<Event>, end: Subscribe.DrainEnd)
    returns (steps: seq<Step>, read: set<Event>)
    requires id !in w.conns && Ordered(w.log.rows) && Ingests(opening)
    requires Subscribe.DrainOutcome(RunFrom(w, window, opening).log.rows, start, first, end)
    ensures var w1 := RunFrom(w, window, opening);
            Leads(w, window, steps, w1.(conns := w.conns[id := Drained(Fresh(start, cutoff), first, end, read)]))
  {
    var c, connect := Fresh(start, cutoff), Connect(id, start, cutoff);
    var w0, w1 := w.(conns := w.conns[id := c]), RunFrom(w, window, opening);
    LeadsOne(w, window, connect);
    hide RunFrom, Leads, Drained, Ordered, Subscribe.DrainOutcome;
    var drain;
    drain, read := LeadsDrain(w, window, id, limit, opening, w.conns, c, first, end);
    steps := [connect] + drain;
    LeadsOn(w, window, [connect], w0, drain, w1.(conns := w.conns[id := Drained(c, first, end, read)]));
  }

  lemma {:induction false} SamePrefix<T>(a: seq<T>, b: seq<T>, c: seq<T>)
    requires a + b <= a + c
    ensures b <= c && (a + b == a + c ==> b == c)
  {
    assert b == (a + b)[|a|..] && c == (a + c)[|a|..];
  }

  /** What the rest of its life consumes comes right after the initial drain. */
  lemma {:induction false} LaterSelection(w: World, window: Time, rest: seq<Step>, start: int, first: seq<Event>,
                                          later: seq<Event>)
    requires Ordered(w.log.rows) && Ingests(rest) && first == Above(w.log.rows, start)
    requires first + later <= Above(RunFrom(w, window, rest).log.rows, start)
    ensures var rows, cursor := RunFrom(w, window, rest).log.rows, Subscribe.CursorAfter(start, first);
            && later <= Above(rows, cursor)
            && (first + later == Above(rows, start) ==> later == Above(rows, cursor))
  {
    hide Above, Ordered, Subscribe.CursorAfter;
    var rows := RunFrom(w, window, rest).log.rows;
    IngestsOnly(w, window, rest);
    IngestsApart(w, window, rest, w.conns);
    hide RunFrom;
    SelectionSplit(w.log.rows, rows, start);
    SamePrefix(first, later, Above(rows, Subscribe.CursorAfter(start, first)));
  }

  lemma {:induction false} SelectionSplit(rows: seq<Event>, rows': seq<Event>, start: int)
    requires Ordered(rows') && Ordered(rows) && rows <= rows'
    ensures var first := Above(rows, start);
            Above(rows', start) == first + Above(rows', Subscribe.CursorAfter(start, first))
  {
    var first := Above(rows, start);
    NothingPast(rows, start, 1);
    assert Above(rows, Subscribe.CursorAfter(start, first)) == [];
    hide Above, Subscribe.CursorAfter;
    assert rows' == rows + rows'[|rows|..];
    assert first == first + [];
    Subscribe.GrowSelection(rows, rows'[|rows|..], start, first);
  }

  lemma {:induction false} OpensWell(w: World, window: Time, id: int, start: int, cutoff: Time, limit: int,
                                     opening: seq<Step>, first: seq<Event>)
    returns (steps: seq<Step>, c: Conn)
    requires id !in w.conns && Ordered(w.log.rows) && Ingests(opening)
    requires first == Above(RunFrom(w, window, opening).log.rows, start)
    ensures Leads(w, window, steps, RunFrom(w, window, opening).(conns := w.conns[id := c]))
    ensures c.phase.Waiting? && !c.initial && c.start == start && c.cursor == Subscribe.CursorAfter(start, first)
    ensures c.written == Subscribe.Emitted(first, Subscribe.NotStale(cutoff))
  {
    var read;
    steps, read := Opens(w, window, id, start, cutoff, limit, opening, first, Subscribe.CaughtUp);
    c := Drained(Fresh(start, cutoff), first, Subscribe.CaughtUp, read);
    DrainedWrites(Fresh(start, cutoff), first, Subscribe.CaughtUp, read);
    hide RunFrom, Leads, Subscribe.Emitted, Above, Ordered;
  }

  /** Woken from its select, a connection drains and ends. */
  lemma {:induction false} GoesOn(w: World, window: Time, id: int, limit: int, rest: seq<Step>,
                                  conns: map<int, Conn>, c: Conn, later: seq<Event>, end: Subscribe.DrainEnd)
    returns (steps: seq<Step>, c': Conn)
    requires Ordered(w.log.rows) && Ingests(rest) && c.phase.Waiting? && !c.initial
    requires Subscribe.DrainOutcome(RunFrom(w, window, rest).log.rows, c.cursor, later, end)
    ensures Leads(w.(conns := conns[id := c]), window, steps, RunFrom(w, window, rest).(conns := conns[id := c']))
    ensures c'.phase.Closed? && c'.start == c.start && c'.written == c.written + Subscribe.Sent(later, end)
  {
    var at, awake := w.(conns := conns[id := c]), c.(phase := Draining);
    var w2 := RunFrom(w, window, rest);
    LeadsOwn(w, window, id, Tick(id), conns, c);
    hide RunFrom, Leads, Subscribe.DrainOutcome, Ordered;
    var drain, read;
    drain, read := LeadsDrain(w, window, id, limit, rest, conns, awake, later, end);
    var done := Drained(awake, later, end, read);
    DrainedWrites(awake, later, end, read);
    LeadsOn(at, window, [Tick(id)], w.(conns := conns[id := awake]), drain, w2.(conns := conns[id := done]));
    c' := done.(phase := Closed);
    LeadsOwn(w2, window, id, Disconnect(id), conns, done);
    LeadsOn(at, window, [Tick(id)] + drain, w2.(conns := conns[id := done]), [Disconnect(id)],
            w2.(conns := conns[id := c']));
    steps := ([Tick(id)] + drain) + [Disconnect(id)];
  }

  /** The initial drain fails, or the first live one before it consumed anything. */
  lemma {:induction false} FailsEarly(w: World, window: Time, id: int, start: int, cutoff: Time, limit: int,
                                      opening: seq<Step>, rest: seq<Step>, first: seq<Event>, end: Subscribe.DrainEnd)
    returns (steps: seq<Step>, c: Conn)
    requires id !in w.conns && Ordered(w.log.rows) && Ingests(opening) && Ingests(rest) && !end.CaughtUp?
    requires Subscribe.DrainOutcome(RunFrom(w, window, opening).log.rows, start, first, end)
    ensures Leads(w, window, steps, RunFrom(RunFrom(w, window, opening), window, rest).(conns := w.conns[id := c]))
    ensures c.phase.Closed? && c.start == start
    ensures c.written == Subscribe.Emitted(Subscribe.Sent(first, end), Subscribe.NotStale(cutoff))
  {
    var w1, read := RunFrom(w, window, opening), {};
    steps, read := Opens(w, window, id, start, cutoff, limit, opening, first, end);
    c := Drained(Fresh(start, cutoff), first, end, read);
    DrainedWrites(Fresh(start, cutoff), first, end, read);
    IngestsApart(w1, window, rest, w.conns[id := c]);
    hide RunFrom, Subscribe.Emitted, Ordered;
    var w2 := w1.(conns := w.conns[id := c]);
    LeadsSelf(w2, window, rest);
    LeadsOn(w, window, steps, w2, rest, RunFrom(w2, window, rest));
    steps := steps + rest;
  }

  /** The connection of module Subscribe is a run of this machine. Whatever is appended before the last read of its
    * initial drain (`opening`) and before its last read of all (`rest`), and whatever the connection comes to, there is
    * a run of those appends and of steps of the connection that leaves the log where the appends leave it, no other
    * connection touched, and this one closed with exactly that written. */
  lemma {:induction false} ConnectionRefines(w: World, window: Time, id: int, start: int, cutoff: Time, limit: int,
                                             opening: seq<Step>, rest: seq<Step>, first: seq<Event>,
                                             later: seq<Event>, end: Subscribe.StreamEnd)
    returns (steps: seq<Step>, c: Conn)
    requires id !in w.conns && Ordered(w.log.rows) && Ingests(opening) && Ingests(rest)
    requires var w1 := RunFrom(w, window, opening);
             Subscribe.ConnOutcome(w1.log.rows, RunFrom(w1, window, rest).log.rows, start, first, later, end)
    ensures Leads(w, window, steps, RunFrom(RunFrom(w, window, opening), window, rest).(conns := w.conns[id := c]))
    ensures c.phase.Closed? && c.start == start
    ensures c.written == Subscribe.Wrote(first, later, Subscribe.NotStale(cutoff), end)
  {
    var w1 := RunFrom(w, window, opening);
    IngestsOnly(w, window, opening);
    if end.DrainFailed? && later == [] {
      steps, c := FailsEarly(w, window, id, start, cutoff, limit, opening, rest, first, end.drain);
      hide RunFrom, Subscribe.Emitted, Above;
      Subscribe.WroteFirst(first, Subscribe.NotStale(cutoff), end);
    } else {
      var drain := if end.DrainFailed? then end.drain else Subscribe.CaughtUp;
      LaterSelection(w1, window, rest, start, first, later);
      hide RunFrom, Leads, Subscribe.Emitted, Above, Ordered;
      var c1, more;
      steps, c1 := OpensWell(w, window, id, start, cutoff, limit, opening, first);
      more, c := GoesOn(w1, window, id, limit, rest, w.conns, c1, later, drain);
      LeadsOn(w, window, steps, w1.(conns := w.conns[id := c1]), more,
              RunFrom(w1, window, rest).(conns := w.conns[id := c]));
      steps := steps + more;
    }
  }
}
