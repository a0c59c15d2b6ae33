/** When a prune can lose an event of the forward client: exactly when it leaves the client a way past every number
  * still stored. */
module ClientLoss {
  import opened Common
  import opened EventLog
  import opened EndToEnd
  import Forward
  import Stream
  import Subscribe

  /** How far its connection can take a client at `cursor`, `taken` messages into it, before the server reads past the
    * rows it has read: a closed one by the messages still to be handled, an open one also by the batch in hand. */
  function ConnReach(c: Stream.Conn, taken: nat, cursor: int): int {
    match c.phase
    case Closed => if taken < |c.written| then Last(c.written).sequence else cursor
    case Emitting(rest) => if rest == [] then c.cursor else Last(rest).sequence
    case _ => c.cursor
  }

  predicate Connected(s: State) {
    s.conn.Some? && s.conn.value in s.world.conns
  }

  function Reach(s: State): int {
    if Connected(s) then ConnReach(s.world.conns[s.conn.value], s.taken, s.cursor) else s.cursor
  }

  /** A prune at `cutoff` would leave the client's reach past the level. */
  predicate Hazard(s: State, first: int, cutoff: Time) {
    Reach(s) > Level(Retained(s.world.log.rows, cutoff), first)
  }

  predicate IsPrune(step: Step) {
    step.Server? && step.step.PruneRows?
  }

  /** No prune of the run was one. */
  ghost predicate Harmless(steps: seq<Step>, window: Time, file: string) {
    steps == [] ||
    (Harmless(Init(steps), window, file) &&
     (IsPrune(Last(steps)) ==>
        !Hazard(Run(Init(steps), window, file), Forward.LoadCursor(file), Last(steps).step.cutoff)))
  }

  /** Some stored event between the initial cursor and the client's is not settled. */
  ghost predicate Loses(s: State, first: int) {
    !NothingLost(s, first)
  }

  predicate NoPrunes(steps: seq<Step>) {
    steps == [] || (!IsPrune(Last(steps)) && NoPrunes(Init(steps)))
  }

  // ----- What a connection keeps whatever is pruned ----------------------------------------------------

  ghost predicate Numbered(events: seq<Event>) {
    Stream.Increasing(events) && forall e :: e in events ==> e.sequence >= 1
  }

  /** Where the client stands in its connection, and the connection in the log. */
  ghost predicate Shape(c: Stream.Conn, taken: nat, cursor: int) {
    && taken <= |c.written| && cursor == (if taken == 0 then c.start else c.written[taken - 1].sequence)
    && c.start <= c.cursor && Numbered(c.written)
    && (forall e :: e in c.written ==> c.start < e.sequence <= c.cursor)
    && (forall e :: e in c.skipped ==> Skipped(c, e))
    && (c.phase.Emitting? ==>
          c.phase.rest != [] && Numbered(c.phase.rest) && c.phase.rest[0].sequence > c.cursor)
  }

  /** Every stored row the client's cursor is yet to pass within its reach is written, passed over, or in hand. */
  ghost predicate InHand(rows: seq<Event>, c: Stream.Conn, taken: nat, cursor: int, first: int) {
    forall e :: e in rows && first < e.sequence && cursor < e.sequence <= ConnReach(c, taken, cursor) ==>
      e in c.written || e in c.skipped || (c.phase.Emitting? && e in c.phase.rest)
  }

  lemma {:induction false} ReachAhead(c: Stream.Conn, taken: nat, cursor: int)
    requires Shape(c, taken, cursor)
    ensures cursor <= c.cursor && cursor <= ConnReach(c, taken, cursor)
    ensures c.phase.Emitting? ==> c.cursor < Last(c.phase.rest).sequence
    ensures forall i :: taken <= i < |c.written| ==> cursor < c.written[i].sequence <= ConnReach(c, taken, cursor)
  {
    forall i | 0 <= i < |c.written| ensures c.start < c.written[i].sequence <= c.cursor {
      assert c.written[i] in c.written;
    }
    if c.phase.Emitting? {
      assert c.phase.rest[0].sequence <= Last(c.phase.rest).sequence;
    }
  }

  lemma {:induction false} NumberedAppend(events: seq<Event>, e: Event)
    requires Numbered(events) && e.sequence >= 1 && forall x :: x in events ==> x.sequence < e.sequence
    ensures Numbered(events + [e])
  {
    Stream.IncreasingAppend(events, e);
  }

  lemma {:induction false} BatchNumbered(rows: seq<Event>, cursor: int, limit: int)
    requires Ordered(rows)
    ensures Numbered(Batch(rows, cursor, limit))
  {
    BatchFacts(rows, cursor, limit);
    hide Batch;
  }

  lemma {:induction false} ReadShape(rows: seq<Event>, c: Stream.Conn, taken: nat, cursor: int, limit: int)
    requires Ordered(rows) && Shape(c, taken, cursor) && c.phase.Draining?
    ensures Shape(Stream.ConnStep(rows, c, Stream.Read(0, limit)), taken, cursor)
  {
    BatchFacts(rows, c.cursor, limit);
    BatchNumbered(rows, c.cursor, limit);
    hide Batch, Numbered, Ordered;
    var batch := Batch(rows, c.cursor, limit);
    assert batch != [] ==> batch[0] in batch;
  }

  lemma {:induction false} EmitIs(rows: seq<Event>, c: Stream.Conn)
    requires c.phase.Emitting? && c.phase.rest != []
    ensures var rest, c' := c.phase.rest, Stream.ConnStep(rows, c, Stream.Emit(0));
            && c'.start == c.start && c'.cursor == rest[0].sequence && c'.cutoff == c.cutoff
            && c'.phase == (if |rest| == 1 then Stream.Draining else Stream.Emitting(rest[1..]))
            && (|| (c'.written == c.written + [rest[0]] && c'.skipped == c.skipped)
                || (c'.written == c.written && c'.skipped == c.skipped + [rest[0]] && Skipped(c', rest[0])))
  {
  }

  lemma {:induction false} NumberedTail(events: seq<Event>)
    requires Numbered(events) && |events| > 1
    ensures Numbered(events[1..]) && Last(events[1..]) == Last(events) && events[1..][0].sequence > events[0].sequence
    ensures forall e :: e in events <==> e == events[0] || e in events[1..]
  {
    Stream.IncreasingTail(events);
    assert events[1..][0] == events[1];
  }

  lemma {:induction false} EmitShape(rows: seq<Event>, c: Stream.Conn, taken: nat, cursor: int)
    requires Shape(c, taken, cursor) && c.phase.Emitting?
    ensures Shape(Stream.ConnStep(rows, c, Stream.Emit(0)), taken, cursor)
  {
    var rest, event := c.phase.rest, c.phase.rest[0];
    assert event in rest && event.sequence >= 1;
    NumberedAppend(c.written, event);
    if |rest| > 1 {
      NumberedTail(rest);
    }
    EmitIs(rows, c);
    hide Stream.ConnStep, Numbered;
    assert forall e :: e in c.written + [event] ==> e in c.written || e == event;
  }

  lemma {:induction false} StepShape(rows: seq<Event>, c: Stream.Conn, taken: nat, cursor: int, step: Stream.Step)
    requires Ordered(rows) && Shape(c, taken, cursor)
    ensures Shape(Stream.ConnStep(rows, c, step), taken, cursor)
  {
    match step {
      case Read(_, limit) => if c.phase.Draining? { ReadShape(rows, c, taken, cursor, limit); }
      case Emit(_) => if c.phase.Emitting? { EmitShape(rows, c, taken, cursor); }
      case _ =>
    }
    hide Batch, Numbered;
  }

  lemma {:induction false} ReadInHand(rows: seq<Event>, c: Stream.Conn, taken: nat, cursor: int, first: int, limit: int)
    requires Ordered(rows) && c.phase.Draining? && InHand(rows, c, taken, cursor, first)
    requires ConnReach(c, taken, cursor) <= Level(rows, first)
    ensures var c' := Stream.ConnStep(rows, c, Stream.Read(0, limit));
            InHand(rows, c', taken, cursor, first) && ConnReach(c', taken, cursor) <= Level(rows, first)
  {
    BatchFacts(rows, c.cursor, limit);
    hide Batch;
    var batch := Batch(rows, c.cursor, limit);
    if batch != [] {
      assert Last(batch) in batch && Last(batch) in rows;
    }
    hide Level, Ordered;
  }

  lemma {:induction false} EmitInHand(rows: seq<Event>, c: Stream.Conn, taken: nat, cursor: int, first: int)
    requires Shape(c, taken, cursor) && c.phase.Emitting? && InHand(rows, c, taken, cursor, first)
    ensures var c' := Stream.ConnStep(rows, c, Stream.Emit(0));
            && InHand(rows, c', taken, cursor, first)
            && ConnReach(c', taken, cursor) == ConnReach(c, taken, cursor)
  {
    var rest, c' := c.phase.rest, Stream.ConnStep(rows, c, Stream.Emit(0));
    EmitIs(rows, c);
    if |rest| > 1 {
      NumberedTail(rest);
    }
    hide Stream.ConnStep, Shape, Numbered;
    forall e | e in rows && first < e.sequence && cursor < e.sequence <= ConnReach(c', taken, cursor)
      ensures e in c'.written || e in c'.skipped || (c'.phase.Emitting? && e in c'.phase.rest)
    {
      assert e in c.written || e in c.skipped || e in rest;
      assert |rest| == 1 ==> rest == [rest[0]];
    }
  }

  lemma {:induction false} CloseInHand(rows: seq<Event>, c: Stream.Conn, taken: nat, cursor: int, first: int)
    requires Shape(c, taken, cursor) && InHand(rows, c, taken, cursor, first)
    ensures var c' := c.(phase := Stream.Closed);
            InHand(rows, c', taken, cursor, first) && ConnReach(c', taken, cursor) <= ConnReach(c, taken, cursor)
  {
    ReachAhead(c, taken, cursor);
    if c.written != [] {
      assert Last(c.written) in c.written;
    }
    RestAhead(c, taken, cursor);
  }

  lemma {:induction false} RestInHand(rows: seq<Event>, c: Stream.Conn, taken: nat, cursor: int, first: int,
                                      step: Stream.Step)
    requires InHand(rows, c, taken, cursor, first) && !step.Read? && !step.Emit? && !step.Disconnect?
    ensures var c' := Stream.ConnStep(rows, c, step);
            InHand(rows, c', taken, cursor, first) && ConnReach(c', taken, cursor) == ConnReach(c, taken, cursor)
  {
  }

  lemma {:induction false} StepInHand(rows: seq<Event>, c: Stream.Conn, taken: nat, cursor: int, first: int,
                                      step: Stream.Step)
    requires Ordered(rows) && Shape(c, taken, cursor) && InHand(rows, c, taken, cursor, first)
    requires ConnReach(c, taken, cursor) <= Level(rows, first)
    ensures var c' := Stream.ConnStep(rows, c, step);
            InHand(rows, c', taken, cursor, first) && ConnReach(c', taken, cursor) <= Level(rows, first)
  {
    hide Batch, Shape, Level, InHand, ConnReach, Ordered, Stream.EmitOne;
    match step {
      case Read(_, limit) => if c.phase.Draining? { ReadInHand(rows, c, taken, cursor, first, limit); }
      case Emit(_) => if c.phase.Emitting? { EmitInHand(rows, c, taken, cursor, first); }
      case Disconnect(_) => CloseInHand(rows, c, taken, cursor, first);
      case _ => RestInHand(rows, c, taken, cursor, first, step);
    }
  }

  // ----- What harmless prunes keep -------------------------------------------------------------------

  /** What of the client's connection does not depend on the prunes. */
  ghost predicate Formed(s: State) {
    && InStep(s) && Ordered(s.world.log.rows) && Forward.LoadCursor(s.file) <= s.cursor
    && (Connected(s) ==> Shape(s.world.conns[s.conn.value], s.taken, s.cursor))
  }

  ghost predicate Clear(s: State, first: int) {
    && NothingLost(s, first) && Reach(s) <= Level(s.world.log.rows, first)
    && (Connected(s) ==> InHand(s.world.log.rows, s.world.conns[s.conn.value], s.taken, s.cursor, first))
  }

  /** A step of the client's own connection, of somebody else's, or of nobody's. */
  lemma {:induction false} ConnMove(w: Stream.World, window: Time, step: Stream.Step, id: int)
    requires id in w.conns
    ensures var w' := Stream.Next(w, window, step);
            && id in w'.conns
            && (|| w'.conns[id] == w.conns[id] || w'.conns[id] == Stream.Signalled(w.conns[id])
                || (w'.conns[id] == Stream.ConnStep(w.log.rows, w.conns[id], step) && w'.log == w.log))
  {
    hide Stream.ConnStep, Stream.Signalled, Apply;
  }

  lemma {:induction false} SignalKeeps(rows: seq<Event>, c: Stream.Conn, taken: nat, cursor: int, first: int)
    ensures var c' := Stream.Signalled(c);
            && (Shape(c, taken, cursor) ==> Shape(c', taken, cursor))
            && (InHand(rows, c, taken, cursor, first) ==> InHand(rows, c', taken, cursor, first))
            && ConnReach(c', taken, cursor) == ConnReach(c, taken, cursor)
  {
    hide Numbered;
  }

  /** `rows'` is `rows` with some gone, or one appended past the level. */
  ghost predicate Follows(rows: seq<Event>, rows': seq<Event>, first: int) {
    forall e :: e in rows' && e.sequence > first ==> e in rows || e.sequence > Level(rows, first)
  }

  lemma {:induction false} LogFollows(w: Stream.World, window: Time, step: Stream.Step, first: int)
    requires Ordered(w.log.rows)
    ensures var rows' := Stream.Next(w, window, step).log.rows;
            && Follows(w.log.rows, rows', first) && Ordered(rows')
            && (!step.PruneRows? ==> Level(rows', first) >= Level(w.log.rows, first))
            && (step.PruneRows? ==> rows' == Retained(w.log.rows, step.cutoff))
  {
    match step {
      case PruneRows(cutoff) =>
        RetainedMembers(w.log.rows, cutoff);
        RetainedOrdered(w.log.rows, cutoff);
      case Ingest(input, now) =>
        IngestIs(w, window, input, now);
        hide Stream.Next, AppendOutcome;
        if AppendOutcome(w.log.rows, window, input, now).Appended? {
          AppendLevel(w.log.rows, Row(input, NextSequence(w.log.rows), now), first);
        }
        hide Level, Ordered;
      case _ =>
    }
  }

  /** An ingest appends one row, or changes nothing. */
  lemma {:induction false} IngestIs(w: Stream.World, window: Time, input: AppendInput, now: Time)
    ensures var outcome := AppendOutcome(w.log.rows, window, input, now);
            var w' := Stream.Next(w, window, Stream.Ingest(input, now));
            if outcome.Appended? then
              && outcome.event == Row(input, NextSequence(w.log.rows), now)
              && w' == w.(log := Log(w.log.rows + [outcome.event], w.log.history + [outcome.event]),
                          pending := w.pending + multiset{outcome.event.sequence})
            else w' == w
  {
    hide HasDuplicate, NextSequence;
    if AppendOutcome(w.log.rows, window, input, now).Appended? {
      assert |Apply(w.log, window, AppendOp(input, now)).history| == |w.log.history| + 1;
    }
  }

  lemma {:induction false} RowsFrame(rows: seq<Event>, rows': seq<Event>, c: Stream.Conn, taken: nat, cursor: int,
                                     first: int)
    requires InHand(rows, c, taken, cursor, first) && Follows(rows, rows', first)
    requires ConnReach(c, taken, cursor) <= Level(rows, first)
    ensures InHand(rows', c, taken, cursor, first)
  {
    hide Level, ConnReach;
  }

  lemma {:induction false} ServerFormed(s: State, window: Time, first: int, step: Stream.Step)
    requires Formed(s)
    ensures Formed(s.(world := Stream.Next(s.world, window, step)))
  {
    LogFollows(s.world, window, step, first);
    ServerInStep(s, window, step);
    hide Ordered, Follows, Shape, Stream.Next;
    if Connected(s) {
      var c := s.world.conns[s.conn.value];
      ConnMove(s.world, window, step, s.conn.value);
      StepShape(s.world.log.rows, c, s.taken, s.cursor, step);
      SignalKeeps(s.world.log.rows, c, s.taken, s.cursor, first);
    }
  }

  lemma {:induction false} CursorFits(s: State, first: int)
    requires Formed(s) && Reach(s) <= Level(s.world.log.rows, first)
    ensures s.cursor <= Level(s.world.log.rows, first)
  {
    if Connected(s) {
      ReachAhead(s.world.conns[s.conn.value], s.taken, s.cursor);
    }
    hide Level;
  }

  lemma {:induction false} ServerSettles(s: State, window: Time, first: int, step: Stream.Step)
    requires NothingLost(s, first) && s.cursor <= Level(s.world.log.rows, first)
    requires Follows(s.world.log.rows, Stream.Next(s.world, window, step).log.rows, first)
    ensures NothingLost(s.(world := Stream.Next(s.world, window, step)), first)
  {
    hide Level, Stream.Next, Settled;
    var s' := s.(world := Stream.Next(s.world, window, step));
    forall e | e in s'.world.log.rows && first < e.sequence <= s'.cursor ensures Settled(s', e) {
      assert Settled(s, e);
      StaysSettled(s, window, step, e);
    }
  }

  lemma {:induction false} StaysSettled(s: State, window: Time, step: Stream.Step, e: Event)
    requires Settled(s, e)
    ensures Settled(s.(world := Stream.Next(s.world, window, step)), e)
  {
    var world' := Stream.Next(s.world, window, step);
    if PassedOver(s, e) {
      var id :| id in s.dialed && id in s.world.conns && Skipped(s.world.conns[id], e);
      ServerKeepsConn(s.world, window, step, id);
      hide Stream.Next;
      assert id in world'.conns && Skipped(world'.conns[id], e);
    }
  }

  lemma {:induction false} ServerClear(s: State, window: Time, first: int, step: Stream.Step)
    requires Formed(s) && Clear(s, first) && (step.PruneRows? ==> !Hazard(s, first, step.cutoff))
    ensures Clear(s.(world := Stream.Next(s.world, window, step)), first)
  {
    var s' := s.(world := Stream.Next(s.world, window, step));
    LogFollows(s.world, window, step, first);
    CursorFits(s, first);
    ServerSettles(s, window, first, step);
    ConnectedIs(s);
    Unconnected(s, s');
    hide NothingLost, Level, Follows, InHand, Formed, Stream.Next, Reach;
    if Connected(s) {
      ServerInHand(s, window, first, step);
    }
  }

  lemma {:induction false} Unconnected(s: State, s': State)
    requires s'.conn == s.conn && s'.cursor == s.cursor && (Connected(s) <==> s.conn.Some?)
    ensures !Connected(s) ==> !Connected(s') && Reach(s) == s.cursor == Reach(s')
  {
  }

  lemma {:induction false} ConnectedIs(s: State)
    requires Formed(s)
    ensures Connected(s) <==> s.conn.Some?
  {
    hide Ordered, Shape;
  }

  lemma {:induction false} ServerInHand(s: State, window: Time, first: int, step: Stream.Step)
    requires Formed(s) && Connected(s)
    requires InHand(s.world.log.rows, s.world.conns[s.conn.value], s.taken, s.cursor, first)
    requires Reach(s) <= Level(s.world.log.rows, first)
    requires var rows' := Stream.Next(s.world, window, step).log.rows;
             && Follows(s.world.log.rows, rows', first)
             && (!step.PruneRows? ==> Level(rows', first) >= Level(s.world.log.rows, first))
             && (step.PruneRows? ==> Reach(s) <= Level(rows', first))
    ensures var s' := s.(world := Stream.Next(s.world, window, step));
            && Connected(s') && Reach(s') <= Level(s'.world.log.rows, first)
            && InHand(s'.world.log.rows, s'.world.conns[s.conn.value], s.taken, s.cursor, first)
  {
    var c, w' := s.world.conns[s.conn.value], Stream.Next(s.world, window, step);
    assert step.PruneRows? ==> w'.conns == s.world.conns;
    ConnMove(s.world, window, step, s.conn.value);
    hide Stream.Next, Level, InHand, Shape, ConnReach, Follows, Ordered, InStep;
    SignalKeeps(w'.log.rows, c, s.taken, s.cursor, first);
    if w'.conns[s.conn.value] == c || w'.conns[s.conn.value] == Stream.Signalled(c) {
      RowsFrame(s.world.log.rows, w'.log.rows, c, s.taken, s.cursor, first);
    } else {
      StepInHand(s.world.log.rows, c, s.taken, s.cursor, first, step);
    }
  }

  // ----- The client's own steps ----------------------------------------------------------------------

  lemma {:induction false} HandleReach(rows: seq<Event>, c: Stream.Conn, taken: nat, cursor: int, first: int)
    requires Shape(c, taken, cursor) && taken < |c.written| && InHand(rows, c, taken, cursor, first)
    ensures var cursor' := c.written[taken].sequence;
            && ConnReach(c, taken + 1, cursor') == ConnReach(c, taken, cursor)
            && InHand(rows, c, taken + 1, cursor', first)
  {
    ReachAhead(c, taken, cursor);
    hide Shape;
  }

  lemma {:induction false} HandleKeeps(s: State, window: Time, first: int, result: Forward.HandleResult,
                                       save: SaveOutcome)
    requires Formed(s) && Clear(s, first) && Incoming(s).Some? && !result.Failed?
    ensures var s' := Next(s, window, Handle(result, save)); Formed(s') && Clear(s', first)
  {
    HandleFormed(s, window, result, save);
    HandleSettles(s, window, first, result, save);
    assert Shape(s.world.conns[s.conn.value], s.taken, s.cursor);
    HandleReach(s.world.log.rows, s.world.conns[s.conn.value], s.taken, s.cursor, first);
    hide Formed, NothingLost, Level, InHand, ConnReach, Shape;
    HandleIs(s, window, result, save);
    hide Next;
  }

  lemma {:induction false} HandleFormed(s: State, window: Time, result: Forward.HandleResult, save: SaveOutcome)
    requires Formed(s) && Incoming(s).Some? && !result.Failed?
    ensures Formed(Next(s, window, Handle(result, save)))
  {
    hide Save, Forward.LoadCursor, Shape, Ordered, Next;
    IncomingPast(s);
    SaveNeverAhead(s.file, s.cursor, Incoming(s).value.sequence, save);
    HandleIs(s, window, result, save);
    HandleShape(s.world.conns[s.conn.value], s.taken, s.cursor);
  }

  lemma {:induction false} HandleShape(c: Stream.Conn, taken: nat, cursor: int)
    requires Shape(c, taken, cursor) && taken < |c.written|
    ensures Shape(c, taken + 1, c.written[taken].sequence)
  {
    hide Numbered;
  }

  lemma {:induction false} IncomingPast(s: State)
    requires Formed(s) && Incoming(s).Some?
    ensures s.cursor < Incoming(s).value.sequence && Incoming(s).value.sequence >= 1
  {
    var id := s.conn.value;
    assert s.world.conns[id].written[s.taken] in s.world.conns[id].written;
    ReachAhead(s.world.conns[id], s.taken, s.cursor);
    hide Ordered, Forward.LoadCursor;
  }

  lemma {:induction false} HandleSettles(s: State, window: Time, first: int, result: Forward.HandleResult,
                                         save: SaveOutcome)
    requires Formed(s) && Clear(s, first) && Incoming(s).Some? && !result.Failed?
    ensures NothingLost(Next(s, window, Handle(result, save)), first)
  {
    var s', event := Next(s, window, Handle(result, save)), Incoming(s).value;
    HandleIs(s, window, result, save);
    hide Formed, Clear, Save, Next;
    forall e | e in s.world.log.rows && first < e.sequence <= event.sequence ensures Settled(s', e) {
      Between(s, first, e);
    }
  }

  lemma {:induction false} SkippedIsSettled(s: State, e: Event)
    requires InStep(s) && Connected(s) && Skipped(s.world.conns[s.conn.value], e)
    ensures Settled(s, e)
  {
    var id := s.conn.value;
    assert id in s.dialed && id in s.world.conns && Skipped(s.world.conns[id], e);
  }

  /** Between the client's cursor and the next message, what is written, passed over or in hand is that message or was
    * passed over. */
  lemma {:induction false} BetweenConn(c: Stream.Conn, taken: nat, cursor: int, e: Event)
    requires Shape(c, taken, cursor) && taken < |c.written| && cursor < e.sequence <= c.written[taken].sequence
    requires e in c.written || e in c.skipped || (c.phase.Emitting? && e in c.phase.rest)
    ensures e == c.written[taken] || e in c.skipped
  {
    assert c.written[taken] in c.written;
    if e in c.written {
      var i :| 0 <= i < |c.written| && c.written[i] == e;
      PlaceOf(c.written, taken, i);
    }
    RestAhead(c, taken, cursor);
  }

  lemma {:induction false} SkippedOk(c: Stream.Conn, taken: nat, cursor: int, e: Event)
    requires Shape(c, taken, cursor) && e in c.skipped
    ensures Skipped(c, e)
  {
  }

  lemma {:induction false} RestAhead(c: Stream.Conn, taken: nat, cursor: int)
    requires Shape(c, taken, cursor)
    ensures c.phase.Emitting? ==> forall e :: e in c.phase.rest ==> e.sequence > c.cursor
  {
    if c.phase.Emitting? {
      assert forall i :: 0 <= i < |c.phase.rest| ==> c.phase.rest[0].sequence <= c.phase.rest[i].sequence;
    }
  }

  lemma {:induction false} PlaceOf(events: seq<Event>, n: nat, i: nat)
    requires Stream.Increasing(events) && n < |events| && i < |events|
    requires n > 0 ==> events[n - 1].sequence < events[i].sequence
    requires events[i].sequence <= events[n].sequence
    ensures i == n
  {
  }

  /** A stored event between the client's cursor and the next message can only be that message or one the server
    * passed over. */
  lemma {:induction false} Between(s: State, first: int, e: Event)
    requires Formed(s) && Clear(s, first) && Incoming(s).Some?
    requires e in s.world.log.rows && first < e.sequence <= Incoming(s).value.sequence
    ensures e == Incoming(s).value || Settled(s, e)
  {
    hide Level, Ordered, Forward.LoadCursor, Settled, Shape;
    var c := s.world.conns[s.conn.value];
    ReachAhead(c, s.taken, s.cursor);
    if e.sequence > s.cursor {
      assert e in c.written || e in c.skipped || (c.phase.Emitting? && e in c.phase.rest);
      BetweenConn(c, s.taken, s.cursor, e);
      if e in c.skipped && e != Incoming(s).value {
        SkippedOk(c, s.taken, s.cursor, e);
        SkippedIsSettled(s, e);
      }
    }
  }

  lemma {:induction false} OfflineKeeps(s: State, first: int, cursor: int)
    requires Formed(s) && Clear(s, first) && Forward.LoadCursor(s.file) <= cursor <= s.cursor
    ensures var s' := s.(conn := None, cursor := cursor); Formed(s') && Clear(s', first)
  {
    CursorFits(s, first);
    hide Level, Ordered, Forward.LoadCursor, InHand, Shape;
    var s' := s.(conn := None, cursor := cursor);
    forall e | e in s'.world.log.rows && first < e.sequence <= s'.cursor ensures Settled(s', e) {
      assert Settled(s, e);
    }
  }

  lemma {:induction false} DialKeeps(s: State, window: Time, first: int, id: int, cutoff: Time)
    requires Formed(s) && Clear(s, first)
    ensures var s' := Next(s, window, Dial(id, cutoff)); Formed(s') && Clear(s', first)
  {
    var s' := Next(s, window, Dial(id, cutoff));
    if s' != s {
      assert s'.world.log == s.world.log && s'.conn == Some(id) && s'.cursor == s.cursor;
      hide Level, Ordered, Forward.LoadCursor, Settled;
      forall e | e in s'.world.log.rows && first < e.sequence <= s'.cursor ensures Settled(s', e) {
        assert Settled(s, e);
        DialSettled(s, window, id, cutoff, e);
      }
    }
  }

  lemma {:induction false} DialSettled(s: State, window: Time, id: int, cutoff: Time, e: Event)
    requires Settled(s, e)
    ensures Settled(Next(s, window, Dial(id, cutoff)), e)
  {
    var s' := Next(s, window, Dial(id, cutoff));
    if PassedOver(s, e) {
      var old' :| old' in s.dialed && old' in s.world.conns && Skipped(s.world.conns[old'], e);
      assert old' in s'.dialed && old' in s'.world.conns && Skipped(s'.world.conns[old'], e);
    }
  }

  lemma {:induction false} StepKeeps(s: State, window: Time, first: int, step: Step)
    requires Formed(s) && Clear(s, first) && (IsPrune(step) ==> !Hazard(s, first, step.step.cutoff))
    ensures var s' := Next(s, window, step); Formed(s') && Clear(s', first)
  {
    FileBelow(s);
    match step {
      case Server(step) =>
        ServerFormed(s, window, first, step);
        ServerClear(s, window, first, step);
      case Dial(id, cutoff) => DialKeeps(s, window, first, id, cutoff);
      case Handle(result, save) =>
        hide Formed, Clear, Forward.LoadCursor, Save;
        if Incoming(s).Some? && !result.Failed? {
          HandleKeeps(s, window, first, result, save);
        } else if Incoming(s).Some? {
          OfflineKeeps(s, first, s.cursor);
        }
      case Hangup =>
        hide Formed, Clear, Forward.LoadCursor;
        OfflineKeeps(s, first, s.cursor);
      case Restart =>
        hide Formed, Clear, Forward.LoadCursor;
        OfflineKeeps(s, first, Forward.LoadCursor(s.file));
    }
  }

  lemma {:induction false} FileBelow(s: State)
    requires Formed(s)
    ensures Forward.LoadCursor(s.file) <= s.cursor
  {
  }

  lemma {:induction false} BeginsClear(file: string)
    ensures Formed(Start(file)) && Clear(Start(file), Forward.LoadCursor(file))
  {
  }

  lemma {:induction false} HarmlessClear(steps: seq<Step>, window: Time, file: string)
    requires Harmless(steps, window, file)
    ensures var s := Run(steps, window, file); Formed(s) && Clear(s, Forward.LoadCursor(file))
  {
    hide Formed, Clear, Hazard, Forward.LoadCursor;
    if steps == [] {
      BeginsClear(file);
    } else {
      HarmlessClear(Init(steps), window, file);
      hide Next;
      StepKeeps(Run(Init(steps), window, file), window, Forward.LoadCursor(file), Last(steps));
    }
  }

  /** No loss on the client's side, for every run whose prunes are harmless. */
  lemma {:induction false} NeverLoses(steps: seq<Step>, window: Time, file: string)
    requires Harmless(steps, window, file)
    ensures !Loses(Run(steps, window, file), Forward.LoadCursor(file))
  {
    HarmlessClear(steps, window, file);
    hide NothingLost, Run, Formed;
  }

  // ----- What a hazard allows ------------------------------------------------------------------------

  /** `s` is reached from `base` by `more`, which prunes nothing. */
  ghost predicate At(base: seq<Step>, more: seq<Step>, window: Time, file: string, s: State) {
    NoPrunes(more) && Run(base + more, window, file) == s
  }

  lemma {:induction false} Go(base: seq<Step>, more: seq<Step>, window: Time, file: string, s: State, step: Step)
    returns (longer: seq<Step>)
    requires At(base, more, window, file, s) && !IsPrune(step)
    ensures At(base, longer, window, file, Next(s, window, step))
  {
    longer := more + [step];
    assert base + longer == (base + more) + [step];
    assert Init(base + longer) == base + more && Last(base + longer) == step;
    assert Init(longer) == more && Last(longer) == step;
  }

  /** Nobody has touched `e`: it is neither settled nor written, passed over or in hand. */
  ghost predicate Untouched(s: State, e: Event) {
    && e !in s.accepted && e !in s.malformed
    && forall id :: id in s.world.conns ==> Spared(s.world.conns[id], e)
  }

  predicate Spared(c: Stream.Conn, e: Event) {
    e !in c.written && e !in c.skipped && (c.phase.Emitting? ==> e !in c.phase.rest)
  }

  function TouchedBy(c: Stream.Conn): (known: set<Event>)
    ensures forall e :: e !in known ==> Spared(c, e)
  {
    (set e | e in c.written) + (set e | e in c.skipped)
    + (if c.phase.Emitting? then set e | e in c.phase.rest else {})
  }

  function Touched(s: State): set<Event> {
    s.accepted + s.malformed
    + set id, e | id in s.world.conns.Keys && e in TouchedBy(s.world.conns[id]) :: e
  }

  lemma {:induction false} OutsideIsUntouched(s: State, e: Event)
    requires e !in Touched(s)
    ensures Untouched(s, e)
  {
    hide Spared, TouchedBy;
    forall id | id in s.world.conns ensures Spared(s.world.conns[id], e) {
      assert e !in TouchedBy(s.world.conns[id]);
    }
  }

  lemma {:induction false} UntouchedIsOwed(s: State, first: int, e: Event)
    requires Untouched(s, e) && e in s.world.log.rows && first < e.sequence <= s.cursor
    ensures Loses(s, first)
  {
    assert !Settled(s, e);
  }

  lemma {:induction false} AppendMove(base: seq<Step>, more: seq<Step>, window: Time, file: string, s: State,
                                      known: set<Event>)
    returns (more': seq<Step>, s': State, e: Event)
    requires At(base, more, window, file, s)
    ensures At(base, more', window, file, s')
    ensures s' == s.(world := s.world.(log := s'.world.log, pending := s'.world.pending))
    ensures s'.world.log.rows == s.world.log.rows + [e] && e !in known && e.providerTime == 0
    ensures e.sequence == MaxSequence(s.world.log.rows) + 1 == MaxSequence(s'.world.log.rows)
  {
    hide At, AppendOutcome, HasDuplicate, MaxSequence;
    var input, now := FreshAppend(s.world.log.rows, window, known);
    IngestIs(s.world, window, input, now);
    var step := Server(Stream.Ingest(input, now));
    s' := Next(s, window, step);
    more' := Go(base, more, window, file, s, step);
    e := Row(input, NextSequence(s.world.log.rows), now);
    MaxAfterAppend(s.world.log.rows, e);
  }

  /** `s'` is `s` with more rows appended. */
  ghost predicate Longer(s: State, s': State) {
    && s' == s.(world := s.world.(log := s'.world.log, pending := s'.world.pending))
    && forall e :: e in s.world.log.rows ==> e in s'.world.log.rows
  }

  /** Appends until some event not among `known` is stored at `target`. */
  lemma {:induction false} FillTo(base: seq<Step>, more: seq<Step>, window: Time, file: string, s: State, target: int,
                                  known: set<Event>)
    returns (more': seq<Step>, s': State, e: Event)
    requires At(base, more, window, file, s) && MaxSequence(s.world.log.rows) < target
    ensures At(base, more', window, file, s') && Longer(s, s')
    ensures e in s'.world.log.rows && e !in known && e.sequence == target == MaxSequence(s'.world.log.rows)
    decreases target - MaxSequence(s.world.log.rows)
  {
    hide At, MaxSequence;
    more', s', e := AppendMove(base, more, window, file, s, known);
    if e.sequence < target {
      more', s', e := FillTo(base, more', window, file, s', target, known);
    }
  }

  lemma {:induction false} LongerUntouched(s: State, s': State, e: Event)
    requires Untouched(s, e) && Longer(s, s')
    ensures Untouched(s', e)
  {
    hide Spared;
  }

  /** The client handles what its connection wrote, all of it accepted. */
  lemma {:induction false} HandleAll(base: seq<Step>, more: seq<Step>, window: Time, file: string, s: State, e: Event)
    returns (more': seq<Step>, s': State)
    requires At(base, more, window, file, s) && Connected(s) && Untouched(s, e)
    requires s.taken < |s.world.conns[s.conn.value].written|
    ensures At(base, more', window, file, s') && s'.world == s.world && Untouched(s', e)
    ensures s'.cursor == Last(s.world.conns[s.conn.value].written).sequence
    decreases |s.world.conns[s.conn.value].written| - s.taken
  {
    hide At;
    var step := Handle(Forward.Done, NotSaved);
    HandleIs(s, window, Forward.Done, NotSaved);
    var id := s.conn.value;
    assert Spared(s.world.conns[id], e);
    hide Next;
    more' := Go(base, more, window, file, s, step);
    s' := Next(s, window, step);
    if s'.taken < |s.world.conns[s.conn.value].written| {
      more', s' := HandleAll(base, more', window, file, s', e);
    }
  }

  /** One step of the client's own connection. */
  lemma {:induction false} OwnMove(base: seq<Step>, more: seq<Step>, window: Time, file: string, s: State,
                                   step: Stream.Step, e: Event)
    returns (more': seq<Step>, s': State)
    requires At(base, more, window, file, s) && Connected(s) && Untouched(s, e)
    requires step.Emit? || step.Read? || step.Tick?
    requires step.id == s.conn.value && Spared(Stream.ConnStep(s.world.log.rows, s.world.conns[step.id], step), e)
    ensures At(base, more', window, file, s') && Untouched(s', e)
    ensures s' == s.(world := s'.world) && s'.world.log == s.world.log && Connected(s')
    ensures s'.world.conns[step.id] == Stream.ConnStep(s.world.log.rows, s.world.conns[step.id], step)
  {
    hide At, Stream.ConnStep, Spared;
    more' := Go(base, more, window, file, s, Server(step));
    s' := Next(s, window, Server(step));
  }

  lemma {:induction false} EmitSpares(rows: seq<Event>, c: Stream.Conn, id: int, e: Event)
    requires Spared(c, e) && c.phase.Emitting? && c.phase.rest != []
    ensures Spared(Stream.ConnStep(rows, c, Stream.Emit(id)), e)
  {
    assert c.phase.rest[0] in c.phase.rest;
  }

  /** An open connection emits what it has in hand, and is ready to read again. */
  lemma {:induction false} ToDraining(base: seq<Step>, more: seq<Step>, window: Time, file: string, s: State, e: Event)
    returns (more': seq<Step>, s': State)
    requires At(base, more, window, file, s) && Connected(s) && Untouched(s, e)
    requires var p := s.world.conns[s.conn.value].phase; !p.Closed? && (p.Emitting? ==> p.rest != [])
    ensures At(base, more', window, file, s') && Untouched(s', e)
    ensures s' == s.(world := s'.world) && s'.world.log == s.world.log && Connected(s')
    ensures var c, c' := s.world.conns[s.conn.value], s'.world.conns[s.conn.value];
            && c'.phase.Draining? && c'.cursor == ConnReach(c, s.taken, s.cursor)
            && c.written <= c'.written
    decreases match s.world.conns[s.conn.value].phase case Emitting(rest) => |rest| case _ => 0
  {
    hide At;
    more', s' := more, s;
    var id, c := s.conn.value, s.world.conns[s.conn.value];
    assert Spared(c, e);
    if c.phase.Waiting? {
      more', s' := OwnMove(base, more, window, file, s, Stream.Tick(id), e);
    } else if c.phase.Emitting? {
      EmitSpares(s.world.log.rows, c, id, e);
      EmitIs(s.world.log.rows, c);
      more', s' := OwnMove(base, more, window, file, s, Stream.Emit(id), e);
      hide Stream.ConnStep, Untouched, Spared;
      more', s' := ToDraining(base, more', window, file, s', e);
    }
  }

  /** A reach past every stored number: the row that gets the number there is never sent to the target. */
  lemma {:induction false} ReachLoses(base: seq<Step>, window: Time, file: string, first: int)
    returns (more: seq<Step>)
    requires var s := Run(base, window, file);
             Formed(s) && first == Forward.LoadCursor(file) && Reach(s) > Level(s.world.log.rows, first)
    ensures NoPrunes(more) && Loses(Run(base + more, window, file), first)
  {
    hide Run, Loses, Forward.LoadCursor, MaxSequence, Untouched, Touched, Shape, Ordered;
    var s := Run(base, window, file);
    assert base + [] == base;
    if Connected(s) && !s.world.conns[s.conn.value].phase.Closed? {
      more := OpenLoses(base, window, file, first, s);
    } else {
      var s', e;
      more, s', e := FillTo(base, [], window, file, s, Reach(s), Touched(s));
      OutsideIsUntouched(s, e);
      LongerUntouched(s, s', e);
      if Connected(s) && s.taken < |s.world.conns[s.conn.value].written| {
        more, s' := HandleAll(base, more, window, file, s', e);
      }
      UntouchedIsOwed(s', first, e);
    }
  }

  /** With the connection open: a row gets the number at its cursor, the next one is read, written and handled. */
  lemma {:induction false} OpenLoses(base: seq<Step>, window: Time, file: string, first: int, s: State)
    returns (more: seq<Step>)
    requires At(base, [], window, file, s) && Formed(s) && Connected(s)
    requires !s.world.conns[s.conn.value].phase.Closed? && Reach(s) > Level(s.world.log.rows, first)
    ensures NoPrunes(more) && Loses(Run(base + more, window, file), first)
  {
    hide Run, Loses, MaxSequence, Ordered, Untouched, Touched, At;
    var id, reach := s.conn.value, Reach(s);
    var s', e;
    more, s', e := FillTo(base, [], window, file, s, reach, Touched(s));
    OutsideIsUntouched(s, e);
    LongerUntouched(s, s', e);
    assert s'.world.conns[id] == s.world.conns[id];
    more, s' := ToDraining(base, more, window, file, s', e);
    var next;
    more, s', next := OneMoreRow(base, more, window, file, s', e);
    more, s' := ReadAndWrite(base, more, window, file, s', e, next);
    more, s' := HandleAll(base, more, window, file, s', e);
    UntouchedIsOwed(s', first, e);
    AtLoses(base, more, window, file, s', first);
  }

  lemma {:induction false} AtLoses(base: seq<Step>, more: seq<Step>, window: Time, file: string, s: State, first: int)
    requires At(base, more, window, file, s) && Loses(s, first)
    ensures NoPrunes(more) && Loses(Run(base + more, window, file), first)
  {
  }

  lemma {:induction false} OneMoreRow(base: seq<Step>, more: seq<Step>, window: Time, file: string, s: State, e: Event)
    returns (more': seq<Step>, s': State, next: Event)
    requires At(base, more, window, file, s) && Untouched(s, e)
    ensures At(base, more', window, file, s') && Untouched(s', e) && Longer(s, s') && next != e
    ensures s'.world.log.rows == s.world.log.rows + [next] && next.providerTime == 0
    ensures next.sequence == MaxSequence(s.world.log.rows) + 1
  {
    hide At, MaxSequence;
    more', s', next := AppendMove(base, more, window, file, s, {e});
    LongerUntouched(s, s', e);
  }

  /** The only row past the connection's cursor is read and written. */
  lemma {:induction false} ReadAndWrite(base: seq<Step>, more: seq<Step>, window: Time, file: string, s: State,
                                        e: Event, next: Event)
    returns (more': seq<Step>, s': State)
    requires At(base, more, window, file, s) && Connected(s) && Untouched(s, e) && e != next
    requires var c, rows := s.world.conns[s.conn.value], s.world.log.rows;
             && c.phase.Draining? && rows != [] && Last(rows) == next && next.providerTime == 0
             && next.sequence > c.cursor && forall x :: x in Init(rows) ==> x.sequence <= c.cursor
    ensures At(base, more', window, file, s') && Connected(s') && Untouched(s', e)
    ensures s' == s.(world := s'.world) && s'.world.log == s.world.log
    ensures s'.world.conns[s.conn.value].written == s.world.conns[s.conn.value].written + [next]
  {
    var id, rows := s.conn.value, s.world.log.rows;
    LoneBatch(rows, s.world.conns[id].cursor, next);
    hide At, Batch;
    assert Spared(s.world.conns[id], e);
    more', s' := OwnMove(base, more, window, file, s, Stream.Read(id, 1), e);
    var c := s'.world.conns[id];
    assert c.phase == Stream.Emitting([next]);
    EmitSpares(rows, c, id, e);
    more', s' := OwnMove(base, more', window, file, s', Stream.Emit(id), e);
  }

  lemma {:induction false} LoneBatch(rows: seq<Event>, cursor: int, next: Event)
    requires rows != [] && Last(rows) == next && next.sequence > cursor
    requires forall x :: x in Init(rows) ==> x.sequence <= cursor
    ensures Batch(rows, cursor, 1) == [next]
  {
    assert forall i :: 0 <= i < |Init(rows)| ==> Init(rows)[i] in Init(rows);
    AboveNone(Init(rows), cursor);
  }

  // ----- The exact condition ---------------------------------------------------------------------------

  lemma {:induction false} HarmlessOn(base: seq<Step>, more: seq<Step>, window: Time, file: string)
    requires Harmless(base, window, file) && NoPrunes(more)
    ensures Harmless(base + more, window, file)
  {
    hide Hazard, Run;
    if more == [] {
      assert base + more == base;
    } else {
      HarmlessOn(base, Init(more), window, file);
      assert Init(base + more) == base + Init(more) && Last(base + more) == Last(more);
    }
  }

  lemma {:induction false} AfterPrune(steps: seq<Step>, window: Time, file: string, cutoff: Time)
    ensures var prune, s := Server(Stream.PruneRows(cutoff)), Run(steps, window, file);
            && Run(steps + [prune], window, file) ==
                 s.(world := Stream.Next(s.world, window, Stream.PruneRows(cutoff)))
            && (Harmless(steps + [prune], window, file) <==>
                  Harmless(steps, window, file) && !Hazard(s, Forward.LoadCursor(file), cutoff))
  {
    var prune := Server(Stream.PruneRows(cutoff));
    assert Init(steps + [prune]) == steps && Last(steps + [prune]) == prune;
    hide Hazard;
  }

  lemma {:induction false} PruneKeepsReach(s: State, window: Time, cutoff: Time)
    ensures var s' := s.(world := Stream.Next(s.world, window, Stream.PruneRows(cutoff)));
            Reach(s') == Reach(s) && s'.world.log.rows == Retained(s.world.log.rows, cutoff)
  {
  }

  /** After a run of harmless prunes, one more has a continuation without prunes that loses the client an event if and
    * only if it is a hazard. */
  lemma {:induction false} PruneLosesIff(steps: seq<Step>, window: Time, file: string, cutoff: Time)
    requires Harmless(steps, window, file)
    ensures var base, first := steps + [Server(Stream.PruneRows(cutoff))], Forward.LoadCursor(file);
            (exists more :: NoPrunes(more) && Loses(Run(base + more, window, file), first)) <==>
              Hazard(Run(steps, window, file), first, cutoff)
  {
    var s, first := Run(steps, window, file), Forward.LoadCursor(file);
    var base := steps + [Server(Stream.PruneRows(cutoff))];
    AfterPrune(steps, window, file, cutoff);
    hide Run, Loses, Harmless, Forward.LoadCursor;
    if Hazard(s, first, cutoff) {
      HarmlessClear(steps, window, file);
      ServerFormed(s, window, first, Stream.PruneRows(cutoff));
      PruneKeepsReach(s, window, cutoff);
      hide Formed, Reach;
      var more := ReachLoses(base, window, file, first);
    } else {
      forall more | NoPrunes(more) ensures !Loses(Run(base + more, window, file), first) {
        HarmlessOn(base, more, window, file);
        NeverLoses(base + more, window, file);
      }
    }
  }

  /** A prune that spares the newest row is harmless, so this condition is the weaker one. */
  lemma {:induction false} GuardedIsHarmless(steps: seq<Step>, window: Time, file: string)
    requires Guarded(steps, window, file)
    ensures Harmless(steps, window, file)
  {
    hide Hazard, Run;
    if steps != [] {
      GuardedIsHarmless(Init(steps), window, file);
      if IsPrune(Last(steps)) {
        HarmlessClear(Init(steps), window, file);
        SparedIsHarmless(Run(Init(steps), window, file), Forward.LoadCursor(file), Last(steps).step.cutoff);
      }
    }
  }

  lemma {:induction false} SparedIsHarmless(s: State, first: int, cutoff: Time)
    requires Formed(s) && Clear(s, first) && NewestKept(s.world.log.rows, cutoff)
    ensures !Hazard(s, first, cutoff)
  {
    RetainedMax(s.world.log.rows, cutoff);
    hide Retained, Reach, NothingLost, InStep;
  }

  /** The whole of a run: at whatever moment the prunes stop the client loses nothing from then on, if and only if every
    * prune was harmless. */
  lemma {:induction false} LosesNothingIff(steps: seq<Step>, window: Time, file: string)
    ensures (forall k, more :: 0 <= k <= |steps| && NoPrunes(more) ==>
               !Loses(Run(steps[..k] + more, window, file), Forward.LoadCursor(file))) <==>
              Harmless(steps, window, file)
  {
    hide Loses, Run, Forward.LoadCursor;
    if Harmless(steps, window, file) {
      forall k, more | 0 <= k <= |steps| && NoPrunes(more)
        ensures !Loses(Run(steps[..k] + more, window, file), Forward.LoadCursor(file))
      {
        HarmlessPrefix(steps, window, file, k);
        HarmlessOn(steps[..k], more, window, file);
        NeverLoses(steps[..k] + more, window, file);
      }
    } else {
      var k := FirstHazard(steps, window, file);
      var prune := Server(Stream.PruneRows(steps[k].step.cutoff));
      PruneLosesIff(steps[..k], window, file, steps[k].step.cutoff);
      var more :| NoPrunes(more) && Loses(Run(steps[..k] + [prune] + more, window, file), Forward.LoadCursor(file));
      assert steps[..k] + [prune] == steps[..k + 1];
    }
  }

  lemma {:induction false} HarmlessPrefix(steps: seq<Step>, window: Time, file: string, k: nat)
    requires Harmless(steps, window, file) && k <= |steps|
    ensures Harmless(steps[..k], window, file)
  {
    hide Hazard, Run;
    if k < |steps| {
      HarmlessPrefix(Init(steps), window, file, k);
      assert Init(steps)[..k] == steps[..k];
    } else {
      assert steps[..k] == steps;
    }
  }

  lemma {:induction false} FirstHazard(steps: seq<Step>, window: Time, file: string) returns (k: nat)
    requires !Harmless(steps, window, file)
    ensures k < |steps| && IsPrune(steps[k]) && Harmless(steps[..k], window, file)
    ensures Hazard(Run(steps[..k], window, file), Forward.LoadCursor(file), steps[k].step.cutoff)
  {
    hide Hazard, Run;
    if Harmless(Init(steps), window, file) {
      k := |steps| - 1;
    } else {
      k := FirstHazard(Init(steps), window, file);
      assert Init(steps)[..k] == steps[..k];
    }
  }

  // ----- An input that loses one -------------------------------------------------------------------------

  const FIRST := Row(Sample("a"), 1, 10)

  function Upon(phase: Stream.Phase, cursor: int, read: set<Event>, written: seq<Event>): Stream.World {
    Stream.World(Log([FIRST], [FIRST]), multiset{1},
                 map[1 := Stream.Conn(0, 0, true, phase, cursor, false, read, written, [])])
  }

  /** A client that began with an empty file, over its one connection. */
  function Over(world: Stream.World, taken: nat, cursor: int, accepted: set<Event>): State {
    State(world, Some(1), {1}, taken, cursor, "", accepted, {})
  }

  lemma {:induction false} OneRow()
    ensures Batch([FIRST], 0, 1) == [FIRST] && Retained([FIRST], 20) == [] && MaxSequence([]) == 0
  {
    assert Above([FIRST], 0) == Above([], 0) + [FIRST];
  }

  lemma {:induction false} ToDialed(window: Time)
    ensures Forward.LoadCursor("") == 0
    ensures var s := Next(Start(""), window, Server(Stream.Ingest(Sample("a"), 10)));
            && s.world.log.rows == [FIRST]
            && Next(s, window, Dial(1, 0)) == Over(Upon(Stream.Draining, 0, {}, []), 0, 0, {})
  {
    OneRow();
    IngestIs(Stream.EMPTY, window, Sample("a"), 10);
    hide Apply;
    assert [] + [FIRST] == [FIRST];
  }

  lemma {:induction false} OneConn(c: Stream.Conn, c': Stream.Conn)
    ensures map[1 := c][1 := c'] == map[1 := c']
  {
  }

  lemma {:induction false} ToRead(window: Time)
    ensures Next(Over(Upon(Stream.Draining, 0, {}, []), 0, 0, {}), window, Server(Stream.Read(1, 1)))
         == Over(Upon(Stream.Emitting([FIRST]), 0, {FIRST}, []), 0, 0, {})
  {
    OneRow();
    hide Batch;
    var c := Upon(Stream.Draining, 0, {}, []).conns[1];
    assert {} + (set e | e in [FIRST]) == {FIRST};
    OneConn(c, Stream.ConnStep([FIRST], c, Stream.Read(1, 1)));
  }

  lemma {:induction false} ToWritten(window: Time)
    ensures Next(Over(Upon(Stream.Emitting([FIRST]), 0, {FIRST}, []), 0, 0, {}), window, Server(Stream.Emit(1)))
         == Over(Upon(Stream.Draining, 1, {FIRST}, [FIRST]), 0, 0, {})
  {
    var c := Upon(Stream.Emitting([FIRST]), 0, {FIRST}, []).conns[1];
    assert !Subscribe.Stale(FIRST, 0) && c.written + [FIRST] == [FIRST];
    OneConn(c, Stream.ConnStep([FIRST], c, Stream.Emit(1)));
  }

  lemma {:induction false} ToHandled(window: Time, world: Stream.World)
    requires world == Upon(Stream.Draining, 1, {FIRST}, [FIRST])
    ensures Next(Over(world, 0, 0, {}), window, Handle(Forward.Done, NotSaved)) == Over(world, 1, 1, {FIRST})
  {
  }

  /** A client with an empty file handles the one event there is. */
  lemma {:induction false} OneHandled(window: Time) returns (steps: seq<Step>)
    ensures Harmless(steps, window, "")
    ensures Run(steps, window, "") == Over(Upon(Stream.Draining, 1, {FIRST}, [FIRST]), 1, 1, {FIRST})
  {
    ToDialed(window);
    ToRead(window);
    ToWritten(window);
    ToHandled(window, Upon(Stream.Draining, 1, {FIRST}, [FIRST]));
    hide Next, Upon, Over, Start;
    steps := Reaching([], window, Server(Stream.Ingest(Sample("a"), 10)));
    steps := Reaching(steps, window, Dial(1, 0));
    steps := Reaching(steps, window, Server(Stream.Read(1, 1)));
    steps := Reaching(steps, window, Server(Stream.Emit(1)));
    steps := Reaching(steps, window, Handle(Forward.Done, NotSaved));
  }

  lemma {:induction false} Reaching(steps: seq<Step>, window: Time, step: Step) returns (longer: seq<Step>)
    requires Harmless(steps, window, "") && !IsPrune(step)
    ensures Harmless(longer, window, "") && Run(longer, window, "") == Next(Run(steps, window, ""), window, step)
  {
    longer := steps + [step];
    assert Init(longer) == steps && Last(longer) == step;
  }

  /** The event is handled, a prune removes it, and one that comes later is lost. */
  lemma {:induction false} LostWithoutGuard(window: Time) returns (steps: seq<Step>, more: seq<Step>)
    ensures Harmless(steps, window, "") && NoPrunes(more)
    ensures Loses(Run(steps + [Server(Stream.PruneRows(20))] + more, window, ""), 0)
  {
    steps := OneHandled(window);
    OneRow();
    ToDialed(window);
    hide Run, Harmless, Loses, Next;
    assert Forward.LoadCursor("") == 0 && Hazard(Run(steps, window, ""), 0, 20);
    PruneLosesIff(steps, window, "", 20);
    more :| NoPrunes(more) && Loses(Run(steps + [Server(Stream.PruneRows(20))] + more, window, ""), 0);
  }
}
