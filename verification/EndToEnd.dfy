/** The forward client against the server: any run of server steps, connections that drop or are
  * refused, client restarts from the saved file, and writes of that file that fail or are torn. */
module EndToEnd {
  import opened Common
  import opened EventLog
  import Decimal
  import Forward
  import Sse
  import Stream

  datatype SaveOutcome = Saved | NotSaved | Torn(length: nat)

  /** `conn` is the client's open connection, `dialed` all it ever opened, and `taken` how many messages of the open
    * one it has handled.
    * `accepted` and `malformed` collect the events the target answered 2xx to and the ones skipped
    * as malformed. */
  datatype State = State(world: Stream.World, conn: Option<int>, dialed: set<int>, taken: nat, cursor: int,
                         file: string, accepted: set<Event>, malformed: set<Event>)

  datatype Step =
    | Server(step: Stream.Step)
    | Dial(id: int, cutoff: Time)
    | Handle(result: Forward.HandleResult, save: SaveOutcome)
    | Hangup
    | Restart

  function Start(file: string): State {
    State(Stream.EMPTY, None, {}, 0, Forward.LoadCursor(file), file, {}, {})
  }

  function Save(file: string, sequence: int, outcome: SaveOutcome): string {
    match outcome
    case Saved => Forward.CursorLine(sequence)
    case NotSaved => file
    case Torn(length) => Forward.CursorLine(sequence)[..if length <= |Forward.CursorLine(sequence)| then length else 0]
  }

  /** The next message the client reads off its connection. */
  function Incoming(s: State): Option<Event> {
    if s.conn.Some? && s.conn.value in s.world.conns && s.taken < |s.world.conns[s.conn.value].written|
    then Some(s.world.conns[s.conn.value].written[s.taken]) else None
  }

  function Next(s: State, window: Time, step: Step): State {
    match step
    case Server(step) => s.(world := Stream.Next(s.world, window, step))
    case Dial(id, cutoff) =>
      // A negative `since` is answered 400.
      if s.conn.Some? || id in s.world.conns || s.cursor < 0 then s
      else
        s.(world := Stream.Next(s.world, window, Stream.Connect(id, s.cursor, cutoff)), conn := Some(id),
           dialed := s.dialed + {id}, taken := 0)
    case Handle(result, save) =>
      (match Incoming(s)
       case None => s
       case Some(event) =>
         var acked := s.(taken := s.taken + 1, cursor := event.sequence, file := Save(s.file, event.sequence, save));
         match result
         case Done => acked.(accepted := s.accepted + {event})
         case Skipped => acked.(malformed := s.malformed + {event})
         case Failed => s.(conn := None))
    case Hangup => s.(conn := None)
    case Restart => s.(conn := None, cursor := Forward.LoadCursor(s.file))
  }

  function Run(steps: seq<Step>, window: Time, file: string): State {
    if steps == [] then Start(file) else Next(Run(Init(steps), window, file), window, Last(steps))
  }

  /** What the client does. A dial opens a connection at its cursor, unless one is open, the id is taken or the cursor
    * is negative. A message goes to the target, and then the cursor stands at its number, unless the target failed,
    * which drops the connection. A restart takes the cursor from the file. */
  lemma {:induction false} ClientMeans(s: State, window: Time, id: int, cutoff: Time, save: SaveOutcome)
    ensures s.conn == None && id !in s.world.conns && s.cursor >= 0 ==>
              var s' := Next(s, window, Dial(id, cutoff));
              && s'.conn == Some(id) && s'.dialed == s.dialed + {id} && s'.taken == 0
              && s'.world.conns.Keys == s.world.conns.Keys + {id} && s'.world.log == s.world.log
              && s'.world.conns[id].start == s.cursor && s'.world.conns[id].cutoff == cutoff
              && s'.world.conns[id].written == []
              && s'.cursor == s.cursor && s'.file == s.file
    ensures s.conn != None || id in s.world.conns || s.cursor < 0 ==> Next(s, window, Dial(id, cutoff)) == s
    ensures s.conn == Some(id) && id in s.world.conns && s.taken < |s.world.conns[id].written| ==>
              var e := s.world.conns[id].written[s.taken];
              var done := Next(s, window, Handle(Forward.Done, save));
              var skipped := Next(s, window, Handle(Forward.Skipped, save));
              && done.cursor == e.sequence == skipped.cursor && done.taken == s.taken + 1 == skipped.taken
              && done.conn == Some(id) == skipped.conn
              && done.accepted == s.accepted + {e} && skipped.accepted == s.accepted
              && skipped.malformed == s.malformed + {e} && done.malformed == s.malformed
              && (save.Saved? ==> done.file == Decimal.ToString(e.sequence) + "\n" == skipped.file)
              && Next(s, window, Handle(Forward.Failed, save)) == s.(conn := None)
    ensures var s' := Next(s, window, Restart);
            s' == s.(conn := None, cursor := s'.cursor) && s'.cursor == Forward.LoadCursor(s.file)
    ensures Next(s, window, Hangup) == s.(conn := None)
  {
  }

  /** Every prune of the run leaves the newest row of the source in place. */
  ghost predicate Guarded(steps: seq<Step>, window: Time, file: string) {
    steps == [] ||
    (Guarded(Init(steps), window, file) &&
     (Last(steps).Server? && Last(steps).step.PruneRows? ==>
        NewestKept(Run(Init(steps), window, file).world.log.rows, Last(steps).step.cutoff)))
  }

  // ----- The invariant -------------------------------------------------------------------------

  /** The connection passed the event over: its provider time is a real one, before the connection's cutoff. */
  predicate Skipped(c: Stream.Conn, e: Event) {
    e in c.skipped && SECOND <= e.providerTime < c.cutoff
  }

  /** The initial drain of one of the client's own connections passed the event over as stale. */
  ghost predicate PassedOver(s: State, e: Event) {
    exists id :: id in s.dialed && id in s.world.conns && Skipped(s.world.conns[id], e)
  }

  ghost predicate Settled(s: State, e: Event) {
    e in s.accepted || e in s.malformed || PassedOver(s, e)
  }

  /** Nothing above `first` and at or below the cursor is still owed to the target. */
  ghost predicate NothingLost(s: State, first: int) {
    forall e :: e in s.world.log.rows && first < e.sequence <= s.cursor ==> Settled(s, e)
  }

  /** The client's cursor is where its connection says: the start, or the last message handled. */
  ghost predicate InStep(s: State) {
    s.conn.Some? ==>
      && s.conn.value in s.world.conns && s.conn.value in s.dialed
      && var c := s.world.conns[s.conn.value];
         && s.taken <= |c.written|
         && s.cursor == (if s.taken == 0 then c.start else c.written[s.taken - 1].sequence)
  }

  ghost predicate Ok(s: State, window: Time, first: int) {
    && Stream.WorldOk(s.world, window) && Stream.AllWoken(s.world)
    && InStep(s) && NothingLost(s, first)
    && (s.cursor <= first || s.cursor <= |s.world.log.history|)
    && Forward.LoadCursor(s.file) <= s.cursor
  }

  lemma {:induction false} ConnOf(w: Stream.World, window: Time, id: int)
    requires Stream.WorldOk(w, window) && id in w.conns
    ensures Stream.ConnOk(w.log, w.conns[id])
  {
  }

  lemma {:induction false} ServerKeepsConn(w: Stream.World, window: Time, step: Stream.Step, id: int)
    requires id in w.conns
    ensures id in Stream.Next(w, window, step).conns
    ensures var c, c' := w.conns[id], Stream.Next(w, window, step).conns[id];
            && c.written <= c'.written && c.start == c'.start && c.cutoff == c'.cutoff
            && forall e :: e in c.skipped ==> e in c'.skipped
  {
    Stream.OnlyInitialDrainSkips(w, window, step, id);
  }

  lemma {:induction false} ServerOk(s: State, window: Time, first: int, step: Stream.Step)
    requires Ok(s, window, first)
    requires step.PruneRows? ==> NewestKept(s.world.log.rows, step.cutoff)
    ensures Ok(s.(world := Stream.Next(s.world, window, step)), window, first)
  {
    Stream.NextOk(s.world, window, step);
    Stream.AllWokenStep(s.world, window, step);
    LogGrows(s.world, window, step);
    ServerInStep(s, window, step);
    ServerLosesNothing(s, window, first, step);
  }

  lemma {:induction false} ServerInStep(s: State, window: Time, step: Stream.Step)
    requires InStep(s)
    ensures InStep(s.(world := Stream.Next(s.world, window, step)))
  {
    if s.conn.Some? {
      ServerKeepsConn(s.world, window, step, s.conn.value);
      var c, c' := s.world.conns[s.conn.value], Stream.Next(s.world, window, step).conns[s.conn.value];
      assert s.taken > 0 ==> c.written[s.taken - 1] == c'.written[s.taken - 1];
    }
  }

  lemma {:induction false} ServerLosesNothing(s: State, window: Time, first: int, step: Stream.Step)
    requires NothingLost(s, first) && (s.cursor <= first || s.cursor <= |s.world.log.history|)
    requires Stream.Grows(s.world.log, Stream.Next(s.world, window, step).log)
    ensures NothingLost(s.(world := Stream.Next(s.world, window, step)), first)
  {
    var world' := Stream.Next(s.world, window, step);
    var s' := s.(world := world');
    forall e | e in world'.log.rows && first < e.sequence <= s.cursor ensures Settled(s', e) {
      assert e in s.world.log.rows && Settled(s, e);
      if PassedOver(s, e) {
        var id :| id in s.dialed && id in s.world.conns && Skipped(s.world.conns[id], e);
        ServerKeepsConn(s.world, window, step, id);
        assert id in world'.conns && Skipped(world'.conns[id], e);
      }
    }
  }

  lemma {:induction false} LogGrows(w: Stream.World, window: Time, step: Stream.Step)
    requires Stream.WorldOk(w, window)
    requires step.PruneRows? ==> NewestKept(w.log.rows, step.cutoff)
    ensures Stream.Grows(w.log, Stream.Next(w, window, step).log)
  {
    match Stream.LogOf(step) {
      case Some(op) => Stream.LogStep(w.log, window, op);
      case None =>
    }
  }

  lemma {:induction false} SaveNeverAhead(file: string, cursor: int, sequence: nat, outcome: SaveOutcome)
    requires Forward.LoadCursor(file) <= cursor <= sequence
    ensures Forward.LoadCursor(Save(file, sequence, outcome)) <= sequence
    ensures outcome.Saved? && sequence <= Decimal.MAX_INT64 ==>
              Forward.LoadCursor(Save(file, sequence, outcome)) == sequence
  {
    var line := Forward.CursorLine(sequence);
    assert line[..|line|] == line;
    var kept := match outcome case Torn(length) => (if length <= |line| then length else 0) case _ => |line|;
    Decimal.TornLine(sequence, kept);
  }

  lemma {:induction false} HandleIs(s: State, window: Time, result: Forward.HandleResult, save: SaveOutcome)
    requires Incoming(s).Some? && !result.Failed?
    ensures var event, s' := Incoming(s).value, Next(s, window, Handle(result, save));
            && s'.world == s.world && s'.conn == s.conn && s'.dialed == s.dialed && s'.taken == s.taken + 1
            && s'.cursor == event.sequence && s'.file == Save(s.file, event.sequence, save)
            && s'.accepted == s.accepted + (if result.Done? then {event} else {})
            && s'.malformed == s.malformed + (if result.Skipped? then {event} else {})
  {
    hide Save;
  }

  lemma {:induction false} HandleOk(s: State, window: Time, first: int, result: Forward.HandleResult, save: SaveOutcome)
    requires Ok(s, window, first)
    ensures Ok(Next(s, window, Handle(result, save)), window, first)
  {
    hide Stream.WorldOk, Stream.AllWoken, NothingLost, Save;
    if Incoming(s).Some? && !result.Failed? {
      var event := Incoming(s).value;
      IncomingAhead(s, window, first);
      SaveNeverAhead(s.file, s.cursor, event.sequence, save);
      HandleLosesNothing(s, window, first, result, save);
    } else {
      SameSettled(s, Next(s, window, Handle(result, save)), first);
    }
  }

  lemma {:induction false} SameSettled(s: State, s': State, first: int)
    requires NothingLost(s, first) && s'.world == s.world && s'.cursor == s.cursor && s'.dialed == s.dialed
    requires s'.accepted == s.accepted && s'.malformed == s.malformed
    ensures NothingLost(s', first)
  {
    forall e | e in s'.world.log.rows && first < e.sequence <= s'.cursor ensures Settled(s', e) {
      assert Settled(s, e);
    }
  }

  /** The next message is a real event past the client's cursor. */
  lemma {:induction false} IncomingAhead(s: State, window: Time, first: int)
    requires Ok(s, window, first) && Incoming(s).Some?
    ensures s.cursor < Incoming(s).value.sequence && 1 <= Incoming(s).value.sequence <= |s.world.log.history|
  {
    hide Stream.Covered, Stream.BatchOk;
    var c, event := s.world.conns[s.conn.value], Incoming(s).value;
    ConnOf(s.world, window, s.conn.value);
    assert event in c.written && c.written[s.taken] == event;
    Stream.GaplessUnique(s.world.log.history, event, event);
  }

  lemma {:induction false} HandleLosesNothing(s: State, window: Time, first: int, result: Forward.HandleResult,
                                              save: SaveOutcome)
    requires Ok(s, window, first) && Incoming(s).Some? && !result.Failed?
    ensures NothingLost(Next(s, window, Handle(result, save)), first)
  {
    hide Ok, Save;
    var s', event := Next(s, window, Handle(result, save)), Incoming(s).value;
    forall e | e in s.world.log.rows && first < e.sequence <= event.sequence ensures Settled(s', e) {
      BetweenMessages(s, window, first, e);
    }
  }

  /** A stored event between the client's cursor and the next message can only be that message or
    * one the server passed over. */
  lemma {:induction false} BetweenMessages(s: State, window: Time, first: int, e: Event)
    requires Ok(s, window, first) && Incoming(s).Some?
    requires e in s.world.log.rows && first < e.sequence <= Incoming(s).value.sequence
    ensures e == Incoming(s).value || Settled(s, e)
  {
    hide Save, Stream.BatchOk, Stream.AllWoken, Stream.LogOk;
    if e.sequence > s.cursor {
      var c, event := s.world.conns[s.conn.value], Incoming(s).value;
      ConnOf(s.world, window, s.conn.value);
      assert event in c.written;
      assert s.taken > 0 ==> c.written[s.taken - 1] in c.written;
      assert c.start < e.sequence <= c.cursor;
      if e in c.written {
        var i :| 0 <= i < |c.written| && c.written[i] == e;
        assert i == s.taken;
      } else {
        assert e in c.skipped;
        assert PassedOver(s, e);
      }
    }
  }

  lemma {:induction false} DialOk(s: State, window: Time, first: int, id: int, cutoff: Time)
    requires Ok(s, window, first)
    ensures Ok(Next(s, window, Dial(id, cutoff)), window, first)
  {
    hide Stream.WorldOk, Stream.AllWoken;
    if s.conn.None? && id !in s.world.conns && s.cursor >= 0 {
      ServerOk(s, window, first, Stream.Connect(id, s.cursor, cutoff));
    }
  }

  /** Hanging up, and starting again from the file, which may move the cursor back. */
  lemma {:induction false} OfflineOk(s: State, window: Time, first: int, cursor: int)
    requires Ok(s, window, first) && Forward.LoadCursor(s.file) <= cursor <= s.cursor
    ensures Ok(s.(conn := None, cursor := cursor), window, first)
  {
    hide Stream.WorldOk, Stream.AllWoken;
    var s' := s.(conn := None, cursor := cursor);
    forall e | e in s'.world.log.rows && first < e.sequence <= s'.cursor ensures Settled(s', e) {
      assert Settled(s, e);
    }
  }

  lemma {:induction false} CursorCovered(s: State, window: Time, first: int)
    requires Ok(s, window, first)
    ensures Forward.LoadCursor(s.file) <= s.cursor
  {
  }

  lemma {:induction false} StartOk(window: Time, file: string)
    ensures Ok(Start(file), window, Forward.LoadCursor(file))
  {
  }

  lemma {:induction false} ReachableOk(steps: seq<Step>, window: Time, file: string)
    requires Guarded(steps, window, file)
    ensures Ok(Run(steps, window, file), window, Forward.LoadCursor(file))
  {
    hide Ok;
    if steps == [] {
      StartOk(window, file);
    } else {
      ReachableOk(Init(steps), window, file);
      var s, first := Run(Init(steps), window, file), Forward.LoadCursor(file);
      CursorCovered(s, window, first);
      match Last(steps) {
        case Server(step) => ServerOk(s, window, first, step);
        case Dial(id, cutoff) => DialOk(s, window, first, id, cutoff);
        case Handle(result, save) => HandleOk(s, window, first, result, save);
        case Hangup => OfflineOk(s, window, first, s.cursor);
        case Restart => OfflineOk(s, window, first, Forward.LoadCursor(s.file));
      }
    }
  }

  // ----- What the user is promised --------------------------------------------------------------

  /** Never lose a webhook, client side: over any run of drops, reconnects and restarts, every stored
    * event above the initial cursor and at or below the client's was accepted by the target, was
    * malformed, or was passed over as stale; and the saved cursor never runs ahead of the client. */
  lemma {:induction false} NeverLost(steps: seq<Step>, window: Time, file: string, e: Event)
    requires Guarded(steps, window, file)
    requires e in Run(steps, window, file).world.log.rows
    requires Forward.LoadCursor(file) < e.sequence <= Run(steps, window, file).cursor
    ensures Settled(Run(steps, window, file), e)
    ensures Forward.LoadCursor(Run(steps, window, file).file) <= Run(steps, window, file).cursor
  {
    ReachableOk(steps, window, file);
  }

  /** And when all is quiet nothing is owed: the client has handled all its connection wrote, the
    * connection waits on an empty channel, and no publish is pending. */
  lemma {:induction false} NothingOwedWhenQuiet(steps: seq<Step>, window: Time, file: string, id: int, e: Event)
    requires Guarded(steps, window, file)
    requires var s := Run(steps, window, file);
             && s.conn == Some(id) && id in s.world.conns && s.taken == |s.world.conns[id].written|
             && s.world.conns[id].phase.Waiting? && !s.world.conns[id].full
             && s.world.pending == multiset{}
             && e in s.world.log.rows && e.sequence > Forward.LoadCursor(file)
    ensures Settled(Run(steps, window, file), e)
  {
    hide Run, Guarded, Stream.BatchOk, Stream.LogOk;
    var s := Run(steps, window, file);
    var c := s.world.conns[id];
    ReachableOk(steps, window, file);
    assert Stream.Woken(s.world, c) && Stream.ConnOk(s.world.log, c);
    if e.sequence > s.cursor {
      assert e in c.written || e in c.skipped;
      if e in c.skipped {
        assert PassedOver(s, e);
      }
    }
  }

  // ----- The client's code is a run of these steps -------------------------------------------------

  /** The frame the server writes for an event; `payload` is the JSON it puts in the data field. */
  function FrameOf(e: Event, payload: Event -> string): Sse.Frame {
    Sse.Frame(e.sequence, e.source, payload(e))
  }

  /** The chunks sent are the written events in order, with keepalives between them. */
  ghost predicate Carries(chunks: seq<Sse.Chunk>, events: seq<Event>, payload: Event -> string) {
    var frames := Sse.Frames(chunks);
    |frames| == |events| && forall i :: 0 <= i < |events| ==> frames[i] == FrameOf(events[i], payload)
  }

  function SaveOf(saves: seq<bool>, i: nat): SaveOutcome {
    if i >= |saves| || saves[i] then Saved else NotSaved
  }

  /** The first `n` messages handled. */
  function Handled(s: State, window: Time, results: seq<Forward.HandleResult>, saves: seq<bool>, n: nat): State
    requires n <= |results|
  {
    if n == 0 then s
    else Next(Handled(s, window, results, saves, n - 1), window, Handle(results[n - 1], SaveOf(saves, n - 1)))
  }

  lemma {:induction false} HandledState(s: State, window: Time, results: seq<Forward.HandleResult>, saves: seq<bool>,
                                        n: nat, messages: seq<Sse.Msg>)
    requires s.conn.Some? && s.conn.value in s.world.conns && s.taken == 0
    requires n <= |results| && n <= |messages| && n <= |s.world.conns[s.conn.value].written|
    requires forall i :: 0 <= i < n ==> !results[i].Failed?
    requires forall i :: 0 <= i < n ==> Forward.IdOf(messages[i]) == s.world.conns[s.conn.value].written[i].sequence
    ensures var s' := Handled(s, window, results, saves, n);
            && s'.conn == s.conn && s'.world == s.world && s'.taken == n
            && s'.cursor == (if n == 0 then s.cursor else Forward.IdOf(messages[n - 1]))
            && s'.file == Forward.FileAfter(s.file, messages[..n], saves)
  {
    hide Forward.IdOf, Forward.CursorLine, Forward.FileAfter;
    Forward.FileStart(s.file, saves);
    if n == 0 {
      assert messages[..0] == [];
    } else {
      HandledState(s, window, results, saves, n - 1, messages);
      Forward.FileStep(s.file, messages[..n - 1], messages[n - 1], saves);
      assert messages[..n - 1] + [messages[n - 1]] == messages[..n];
      var before := Handled(s, window, results, saves, n - 1);
      HandleIs(before, window, results[n - 1], SaveOf(saves, n - 1));
      hide Next;
    }
  }

  /** Reading one connection's stream, cut off anywhere, is a run of Handle steps: the cursor and the file the client
    * is left with are those of the machine after one step for each message acknowledged. */
  lemma {:induction false} StreamIsHandles(s: State, window: Time, chunks: seq<Sse.Chunk>, payload: Event -> string,
                                           k: nat, results: seq<Forward.HandleResult>, saves: seq<bool>)
    requires s.conn.Some? && s.conn.value in s.world.conns && s.taken == 0
    requires Carries(chunks, s.world.conns[s.conn.value].written, payload)
    requires Sse.AllWellFormed(chunks) && k <= |Sse.Wire(chunks)|
    ensures var messages := Sse.Messages(Sse.Wire(chunks)[..k], map[]);
            var n := Forward.Acknowledged(results, |messages|);
            var s' := Handled(s, window, results, saves, n);
            && s'.taken == n && s'.conn == s.conn && s'.world == s.world
            && s'.cursor == (if n == 0 then s.cursor else Forward.IdOf(messages[n - 1]))
            && s'.file == Forward.FileAfter(s.file, messages[..n], saves)
  {
    hide Sse.Messages, Sse.Wire, Sse.Frames, Forward.IdOf, Handled, Forward.Acknowledged;
    var messages := Sse.Messages(Sse.Wire(chunks)[..k], map[]);
    var n := Forward.Acknowledged(results, |messages|);
    var written := s.world.conns[s.conn.value].written;
    forall i | 0 <= i < n ensures i < |written| && Forward.IdOf(messages[i]) == written[i].sequence {
      Forward.HandledIsSent(chunks, k, i);
    }
    if n > 0 {
      Forward.HandledIsSent(chunks, k, n - 1);
    }
    HandledState(s, window, results, saves, n, messages);
  }
}
