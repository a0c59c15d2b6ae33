/** The SSE handler's drains: read a batch past the cursor, emit what the filter keeps, repeat until
  * a read comes back empty. */
module Subscribe {
  import opened Common
  import opened Decimal
  import opened EventLog
  import Pubsub

  /** The response body of one connection. It takes `room` more messages and then fails, as a
    * disconnected client makes it fail. */
  class Wire {
    var written: seq<Event>
    var room: nat

    constructor (room: nat)
      ensures written == [] && this.room == room
    {
      written := [];
      this.room := room;
    }

    method WriteEvent(event: Event) returns (ok: bool)
      modifies this
      ensures ok == (old(room) > 0)
      ensures ok ==> written == old(written) + [event] && room == old(room) - 1
      ensures !ok ==> written == old(written) && room == old(room)
    {
      if room == 0 {
        return false;
      }
      written := written + [event];
      room := room - 1;
      return true;
    }
  }

  /** What happens just before one read of the table: other transactions commit rows, or the read
    * itself fails. */
  datatype ReadEnv = Commits(rows: seq<Event>) | StoreError

  const DEFAULT_BATCH_LIMIT := 1000

  datatype DrainEnd = CaughtUp | ReadFailed | WriteFailed

  function Committed(envs: seq<ReadEnv>): seq<Event> {
    if envs == [] then []
    else Committed(Init(envs)) + (if Last(envs).Commits? then Last(envs).rows else [])
  }

  /** The events of `events` that `keep` lets through, in order. */
  function Emitted(events: seq<Event>, keep: Event -> bool): seq<Event> {
    if events == [] then []
    else Emitted(Init(events), keep) + (if keep(Last(events)) then [Last(events)] else [])
  }

  function CursorAfter(start: int, done: seq<Event>): int {
    if done == [] then start else Last(done).sequence
  }

  /** Events read so far and events still to read make up the whole selection, even after commits. */
  lemma {:induction false} GrowSelection(seen: seq<Event>, more: seq<Event>, start: int, done: seq<Event>)
    requires Ordered(seen + more)
    requires Above(seen, start) == done + Above(seen, CursorAfter(start, done))
    ensures Above(seen + more, start) == done + Above(seen + more, CursorAfter(start, done))
  {
    var cursor := CursorAfter(start, done);
    AboveSplit(seen, more, start);
    AboveSplit(seen, more, cursor);
    if done != [] {
      assert Last(done) == Above(seen, start)[|done| - 1];
      LaterRowsAbove(seen, more, start, |done| - 1);
    }
  }

  lemma {:induction false} LaterRowsAbove(seen: seq<Event>, more: seq<Event>, start: int, k: nat)
    requires Ordered(seen + more) && k < |Above(seen, start)|
    ensures Above(more, Above(seen, start)[k].sequence) == more == Above(more, start)
  {
    AboveFacts(seen, start);
    var e := Above(seen, start)[k];
    assert e in Above(seen, start);
    var i :| 0 <= i < |seen| && seen[i] == e;
    forall j | 0 <= j < |more| ensures e.sequence < more[j].sequence {
      assert (seen + more)[i] == e && (seen + more)[|seen| + j] == more[j];
    }
    AboveAll(more, e.sequence);
    AboveAll(more, start);
  }

  /** The loop over one batch: the cursor moves on every event, kept or not, and before its write.
    * `before` is what the drain from `start` had consumed already and `base` what the wire held. */
  method EmitBatch(batch: seq<Event>, wire: Wire, entry: int, keep: Event -> bool,
                   ghost start: int, ghost before: seq<Event>, ghost base: seq<Event>)
    returns (ok: bool, cursor: int, ghost handled: seq<Event>)
    requires entry == CursorAfter(start, before) && wire.written == base + Emitted(before, keep)
    modifies wire
    ensures before <= handled <= before + batch && cursor == CursorAfter(start, handled)
    ensures ok ==> handled == before + batch && wire.written == base + Emitted(handled, keep)
    ensures !ok ==>
              && handled != [] && keep(Last(handled)) && wire.room == 0
              && wire.written == base + Emitted(Init(handled), keep)
    ensures |wire.written| + wire.room == |old(wire.written)| + old(wire.room)
  {
    hide Emitted;
    cursor := entry;
    handled := before;
    for i := 0 to |batch|
      invariant handled == before + batch[..i] && cursor == CursorAfter(start, handled)
      invariant wire.written == base + Emitted(handled, keep)
      invariant |wire.written| + wire.room == |old(wire.written)| + old(wire.room)
    {
      var event := batch[i];
      cursor := event.sequence;
      EmittedNext(handled, event, keep);
      handled := handled + [event];
      assert batch[..i + 1] == batch[..i] + [event];
      if keep(event) {
        var sent := wire.WriteEvent(event);
        if !sent {
          return false, cursor, handled;
        }
      }
    }
    assert batch[..|batch|] == batch;
    ok := true;
  }

  lemma {:induction false} EmittedNext(events: seq<Event>, event: Event, keep: Event -> bool)
    ensures Init(events + [event]) == events && Last(events + [event]) == event
    ensures Emitted(events + [event], keep) == Emitted(events, keep) + (if keep(event) then [event] else [])
  {
    assert Init(events + [event]) == events;
  }

  /** The table after the first `k` happenings. */
  function TableAt(rows: seq<Event>, envs: seq<ReadEnv>, k: nat): seq<Event>
    requires k <= |envs|
  {
    rows + Committed(envs[..k])
  }

  /** `handled` is what a drain from `start` has consumed of the table's selection so far. */
  ghost predicate Consumed(table: seq<Event>, start: int, handled: seq<Event>) {
    Above(table, start) == handled + Above(table, CursorAfter(start, handled))
  }

  /** Reads at most `batchLimit` rows at a time and advances the cursor over every row read, kept or
    * not. `seen` happenings precede the last read and `handled` is what was consumed. When the
    * drain ends caught up, the wire has gained exactly the kept rows above the starting cursor of
    * the table at that last read. A failed write stops at the failing row; nothing before it is lost. */
  method ReadBatchAndEmit(rows: seq<Event>, envs: seq<ReadEnv>, wire: Wire, start: int,
                          batchLimit: int, keep: Event -> bool)
    returns (end: DrainEnd, cursor: int, seen: nat, ghost handled: seq<Event>)
    requires Ordered(TableAt(rows, envs, |envs|))
    modifies wire
    ensures seen <= |envs|
    ensures handled <= Above(TableAt(rows, envs, seen), start) && cursor == CursorAfter(start, handled)
    ensures end.CaughtUp? ==> handled == Above(TableAt(rows, envs, seen), start)
    ensures !end.WriteFailed? ==> wire.written == old(wire.written) + Emitted(handled, keep)
    ensures end.WriteFailed? ==>
              && handled != [] && keep(Last(handled)) && wire.room == 0
              && wire.written == old(wire.written) + Emitted(Init(handled), keep)
    ensures end.ReadFailed? ==> seen < |envs| && envs[seen].StoreError?
    ensures |wire.written| + wire.room == |old(wire.written)| + old(wire.room)
  {
    hide Emitted, TableAt, Batch, Ordered;
    var table := rows;
    var k := 0;
    cursor := start;
    handled := [];
    DrainBegins(rows, envs, keep);
    OrderedPrefix(rows, envs, 0);
    while true
      invariant 0 <= k <= |envs| && table == TableAt(rows, envs, k) && Ordered(table)
      invariant Consumed(table, start, handled) && cursor == CursorAfter(start, handled)
      invariant wire.written == old(wire.written) + Emitted(handled, keep)
      invariant |wire.written| + wire.room == |old(wire.written)| + old(wire.room)
      decreases |envs| - k, |Above(table, cursor)|
    {
      if k < |envs| {
        if envs[k].StoreError? {
          return ReadFailed, cursor, k, handled;
        }
        Grow(rows, envs, k, start, handled);
        table := table + envs[k].rows;
        k := k + 1;
      }
      var batch := Batch(table, cursor, batchLimit);
      if |batch| == 0 {
        NothingLeft(table, start, handled, batchLimit);
        return CaughtUp, cursor, k, handled;
      }
      Advance(table, start, handled, batchLimit);
      var ok;
      ok, cursor, handled := EmitBatch(batch, wire, cursor, keep, start, handled, old(wire.written));
      if !ok {
        return WriteFailed, cursor, k, handled;
      }
    }
  }

  lemma {:induction false} DrainBegins(rows: seq<Event>, envs: seq<ReadEnv>, keep: Event -> bool)
    ensures TableAt(rows, envs, 0) == rows && Emitted([], keep) == []
  {
    assert Committed(envs[..0]) == [];
  }

  lemma {:induction false} NothingLeft(table: seq<Event>, start: int, handled: seq<Event>, limit: int)
    requires Consumed(table, start, handled) && Batch(table, CursorAfter(start, handled), limit) == []
    ensures handled == Above(table, start)
  {
    assert Above(table, CursorAfter(start, handled)) == [];
  }

  lemma {:induction false} Grow(rows: seq<Event>, envs: seq<ReadEnv>, k: nat, start: int, handled: seq<Event>)
    requires k < |envs| && envs[k].Commits? && Ordered(TableAt(rows, envs, |envs|))
    requires Consumed(TableAt(rows, envs, k), start, handled)
    ensures TableAt(rows, envs, k + 1) == TableAt(rows, envs, k) + envs[k].rows
    ensures Consumed(TableAt(rows, envs, k + 1), start, handled)
    ensures Ordered(TableAt(rows, envs, k + 1))
  {
    CommittedSplit(envs, k);
    OrderedPrefix(rows, envs, k + 1);
    assert TableAt(rows, envs, k + 1) == TableAt(rows, envs, k) + envs[k].rows;
    GrowSelection(TableAt(rows, envs, k), envs[k].rows, start, handled);
  }

  lemma {:induction false} Advance(table: seq<Event>, start: int, handled: seq<Event>, limit: int)
    requires Ordered(table) && Consumed(table, start, handled)
    requires Batch(table, CursorAfter(start, handled), limit) != []
    ensures var cursor := CursorAfter(start, handled);
            var batch := Batch(table, cursor, limit);
            && Consumed(table, start, handled + batch)
            && handled + batch <= Above(table, start)
            && |Above(table, CursorAfter(start, handled + batch))| < |Above(table, cursor)|
  {
    hide Batch, Above;
    var cursor := CursorAfter(start, handled);
    var batch := Batch(table, cursor, limit);
    var rest := Above(table, Last(batch).sequence);
    assert Above(table, cursor) == batch + rest by { BatchStep(table, cursor, limit); }
    assert Last(handled + batch) == Last(batch);
    assert handled + (batch + rest) == (handled + batch) + rest;
  }

  lemma {:induction false} BatchStep(table: seq<Event>, cursor: int, limit: int)
    requires Ordered(table) && Batch(table, cursor, limit) != []
    ensures var batch := Batch(table, cursor, limit);
            Above(table, cursor) == batch + Above(table, Last(batch).sequence)
  {
    var batch, pending := Batch(table, cursor, limit), Above(table, cursor);
    AboveDrop(table, cursor, |batch| - 1);
    assert pending == batch + pending[|batch|..];
  }

  /** The initial drain's filter: a positive provider time before the cutoff marks a stale event;
    * a missing or pre-epoch time passes. Whole seconds since the epoch decide "positive". */
  predicate Stale(event: Event, cutoff: Time) {
    event.providerTime >= SECOND && event.providerTime < cutoff
  }

  lemma {:induction false} CommittedSplit(envs: seq<ReadEnv>, k: nat)
    requires k < |envs|
    ensures Committed(envs[..k + 1]) == Committed(envs[..k]) + if envs[k].Commits? then envs[k].rows else []
  {
    assert Init(envs[..k + 1]) == envs[..k];
  }

  lemma {:induction false} OrderedPrefix(rows: seq<Event>, envs: seq<ReadEnv>, k: nat)
    requires k <= |envs| && Ordered(TableAt(rows, envs, |envs|))
    ensures Ordered(TableAt(rows, envs, k))
  {
    CommittedPrefix(envs, k);
    assert envs[..|envs|] == envs;
    var all, some := TableAt(rows, envs, |envs|), TableAt(rows, envs, k);
    assert forall i :: 0 <= i < |some| ==> some[i] == all[i];
  }

  lemma {:induction false} CommittedPrefix(envs: seq<ReadEnv>, k: nat)
    requires k <= |envs|
    ensures Committed(envs[..k]) <= Committed(envs)
  {
    if k < |envs| {
      CommittedPrefix(Init(envs), k);
      assert Init(envs)[..k] == envs[..k];
    } else {
      assert envs[..k] == envs;
    }
  }

  // ----- One connection --------------------------------------------------------------------------

  function NotStale(cutoff: Time): Event -> bool {
    e => !Stale(e, cutoff)
  }

  /** What a drain from `start` may come to over the table as of its last read: it consumed an initial stretch of the
    * rows past the cursor, all of them if it caught up, and at least the one whose write failed. */
  ghost predicate DrainOutcome(table: seq<Event>, start: int, handled: seq<Event>, end: DrainEnd) {
    && handled <= Above(table, start)
    && (end.CaughtUp? ==> handled == Above(table, start))
    && (end.WriteFailed? ==> handled != [])
  }

  /** Of what it consumed, a drain has written all but an event whose write failed. */
  function Sent(handled: seq<Event>, end: DrainEnd): seq<Event> {
    if end.WriteFailed? && handled != [] then Init(handled) else handled
  }

  /** On connect: stale rows are passed over, but the cursor still moves past them. */
  method InitialDrain(rows: seq<Event>, envs: seq<ReadEnv>, wire: Wire, start: int, batchLimit: int,
                      now: Time, skew: Time)
    returns (end: DrainEnd, cursor: int, seen: nat, ghost handled: seq<Event>)
    requires Ordered(TableAt(rows, envs, |envs|))
    modifies wire
    ensures seen <= |envs| && cursor == CursorAfter(start, handled)
    ensures DrainOutcome(TableAt(rows, envs, seen), start, handled, end)
    ensures wire.written == old(wire.written) + Emitted(Sent(handled, end), NotStale(now - skew))
    ensures end.WriteFailed? ==> wire.room == 0
    ensures end.CaughtUp? ==>
              forall e :: e in TableAt(rows, envs, seen) && e.sequence > start ==>
                (e in wire.written[|old(wire.written)|..] <==> e.providerTime < SECOND || e.providerTime >= now - skew)
  {
    end, cursor, seen, handled := ReadBatchAndEmit(rows, envs, wire, start, batchLimit, NotStale(now - skew));
    EmittedFacts(handled, NotStale(now - skew));
    AboveFacts(TableAt(rows, envs, seen), start);
    hide Emitted, Above, TableAt, Ordered;
    assert wire.written[|old(wire.written)|..] == Emitted(Sent(handled, end), NotStale(now - skew));
  }

  /** On a signal or a keepalive tick: everything past the cursor is written. */
  method LiveDrain(rows: seq<Event>, envs: seq<ReadEnv>, wire: Wire, start: int, batchLimit: int)
    returns (end: DrainEnd, cursor: int, seen: nat, ghost handled: seq<Event>)
    requires Ordered(TableAt(rows, envs, |envs|))
    modifies wire
    ensures seen <= |envs| && cursor == CursorAfter(start, handled)
    ensures DrainOutcome(TableAt(rows, envs, seen), start, handled, end)
    ensures wire.written == old(wire.written) + Sent(handled, end)
    ensures end.WriteFailed? ==> wire.room == 0
  {
    end, cursor, seen, handled := ReadBatchAndEmit(rows, envs, wire, start, batchLimit, KeepAll);
    EmittedAll(handled);
    if handled != [] {
      EmittedAll(Init(handled));
    }
  }

  /** What the select of an open connection picks next; when the script runs out the client has gone. */
  datatype Trigger = Signal | ChannelClosed | Tick(writeFails: bool) | ClientGone

  datatype StreamEnd = Cancelled | NotifierClosed | KeepaliveFailed | DrainFailed(drain: DrainEnd)

  /** What a connection has written after consuming `first` in its initial drain and `later` in live ones; a failed
    * write is of the last event consumed. */
  function Wrote(first: seq<Event>, later: seq<Event>, keep: Event -> bool, end: StreamEnd): seq<Event> {
    if end != DrainFailed(WriteFailed) || first + later == [] then Emitted(first, keep) + later
    else if later == [] then Emitted(Init(first), keep)
    else Emitted(first, keep) + Init(later)
  }

  /** What a connection from `start` may come to, over the tables as of the last reads of its initial drain and of its
    * life: it consumed `first` and then `later`, an initial stretch of the rows past the cursor, all of them unless a
    * drain failed, and nothing later unless the initial drain ended caught up. */
  ghost predicate ConnOutcome(atOpening: seq<Event>, atEnd: seq<Event>, start: int, first: seq<Event>,
                              later: seq<Event>, end: StreamEnd) {
    && first <= Above(atOpening, start) && first + later <= Above(atEnd, start)
    && (!end.DrainFailed? || later != [] ==> first == Above(atOpening, start))
    && (!end.DrainFailed? ==> first + later == Above(atEnd, start))
    && (end.DrainFailed? ==> !end.drain.CaughtUp?)
    && (end == DrainFailed(WriteFailed) ==> first + later != [])
  }

  /** A connection from subscribe to disconnect. `envs[..opening]` happened before the last read of the initial drain
    * and `envs[..seen]` before the last read of all. What is consumed is an initial stretch of the rows past the
    * starting cursor, all of them unless a drain failed: `first` by the initial drain, `later` after it. What is
    * written is `first` less the stale rows, then `later`, each row once, in order. */
  method StreamEvents(notifier: Pubsub.Notifier, source: string, rows: seq<Event>, envs: seq<ReadEnv>, wire: Wire,
                      start: int, limit: int, now: Time, skew: Time, script: seq<Trigger>)
    returns (end: StreamEnd, opening: nat, seen: nat, ghost first: seq<Event>, ghost later: seq<Event>)
    requires Ordered(TableAt(rows, envs, |envs|)) && notifier.Valid()
    modifies wire, notifier`subs
    ensures notifier.Valid() && notifier.Subscribers(source) == old(notifier.Subscribers(source))
    ensures opening <= seen <= |envs|
    ensures ConnOutcome(TableAt(rows, envs, opening), TableAt(rows, envs, seen), start, first, later, end)
    ensures wire.written == old(wire.written) + Wrote(first, later, NotStale(now - skew), end)
    ensures end == DrainFailed(WriteFailed) ==> wire.room == 0
  {
    hide Emitted, TableAt, Ordered, NotStale, CursorAfter, Above, Wrote, ConnOutcome;
    var batchLimit := if limit <= 0 then DEFAULT_BATCH_LIMIT else limit;
    var ch := notifier.Subscribe(source);
    var drain, cursor;
    drain, cursor, opening, first := InitialDrain(rows, envs, wire, start, batchLimit, now, skew);
    seen, later := opening, [];
    end := EndOf(drain);
    OutcomeBegins(TableAt(rows, envs, opening), start, first, drain);
    WroteFirst(first, NotStale(now - skew), end);
    var i, open := 0, drain.CaughtUp?;
    while i < |script| && open
      invariant opening <= seen <= |envs| && i <= |script| && (open ==> end.Cancelled?)
      invariant notifier.Valid() && notifier.Subscribers(source) == old(notifier.Subscribers(source)) + {ch}
      invariant ConnOutcome(TableAt(rows, envs, opening), TableAt(rows, envs, seen), start, first, later, end)
      invariant open ==> cursor == CursorAfter(start, first + later)
      invariant wire.written == old(wire.written) + Wrote(first, later, NotStale(now - skew), end)
      invariant end == DrainFailed(WriteFailed) ==> wire.room == 0
    {
      var trigger := script[i];
      i := i + 1;
      if trigger.ClientGone? {
        open := false;
      } else if trigger.ChannelClosed? || trigger == Tick(true) {
        OutcomeEnds(TableAt(rows, envs, opening), TableAt(rows, envs, seen), start, first, later);
        WroteEnded(first, later, NotStale(now - skew));
        end, open := if trigger.ChannelClosed? then NotifierClosed else KeepaliveFailed, false;
      } else {
        Resume(rows, envs, seen);
        var more;
        ghost var handled;
        drain, cursor, more, handled := LiveDrain(TableAt(rows, envs, seen), envs[seen..], wire, cursor, batchLimit);
        end, open := EndOf(drain), drain.CaughtUp?;
        ConsumedOn(rows, envs, TableAt(rows, envs, opening), seen, more, start, first, later, handled, drain);
        WroteLater(old(wire.written), first, later, handled, NotStale(now - skew), end);
        seen, later := seen + more, later + handled;
      }
    }
    notifier.Unsubscribe(source, ch);
  }

  lemma {:induction false} WroteFirst(first: seq<Event>, keep: Event -> bool, end: StreamEnd)
    ensures Wrote(first, [], keep, end) ==
              if end == DrainFailed(WriteFailed) && first != [] then Emitted(Init(first), keep)
              else Emitted(first, keep)
    ensures first + [] == first
  {
    hide Emitted;
    assert first + [] == first;
    assert Emitted(first, keep) + [] == Emitted(first, keep);
  }

  lemma {:induction false} WroteEnded(first: seq<Event>, later: seq<Event>, keep: Event -> bool)
    ensures Wrote(first, later, keep, NotifierClosed) == Wrote(first, later, keep, Cancelled)
    ensures Wrote(first, later, keep, KeepaliveFailed) == Wrote(first, later, keep, Cancelled)
  {
    hide Emitted;
  }

  lemma {:induction false} WroteLater(base: seq<Event>, first: seq<Event>, later: seq<Event>, handled: seq<Event>,
                                      keep: Event -> bool, end: StreamEnd)
    requires end == DrainFailed(WriteFailed) ==> handled != []
    ensures base + Wrote(first, later + handled, keep, end) ==
              (base + Wrote(first, later, keep, Cancelled))
                + (if end == DrainFailed(WriteFailed) then Init(handled) else handled)
  {
    hide Emitted;
    if end == DrainFailed(WriteFailed) {
      assert Init(later + handled) == later + Init(handled);
    }
  }

  /** How a drain's end ends the connection, if it does. */
  function EndOf(drain: DrainEnd): StreamEnd {
    if drain.CaughtUp? then Cancelled else DrainFailed(drain)
  }

  lemma {:induction false} OutcomeBegins(table: seq<Event>, start: int, first: seq<Event>, drain: DrainEnd)
    requires DrainOutcome(table, start, first, drain)
    ensures ConnOutcome(table, table, start, first, [], EndOf(drain))
  {
    hide Above;
    assert first + [] == first;
  }

  lemma {:induction false} OutcomeEnds(atOpening: seq<Event>, atEnd: seq<Event>, start: int, first: seq<Event>,
                                       later: seq<Event>)
    requires ConnOutcome(atOpening, atEnd, start, first, later, Cancelled)
    ensures ConnOutcome(atOpening, atEnd, start, first, later, NotifierClosed)
    ensures ConnOutcome(atOpening, atEnd, start, first, later, KeepaliveFailed)
  {
    hide Above;
  }

  /** Consuming on is consuming a longer stretch. */
  lemma {:induction false} ConsumedOn(rows: seq<Event>, envs: seq<ReadEnv>, atOpening: seq<Event>, seen: nat, more: nat,
                                      start: int, first: seq<Event>, later: seq<Event>, handled: seq<Event>,
                                      drain: DrainEnd)
    requires seen + more <= |envs| && Ordered(TableAt(rows, envs, |envs|))
    requires ConnOutcome(atOpening, TableAt(rows, envs, seen), start, first, later, Cancelled)
    requires DrainOutcome(TableAt(TableAt(rows, envs, seen), envs[seen..], more), CursorAfter(start, first + later),
                          handled, drain)
    ensures ConnOutcome(atOpening, TableAt(rows, envs, seen + more), start, first, later + handled, EndOf(drain))
    ensures CursorAfter(CursorAfter(start, first + later), handled) == CursorAfter(start, first + (later + handled))
  {
    hide Above, Ordered, TableAt;
    Continue(rows, envs, seen, more, start);
    assert first + (later + handled) == (first + later) + handled;
    if handled == [] {
      assert (first + later) + handled == first + later;
    }
  }

  /** The table a later drain sees is the one the earlier drains left, with the rest of the happenings to come. */
  lemma {:induction false} TableSplit(rows: seq<Event>, envs: seq<ReadEnv>, k: nat, j: nat)
    requires k + j <= |envs|
    ensures TableAt(TableAt(rows, envs, k), envs[k..], j) == TableAt(rows, envs, k + j)
  {
    CommittedJoin(envs, k, j);
  }

  lemma {:induction false} CommittedJoin(envs: seq<ReadEnv>, k: nat, j: nat)
    requires k + j <= |envs|
    ensures Committed(envs[..k + j]) == Committed(envs[..k]) + Committed(envs[k..][..j])
  {
    var tail := envs[k..];
    if j > 0 {
      CommittedJoin(envs, k, j - 1);
      CommittedSplit(envs, k + j - 1);
      CommittedSplit(tail, j - 1);
      assert tail[j - 1] == envs[k + j - 1];
    } else {
      assert Committed(tail[..0]) == [];
    }
  }

  lemma {:induction false} Resume(rows: seq<Event>, envs: seq<ReadEnv>, k: nat)
    requires k <= |envs| && Ordered(TableAt(rows, envs, |envs|))
    ensures Ordered(TableAt(TableAt(rows, envs, k), envs[k..], |envs[k..]|))
  {
    TableSplit(rows, envs, k, |envs| - k);
  }

  lemma {:induction false} NothingNew(rows: seq<Event>, envs: seq<ReadEnv>, k: nat, start: int)
    requires k <= |envs| && Ordered(TableAt(rows, envs, |envs|))
    ensures var table := TableAt(rows, envs, k);
            var cursor := CursorAfter(start, Above(table, start));
            Above(table, cursor) == [] && CursorAfter(cursor, []) == cursor
  {
    hide TableAt;
    OrderedPrefix(rows, envs, k);
    var above := Above(TableAt(rows, envs, k), start);
    if above != [] {
      AboveDrop(TableAt(rows, envs, k), start, |above| - 1);
    }
  }

  /** Draining on from where the last drain stopped is draining from where the connection stood. */
  lemma {:induction false} Continue(rows: seq<Event>, envs: seq<ReadEnv>, k: nat, more: nat, entry: int)
    requires k + more <= |envs| && Ordered(TableAt(rows, envs, |envs|))
    ensures TableAt(TableAt(rows, envs, k), envs[k..], more) == TableAt(rows, envs, k + more)
    ensures var a := Above(TableAt(rows, envs, k), entry);
            var b := Above(TableAt(rows, envs, k + more), CursorAfter(entry, a));
            && Above(TableAt(rows, envs, k + more), entry) == a + b
            && CursorAfter(CursorAfter(entry, a), b) == CursorAfter(entry, a + b)
  {
    hide Above, Ordered;
    TableSplit(rows, envs, k, more);
    OrderedPrefix(rows, envs, k + more);
    NothingNew(rows, envs, k, entry);
    var seen, grown := TableAt(rows, envs, k), TableAt(rows, envs, k + more);
    var rest := Committed(envs[k..][..more]);
    assert grown == seen + rest;
    hide TableAt;
    GrowSelection(seen, rest, entry, Above(seen, entry));
  }

  /** The live drain's filter lets everything through. */
  predicate KeepAll(event: Event) {
    true
  }

  lemma {:induction false} EmittedAll(events: seq<Event>)
    ensures Emitted(events, KeepAll) == events
  {
    if events != [] {
      EmittedAll(Init(events));
      assert events == Init(events) + [Last(events)];
    }
  }

  /** What an emitting drain writes: exactly the kept events, each once, in the order given. */
  lemma {:induction false} EmittedFacts(events: seq<Event>, keep: Event -> bool)
    ensures forall e :: e in Emitted(events, keep) <==> e in events && keep(e)
    ensures Ordered(events) ==> Ordered(Emitted(events, keep))
  {
    if events != [] {
      EmittedFacts(Init(events), keep);
      var kept := Emitted(Init(events), keep);
      assert events == Init(events) + [Last(events)];
      if Ordered(events) {
        forall i | 0 <= i < |kept| ensures kept[i].sequence < Last(events).sequence {
          assert kept[i] in Init(events);
        }
      }
    }
  }

  /** The starting cursor of a request; None is HTTP 400. `since` and the Last-Event-ID header are
    * empty when absent, and the larger wins so a reconnect cannot regress. */
  function ParseCursor(since: string, lastEventId: string, latest: nat): (cursor: Option<int>)
    ensures cursor.Some? ==>
              && cursor.value >= 0
              && (since == "latest" ==> cursor.value >= latest)
              && (since != "" && since != "latest" ==> ParseInt(since).ok && cursor.value >= ParseInt(since).n)
              && (lastEventId != "" ==> ParseInt(lastEventId).ok && cursor.value >= ParseInt(lastEventId).n)
              && (|| cursor.value == (if since == "" then 0 else if since == "latest" then latest
                                      else ParseInt(since).n)
                  || (lastEventId != "" && cursor.value == ParseInt(lastEventId).n))
    ensures cursor.None? <==>
              || (since != "" && since != "latest" && (!ParseInt(since).ok || ParseInt(since).n < 0))
              || (lastEventId != "" && !ParseInt(lastEventId).ok)
  {
    var n := ParseInt(since);
    if since != "" && since != "latest" && (!n.ok || n.n < 0) then None
    else
      var cursor := if since == "" then 0 else if since == "latest" then latest else n.n;
      if lastEventId == "" then Some(cursor)
      else
        var m := ParseInt(lastEventId);
        if !m.ok then None
        else Some(if m.n > cursor then m.n else cursor)
  }
}
