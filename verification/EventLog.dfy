/** The durable event log: the `events` table and the statements the store runs on it.
  *
  * The rows of one source are kept as a sequence in commit order. Transactions are serial, so an
  * append is one step that reads the duplicate check, reads MAX(sequence) and inserts. */
module EventLog {
  import opened Common

  datatype Event = Event(source: string, sequence: int, deliveryId: string, providerTime: Time,
                         receivedAt: Time, headers: map<string, string>, body: seq<bv8>)

  datatype AppendInput = AppendInput(source: string, deliveryId: string, providerTime: Time,
                                     headers: map<string, string>, body: seq<bv8>)

  datatype AppendError = EmptySource | EmptyDeliveryId | Duplicate

  datatype AppendResult = Appended(event: Event) | Refused(error: AppendError)

  const DEFAULT_BATCH := 1000

  // ----- The meaning of the SQL statements ---------------------------------------------------

  /** SELECT COALESCE(MAX(sequence), 0). */
  function MaxSequence(rows: seq<Event>): (m: int)
    ensures rows == [] ==> m == 0
    ensures rows != [] ==> exists i :: 0 <= i < |rows| && rows[i].sequence == m
    ensures forall i :: 0 <= i < |rows| ==> rows[i].sequence <= m
  {
    if rows == [] then 0
    else if |rows| == 1 then rows[0].sequence
    else
      var m := MaxSequence(Init(rows));
      if m < Last(rows).sequence then Last(rows).sequence else m
  }

  function NextSequence(rows: seq<Event>): int {
    MaxSequence(rows) + 1
  }

  /** Whether the duplicate check finds a row. */
  predicate HasDuplicate(rows: seq<Event>, deliveryId: string, cutoff: Time) {
    exists i :: 0 <= i < |rows| && rows[i].deliveryId == deliveryId && rows[i].receivedAt >= cutoff
  }

  /** WHERE sequence > cursor. */
  function Above(rows: seq<Event>, cursor: int): seq<Event> {
    if rows == [] then []
    else Above(Init(rows), cursor) + (if Last(rows).sequence > cursor then [Last(rows)] else [])
  }

  /** What DELETE ... WHERE received_at < cutoff leaves behind. */
  function Retained(rows: seq<Event>, cutoff: Time): seq<Event> {
    if rows == [] then []
    else Retained(Init(rows), cutoff) + (if Last(rows).receivedAt < cutoff then [] else [Last(rows)])
  }

  function EffectiveLimit(limit: int): (n: nat) {
    if limit <= 0 then DEFAULT_BATCH else limit
  }

  function Take<T>(s: seq<T>, n: nat): seq<T> {
    if |s| <= n then s else s[..n]
  }

  function Batch(rows: seq<Event>, cursor: int, limit: int): seq<Event> {
    Take(Above(rows, cursor), EffectiveLimit(limit))
  }

  // ----- What makes a table well formed ------------------------------------------------------

  /** Sequences are positive and strictly increase along commit order. */
  ghost predicate Ordered(rows: seq<Event>) {
    && (forall i :: 0 <= i < |rows| ==> rows[i].sequence >= 1)
    && (forall i, j :: 0 <= i < j < |rows| ==> rows[i].sequence < rows[j].sequence)
  }

  /** Two rows with one delivery id were received more than `window` apart, the later committed
    * one later. */
  ghost predicate Spaced(rows: seq<Event>, window: Time) {
    forall i, j :: 0 <= i < j < |rows| && rows[i].deliveryId == rows[j].deliveryId ==>
      rows[j].receivedAt - rows[i].receivedAt > window
  }

  /** A prune at `cutoff` leaves the newest row of the source in place. */
  predicate NewestKept(rows: seq<Event>, cutoff: Time) {
    rows != [] ==> Last(rows).receivedAt >= cutoff
  }

  lemma {:induction false} MaxIsLast(rows: seq<Event>)
    requires Ordered(rows)
    ensures MaxSequence(rows) == if rows == [] then 0 else Last(rows).sequence
  {
  }

  lemma {:induction false} RetainedMembers(rows: seq<Event>, cutoff: Time)
    ensures forall e :: e in Retained(rows, cutoff) <==> e in rows && e.receivedAt >= cutoff
  {
    if rows != [] {
      RetainedMembers(Init(rows), cutoff);
      assert rows == Init(rows) + [Last(rows)];
    }
  }

  lemma {:induction false} RetainedOrdered(rows: seq<Event>, cutoff: Time)
    requires Ordered(rows)
    ensures Ordered(Retained(rows, cutoff))
  {
    if rows != [] {
      var kept := Retained(Init(rows), cutoff);
      RetainedOrdered(Init(rows), cutoff);
      RetainedMembers(Init(rows), cutoff);
      forall i | 0 <= i < |kept| ensures kept[i].sequence < Last(rows).sequence {
        assert kept[i] in Init(rows);
      }
    }
  }

  lemma {:induction false} RetainedSpaced(rows: seq<Event>, cutoff: Time, window: Time)
    requires Spaced(rows, window)
    ensures Spaced(Retained(rows, cutoff), window)
  {
    if rows != [] {
      var kept := Retained(Init(rows), cutoff);
      RetainedSpaced(Init(rows), cutoff, window);
      RetainedMembers(Init(rows), cutoff);
      forall i | 0 <= i < |kept| && kept[i].deliveryId == Last(rows).deliveryId
        ensures Last(rows).receivedAt - kept[i].receivedAt > window
      {
        assert kept[i] in Init(rows);
      }
    }
  }

  /** A prune that spares the newest row leaves the next sequence number alone. */
  lemma {:induction false} RetainedMax(rows: seq<Event>, cutoff: Time)
    requires Ordered(rows) && NewestKept(rows, cutoff)
    ensures MaxSequence(Retained(rows, cutoff)) == MaxSequence(rows)
  {
    RetainedOrdered(rows, cutoff);
    MaxIsLast(rows);
    MaxIsLast(Retained(rows, cutoff));
  }

  /** On an ordered table, WHERE sequence > cursor selects exactly those rows and keeps them in
    * sequence order, so ORDER BY sequence ASC has nothing left to do. */
  lemma {:induction false} AboveFacts(rows: seq<Event>, cursor: int)
    ensures forall e :: e in Above(rows, cursor) <==> e in rows && e.sequence > cursor
    ensures Ordered(rows) ==> Ordered(Above(rows, cursor))
  {
    if rows != [] {
      AboveFacts(Init(rows), cursor);
      assert rows == Init(rows) + [Last(rows)];
      var above := Above(Init(rows), cursor);
      if Ordered(rows) {
        forall i | 0 <= i < |above| ensures above[i].sequence < Last(rows).sequence {
          assert above[i] in above && above[i] in Init(rows);
        }
        OrderedAppend(above, Last(rows));
      }
    }
  }

  lemma {:induction false} OrderedAppend(rows: seq<Event>, row: Event)
    requires Ordered(rows) && row.sequence >= 1
    requires forall i :: 0 <= i < |rows| ==> rows[i].sequence < row.sequence
    ensures Ordered(rows + [row])
  {
  }

  lemma {:induction false} AboveSplit(rows: seq<Event>, more: seq<Event>, cursor: int)
    ensures Above(rows + more, cursor) == Above(rows, cursor) + Above(more, cursor)
  {
    if more == [] {
      assert rows + more == rows;
    } else {
      var all := rows + more;
      AboveSplit(rows, Init(more), cursor);
      assert Init(all) == rows + Init(more);
      assert Last(all) == Last(more);
      var tail := if Last(more).sequence > cursor then [Last(more)] else [];
      assert Above(all, cursor) == (Above(rows, cursor) + Above(Init(more), cursor)) + tail;
    }
  }

  /** Reading past the k-th selected row is the same as dropping the rows up to it. */
  lemma {:induction false} AboveDrop(rows: seq<Event>, cursor: int, k: nat)
    requires Ordered(rows) && k < |Above(rows, cursor)|
    ensures Above(rows, Above(rows, cursor)[k].sequence) == Above(rows, cursor)[k + 1..]
  {
    var above := Above(rows, cursor);
    assert Ordered(above) && above[k].sequence > cursor by {
      AboveFacts(rows, cursor);
      assert above[k] in above;
    }
    AboveNested(rows, cursor, above[k].sequence);
    AboveOwnRow(above, k);
  }

  lemma {:induction false} AboveOwnRow(rows: seq<Event>, k: nat)
    requires Ordered(rows) && k < |rows|
    ensures Above(rows, rows[k].sequence) == rows[k + 1..]
  {
    var low, high := rows[..k + 1], rows[k + 1..];
    assert rows == low + high;
    AboveSplit(low, high, rows[k].sequence);
    AboveNone(low, rows[k].sequence);
    AboveAll(high, rows[k].sequence);
  }

  lemma {:induction false} AboveNested(rows: seq<Event>, low: int, high: int)
    requires low <= high
    ensures Above(Above(rows, low), high) == Above(rows, high)
  {
    if rows != [] {
      AboveNested(Init(rows), low, high);
      AboveSplit(Above(Init(rows), low), if Last(rows).sequence > low then [Last(rows)] else [], high);
    }
  }

  lemma {:induction false} AboveNone(rows: seq<Event>, cursor: int)
    requires forall i :: 0 <= i < |rows| ==> rows[i].sequence <= cursor
    ensures Above(rows, cursor) == []
  {
    if rows != [] {
      AboveNone(Init(rows), cursor);
    }
  }

  lemma {:induction false} AboveAll(rows: seq<Event>, cursor: int)
    requires forall i :: 0 <= i < |rows| ==> rows[i].sequence > cursor
    ensures Above(rows, cursor) == rows
  {
    if rows != [] {
      AboveAll(Init(rows), cursor);
      assert Above(rows, cursor) == Init(rows) + [Last(rows)];
      hide Above;
      InitLast(rows);
    }
  }

  /** What a read returns on an ordered table: stored rows past the cursor, in order, with none left out up to
    * the last of them; nothing only when nothing lies past the cursor. */
  lemma {:induction false} BatchFacts(rows: seq<Event>, cursor: int, limit: int)
    ensures var batch := Batch(rows, cursor, limit);
            && (Ordered(rows) ==> Ordered(batch))
            && (forall e :: e in batch ==> e in rows && e.sequence > cursor)
            && (batch == [] ==> forall e :: e in rows ==> e.sequence <= cursor)
            && (Ordered(rows) && batch != [] ==>
                 forall e :: e in rows && cursor < e.sequence <= Last(batch).sequence ==> e in batch)
  {
    AboveFacts(rows, cursor);
    hide Above;
    var above, batch := Above(rows, cursor), Batch(rows, cursor, limit);
    assert batch <= above && (batch == [] ==> above == []);
    if Ordered(rows) && batch != [] {
      forall e | e in rows && cursor < e.sequence <= Last(batch).sequence ensures e in batch {
        var i :| 0 <= i < |above| && above[i] == e;
        assert Last(batch) == above[|batch| - 1];
      }
    }
  }

  /** Nothing past the cursor comes before the first row of a batch. */
  lemma {:induction false} BatchFirst(rows: seq<Event>, cursor: int, limit: int)
    requires Ordered(rows) && Batch(rows, cursor, limit) != []
    ensures var first := Batch(rows, cursor, limit)[0];
            && first in rows && first.sequence > cursor
            && forall e :: e in rows && e.sequence > cursor ==> e.sequence >= first.sequence
  {
    BatchFacts(rows, cursor, limit);
    hide Batch;
    var batch := Batch(rows, cursor, limit);
    assert Last(batch) in batch && batch[0] in batch;
    forall e | e in rows && e.sequence > cursor ensures e.sequence >= batch[0].sequence {
      if e.sequence <= Last(batch).sequence {
        var i :| 0 <= i < |batch| && batch[i] == e;
      }
    }
  }

  // ----- Append and prune as steps of one source's table ---------------------------------------

  function Row(input: AppendInput, sequence: int, now: Time): Event {
    Event(input.source, sequence, input.deliveryId, input.providerTime, now, input.headers, input.body)
  }

  /** The append transaction: validate, refuse a duplicate inside the window, else insert MAX + 1. */
  function AppendOutcome(rows: seq<Event>, window: Time, input: AppendInput, now: Time): AppendResult {
    if input.source == "" then Refused(EmptySource)
    else if input.deliveryId == "" then Refused(EmptyDeliveryId)
    else if HasDuplicate(rows, input.deliveryId, now - window) then Refused(Duplicate)
    else Appended(Row(input, NextSequence(rows), now))
  }

  function AfterAppend(rows: seq<Event>, window: Time, input: AppendInput, now: Time): seq<Event> {
    match AppendOutcome(rows, window, input, now)
    case Appended(event) => rows + [event]
    case Refused(_) => rows
  }

  lemma {:induction false} AppendKeepsInvariants(rows: seq<Event>, window: Time, input: AppendInput, now: Time)
    requires Ordered(rows) && Spaced(rows, window)
    ensures Ordered(AfterAppend(rows, window, input, now))
    ensures Spaced(AfterAppend(rows, window, input, now), window)
    ensures AppendOutcome(rows, window, input, now).Appended? ==>
              MaxSequence(AfterAppend(rows, window, input, now)) == MaxSequence(rows) + 1
  {
    var after := AfterAppend(rows, window, input, now);
    if after != rows {
      var newest := Last(after);
      assert after == rows + [newest];
      assert newest.sequence >= 1 by { MaxIsLast(rows); }
      assert Ordered(after);
      MaxIsLast(after);
    }
  }

  /** A stored row with this delivery id was received no more than the window before `now`. */
  predicate Repeated(rows: seq<Event>, window: Time, deliveryId: string, now: Time) {
    exists e :: e in rows && e.deliveryId == deliveryId && now - e.receivedAt <= window
  }

  /** What an append comes to: what it refuses, and that a read from the previous maximum then finds exactly what was
    * handed in, under the next number. */
  lemma {:induction false} AppendMeans(rows: seq<Event>, window: Time, input: AppendInput, now: Time)
    ensures var outcome, after := AppendOutcome(rows, window, input, now), AfterAppend(rows, window, input, now);
            && (outcome == Refused(EmptySource) <==> input.source == "")
            && (outcome == Refused(EmptyDeliveryId) <==> input.source != "" && input.deliveryId == "")
            && (outcome == Refused(Duplicate) <==>
                  input.source != "" && input.deliveryId != "" && Repeated(rows, window, input.deliveryId, now))
            && (outcome.Refused? ==> after == rows)
            && (outcome.Appended? ==>
                  var e := outcome.event;
                  && after == rows + [e] && Above(after, MaxSequence(rows)) == [e]
                  && e.sequence == MaxSequence(rows) + 1 && e.source == input.source
                  && e.deliveryId == input.deliveryId && e.providerTime == input.providerTime
                  && e.receivedAt == now && e.headers == input.headers && e.body == input.body)
  {
    DuplicateIs(rows, window, input.deliveryId, now);
    var outcome := AppendOutcome(rows, window, input, now);
    if outcome.Appended? {
      AboveNone(rows, MaxSequence(rows));
      AboveSplit(rows, [outcome.event], MaxSequence(rows));
      AboveAll([outcome.event], MaxSequence(rows));
    }
    hide HasDuplicate, Repeated, Above, MaxSequence;
  }

  lemma {:induction false} DuplicateIs(rows: seq<Event>, window: Time, deliveryId: string, now: Time)
    ensures HasDuplicate(rows, deliveryId, now - window) <==> Repeated(rows, window, deliveryId, now)
  {
    if HasDuplicate(rows, deliveryId, now - window) {
      var i :| 0 <= i < |rows| && rows[i].deliveryId == deliveryId && rows[i].receivedAt >= now - window;
      assert rows[i] in rows;
    }
  }

  datatype LogOp = AppendOp(input: AppendInput, now: Time) | PruneOp(cutoff: Time)

  /** The table together with every row ever committed to it, in commit order. */
  datatype Log = Log(rows: seq<Event>, history: seq<Event>)

  function Apply(log: Log, window: Time, op: LogOp): Log {
    match op
    case PruneOp(cutoff) => log.(rows := Retained(log.rows, cutoff))
    case AppendOp(input, now) =>
      match AppendOutcome(log.rows, window, input, now)
      case Appended(event) => Log(log.rows + [event], log.history + [event])
      case Refused(_) => log
  }

  /** Every stored row past the cursor is among `pending`. */
  ghost predicate AllPending(rows: seq<Event>, cursor: int, pending: multiset<int>) {
    forall e :: e in rows && e.sequence > cursor ==> e.sequence in pending
  }

  lemma {:induction false} PendingAfterAppend(log: Log, window: Time, input: AppendInput, now: Time, cursor: int,
                                              pending: multiset<int>)
    requires AllPending(log.rows, cursor, pending)
    ensures var log' := Apply(log, window, AppendOp(input, now));
            log' != log ==>
              log'.history != [] && AllPending(log'.rows, cursor, pending + multiset{Last(log'.history).sequence})
  {
  }

  lemma {:induction false} PendingAfterPrune(log: Log, window: Time, cutoff: Time, cursor: int, pending: multiset<int>)
    requires AllPending(log.rows, cursor, pending)
    ensures AllPending(Apply(log, window, PruneOp(cutoff)).rows, cursor, pending)
  {
    RetainedMembers(log.rows, cutoff);
  }

  lemma {:induction false} NothingPendingAfterEmptyRead(rows: seq<Event>, cursor: int, limit: int,
                                                        pending: multiset<int>)
    requires Batch(rows, cursor, limit) == []
    ensures AllPending(rows, cursor, pending)
  {
    BatchFacts(rows, cursor, limit);
  }

  function Replay(ops: seq<LogOp>, window: Time): Log {
    if ops == [] then Log([], []) else Apply(Replay(Init(ops), window), window, Last(ops))
  }

  /** Sequences 1, 2, 3, ... with no gap. */
  ghost predicate Gapless(events: seq<Event>) {
    forall i :: 0 <= i < |events| ==> events[i].sequence == i + 1
  }

  /** Every reachable table numbers its rows in strictly increasing order and never holds two rows
    * with one delivery id closer than the window, even when the clock runs backwards. */
  lemma {:induction false} LogInvariant(ops: seq<LogOp>, window: Time)
    ensures Ordered(Replay(ops, window).rows)
    ensures Spaced(Replay(ops, window).rows, window)
    ensures forall e :: e in Replay(ops, window).rows ==> e in Replay(ops, window).history
  {
    if ops != [] {
      LogInvariant(Init(ops), window);
      var log := Replay(Init(ops), window);
      match Last(ops) {
        case PruneOp(cutoff) =>
          RetainedOrdered(log.rows, cutoff);
          RetainedSpaced(log.rows, cutoff, window);
          RetainedMembers(log.rows, cutoff);
        case AppendOp(input, now) =>
          AppendKeepsInvariants(log.rows, window, input, now);
      }
    }
  }

  /** At every accepted append the row committed just before it is still in the table. */
  ghost predicate AppendsSeeNewest(ops: seq<LogOp>, window: Time) {
    ops == [] ||
    (AppendsSeeNewest(Init(ops), window) &&
     (Last(ops).AppendOp? ==>
        var log := Replay(Init(ops), window);
        AppendOutcome(log.rows, window, Last(ops).input, Last(ops).now).Appended? && log.history != [] ==>
          Last(log.history) in log.rows))
  }

  /** Numbering is gapless over a whole run exactly when no append follows the loss of the newest
    * row: MAX + 1 looks only at surviving rows. */
  lemma {:induction false} GaplessIff(ops: seq<LogOp>, window: Time)
    ensures Gapless(Replay(ops, window).history) <==> AppendsSeeNewest(ops, window)
  {
    if ops != [] {
      GaplessIff(Init(ops), window);
      LogInvariant(Init(ops), window);
      var log, after := Replay(Init(ops), window), Replay(ops, window);
      if after.history != log.history {
        var newest := Last(after.history);
        assert after.history == log.history + [newest] && newest.sequence == MaxSequence(log.rows) + 1;
        if Gapless(log.history) {
          MaxUnderGapless(log);
        }
        assert Gapless(after.history) ==> Gapless(log.history) by {
          assert forall i :: 0 <= i < |log.history| ==> log.history[i] == after.history[i];
        }
      }
    }
  }

  lemma {:induction false} MaxUnderGapless(log: Log)
    requires Gapless(log.history)
    requires forall e :: e in log.rows ==> e in log.history
    ensures MaxSequence(log.rows) == |log.history| <==> log.history == [] || Last(log.history) in log.rows
  {
    if log.rows != [] {
      var i :| 0 <= i < |log.rows| && log.rows[i].sequence == MaxSequence(log.rows);
      assert log.rows[i] in log.history;
      if log.history != [] && Last(log.history) in log.rows {
        var j :| 0 <= j < |log.rows| && log.rows[j] == Last(log.history);
        assert log.rows[j].sequence == |log.history|;
      }
    }
  }

  /** Every prune of the run leaves the newest row of its table in place. */
  ghost predicate PrunesSpareNewest(ops: seq<LogOp>, window: Time) {
    ops == [] ||
    (PrunesSpareNewest(Init(ops), window) &&
     (Last(ops).PruneOp? ==> NewestKept(Replay(Init(ops), window).rows, Last(ops).cutoff)))
  }

  /** Pruning with the newest row spared, a guard a caller can check, keeps numbering gapless over
    * every run, and the highest number issued is the highest one stored. */
  lemma {:induction false} GuardedPruneGapless(ops: seq<LogOp>, window: Time)
    requires PrunesSpareNewest(ops, window)
    ensures Gapless(Replay(ops, window).history)
    ensures MaxSequence(Replay(ops, window).rows) == |Replay(ops, window).history|
  {
    if ops != [] {
      GuardedPruneGapless(Init(ops), window);
      LogInvariant(Init(ops), window);
      GaplessStep(Replay(Init(ops), window), window, Last(ops));
    }
  }

  lemma {:induction false} GaplessStep(log: Log, window: Time, op: LogOp)
    requires Ordered(log.rows) && Gapless(log.history) && MaxSequence(log.rows) == |log.history|
    requires op.PruneOp? ==> NewestKept(log.rows, op.cutoff)
    ensures Gapless(Apply(log, window, op).history)
    ensures MaxSequence(Apply(log, window, op).rows) == |Apply(log, window, op).history|
  {
    match op {
      case PruneOp(cutoff) => RetainedMax(log.rows, cutoff);
      case AppendOp(input, now) => MaxAfterAppend(log.rows, Row(input, NextSequence(log.rows), now));
    }
  }

  lemma {:induction false} MaxAfterAppend(rows: seq<Event>, row: Event)
    requires row.sequence == NextSequence(rows)
    ensures MaxSequence(rows + [row]) == row.sequence
  {
    assert Init(rows + [row]) == rows;
  }

  function Sample(deliveryId: string): AppendInput {
    AppendInput("render", deliveryId, 0, map[], [])
  }

  /** Without that guard the promise of one number per event fails: an append, a prune that empties
    * the table and another append give two different events the number 1. */
  lemma {:induction false} RestartedNumbering(window: Time)
    ensures var ops := [AppendOp(Sample("a"), 10), PruneOp(20), AppendOp(Sample("b"), 30)];
            var history := Replay(ops, window).history;
            && |history| == 2 && history[0].deliveryId != history[1].deliveryId
            && history[0].sequence == history[1].sequence == 1
  {
    var first, second, third := AppendOp(Sample("a"), 10), PruneOp(20), AppendOp(Sample("b"), 30);
    var one := Row(Sample("a"), 1, 10);
    calc {
      Replay([first, second], window);
    ==
      Apply(Replay([first], window), window, second);
    ==  { assert Replay([first], window) == Apply(Replay([], window), window, first); }
      Log(Retained([one], 20), [one]);
    ==
      Log([], [one]);
    }
    assert Init([first, second, third]) == [first, second];
  }

  // ----- What is sure to be numbered past -----------------------------------------------------------

  /** Rows at or below the starting cursor are not owed, and every later row is numbered past the stored ones: what
    * is still to come and owed lies past this level. */
  function Level(rows: seq<Event>, start: int): (n: int)
    ensures n >= start && n >= MaxSequence(rows)
  {
    if start < MaxSequence(rows) then MaxSequence(rows) else start
  }

  lemma {:induction false} AppendLevel(rows: seq<Event>, row: Event, start: int)
    requires Ordered(rows) && row.sequence == NextSequence(rows)
    ensures Ordered(rows + [row]) && Level(rows + [row], start) >= Level(rows, start)
    ensures row.sequence > start ==> row.sequence > Level(rows, start)
  {
    MaxAfterAppend(rows, row);
    MaxIsLast(rows);
    OrderedAppend(rows, row);
  }

  lemma {:induction false} Latest(events: set<Event>) returns (t: Time)
    ensures forall e :: e in events ==> e.receivedAt <= t
  {
    if events == {} {
      t := 0;
    } else {
      var e :| e in events;
      t := Latest(events - {e});
      t := if t < e.receivedAt then e.receivedAt else t;
    }
  }

  /** An append received late enough is no duplicate and no event of `known`. */
  lemma {:induction false} FreshAppend(rows: seq<Event>, window: Time, known: set<Event>)
    returns (input: AppendInput, now: Time)
    ensures AppendOutcome(rows, window, input, now) == Appended(Row(input, NextSequence(rows), now))
    ensures Row(input, NextSequence(rows), now) !in known && input.providerTime == 0
  {
    var latest := Latest(known + set e | e in rows);
    input, now := Sample("x"), latest + (if window < 0 then 0 else window) + 1;
    assert !HasDuplicate(rows, "x", now - window) by {
      assert forall i :: 0 <= i < |rows| ==> rows[i] in rows;
    }
    hide HasDuplicate;
  }

  // ----- The store object ----------------------------------------------------------------------

  class EventStore {
    var tables: map<string, seq<Event>>
    const dedupeWindow: Time

    constructor (dedupeWindow: Time)
      ensures Valid() && tables == map[]
      ensures this.dedupeWindow == if dedupeWindow == 0 then DAY else dedupeWindow
    {
      this.dedupeWindow := if dedupeWindow == 0 then DAY else dedupeWindow;
      tables := map[];
    }

    ghost predicate Valid()
      reads this
    {
      forall source :: source in tables ==>
        Ordered(tables[source]) && Spaced(tables[source], dedupeWindow)
    }

    function Rows(source: string): seq<Event>
      reads this
    {
      if source in tables then tables[source] else []
    }

    method Append(input: AppendInput, receivedAt: Time) returns (result: AppendResult)
      requires Valid()
      modifies this`tables
      ensures Valid()
      ensures result == AppendOutcome(old(Rows(input.source)), dedupeWindow, input, receivedAt)
      ensures result.Refused? ==> tables == old(tables)
      ensures result.Refused? <==>
                || input.source == "" || input.deliveryId == ""
                || exists e :: e in old(Rows(input.source)) && e.deliveryId == input.deliveryId &&
                               receivedAt - e.receivedAt <= dedupeWindow
      ensures result.Appended? ==>
                && result.event == Event(input.source, old(MaxSequence(Rows(input.source))) + 1, input.deliveryId,
                                         input.providerTime, receivedAt, input.headers, input.body)
                && tables == old(tables)[input.source := old(Rows(input.source)) + [result.event]]
                && Above(Rows(input.source), old(MaxSequence(Rows(input.source)))) == [result.event]
    {
      AppendMeans(Rows(input.source), dedupeWindow, input, receivedAt);
      hide HasDuplicate, Above, MaxSequence, Ordered, Spaced;
      if input.source == "" {
        return Refused(EmptySource);
      }
      if input.deliveryId == "" {
        return Refused(EmptyDeliveryId);
      }
      var rows := Rows(input.source);
      var cutoff := receivedAt - dedupeWindow;
      if HasDuplicate(rows, input.deliveryId, cutoff) {
        return Refused(Duplicate);
      }
      var nextSeq := NextSequence(rows);
      var event := Row(input, nextSeq, receivedAt);
      AppendKeepsInvariants(rows, dedupeWindow, input, receivedAt);
      tables := tables[input.source := rows + [event]];
      result := Appended(event);
    }

    /** The batch is the `limit` lowest-numbered rows past the cursor, in ascending order. */
    method ReadSince(source: string, cursor: int, limit: int) returns (batch: seq<Event>)
      requires Valid()
      ensures batch == Batch(Rows(source), cursor, limit)
      ensures Ordered(batch) && |batch| <= if limit <= 0 then 1000 else limit
      ensures forall e :: e in batch ==> e in Rows(source) && e.sequence > cursor
      ensures forall e, b :: e in Rows(source) && e.sequence > cursor && e !in batch && b in batch ==>
                b.sequence < e.sequence
      ensures |batch| < (if limit <= 0 then 1000 else limit) ==>
                forall e :: e in Rows(source) && e.sequence > cursor ==> e in batch
    {
      var above := Above(Rows(source), cursor);
      batch := Take(above, EffectiveLimit(limit));
      AboveFacts(Rows(source), cursor);
      assert batch <= above;
    }

    /** The least bound on the stored sequences, 0 when there are none: a reader that starts there has nothing to
      * catch up on, and one that starts any lower in a non-empty table has. */
    method LatestSequence(source: string) returns (latest: int)
      ensures Rows(source) == [] ==> latest == 0
      ensures Rows(source) != [] ==> exists e :: e in Rows(source) && e.sequence == latest
      ensures Above(Rows(source), latest) == []
      ensures forall cursor :: Rows(source) != [] && cursor < latest ==> Above(Rows(source), cursor) != []
    {
      var rows := Rows(source);
      latest := MaxSequence(rows);
      AboveNone(rows, latest);
      if rows != [] {
        ghost var i :| 0 <= i < |rows| && rows[i].sequence == latest;
        forall cursor | cursor < latest ensures Above(rows, cursor) != [] {
          AboveFacts(rows, cursor);
          assert rows[i] in Above(rows, cursor);
        }
      }
    }

    /** Deletes exactly the rows received before the cutoff and reports how many. */
    method Prune(source: string, cutoff: Time) returns (deleted: int)
      requires Valid()
      modifies this`tables
      ensures Valid()
      ensures Rows(source) == Retained(old(Rows(source)), cutoff)
      ensures forall e :: e in Rows(source) <==> e in old(Rows(source)) && e.receivedAt >= cutoff
      ensures forall other :: other != source ==> Rows(other) == old(Rows(other))
      ensures deleted == |old(Rows(source))| - |Rows(source)|
    {
      var rows := Rows(source);
      RetainedOrdered(rows, cutoff);
      RetainedSpaced(rows, cutoff, dedupeWindow);
      RetainedMembers(rows, cutoff);
      var kept := Retained(rows, cutoff);
      deleted := |rows| - |kept|;
      tables := tables[source := kept];
    }
  }
}
