/** The `hooksctl forward` client: it reads an event stream, posts each event to a local target until
  * the target accepts it, and keeps its cursor in a file. */
module Forward {
  import opened Common
  import opened Decimal
  import opened Sse

  // ----- Posting one event ---------------------------------------------------------------------

  datatype Answer = Status(code: int) | TransportError | Cancelled

  predicate Success(a: Answer) {
    a.Status? && Accepted(a.code)
  }

  datatype Payload = Payload(deliveryId: string, headers: map<string, string>, body: seq<bv8>)

  /** `headers` are the captured ones copied; the client's own three are set after them, over any of the same name. */
  datatype Request = Request(headers: map<string, string>, deliveryId: string, sequence: string, source: string,
                             body: seq<bv8>)

  const HOP_BY_HOP := {"connection", "keep-alive", "proxy-authenticate", "proxy-authorization", "te", "trailer",
                       "transfer-encoding", "upgrade", "host", "content-length"}

  predicate HopByHop(name: string) {
    Fold(name) in HOP_BY_HOP
  }

  function Outbound(payload: Payload, msg: Msg): Request {
    Request(map name | name in payload.headers && !HopByHop(name) :: payload.headers[name], payload.deliveryId,
            Get(msg, "id"), Get(msg, "event"), payload.body)
  }

  /** A request carries the captured headers but for the ten that belong to one hop, whatever the case of their letters,
    * and the delivery's own id, sequence, source and body. */
  lemma {:induction false} OutboundMeans(payload: Payload, msg: Msg)
    ensures var request := Outbound(payload, msg);
            && (forall name :: name in request.headers <==>
                  && name in payload.headers
                  && Fold(name) !in {"connection", "keep-alive", "proxy-authenticate", "proxy-authorization", "te",
                                     "trailer", "transfer-encoding", "upgrade", "host", "content-length"})
            && (forall name :: name in request.headers ==> request.headers[name] == payload.headers[name])
            && request.deliveryId == payload.deliveryId && request.body == payload.body
            && request.sequence == (if "id" in msg then msg["id"] else "")
            && request.source == (if "event" in msg then msg["event"] else "")
  {
  }

  /** Copies every captured header but the hop-by-hop ones. */
  method BuildRequest(payload: Payload, msg: Msg) returns (request: Request)
    ensures request == Outbound(payload, msg)
  {
    hide HopByHop;
    var headers: map<string, string> := map[];
    var todo := payload.headers.Keys;
    while todo != {}
      invariant todo <= payload.headers.Keys
      invariant forall name :: name in headers <==> name in payload.headers && name !in todo && !HopByHop(name)
      invariant forall name :: name in headers ==> headers[name] == payload.headers[name]
      decreases |todo|
    {
      var name :| name in todo;
      todo := todo - {name};
      if !HopByHop(name) {
        headers := headers[name := payload.headers[name]];
      }
    }
    request := Request(headers, payload.deliveryId, Get(msg, "id"), Get(msg, "event"), payload.body);
  }

  datatype HandleResult = Done | Skipped | Failed

  /** The local target: it answers requests from a script, after which the command is interrupted. */
  class Target {
    var requests: seq<Request>
    const answers: seq<Answer>

    constructor (answers: seq<Answer>)
      ensures requests == [] && this.answers == answers
    {
      requests := [];
      this.answers := answers;
    }

    function AnswerTo(n: nat): Answer {
      if n < |answers| then answers[n] else Cancelled
    }

    method Post(request: Request) returns (answer: Answer)
      modifies this
      ensures requests == old(requests) + [request] && answer == AnswerTo(old(|requests|))
    {
      answer := AnswerTo(|requests|);
      requests := requests + [request];
    }
  }

  /** Retries until a 2xx, an interruption, a request that cannot be built, or the first failure when `exitOnError` is
    * set. Only a 2xx answer to this very message counts as done; a malformed message is skipped without a request. */
  method ForwardOne(target: Target, msg: Msg, payload: Option<Payload>, buildFails: bool, exitOnError: bool)
    returns (result: HandleResult)
    modifies target
    ensures old(target.requests) <= target.requests
    ensures forall i :: old(|target.requests|) <= i < |target.requests| ==>
              payload.Some? && target.requests[i] == Outbound(payload.value, msg)
    ensures forall i :: old(|target.requests|) <= i < |target.requests| - 1 ==>
              !(target.AnswerTo(i).Status? && 200 <= target.AnswerTo(i).code <= 299)
    ensures result.Skipped? <==> payload.None?
    ensures payload.None? || buildFails ==> target.requests == old(target.requests)
    ensures result.Done? <==>
              && |target.requests| > old(|target.requests|)
              && var last := target.AnswerTo(|target.requests| - 1); last.Status? && 200 <= last.code <= 299
    ensures exitOnError ==> |target.requests| <= old(|target.requests|) + 1
  {
    if payload.None? {
      return Skipped;
    }
    while true
      invariant old(target.requests) <= target.requests
      invariant forall i :: old(|target.requests|) <= i < |target.requests| ==>
                  target.requests[i] == Outbound(payload.value, msg)
      invariant forall i :: old(|target.requests|) <= i < |target.requests| ==> !Success(target.AnswerTo(i))
      invariant exitOnError || buildFails ==> target.requests == old(target.requests)
      decreases |target.answers| - |target.requests|
    {
      if buildFails {
        return Failed;
      }
      var request := BuildRequest(payload.value, msg);
      var answer := target.Post(request);
      if answer.Cancelled? {
        return Failed;
      }
      if Success(answer) {
        return Done;
      }
      if exitOnError {
        return Failed;
      }
    }
  }

  // ----- The cursor file -----------------------------------------------------------------------

  function CursorLine(sequence: int): string {
    ToString(sequence) + "\n"
  }

  function LoadCursor(content: string): int {
    ParseInt(TrimSpace(content)).n
  }

  // ----- One stream ----------------------------------------------------------------------------

  function IdOf(msg: Msg): int {
    ParseInt(Get(msg, "id")).n
  }

  /** How many leading messages are acknowledged; a script that has run out means an interruption. */
  function Acknowledged(results: seq<HandleResult>, n: nat): (k: nat)
    ensures k <= n && k <= |results|
    ensures forall i :: 0 <= i < k ==> !results[i].Failed?
    ensures k < n && k < |results| ==> results[k].Failed?
  {
    if n == 0 || results == [] || results[0].Failed? then 0
    else 1 + Acknowledged(results[1..], n - 1)
  }

  /** The cursor file after acknowledging `ids`, where a failed write leaves it alone. */
  function FileAfter(content: string, ids: seq<Msg>, saves: seq<bool>): string {
    if ids == [] then content
    else if |ids| <= |saves| && !saves[|ids| - 1] then FileAfter(content, Init(ids), saves)
    else CursorLine(IdOf(Last(ids)))
  }

  datatype StreamEnd = Closed | LineTooLong | HandlerFailed

  class Client {
    var cursor: int
    var file: string
    var calls: seq<Msg>

    constructor (file: string)
      ensures this.file == file && cursor == ParseInt(TrimSpace(file)).n && calls == []
    {
      this.file := file;
      cursor := LoadCursor(file);
      calls := [];
    }

    /** Reads a stream to its end or to the first message the handler fails on. The handler sees the
      * stream's messages in order, the cursor is the id of the last acknowledged one, and the file
      * is rewritten after each acknowledgement. */
    method StreamFromCursor(text: string, results: seq<HandleResult>, saves: seq<bool>) returns (end: StreamEnd)
      modifies this
      ensures var messages := Messages(text, map[]);
              var k := Acknowledged(results, |messages|);
              && (end.HandlerFailed? <==> k < |messages|)
              && calls == old(calls) + messages[..if k < |messages| then k + 1 else k]
              && cursor == (if k == 0 then old(cursor) else IdOf(messages[k - 1]))
              && file == FileAfter(old(file), messages[..k], saves)
    {
      hide Messages, FileAfter, CursorLine, Acknowledged, IdOf, ParseInt, Get, Handling;
      ghost var before := Snapshot(cursor, file, calls);
      ghost var now := before;
      ghost var messages := Messages(text, map[]);
      ghost var acked, togo := [], messages;
      HandlingBegins(results, saves, before);
      var rest, current := text, map[];
      var k := 0;
      end := Closed;
      while rest != ""
        invariant end.Closed? && messages == acked + togo && togo == Messages(rest, current) && k == |acked|
        invariant now == Snapshot(cursor, file, calls) && Handling(acked, results, saves, before, now)
        decreases |rest|
      {
        var tooLong, message;
        tooLong, message, rest, current := ScanLine(rest, current);
        if tooLong {
          end, togo := LineTooLong, [];
          break;
        }
        togo := Messages(rest, current);
        if message.Some? {
          if k >= |results| || results[k].Failed? {
            calls := calls + [message.value];
            end, togo := HandlerFailed, [message.value] + togo;
            break;
          }
          HandlingStep(acked, message.value, results, saves, before, now);
          Shift(acked, message.value, togo);
          Acknowledge(message.value, k >= |saves| || saves[k]);
          acked, now := acked + [message.value], Snapshot(cursor, file, calls);
          k := k + 1;
        }
      }
      NoText(current);
      HandlingEnds(messages, acked, togo, results, saves, before, now);
    }

    method Acknowledge(msg: Msg, saved: bool)
      modifies this
      ensures calls == old(calls) + [msg] && cursor == IdOf(msg)
      ensures file == if saved then CursorLine(IdOf(msg)) else old(file)
    {
      calls := calls + [msg];
      cursor := IdOf(msg);
      if saved {
        file := CursorLine(cursor);
      }
    }
  }

  /** Takes one line off the front of the stream; at most one message comes out of it. */
  method ScanLine(text: string, current: Msg)
    returns (tooLong: bool, message: Option<Msg>, rest: string, next: Msg)
    requires text != ""
    ensures |rest| < |text|
    ensures tooLong ==> Messages(text, current) == []
    ensures !tooLong && message.None? ==> Messages(text, current) == Messages(rest, next)
    ensures !tooLong && message.Some? ==> Messages(text, current) == [message.value] + Messages(rest, next)
  {
    var i := IndexOf(text, '\n');
    var line := if i < 0 then text else text[..i];
    rest := if i < 0 then "" else text[i + 1..];
    if |line| >= LINE_CAP {
      return true, None, rest, current;
    }
    var r := OnLine(current, DropCR(line));
    tooLong, next := false, r.current;
    message := if r.messages == [] then None else Some(r.messages[0]);
  }

  datatype Snapshot = Snapshot(cursor: int, file: string, calls: seq<Msg>)

  /** Where a client is once it has acknowledged `acked`. */
  ghost predicate Handling(acked: seq<Msg>, results: seq<HandleResult>, saves: seq<bool>, before: Snapshot,
                           now: Snapshot) {
    && |acked| <= |results| && NoneFailed(results, |acked|)
    && now.calls == before.calls + acked
    && now.cursor == (if acked == [] then before.cursor else IdOf(Last(acked)))
    && now.file == FileAfter(before.file, acked, saves)
  }

  lemma {:induction false} HandlingBegins(results: seq<HandleResult>, saves: seq<bool>, before: Snapshot)
    ensures Handling([], results, saves, before, before)
  {
    FileStart(before.file, saves);
  }

  lemma {:induction false} HandlingStep(acked: seq<Msg>, msg: Msg, results: seq<HandleResult>, saves: seq<bool>,
                                        before: Snapshot, now: Snapshot)
    requires Handling(acked, results, saves, before, now) && |acked| < |results| && !results[|acked|].Failed?
    ensures var file := if |acked| >= |saves| || saves[|acked|] then CursorLine(IdOf(msg)) else now.file;
            Handling(acked + [msg], results, saves, before, Snapshot(IdOf(msg), file, now.calls + [msg]))
  {
    hide IdOf, CursorLine, FileAfter;
    FileStep(before.file, acked, msg, saves);
    assert (before.calls + acked) + [msg] == before.calls + (acked + [msg]);
  }

  /** `rest` is what the stream still held: nothing, unless the handler failed on its first message. */
  lemma {:induction false} HandlingEnds(messages: seq<Msg>, acked: seq<Msg>, rest: seq<Msg>, results: seq<HandleResult>,
                                        saves: seq<bool>, before: Snapshot, now: Snapshot)
    requires Handling(acked, results, saves, before, now) && messages == acked + rest
    requires rest != [] ==> |acked| >= |results| || results[|acked|].Failed?
    ensures var k := Acknowledged(results, |messages|);
            && (k < |messages| <==> rest != [])
            && now.cursor == (if k == 0 then before.cursor else IdOf(messages[k - 1]))
            && now.file == FileAfter(before.file, messages[..k], saves)
            && (rest == [] ==> now.calls == before.calls + messages[..k])
            && (rest != [] ==> now.calls + [rest[0]] == before.calls + messages[..k + 1])
  {
    hide IdOf, FileAfter, Acknowledged;
    AcknowledgedIs(results, messages, acked, rest);
    assert messages[..|acked|] == acked;
    if rest != [] {
      assert messages[..|acked| + 1] == acked + [rest[0]];
      assert (before.calls + acked) + [rest[0]] == before.calls + (acked + [rest[0]]);
    }
  }

  lemma {:induction false} NoText(current: Msg)
    ensures Messages("", current) == []
  {
  }

  lemma {:induction false} FileStart(content: string, saves: seq<bool>)
    ensures FileAfter(content, [], saves) == content
  {
  }

  lemma {:induction false} FileStep(content: string, acked: seq<Msg>, msg: Msg, saves: seq<bool>)
    ensures FileAfter(content, acked + [msg], saves)
         == if |acked| >= |saves| || saves[|acked|] then CursorLine(IdOf(msg)) else FileAfter(content, acked, saves)
  {
    assert Init(acked + [msg]) == acked && Last(acked + [msg]) == msg;
  }

  /** The file holds the number of the last message whose save went through, on a line, or what it held before. */
  lemma {:induction false} FileMeans(content: string, acked: seq<Msg>, saves: seq<bool>, k: nat)
    requires k <= |acked| && (k < |acked| ==> |acked| <= |saves|)
    requires forall i :: k <= i < |acked| ==> !saves[i]
    requires k > 0 ==> k > |saves| || saves[k - 1]
    requires forall i :: 0 <= i < |acked| ==> "id" in acked[i]
    ensures FileAfter(content, acked, saves) ==
              if k == 0 then content else ToString(ParseInt(acked[k - 1]["id"]).n) + "\n"
  {
    hide ParseInt, ToString;
    if k < |acked| {
      assert forall i :: 0 <= i < |Init(acked)| ==> Init(acked)[i] == acked[i] && "id" in Init(acked)[i];
      FileMeans(content, Init(acked), saves, k);
    }
  }

  lemma {:induction false} Shift(acked: seq<Msg>, msg: Msg, tail: seq<Msg>)
    ensures acked + ([msg] + tail) == (acked + [msg]) + tail
    ensures Init(acked + [msg]) == acked && Last(acked + [msg]) == msg
  {
  }

  lemma {:induction false} AcknowledgedIs(results: seq<HandleResult>, messages: seq<Msg>, acked: seq<Msg>,
                                          rest: seq<Msg>)
    requires messages == acked + rest && |acked| <= |results|
    requires NoneFailed(results, |acked|)
    requires rest != [] ==> |acked| == |results| || results[|acked|].Failed?
    ensures Acknowledged(results, |messages|) == |acked|
  {
    AcknowledgedCount(results, |messages|, |acked|);
  }

  predicate NoneFailed(results: seq<HandleResult>, k: nat)
    requires k <= |results|
  {
    k == 0 || (!results[k - 1].Failed? && NoneFailed(results, k - 1))
  }

  lemma {:induction false} NoneFailedTail(results: seq<HandleResult>, k: nat)
    requires 0 < k <= |results| && NoneFailed(results, k)
    ensures !results[0].Failed? && NoneFailed(results[1..], k - 1)
  {
    if k > 1 { NoneFailedTail(results, k - 1); }
  }

  lemma {:induction false} AcknowledgedCount(results: seq<HandleResult>, n: nat, k: nat)
    requires k <= n && k <= |results| && NoneFailed(results, k)
    requires k < n ==> k == |results| || results[k].Failed?
    ensures Acknowledged(results, n) == k
  {
    if k > 0 {
      NoneFailedTail(results, k);
      AcknowledgedCount(results[1..], n - 1, k - 1);
    }
  }

  // ----- From bytes to sequences -----------------------------------------------------------------

  lemma {:induction false} IdSurvives(f: Frame)
    requires WellFormed(f)
    ensures IdOf(Delivered(f)) == f.id
  {
    ParseRoundTrip(f.id);
    hide ParseInt, ToString;
    assert Delivered(f)["id"] == ToString(f.id);
  }

  /** However the connection breaks, the n-th message the client handles is the server's n-th frame, and the cursor it
    * sets is that frame's sequence. */
  lemma {:induction false} HandledIsSent(chunks: seq<Chunk>, k: nat, n: nat)
    requires AllWellFormed(chunks) && k <= |Wire(chunks)|
    requires n < |Messages(Wire(chunks)[..k], map[])|
    ensures var msg := Messages(Wire(chunks)[..k], map[])[n];
            && n < |Frames(chunks)| && msg == Delivered(Frames(chunks)[n])
            && IdOf(msg) == Frames(chunks)[n].id
  {
    BrokenConnectionSafe(chunks, k);
    var handed, sent := Messages(Wire(chunks)[..k], map[]), Map(Delivered, Frames(chunks));
    assert handed[n] == sent[n];
    FramesWellFormed(chunks, n);
    IdSurvives(Frames(chunks)[n]);
  }

  lemma {:induction false} FramesWellFormed(chunks: seq<Chunk>, n: nat)
    requires AllWellFormed(chunks) && n < |Frames(chunks)|
    ensures WellFormed(Frames(chunks)[n])
  {
    if chunks[0].Message? {
      if n > 0 {
        assert Frames(chunks)[1..] == Frames(chunks[1..]);
        FramesWellFormed(chunks[1..], n - 1);
      }
    } else {
      assert Frames(chunks) == Frames(chunks[1..]);
      FramesWellFormed(chunks[1..], n);
    }
  }
}
