/** The event-stream bytes the server writes and the line parser the client reads them with
  * (section 9.2 of the WHATWG HTML Standard). A char stands for one byte. */
module Sse {
  import opened Common
  import opened Decimal

  /** One message: the sequence, the source and the JSON payload. */
  datatype Frame = Frame(id: int, event: string, data: string)

  datatype Chunk = Message(frame: Frame) | Keepalive

  type Msg = map<string, string>

  /** The client scanner's buffer: a line this long is a read error. */
  const LINE_CAP := 0x10_0000

  // ----- Writing -------------------------------------------------------------------------------

  function Field(name: string, value: string): string {
    name + ":" + value + "\n"
  }

  function Render(f: Frame): string {
    Field("id", ToString(f.id)) + Field("event", f.event) + Field("data", f.data) + "\n"
  }

  function RenderChunk(c: Chunk): string {
    if c.Message? then Render(c.frame) else ": keepalive\n\n"
  }

  function Wire(chunks: seq<Chunk>): string {
    if chunks == [] then "" else RenderChunk(chunks[0]) + Wire(chunks[1..])
  }

  // ----- Reading -------------------------------------------------------------------------------

  function DropCR(line: string): string {
    if line != [] && Last(line) == '\r' then Init(line) else line
  }

  function DropSpace(value: string): string {
    if value != [] && value[0] == ' ' then value[1..] else value
  }

  datatype LineResult = LineResult(current: Msg, messages: seq<Msg>)

  function Get(m: Msg, key: string): string {
    if key in m then m[key] else ""
  }

  /** One line: a blank line hands over a message whose id parses and otherwise forgets it; a line
    * starting with a colon is a comment; a line with a colon sets a field; any other is ignored. */
  function OnLine(current: Msg, line: string): LineResult {
    if line == "" then
      if current == map[] then LineResult(current, [])
      else if !ParseInt(Get(current, "id")).ok then LineResult(map[], [])
      else LineResult(map[], [current])
    else if line[0] == ':' then LineResult(current, [])
    else
      var i := IndexOf(line, ':');
      if i < 0 then LineResult(current, [])
      else LineResult(current[line[..i] := DropSpace(line[i + 1..])], [])
  }

  /** The messages a stream hands over when every one is handled. An unterminated last line counts as
    * a line, and an over-long line ends the stream. */
  function Messages(text: string, current: Msg): seq<Msg>
    decreases |text|
  {
    if text == "" then []
    else
      var i := IndexOf(text, '\n');
      if i < 0 then
        if |text| >= LINE_CAP then [] else OnLine(current, DropCR(text)).messages
      else if i >= LINE_CAP then []
      else
        var r := OnLine(current, DropCR(text[..i]));
        r.messages + Messages(text[i + 1..], r.current)
  }

  // ----- Round trip ----------------------------------------------------------------------------

  predicate OneLine(s: string) {
    '\n' !in s && '\r' !in s
  }

  /** What the server guarantees of its own frames: 64-bit ids, values on one line. */
  predicate WellFormed(f: Frame) {
    0 <= f.id <= MAX_INT64 && OneLine(f.event) && OneLine(f.data)
  }

  /** Both values fit the client's line buffer. */
  predicate Fits(f: Frame) {
    |"event:" + f.event| < LINE_CAP && |"data:" + f.data| < LINE_CAP
  }

  function AsMsg(f: Frame): Msg {
    map["id" := ToString(f.id), "event" := f.event, "data" := f.data]
  }

  /** What the client makes of a frame: one leading space of a value is the format's, not data. */
  function Delivered(f: Frame): Msg {
    map["id" := ToString(f.id), "event" := DropSpace(f.event), "data" := DropSpace(f.data)]
  }

  function Frames(chunks: seq<Chunk>): seq<Frame> {
    if chunks == [] then []
    else (if chunks[0].Message? then [chunks[0].frame] else []) + Frames(chunks[1..])
  }

  function Map<A, B>(f: A -> B, s: seq<A>): (r: seq<B>)
    ensures |r| == |s| && forall i :: 0 <= i < |s| ==> r[i] == f(s[i])
  {
    if s == [] then [] else [f(s[0])] + Map(f, s[1..])
  }

  /** A frame is three fields and a blank line, a keepalive a comment and a blank line. */
  lemma {:induction false} RenderMeans(f: Frame)
    ensures RenderChunk(Message(f)) ==
              "id:" + ToString(f.id) + "\n" + "event:" + f.event + "\n" + "data:" + f.data + "\n" + "\n"
    ensures RenderChunk(Keepalive) == ": keepalive\n\n"
  {
    hide ToString;
    var id, event, data := Field("id", ToString(f.id)), Field("event", f.event), Field("data", f.data);
    assert "id" + ":" == "id:" && "event" + ":" == "event:" && "data" + ":" == "data:";
    assert Render(f) == id + event + data + "\n";
  }

  /** What the reader makes of one more line, which a carriage return may end. A mebibyte ends the stream; a blank line
    * hands over the message so far if its id is a number, and starts afresh; a comment and a line without a colon do
    * nothing; any other sets a field, whose value loses one leading space. */
  lemma {:induction false} LineMeans(line: string, rest: string, current: Msg)
    requires '\n' !in line
    ensures var text := line + "\n" + rest;
            var body := if line != "" && Last(line) as int == 13 then line[..|line| - 1] else line;
            && (|line| >= 1_048_576 ==> Messages(text, current) == [])
            && (|line| < 1_048_576 ==>
                  && (body == "" ==>
                        var due := if "id" in current && ParseInt(current["id"]).ok then [current] else [];
                        Messages(text, current) == due + Messages(rest, map[]))
                  && (body != "" && (body[0] == ':' || ':' !in body) ==>
                        Messages(text, current) == Messages(rest, current))
                  && forall name, value :: body == name + ":" + value && name != "" && ':' !in name ==>
                       Messages(text, current) ==
                         Messages(rest, current[name := if value != "" && value[0] == ' ' then value[1..] else value]))
  {
    var text := line + "\n" + rest;
    FirstAt(line, '\n', rest);
    assert text[..|line|] == line && text[|line| + 1..] == rest;
    if |line| < LINE_CAP {
      var body := DropCR(line);
      assert Messages(text, current) == OnLine(current, body).messages + Messages(rest, OnLine(current, body).current);
      hide Messages, ParseInt;
      LineSets(current, body);
    }
  }

  lemma {:induction false} LineSets(current: Msg, body: string)
    ensures body == "" ==>
              OnLine(current, body) ==
                LineResult(map[], if "id" in current && ParseInt(current["id"]).ok then [current] else [])
    ensures body != "" && (body[0] == ':' || ':' !in body) ==> OnLine(current, body) == LineResult(current, [])
    ensures forall name, value :: body == name + ":" + value && name != "" && ':' !in name ==>
              OnLine(current, body) ==
                LineResult(current[name := if value != "" && value[0] == ' ' then value[1..] else value], [])
  {
    assert !ParseInt("").ok;
    hide ParseInt;
    forall name, value | body == name + ":" + value && name != "" && ':' !in name
      ensures OnLine(current, body) ==
                LineResult(current[name := if value != "" && value[0] == ' ' then value[1..] else value], [])
    {
      FirstAt(name, ':', value);
      assert body[..|name|] == name && body[|name| + 1..] == value;
    }
  }

  /** A last line that nothing ends hands over nothing, unless it is a lone carriage return, which is a blank line. */
  lemma {:induction false} LastLineMeans(line: string, current: Msg)
    requires '\n' !in line && line != ""
    ensures Messages(line, current) ==
              if line == [13 as char] && "id" in current && ParseInt(current["id"]).ok then [current] else []
  {
    LineSets(current, DropCR(line));
    var body := DropCR(line);
    if body != "" {
      var i := IndexOf(body, ':');
      if i > 0 {
        assert body == body[..i] + ":" + body[i + 1..];
      }
    }
    hide ParseInt;
  }

  /** A complete line is peeled off the front. */
  lemma {:induction false} OneLineStep(line: string, rest: string, current: Msg)
    requires OneLine(line)
    ensures Messages(line + "\n" + rest, current) ==
              if |line| >= LINE_CAP then []
              else OnLine(current, line).messages + Messages(rest, OnLine(current, line).current)
  {
    var text := line + "\n" + rest;
    FirstAt(line, '\n', rest);
    assert text[..|line|] == line && text[|line| + 1..] == rest;
    assert DropCR(line) == line;
  }

  lemma {:induction false} FieldStep(name: string, value: string, rest: string, current: Msg)
    requires OneLine(name) && OneLine(value) && ':' !in name && name != ""
    ensures Messages(Field(name, value) + rest, current) ==
              if |name + ":" + value| >= LINE_CAP then [] else Messages(rest, current[name := DropSpace(value)])
  {
    var line := name + ":" + value;
    OneLineStep(line, rest, current);
    assert Field(name, value) + rest == line + "\n" + rest;
    FirstAt(name, ':', value);
    assert line[..|name|] == name && line[|name| + 1..] == value;
  }

  lemma {:induction false} DigitsOneLine(n: nat)
    ensures OneLine(NatToString(n)) && |NatToString(n)| <= n + 1
  {
    if n >= 10 { DigitsOneLine(n / 10); }
  }

  lemma {:induction false} DigitsShort(n: nat, k: nat)
    requires n < Pow10(k) && k >= 1
    ensures |NatToString(n)| <= k
  {
    if n >= 10 {
      DigitsShort(n / 10, k - 1);
    }
  }

  lemma {:induction false} IdLine(id: int)
    requires 0 <= id <= MAX_INT64
    ensures OneLine(ToString(id)) && |"id:" + ToString(id)| < LINE_CAP
  {
    DigitsOneLine(id);
    assert Pow10(4) == 10_000;
    assert Pow10(8) == 10_000 * Pow10(4);
    assert Pow10(12) == 10_000 * Pow10(8);
    assert Pow10(16) == 10_000 * Pow10(12);
    assert Pow10(20) == 10_000 * Pow10(16);
    DigitsShort(id, 20);
  }

  lemma {:induction false} BlankStep(rest: string, current: Msg)
    requires current != map[] && ParseInt(Get(current, "id")).ok
    ensures Messages("\n" + rest, current) == [current] + Messages(rest, map[])
  {
    var text := "\n" + rest;
    assert text[..0] == "" && text[1..] == rest;
  }

  lemma {:induction false} DataStep(data: string, rest: string, current: Msg)
    requires OneLine(data) && "id" in current && ParseInt(current["id"]).ok
    ensures Messages(Field("data", data) + ("\n" + rest), current) ==
              if |"data:" + data| >= LINE_CAP then []
              else [current["data" := DropSpace(data)]] + Messages(rest, map[])
  {
    hide Messages, IndexOf, ParseInt, OneLine;
    var next := current["data" := DropSpace(data)];
    FieldStep("data", data, "\n" + rest, current);
    assert "data" + ":" + data == "data:" + data;
    assert Get(next, "id") == current["id"] && "id" in next;
    BlankStep(rest, next);
  }

  lemma {:induction false} EventStep(f: Frame, rest: string)
    requires WellFormed(f)
    ensures Messages(Field("event", f.event) + (Field("data", f.data) + ("\n" + rest)), map["id" := ToString(f.id)]) ==
              if Fits(f) then [Delivered(f)] + Messages(rest, map[]) else []
  {
    hide Messages, IndexOf, ParseInt, ToString, OneLine;
    var current := map["id" := ToString(f.id)];
    var next := current["event" := DropSpace(f.event)];
    FieldStep("event", f.event, Field("data", f.data) + ("\n" + rest), current);
    assert "event" + ":" + f.event == "event:" + f.event;
    ParseRoundTrip(f.id);
    DataStep(f.data, rest, next);
    assert next["data" := DropSpace(f.data)] == Delivered(f);
  }

  /** One frame in front: it is handed over if its lines fit the buffer; otherwise the stream ends. */
  lemma {:induction false} FrameStep(f: Frame, rest: string)
    requires WellFormed(f)
    ensures Messages(Render(f) + rest, map[]) == if Fits(f) then [Delivered(f)] + Messages(rest, map[]) else []
  {
    var id := ToString(f.id);
    var tail := Field("event", f.event) + (Field("data", f.data) + ("\n" + rest));
    assert Render(f) + rest == Field("id", id) + tail;
    IdLine(f.id);
    assert DropSpace(id) == id && "id" + ":" + id == "id:" + id;
    FieldStep("id", id, tail, map[]);
    assert map[]["id" := id] == map["id" := id];
    EventStep(f, rest);
  }

  lemma {:induction false} KeepaliveStep(rest: string)
    ensures Messages(": keepalive\n\n" + rest, map[]) == Messages(rest, map[])
  {
    hide Messages, IndexOf;
    var line := ": keepalive";
    assert OneLine(line);
    OneLineStep(line, "\n" + rest, map[]);
    OneLineStep("", rest, map[]);
    assert ": keepalive\n\n" + rest == line + "\n" + ("\n" + rest);
    assert "\n" + rest == "" + "\n" + rest;
  }

  ghost predicate AllWellFormed(chunks: seq<Chunk>) {
    forall i :: 0 <= i < |chunks| && chunks[i].Message? ==> WellFormed(chunks[i].frame)
  }

  /** The frames before the first one that does not fit the client's buffer. */
  function Deliverable(chunks: seq<Chunk>): seq<Frame> {
    if chunks == [] then []
    else if chunks[0].Keepalive? then Deliverable(chunks[1..])
    else if !Fits(chunks[0].frame) then []
    else [chunks[0].frame] + Deliverable(chunks[1..])
  }

  /** The client hands over the server's frames in order, keepalives between them notwithstanding, up
    * to the first frame with an over-long line. */
  lemma {:induction false} WireDelivers(chunks: seq<Chunk>)
    requires AllWellFormed(chunks)
    ensures Messages(Wire(chunks), map[]) == Map(Delivered, Deliverable(chunks))
  {
    if chunks != [] {
      WireDelivers(chunks[1..]);
      if chunks[0].Message? {
        FrameStep(chunks[0].frame, Wire(chunks[1..]));
      } else {
        KeepaliveStep(Wire(chunks[1..]));
      }
    }
  }

  predicate NoLeadingSpace(f: Frame) {
    DropSpace(f.event) == f.event && DropSpace(f.data) == f.data
  }

  predicate Faithful(c: Chunk) {
    c.Message? ==> Fits(c.frame) && NoLeadingSpace(c.frame)
  }

  predicate AllFaithful(chunks: seq<Chunk>) {
    chunks == [] || (Faithful(chunks[0]) && AllFaithful(chunks[1..]))
  }

  lemma {:induction false} DeliveredWhole(f: Frame)
    ensures Delivered(f) == AsMsg(f) <==> NoLeadingSpace(f)
  {
    assert Delivered(f)["event"] == DropSpace(f.event) && AsMsg(f)["event"] == f.event;
    assert Delivered(f)["data"] == DropSpace(f.data) && AsMsg(f)["data"] == f.data;
  }

  lemma {:induction false} ConsEqual<T>(x: T, a: seq<T>, y: T, b: seq<T>)
    ensures [x] + a == [y] + b <==> x == y && a == b
  {
    assert ([x] + a)[0] == x && ([x] + a)[1..] == a;
    assert ([y] + b)[0] == y && ([y] + b)[1..] == b;
  }

  lemma {:induction false} FaithfulIff(chunks: seq<Chunk>)
    ensures Map(Delivered, Deliverable(chunks)) == Map(AsMsg, Frames(chunks)) <==> AllFaithful(chunks)
  {
    hide Fits, Delivered, AsMsg, NoLeadingSpace;
    if chunks != [] {
      FaithfulIff(chunks[1..]);
      if chunks[0].Message? {
        if Fits(chunks[0].frame) {
          DeliveredWhole(chunks[0].frame);
          ConsEqual(Delivered(chunks[0].frame), Map(Delivered, Deliverable(chunks[1..])),
                    AsMsg(chunks[0].frame), Map(AsMsg, Frames(chunks[1..])));
          assert Deliverable(chunks)[1..] == Deliverable(chunks[1..]);
          assert Frames(chunks)[1..] == Frames(chunks[1..]);
        } else {
          DeliverableShorter(chunks);
        }
      }
    }
  }

  /** Every frame arrives field for field exactly when each one fits the buffer and no value starts
    * with a space. */
  lemma {:induction false} WireRoundTrip(chunks: seq<Chunk>)
    requires AllWellFormed(chunks)
    ensures Messages(Wire(chunks), map[]) == Map(AsMsg, Frames(chunks)) <==> AllFaithful(chunks)
  {
    WireDelivers(chunks);
    FaithfulIff(chunks);
  }

  lemma {:induction false} DeliverableShorter(chunks: seq<Chunk>)
    ensures Deliverable(chunks) <= Frames(chunks)
    ensures chunks != [] && chunks[0].Message? && !Fits(chunks[0].frame) ==> |Deliverable(chunks)| < |Frames(chunks)|
  {
    if chunks != [] {
      DeliverableShorter(chunks[1..]);
    }
  }

  // ----- Connections that break anywhere ---------------------------------------------------------

  /** Cutting a stream short at any byte never produces a message the whole stream does not. */
  lemma {:induction false} CutPrefix(text: string, k: nat, current: Msg)
    requires k <= |text| && '\r' !in text
    ensures Messages(text[..k], current) <= Messages(text, current)
    decreases |text|
  {
    var i := IndexOf(text, '\n');
    var cut := text[..k];
    if 0 <= i < k {
      hide Messages, OnLine;
      var line, rest := text[..i], text[i + 1..];
      SplitAt(text, k, i);
      assert OneLine(line);
      OneLineStep(line, rest, current);
      OneLineStep(line, rest[..k - i - 1], current);
      CutPrefix(rest, k - i - 1, OnLine(current, line).current);
      PrefixAfter(OnLine(current, line).messages, Messages(rest[..k - i - 1], OnLine(current, line).current),
                  Messages(rest, OnLine(current, line).current));
    } else {
      assert '\n' !in cut;
      UnfinishedLine(cut, current);
    }
  }

  lemma {:induction false} SplitAt(text: string, k: nat, i: nat)
    requires i < k <= |text| && text[i] == '\n'
    ensures text == text[..i] + "\n" + text[i + 1..]
    ensures text[..k] == text[..i] + "\n" + text[i + 1..][..k - i - 1]
    ensures '\r' !in text ==> '\r' !in text[..i] && '\r' !in text[i + 1..]
  {
  }

  lemma {:induction false} PrefixAfter<T>(head: seq<T>, a: seq<T>, b: seq<T>)
    requires a <= b
    ensures head + a <= head + b
  {
  }

  /** A line cut off before its newline hands over nothing. */
  lemma {:induction false} UnfinishedLine(cut: string, current: Msg)
    requires '\n' !in cut && '\r' !in cut
    ensures Messages(cut, current) == []
  {
    hide ParseInt, DropSpace;
    if cut != [] {
      assert DropCR(cut) == cut;
    }
  }

  lemma {:induction false} ConcatAssoc(a: string, b: string, c: string)
    ensures a + (b + c) == (a + b) + c
  {
  }

  lemma {:induction false} WireSplit(a: seq<Chunk>, b: seq<Chunk>)
    ensures Wire(a + b) == Wire(a) + Wire(b)
  {
    hide RenderChunk;
    if a == [] {
      assert a + b == b;
    } else {
      var head, tail := RenderChunk(a[0]), Wire(a[1..]);
      WireSplit(a[1..], b);
      calc {
        Wire(a + b);
      ==  { assert (a + b)[0] == a[0] && (a + b)[1..] == a[1..] + b; }
        head + Wire(a[1..] + b);
      ==
        head + (tail + Wire(b));
      ==  { ConcatAssoc(head, tail, Wire(b)); }
        (head + tail) + Wire(b);
      }
    }
  }

  lemma {:induction false} RenderNoCR(f: Frame)
    requires WellFormed(f)
    ensures '\r' !in Render(f)
  {
    IdLine(f.id);
    assert '\r' !in Field("id", ToString(f.id));
    assert '\r' !in Field("event", f.event);
    assert '\r' !in Field("data", f.data);
  }

  lemma {:induction false} WireNoCR(chunks: seq<Chunk>)
    requires AllWellFormed(chunks)
    ensures '\r' !in Wire(chunks)
  {
    if chunks != [] {
      WireNoCR(chunks[1..]);
      var head := RenderChunk(chunks[0]);
      assert '\r' !in head by {
        if chunks[0].Message? { RenderNoCR(chunks[0].frame); }
      }
      assert Wire(chunks) == head + Wire(chunks[1..]);
    }
  }

  /** However the connection breaks, what was handed over is a prefix of the frames sent, each one
    * whole: a message cut off in the middle is never handed over. */
  lemma {:induction false} BrokenConnectionSafe(chunks: seq<Chunk>, k: nat)
    requires AllWellFormed(chunks) && k <= |Wire(chunks)|
    ensures Messages(Wire(chunks)[..k], map[]) <= Map(Delivered, Frames(chunks))
  {
    WireNoCR(chunks);
    CutPrefix(Wire(chunks), k, map[]);
    WireDelivers(chunks);
    DeliverableShorter(chunks);
    MapPrefix(Deliverable(chunks), Frames(chunks));
  }

  /** And it includes every deliverable frame whose bytes all arrived. */
  lemma {:induction false} BrokenConnectionComplete(chunks: seq<Chunk>, n: nat, k: nat)
    requires AllWellFormed(chunks) && n <= |chunks|
    requires |Wire(chunks[..n])| <= k <= |Wire(chunks)|
    ensures Map(Delivered, Deliverable(chunks[..n])) <= Messages(Wire(chunks)[..k], map[])
  {
    var arrived, whole := Wire(chunks)[..k], Wire(chunks[..n]);
    assert chunks == chunks[..n] + chunks[n..];
    WireSplit(chunks[..n], chunks[n..]);
    assert arrived[..|whole|] == whole;
    assert '\r' !in arrived by { WireNoCR(chunks); }
    CutPrefix(arrived, |whole|, map[]);
    WireDelivers(chunks[..n]);
  }

  lemma {:induction false} MapPrefix(a: seq<Frame>, b: seq<Frame>)
    requires a <= b
    ensures Map(Delivered, a) <= Map(Delivered, b)
  {
  }
}
