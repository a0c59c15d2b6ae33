/** The webhook endpoint: checks, append, and the publish it leaves running behind it. */
module Ingest {
  import opened Common
  import opened EventLog
  import Stream

  /** What the provider's verifier makes of a request it accepts. */
  datatype Verified = Verified(providerTime: Time, deliveryId: string)

  datatype Request = Request(declaredLength: int, body: seq<bv8>, headers: map<string, seq<string>>, readFails: bool)

  datatype Publish = Publish(source: string, sequence: int)

  const OK := 200
  const ACCEPTED := 202
  const BAD_REQUEST := 400
  const UNAUTHORIZED := 401
  const NOT_FOUND := 404
  const TOO_LARGE := 413
  const UNAVAILABLE := 503

  function Joined(values: seq<string>): string {
    if values == [] then "" else if |values| == 1 then values[0] else values[0] + ", " + Joined(values[1..])
  }

  /** One value stands for itself, and what is joined in pieces is joined as a whole. */
  lemma {:induction false} JoinedMeans(a: seq<string>, b: seq<string>)
    ensures Joined([]) == ""
    ensures |a| == 1 ==> Joined(a) == a[0]
    ensures a != [] && b != [] ==> Joined(a + b) == Joined(a) + ", " + Joined(b)
  {
    if |a| > 1 && b != [] {
      JoinedMeans(a[1..], b);
      assert (a + b)[1..] == a[1..] + b;
    } else if |a| == 1 && b != [] {
      assert (a + b)[1..] == b;
    }
  }

  /** Every header, its values joined. */
  method CaptureHeaders(headers: map<string, seq<string>>) returns (captured: map<string, string>)
    ensures captured.Keys == headers.Keys
    ensures forall name :: name in headers ==> captured[name] == Joined(headers[name])
  {
    captured := map[];
    var todo := headers.Keys;
    while todo != {}
      invariant todo <= headers.Keys && captured.Keys == headers.Keys - todo
      invariant forall name :: name in captured ==> captured[name] == Joined(headers[name])
      decreases |todo|
    {
      var name :| name in todo;
      captured := captured[name := Joined(headers[name])];
      todo := todo - {name};
    }
  }

  class Handler {
    const limits: map<string, int>
    const store: EventStore
    var publishing: seq<Publish>

    constructor (limits: map<string, int>, store: EventStore)
      ensures this.limits == limits && this.store == store && publishing == []
    {
      this.limits, this.store := limits, store;
      publishing := [];
    }

    /** A request that passes the checks is stored once, and exactly the requests stored now leave a publish of
      * their sequence running. The answer is never an acceptance without a row. */
    method ServeSource(source: string, request: Request, verified: Option<Verified>, now: Time,
                       storeFails: bool) returns (status: int)
      requires store.Valid()
      modifies this`publishing, store`tables
      ensures store.Valid()
      ensures status == 404 <==> source !in limits
      ensures var large := source in limits && ((request.declaredLength > 0 && request.declaredLength > limits[source])
                                                || |request.body| > limits[source]);
              var received := source in limits && !large && !request.readFails;
              var passed := received && verified.Some?;
              var stored := passed && !storeFails && source != "" && verified.value.deliveryId != "";
              var repeated := stored && Repeated(old(store.Rows(source)), store.dedupeWindow,
                                                 verified.value.deliveryId, now);
              && (status == 413 <==> large)
              && (status == 400 <==> source in limits && !large && request.readFails)
              && (status == 401 <==> received && verified.None?)
              && (status == 503 <==> passed && !stored)
              && (status == 200 <==> stored && repeated)
              && (status == 202 <==> stored && !repeated)
      ensures status != 202 ==> store.tables == old(store.tables) && publishing == old(publishing)
      ensures status == 202 ==>
                && verified.Some? && store.Rows(source) != []
                && var row := Last(store.Rows(source));
                   && store.tables == old(store.tables)[source := old(store.Rows(source)) + [row]]
                   && publishing == old(publishing) + [Publish(source, row.sequence)]
                   && row.sequence == old(MaxSequence(store.Rows(source))) + 1 && row.source == source
                   && row.deliveryId == verified.value.deliveryId && row.providerTime == verified.value.providerTime
                   && row.receivedAt == now && row.body == request.body
                   && row.headers.Keys == request.headers.Keys
                   && forall name :: name in row.headers ==> row.headers[name] == Joined(request.headers[name])
    {
      hide AppendOutcome, HasDuplicate, Repeated, MaxSequence, Above;
      if source !in limits {
        return NOT_FOUND;
      }
      var limit := limits[source];
      if request.declaredLength > 0 && request.declaredLength > limit {
        return TOO_LARGE;
      }
      if |request.body| > limit {
        return TOO_LARGE;
      }
      if request.readFails {
        return BAD_REQUEST;
      }
      if verified.None? {
        return UNAUTHORIZED;
      }
      var headers := CaptureHeaders(request.headers);
      if storeFails {
        return UNAVAILABLE;
      }
      var input := AppendInput(source, verified.value.deliveryId, verified.value.providerTime, headers, request.body);
      AppendMeans(store.Rows(source), store.dedupeWindow, input, now);
      var result := store.Append(input, now);
      match result {
        case Appended(event) =>
          publishing := publishing + [Publish(source, event.sequence)];
          return ACCEPTED;
        case Refused(Duplicate) => return OK;
        case Refused(_) => return UNAVAILABLE;
      }
    }
  }

  /** An accepted request is the ingest step of the stream model: one row, one pending publish of its sequence. A
    * refused one is no step at all. */
  lemma {:induction false} ServeIsIngestStep(w: Stream.World, window: Time, input: AppendInput, now: Time)
    ensures var outcome := AppendOutcome(w.log.rows, window, input, now);
            var w' := Stream.Next(w, window, Stream.Ingest(input, now));
            if outcome.Appended? then
              && w'.log.rows == w.log.rows + [outcome.event]
              && w'.pending == w.pending + multiset{outcome.event.sequence}
              && w'.conns == w.conns
            else w' == w
  {
    if AppendOutcome(w.log.rows, window, input, now).Appended? {
      assert |Apply(w.log, window, AppendOp(input, now)).history| == |w.log.history| + 1;
    }
  }
}
