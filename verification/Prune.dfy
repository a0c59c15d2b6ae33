/** The periodic pass: per-source retention, then the idle-token sweep. */
module Prune {
  import opened Common
  import opened EventLog
  import TokenUse

  class Pruner {
    const store: EventStore
    const tokens: TokenUse.TokenStore
    const retentions: map<string, Time>

    constructor (store: EventStore, tokens: TokenUse.TokenStore, retentions: map<string, Time>)
      ensures this.store == store && this.tokens == tokens && this.retentions == retentions
    {
      this.store, this.tokens, this.retentions := store, tokens, retentions;
    }

    /** What a pass leaves of a source: with a positive retention and a statement that goes through, the rows no older
      * than that; otherwise all of them. */
    function Kept(source: string, rows: seq<Event>, clock: string -> Time, failing: set<string>): seq<Event> {
      if source in retentions && retentions[source] > 0 && source !in failing
      then Retained(rows, clock(source) - retentions[source])
      else rows
    }

    /** A source whose statement fails is skipped and the rest of the pass goes on. The clock is read for each source,
      * and once more for the token sweep; `sweep` is None when no token store is wired in or its statement fails. */
    method RunOnce(clock: string -> Time, failing: set<string>, sweep: Option<Time>)
      requires store.Valid()
      modifies store`tables, tokens`rows
      ensures store.Valid()
      ensures forall source :: store.Rows(source) == Kept(source, old(store.Rows(source)), clock, failing)
      ensures forall source :: source !in retentions || retentions[source] <= 0 || source in failing ==>
                store.Rows(source) == old(store.Rows(source))
      ensures forall source :: source in retentions && retentions[source] > 0 && source !in failing ==>
                forall e :: e in store.Rows(source) <==>
                  e in old(store.Rows(source)) && clock(source) - e.receivedAt <= retentions[source]
      ensures sweep.None? ==> tokens.rows == old(tokens.rows)
      ensures sweep.Some? ==>
                && tokens.rows.Keys == old(tokens.rows).Keys
                && forall id :: id in tokens.rows ==>
                     tokens.rows[id] == TokenUse.Swept(old(tokens.rows)[id], sweep.value, sweep.value - 24 * HOUR)
    {
      PruneSources(clock, failing);
      forall source | source in retentions && retentions[source] > 0 && source !in failing
        ensures forall e :: e in store.Rows(source) <==>
                  e in old(store.Rows(source)) && clock(source) - e.receivedAt <= retentions[source]
      {
        RetainedMembers(old(store.Rows(source)), clock(source) - retentions[source]);
      }
      hide Retained;
      if sweep.Some? {
        tokens.ExpireEphemeralTokensIdle(sweep.value, sweep.value - TokenUse.EPHEMERAL_IDLE);
      }
    }

    method PruneOne(source: string, clock: string -> Time, failing: set<string>)
      requires store.Valid() && source in retentions
      modifies store`tables
      ensures store.Valid()
      ensures store.Rows(source) == Kept(source, old(store.Rows(source)), clock, failing)
      ensures forall other :: other != source ==> store.Rows(other) == old(store.Rows(other))
    {
      hide Retained;
      if retentions[source] > 0 && source !in failing {
        var _ := store.Prune(source, clock(source) - retentions[source]);
      }
    }

    method PruneSources(clock: string -> Time, failing: set<string>)
      requires store.Valid()
      modifies store`tables
      ensures store.Valid()
      ensures forall source :: store.Rows(source) == Kept(source, old(store.Rows(source)), clock, failing)
    {
      hide Retained;
      var todo := retentions.Keys;
      while todo != {}
        invariant todo <= retentions.Keys && store.Valid()
        invariant forall source ::
                    store.Rows(source) ==
                      if source in todo then old(store.Rows(source))
                      else Kept(source, old(store.Rows(source)), clock, failing)
        decreases |todo|
      {
        var source :| source in todo;
        PruneOne(source, clock, failing);
        todo := todo - {source};
      }
    }
  }

  /** A pass at `now` spares the newest row of a source exactly when that row is still within the retention, the
    * guard under which sequence numbers never restart. */
  lemma {:induction false} SparesNewestIff(rows: seq<Event>, now: Time, retention: Time)
    requires rows != []
    ensures now - Last(rows).receivedAt <= retention <==>
              Retained(rows, now - retention) != [] &&
              Last(Retained(rows, now - retention)) == Last(rows) && NewestKept(rows, now - retention)
  {
  }
}
