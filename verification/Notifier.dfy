/** The in-process wake-up registry: per source, a set of one-slot channels. */
module Pubsub {
  import opened Common

  /** A channel with a buffer of one signal. */
  class Channel {
    var slot: Option<int>
    var closed: bool

    constructor ()
      ensures slot == None && !closed
    {
      slot := None;
      closed := false;
    }

    /** A non-blocking send. Sending on a closed channel would panic. */
    method Offer(signal: int)
      requires !closed
      modifies this`slot
      ensures slot == Sent(old(slot), signal)
    {
      slot := Sent(slot, signal);
    }
  }

  /** A non-blocking send: a full buffer drops the new signal and keeps the old one. */
  function Sent(slot: Option<int>, signal: int): (r: Option<int>)
    ensures r.Some?
    ensures slot.Some? ==> r == slot
    ensures slot.None? ==> r == Some(signal)
  {
    if slot.None? then Some(signal) else slot
  }

  class Notifier {
    var subs: map<string, set<Channel>>

    constructor ()
      ensures Valid() && subs == map[]
    {
      subs := map[];
    }

    function Subscribers(source: string): set<Channel>
      reads this
    {
      if source in subs then subs[source] else {}
    }

    ghost function Repr(): set<Channel>
      reads this
    {
      set source, ch | source in subs && ch in subs[source] :: ch
    }

    /** Registered channels are open, every listed source has a subscriber, and a channel is
      * registered under one source. Publishing can therefore never reach a closed channel. */
    ghost predicate Valid()
      reads this, Repr()
    {
      && (forall source :: source in subs ==> subs[source] != {})
      && (forall source, ch :: source in subs && ch in subs[source] ==> !ch.closed)
      && (forall a, b, ch :: a in subs && b in subs && ch in subs[a] && ch in subs[b] ==> a == b)
    }

    method Subscribe(source: string) returns (ch: Channel)
      requires Valid()
      modifies this`subs
      ensures Valid() && fresh(ch) && ch.slot == None && !ch.closed
      ensures Subscribers(source) == old(Subscribers(source)) + {ch}
      ensures forall other :: other != source ==> Subscribers(other) == old(Subscribers(other))
    {
      ch := new Channel();
      if source !in subs {
        subs := subs[source := {}];
      }
      subs := subs[source := subs[source] + {ch}];
    }

    /** Removes and closes the channel; unknown sources and unregistered channels change nothing. */
    method Unsubscribe(source: string, ch: Channel)
      requires Valid()
      modifies this`subs, ch`closed
      ensures Valid()
      ensures Subscribers(source) == old(Subscribers(source)) - {ch}
      ensures forall other :: other != source ==> Subscribers(other) == old(Subscribers(other))
      ensures ch.closed == (old(ch.closed) || ch in old(Subscribers(source)))
    {
      if source !in subs || ch !in subs[source] {
        return;
      }
      var rest := subs[source] - {ch};
      ch.closed := true;
      subs := if rest == {} then subs - {source} else subs[source := rest];
    }

    /** After a publish every subscriber of the source has a signal waiting; a signal that was
      * already waiting is kept, and channels of other sources are untouched. */
    method Publish(source: string, sequence: int)
      requires Valid()
      modifies Subscribers(source)`slot
      ensures Valid() && subs == old(subs)
      ensures forall ch :: ch in Subscribers(source) ==> ch.slot == Sent(old(ch.slot), sequence)
    {
      var todo := Subscribers(source);
      while todo != {}
        invariant todo <= Subscribers(source)
        invariant forall ch :: ch in Subscribers(source) ==>
                    ch.slot == if ch in todo then old(ch.slot) else Sent(old(ch.slot), sequence)
        decreases |todo|
      {
        var ch :| ch in todo;
        ch.Offer(sequence);
        todo := todo - {ch};
      }
    }
  }
}
