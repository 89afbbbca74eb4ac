/** Subscribers and the broadcaster as objects, updated in place by publish. */
module Broadcaster {
  import opened Common
  import opened Broadcast

  class Subscriber {
    const topics: set<string>
    var queue: seq<Event>
    ghost var consumed: seq<Event>
    ghost const since: nat

    constructor (topics: set<string>, ghost since: nat)
      ensures this.topics == topics && queue == [] && consumed == [] && this.since == since
    {
      this.topics, queue, consumed, this.since := topics, [], [], since;
    }

    /** This subscriber as a registered one. */
    ghost function View(): Sub
      reads this
    {
      Sub(topics, queue, true, consumed, since)
    }

    /** Put an event on the queue unless it is full. */
    method PutNowait(e: Event) returns (full: bool)
      modifies this`queue
      ensures full <==> |old(queue)| >= MAX_QUEUE_SIZE
      ensures queue == if full then old(queue) else old(queue) + [e]
    {
      full := |queue| >= MAX_QUEUE_SIZE;
      if !full {
        queue := queue + [e];
      }
    }

    /** The next event; the caller waits while the queue is empty. */
    method Next() returns (e: Event)
      requires queue != []
      modifies this
      ensures e == old(queue)[0]
      ensures View() == Take(old(View()))
    {
      e := queue[0];
      queue, consumed := queue[1..], consumed + [e];
    }
  }

  class Broadcaster {
    var subscribers: set<Subscriber>
    ghost var published: seq<Event>

    /** Every registered subscriber has all it was due, within its bound. */
    ghost predicate Valid()
      reads this, subscribers
    {
      forall s :: s in subscribers ==> NoGap(s.View(), published)
    }

    constructor ()
      ensures Valid() && subscribers == {} && published == []
    {
      subscribers, published := {}, [];
    }

    method Subscribe(topics: set<string>) returns (sub: Subscriber)
      requires Valid()
      modifies this`subscribers
      ensures Valid() && fresh(sub) && subscribers == old(subscribers) + {sub}
      ensures sub.View() == NewSub(topics, |published|)
    {
      sub := new Subscriber(topics, |published|);
      assert published[|published|..] == [];
      subscribers := subscribers + {sub};
    }

    method Unsubscribe(sub: Subscriber)
      requires Valid()
      modifies this`subscribers
      ensures Valid() && subscribers == old(subscribers) - {sub}
    {
      subscribers := subscribers - {sub};
    }

    /** A client takes its next event. */
    method Consume(sub: Subscriber) returns (e: Event)
      requires Valid() && sub.queue != []
      modifies sub
      ensures Valid() && e == old(sub.queue)[0]
      ensures sub.View() == Take(old(sub.View()))
    {
      if sub in subscribers { TakeLeavesNoGap(sub.View(), published); }
      e := sub.Next();
    }

    /** Push an event into all matching queues, then drop the subscribers whose queue was full. */
    method Publish(e: Event)
      requires Valid()
      modifies this, subscribers
      ensures Valid() && published == old(published) + [e]
      ensures subscribers == set s | s in old(subscribers) && Offer(old(s.View()), e).registered
      ensures forall s :: s in old(subscribers) ==> s.View() == Offer(old(s.View()), e).(registered := true)
    {
      var toDrop := Push(e);
      forall s | s in subscribers ensures NoGap(Offer(old(s.View()), e), published + [e]) {
        OfferLeavesNoGap(old(s.View()), published, e);
      }
      published := published + [e];
      subscribers := subscribers - toDrop;
    }

    /** The loop over the subscribers, in whatever order the set yields them. */
    method Push(e: Event) returns (toDrop: set<Subscriber>)
      modifies subscribers
      ensures toDrop <= subscribers
      ensures forall s :: s in subscribers ==> (s in toDrop <==> !Offer(old(s.View()), e).registered)
      ensures forall s :: s in subscribers ==> s.View() == Offer(old(s.View()), e).(registered := true)
    {
      toDrop := {};
      var rest := subscribers;
      while rest != {}
        invariant rest <= subscribers && toDrop <= subscribers - rest
        invariant forall s :: s in rest ==> s.View() == old(s.View())
        invariant forall s :: s in subscribers - rest ==> (s in toDrop <==> !Offer(old(s.View()), e).registered)
        invariant forall s :: s in subscribers - rest ==> s.View() == Offer(old(s.View()), e).(registered := true)
        decreases |rest|
      {
        var s := Pick(rest);
        rest := rest - {s};
        if e.topic !in s.topics { continue; }
        var full := s.PutNowait(e);
        if full {
          toDrop := toDrop + {s};
        }
      }
    }
  }
}
