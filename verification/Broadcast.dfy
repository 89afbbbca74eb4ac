/** Fan-out of UI events to bounded subscriber queues, as functions of the subscribers, and what every run keeps. */
module Broadcast {
  import opened Common

  datatype Event = Event(topic: string, name: string, entityId: Option<int>)

  const MAX_QUEUE_SIZE := 256

  /**
    A subscriber.  `consumed` and `since` only watch: the events it has taken
    from its queue, and how many events had been published when it subscribed.
   */
  datatype Sub = Sub(topics: set<string>, queue: seq<Event>, registered: bool, consumed: seq<Event>, since: nat)

  /** Every subscriber there has been, and every event published, oldest first. */
  datatype State = State(subs: seq<Sub>, published: seq<Event>)

  predicate IsFull(s: Sub) {
    |s.queue| >= MAX_QUEUE_SIZE
  }

  /** One subscriber and a published event: queued on a matching topic, dropped when the queue is full. */
  function Offer(s: Sub, e: Event): Sub {
    if !s.registered || e.topic !in s.topics then s
    else if IsFull(s) then s.(registered := false)
    else s.(queue := s.queue + [e])
  }

  function Take(s: Sub): Sub {
    if s.queue == [] then s else s.(queue := s.queue[1..], consumed := s.consumed + [s.queue[0]])
  }

  datatype Step = Subscribe(topics: set<string>) | Unsubscribe(id: nat) | Publish(event: Event) | Consume(id: nat)

  function NewSub(topics: set<string>, since: nat): Sub {
    Sub(topics, [], true, [], since)
  }

  function OfferTo(e: Event): Sub -> Sub {
    (s: Sub) => Offer(s, e)
  }

  function Apply(s: State, step: Step): State {
    match step
    case Subscribe(topics) => s.(subs := s.subs + [NewSub(topics, |s.published|)])
    case Unsubscribe(id) => if id < |s.subs| then s.(subs := s.subs[id := s.subs[id].(registered := false)]) else s
    case Publish(e) => State(Map(s.subs, OfferTo(e)), s.published + [e])
    case Consume(id) => if id < |s.subs| then s.(subs := s.subs[id := Take(s.subs[id])]) else s
  }

  function Run(steps: seq<Step>): State {
    if steps == [] then State([], []) else Apply(Run(steps[..|steps| - 1]), steps[|steps| - 1])
  }

  function OnTopics(topics: set<string>): Event -> bool {
    (e: Event) => e.topic in topics
  }

  /** The events of the subscriber's topics published since it subscribed. */
  function Due(s: Sub, published: seq<Event>): seq<Event>
    requires s.since <= |published|
  {
    Filter(published[s.since..], OnTopics(s.topics))
  }

  /** What a subscriber took and still has: all it was due while registered, else a first part of it. */
  ghost predicate NoGap(s: Sub, published: seq<Event>) {
    && |s.queue| <= MAX_QUEUE_SIZE
    && s.since <= |published|
    && (s.registered ==> s.consumed + s.queue == Due(s, published))
    && s.consumed + s.queue <= Due(s, published)
  }

  lemma DueGrows(s: Sub, published: seq<Event>, e: Event)
    requires s.since <= |published|
    ensures Due(s, published + [e]) == Due(s, published) + if e.topic in s.topics then [e] else []
  {
    assert (published + [e])[s.since..] == published[s.since..] + [e];
    FilterAppend(published[s.since..], e, OnTopics(s.topics));
  }

  lemma OfferLeavesNoGap(s: Sub, published: seq<Event>, e: Event)
    requires NoGap(s, published)
    ensures NoGap(Offer(s, e), published + [e])
  {
    DueGrows(s, published, e);
    if s.registered && e.topic in s.topics && !IsFull(s) {
      assert s.consumed + (s.queue + [e]) == s.consumed + s.queue + [e];
    }
  }

  lemma TakeLeavesNoGap(s: Sub, published: seq<Event>)
    requires NoGap(s, published)
    ensures NoGap(Take(s), published)
  {
    if s.queue != [] {
      assert s.consumed + [s.queue[0]] + s.queue[1..] == s.consumed + s.queue;
    }
  }

  ghost predicate NoGaps(s: State) {
    forall i :: 0 <= i < |s.subs| ==> NoGap(s.subs[i], s.published)
  }

  lemma StepLeavesNoGaps(s: State, step: Step)
    requires NoGaps(s)
    ensures NoGaps(Apply(s, step))
  {
    match step
    case Subscribe(topics) =>
      assert s.published[|s.published|..] == [];
    case Unsubscribe(id) =>
    case Publish(e) =>
      forall i | 0 <= i < |s.subs| ensures NoGap(Offer(s.subs[i], e), s.published + [e]) {
        OfferLeavesNoGap(s.subs[i], s.published, e);
      }
    case Consume(id) =>
      if id < |s.subs| { TakeLeavesNoGap(s.subs[id], s.published); }
  }

  /**
    In every run, what a registered subscriber consumed followed by its queue
    is exactly the events of its topics published since it subscribed; a
    dropped one has a first part of them; no queue passes its bound.
   */
  lemma {:induction false} SubscribersMissNothing(steps: seq<Step>)
    ensures NoGaps(Run(steps))
  {
    if steps != [] {
      SubscribersMissNothing(steps[..|steps| - 1]);
      StepLeavesNoGaps(Run(steps[..|steps| - 1]), steps[|steps| - 1]);
    }
  }

  /** A publish drops exactly the registered subscribers of its topic that are 256 events behind. */
  lemma DroppedExactly(steps: seq<Step>, e: Event, id: nat)
    requires id < |Run(steps).subs|
    ensures Run(steps).subs[id].since <= |Run(steps).published|
    ensures var before, after := Run(steps).subs[id], Apply(Run(steps), Publish(e)).subs[id];
      before.registered && !after.registered <==>
        before.registered && e.topic in before.topics && |Due(before, Run(steps).published)| == |before.consumed| + 256
  {
    SubscribersMissNothing(steps);
    assert NoGap(Run(steps).subs[id], Run(steps).published);
  }

  ghost predicate IsOut(before: Sub, after: Sub) {
    !after.registered && after.topics == before.topics && after.consumed + after.queue == before.consumed + before.queue
  }

  lemma {:induction false} StepKeepsOut(s: State, step: Step, id: nat, before: Sub)
    requires id < |s.subs| && IsOut(before, s.subs[id])
    ensures id < |Apply(s, step).subs| && IsOut(before, Apply(s, step).subs[id])
  {
    if step.Consume? && step.id == id && s.subs[id].queue != [] {
      var sub := s.subs[id];
      assert sub.consumed + [sub.queue[0]] + sub.queue[1..] == sub.consumed + sub.queue;
    }
  }

  /** A client that unsubscribed keeps what it had been sent and is sent nothing more, whatever happens later. */
  lemma {:induction false} UnsubscribedGetsNothingMore(steps: seq<Step>, id: nat, more: seq<Step>)
    requires id < |Run(steps).subs|
    ensures var after := Run(steps + [Unsubscribe(id)] + more); id < |after.subs| && IsOut(Run(steps).subs[id], after.subs[id])
  {
    var left := steps + [Unsubscribe(id)];
    if more == [] {
      assert left + more == left && left[..|left| - 1] == steps;
    } else {
      var front, last := more[..|more| - 1], more[|more| - 1];
      UnsubscribedGetsNothingMore(steps, id, front);
      assert (left + more)[..|left + more| - 1] == left + front;
      StepKeepsOut(Run(left + front), last, id, Run(steps).subs[id]);
    }
  }
}
