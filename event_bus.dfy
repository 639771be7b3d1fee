/** The in-memory event bus: one unbounded FIFO queue shared by all senders and a map
    from agent id to the handler subscribed under it. A message is routed when the
    processor takes it from the head of the queue, to whichever handler is subscribed
    under its receiver at that moment, and is dropped when there is none. */
module EventBus {
  import opened Domain

  /** The callback an agent subscribes with: the message handler of agent `owner`. */
  datatype Handler = HandlerOf(owner: AgentId)

  /** One invocation of a subscribed callback. */
  datatype Delivery = Delivery(handler: Handler, message: Message)

  /** The callbacks the processor invokes when it dequeues `msgs` in order while the
      subscriber map is `subs`. */
  function Routed(msgs: seq<Message>, subs: map<AgentId, Handler>): (r: seq<Delivery>)
    ensures |r| <= |msgs|
    ensures forall d :: d in r ==>
              d.message in msgs && d.message.receiver in subs && d.handler == subs[d.message.receiver]
    ensures forall m :: m in msgs && m.receiver in subs ==> Delivery(subs[m.receiver], m) in r
  {
    if msgs == [] then []
    else
      var head := if msgs[0].receiver in subs then [Delivery(subs[msgs[0].receiver], msgs[0])] else [];
      head + Routed(msgs[1..], subs)
  }

  /** Routing distributes over concatenation: deliveries come out in publish order. */
  lemma {:induction false} RoutedAppend(a: seq<Message>, b: seq<Message>, subs: map<AgentId, Handler>)
    ensures Routed(a + b, subs) == Routed(a, subs) + Routed(b, subs)
  {
    if a == [] {
      assert a + b == b;
    } else {
      assert (a + b)[1..] == a[1..] + b;
      RoutedAppend(a[1..], b, subs);
    }
  }

  /** A message whose receiver has no subscriber produces no callback. */
  lemma RoutedDropsUnsubscribed(m: Message, subs: map<AgentId, Handler>)
    requires m.receiver !in subs
    ensures Routed([m], subs) == []
  {
    assert [m][1..] == [];
  }

  class InMemoryEventBus {
    var subscribers: map<AgentId, Handler>
    var queue: seq<Message>
    var running: bool
    /** Every callback invocation so far, oldest first. */
    var delivered: seq<Delivery>

    constructor ()
      ensures subscribers == map[] && queue == [] && !running && delivered == []
    {
      subscribers, queue, running, delivered := map[], [], false, [];
    }

    /** Enqueues at the tail, never rejects, and (re)starts the processor. */
    method Publish(m: Message)
      modifies this
      ensures queue == old(queue) + [m] && running
      ensures subscribers == old(subscribers) && delivered == old(delivered)
    {
      queue := queue + [m];
      if !running {
        running := true;
      }
    }

    /** Replaces any earlier handler for `id`; other entries are unchanged. */
    method Subscribe(id: AgentId, h: Handler)
      modifies this
      ensures subscribers == old(subscribers)[id := h]
      ensures queue == old(queue) && running == old(running) && delivered == old(delivered)
    {
      subscribers := subscribers[id := h];
    }

    /** Removes the entry for `id` if there is one. */
    method Unsubscribe(id: AgentId)
      modifies this
      ensures subscribers == old(subscribers) - {id}
      ensures id !in old(subscribers) ==> subscribers == old(subscribers)
      ensures queue == old(queue) && running == old(running) && delivered == old(delivered)
    {
      if id in subscribers {
        subscribers := subscribers - {id};
      }
    }

    /** Clears the running flag; the processor stops taking messages. */
    method Stop()
      modifies this
      ensures !running
      ensures subscribers == old(subscribers) && queue == old(queue) && delivered == old(delivered)
    {
      running := false;
    }

    /** One pass of the processor loop: while running, take the head message and invoke
        the handler currently subscribed under its receiver, if any. A handler that raises
        does not stop the processor. An empty queue is the one-second timeout. */
    method Step()
      modifies this
      ensures old(running) && old(queue) != [] ==>
                queue == old(queue)[1..] &&
                delivered == old(delivered) + Routed([old(queue)[0]], subscribers)
      ensures !(old(running) && old(queue) != []) ==>
                queue == old(queue) && delivered == old(delivered)
      ensures subscribers == old(subscribers) && running == old(running)
    {
      if running && queue != [] {
        var m := queue[0];
        queue := queue[1..];
        assert [m][1..] == [];
        if m.receiver in subscribers {
          delivered := delivered + [Delivery(subscribers[m.receiver], m)];
        }
      }
    }

    /** Runs the processor until the queue is empty: every queued message is routed,
        in publish order. A stopped bus leaves the queue for the next `Publish`. */
    method Drain()
      modifies this
      ensures old(running) ==> queue == [] && delivered == old(delivered) + Routed(old(queue), subscribers)
      ensures !old(running) ==> queue == old(queue) && delivered == old(delivered)
      ensures subscribers == old(subscribers) && running == old(running)
    {
      ghost var k := 0;
      while running && queue != []
        invariant running == old(running) && subscribers == old(subscribers)
        invariant 0 <= k <= |old(queue)| && queue == old(queue)[k..]
        invariant !running ==> k == 0
        invariant delivered == old(delivered) + Routed(old(queue)[..k], subscribers)
        decreases |queue|
      {
        ghost var done := old(queue)[..k];
        Step();
        assert old(queue)[..k + 1] == done + [old(queue)[k]];
        RoutedAppend(done, [old(queue)[k]], subscribers);
        k := k + 1;
      }
      assert running ==> old(queue)[..k] == old(queue);
    }
  }
}
