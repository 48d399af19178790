/** The live pub/sub of one council session: critical sections under the hub's lock, queue puts
    outside it, bounded queues, and an end marker. */
module SessionHub {
  import opened Lists

  datatype Msg = Event(n: nat) | End

  const CAPACITY: nat := 2048

  /** One subscriber queue. `unread` is what the consumer can still take; the rest is history: what
      it has taken, how many events had been published when it subscribed, and the fate of each event
      offered to it since (kept, or dropped on a full queue). */
  datatype Queue = Queue(taken: seq<Msg>, unread: seq<Msg>, joined: nat, fate: seq<bool>)
  {
    /** Everything ever put. */
    function Sent(): seq<Msg> {
      taken + unread
    }
  }

  /** The session's own task: between calls, putting an event, putting end markers, done. */
  datatype Runner = Running | Publishing(event: nat, rest: seq<nat>) | Finishing(rest: seq<nat>) | Finished

  datatype Hub = Hub(
    subscribers: seq<nat>,
    live: bool,
    completed: bool,
    queues: map<nat, Queue>,
    runner: Runner,
    log: seq<nat>)

  const INIT := Hub([], true, false, map[], Running, [])

  datatype Step =
    | Publish(event: nat)
    | Offer
    | Finish
    | PutEnd
    | Subscribe(id: nat)
    | Unsubscribe(id: nat)
    | Get(id: nat)

  predicate Full(q: Queue) {
    |q.unread| >= CAPACITY
  }

  /** `put_nowait`, or the dropped event. */
  function Offered(q: Queue, event: nat): Queue {
    if Full(q) then q.(fate := q.fate + [false])
    else q.(unread := q.unread + [Event(event)], fate := q.fate + [true])
  }

  function Ended(q: Queue): Queue {
    q.(unread := q.unread + [End])
  }

  /** The consumer takes the next item. */
  function Taken(q: Queue): Queue
    requires q.unread != []
  {
    q.(taken := q.taken + [q.unread[0]], unread := q.unread[1..])
  }

  function Without(s: seq<nat>, id: nat): seq<nat> {
    if s == [] then [] else if s[0] == id then s[1..] else [s[0]] + Without(s[1..], id)
  }

  predicate Enabled(h: Hub, step: Step) {
    match step
    case Publish(_) => h.runner.Running?
    case Offer => h.runner.Publishing?
    case Finish => h.runner.Running?
    case PutEnd => h.runner.Finishing? && (h.runner.rest != [] && h.runner.rest[0] in h.queues ==> !Full(h.queues[h.runner.rest[0]]))
    case Subscribe(id) => id !in h.queues
    case Unsubscribe(id) => id in h.queues
    case Get(id) => id in h.queues && h.queues[id].unread != []
  }

  function After(h: Hub, step: Step): Hub
    requires Enabled(h, step)
  {
    match step
    case Publish(e) => h.(runner := Publishing(e, h.subscribers), log := h.log + [e])
    case Offer =>
      if h.runner.rest == [] then h.(runner := Running)
      else
        var id := h.runner.rest[0];
        h.(runner := Publishing(h.runner.event, h.runner.rest[1..]),
           queues := if id in h.queues then h.queues[id := Offered(h.queues[id], h.runner.event)] else h.queues)
    case Finish => h.(live := false, completed := true, runner := Finishing(h.subscribers))
    case PutEnd =>
      if h.runner.rest == [] then h.(runner := Finished)
      else
        var id := h.runner.rest[0];
        h.(runner := Finishing(h.runner.rest[1..]),
           queues := if id in h.queues then h.queues[id := Ended(h.queues[id])] else h.queues)
    case Subscribe(id) =>
      var q := Queue([], [], |h.log|, []);
      h.(subscribers := h.subscribers + [id], queues := h.queues[id := if h.completed then Ended(q) else q])
    case Unsubscribe(id) => h.(subscribers := Without(h.subscribers, id))
    case Get(id) => h.(queues := h.queues[id := Taken(h.queues[id])])
  }

  // ------------------------------------------------------------ what a subscriber may see

  /** The events whose fate was to be kept, in order. */
  function Kept(events: seq<nat>, fate: seq<bool>): seq<Msg>
    requires |fate| <= |events|
    decreases |fate|
  {
    if fate == [] then []
    else
      var n := |fate| - 1;
      Kept(events, fate[..n]) + if fate[n] then [Event(events[n])] else []
  }

  predicate EndedQueue(q: Queue) {
    q.Sent() != [] && q.Sent()[|q.Sent()| - 1] == End
  }

  /** The published suffix since subscribing, in order, minus the drops, then at most one end marker. */
  predicate Faithful(log: seq<nat>, q: Queue) {
    && q.joined + |q.fate| <= |log|
    && q.Sent() == Kept(log[q.joined..], q.fate) + if EndedQueue(q) then [End] else []
  }

  /** The queues the runner's current call still has to reach. */
  function Waiting(r: Runner): seq<nat> {
    match r
    case Publishing(_, rest) => rest
    case Finishing(rest) => rest
    case _ => []
  }

  /** A queue holds no more than it can, and has dropped nothing before it had kept a queue full. */
  predicate WithinCapacity(q: Queue) {
    && |q.unread| <= CAPACITY
    && (forall k :: 0 <= k < |q.fate| && !q.fate[k] ==> Count(q.fate[..k]) >= CAPACITY)
  }

  predicate QueueOk(h: Hub, id: nat)
    requires id in h.queues
  {
    var q := h.queues[id];
    var waiting := h.runner.Publishing? && id in h.runner.rest;
    && Faithful(h.log, q)
    && (waiting ==> q.joined + |q.fate| + 1 == |h.log| && h.log[|h.log| - 1] == h.runner.event)
    && (id in h.subscribers && !waiting ==> q.joined + |q.fate| == |h.log|)
    && (EndedQueue(q) ==> h.completed && !(h.runner.Finishing? && id in h.runner.rest))
    && (h.completed && id in h.subscribers ==> EndedQueue(q) || (h.runner.Finishing? && id in h.runner.rest))
  }

  ghost predicate Inv(h: Hub) {
    && (h.completed <==> h.runner.Finishing? || h.runner.Finished?) && (h.live <==> !h.completed)
    && NoDuplicates(h.subscribers) && NoDuplicates(Waiting(h.runner))
    && (forall id :: id in h.subscribers || id in Waiting(h.runner) ==> id in h.queues)
    && (forall id :: id in h.queues ==> QueueOk(h, id))
  }

  // ------------------------------------------------------------ one step

  /** The rest of a loop over distinct subscribers. */
  lemma RestOf(rest: seq<nat>)
    requires NoDuplicates(rest) && rest != []
    ensures NoDuplicates(rest[1..])
    ensures forall id :: id in rest[1..] <==> id in rest && id != rest[0]
  {
    forall i, j | 0 <= i < j < |rest| - 1
      ensures rest[1..][i] != rest[1..][j]
    {
      assert rest[1..][i] == rest[i + 1] && rest[1..][j] == rest[j + 1];
    }
    forall id | id in rest[1..]
      ensures id != rest[0]
    {
      var i :| 0 <= i < |rest| - 1 && rest[1..][i] == id;
      assert rest[i + 1] == id;
    }
  }

  lemma OneInFront(x: nat, s: seq<nat>)
    requires NoDuplicates(s) && x !in s
    ensures NoDuplicates([x] + s)
  {
    forall i, j | 0 <= i < j < |s| + 1
      ensures ([x] + s)[i] != ([x] + s)[j]
    {
      assert ([x] + s)[j] == s[j - 1];
    }
  }

  lemma {:induction false} WithoutMembers(s: seq<nat>, id: nat)
    requires NoDuplicates(s)
    ensures NoDuplicates(Without(s, id))
    ensures forall x :: x in Without(s, id) <==> x in s && x != id
  {
    if s != [] {
      RestOf(s);
      WithoutMembers(s[1..], id);
      if s[0] != id {
        OneInFront(s[0], Without(s[1..], id));
      }
    }
  }

  lemma {:induction false} KeptIgnoresLater(events: seq<nat>, more: seq<nat>, fate: seq<bool>)
    requires |fate| <= |events|
    ensures Kept(events + more, fate) == Kept(events, fate)
    decreases |fate|
  {
    if fate != [] {
      KeptIgnoresLater(events, more, fate[..|fate| - 1]);
    }
  }

  lemma {:induction false} KeptHasNoEnd(events: seq<nat>, fate: seq<bool>)
    requires |fate| <= |events|
    ensures End !in Kept(events, fate)
    decreases |fate|
  {
    if fate != [] {
      KeptHasNoEnd(events, fate[..|fate| - 1]);
    }
  }

  lemma PublishKeepsQueue(h: Hub, e: nat, id: nat)
    requires Inv(h) && h.runner.Running? && id in h.queues
    ensures QueueOk(After(h, Publish(e)), id)
  {
    var q := h.queues[id];
    assert QueueOk(h, id);
    KeptIgnoresLater(h.log[q.joined..], [e], q.fate);
    assert (h.log + [e])[q.joined..] == h.log[q.joined..] + [e];
  }

  lemma {:induction false} KeptLength(events: seq<nat>, fate: seq<bool>)
    requires |fate| <= |events|
    ensures |Kept(events, fate)| == Count(fate)
    decreases |fate|
  {
    if fate != [] {
      KeptLength(events, fate[..|fate| - 1]);
    }
  }

  lemma OfferedFits(log: seq<nat>, q: Queue, event: nat)
    requires Faithful(log, q) && !EndedQueue(q) && WithinCapacity(q)
    ensures WithinCapacity(Offered(q, event))
  {
    var t := Offered(q, event);
    KeptLength(log[q.joined..], q.fate);
    forall k | 0 <= k < |t.fate| && !t.fate[k]
      ensures Count(t.fate[..k]) >= CAPACITY
    {
      assert t.fate[..k] == q.fate[..k];
      assert k == |q.fate| ==> q.fate[..k] == q.fate;
    }
  }

  lemma SentGrows(q: Queue, x: Msg)
    ensures q.(unread := q.unread + [x]).Sent() == q.Sent() + [x]
    ensures q.unread != [] ==> Taken(q).Sent() == q.Sent()
  {
  }

  lemma OfferedIsFaithful(log: seq<nat>, q: Queue, event: nat)
    requires Faithful(log, q) && !EndedQueue(q)
    requires q.joined + |q.fate| + 1 == |log| && log[|log| - 1] == event
    ensures Faithful(log, Offered(q, event)) && !EndedQueue(Offered(q, event))
  {
    var t := Offered(q, event);
    SentGrows(q, Event(event));
    var events := log[q.joined..];
    assert t.fate[..|t.fate| - 1] == q.fate;
    assert events[|q.fate|] == event;
  }

  lemma OfferKeepsFirst(h: Hub)
    requires Inv(h) && h.runner.Publishing? && h.runner.rest != []
    ensures h.runner.rest[0] in h.queues && QueueOk(After(h, Offer), h.runner.rest[0])
  {
    var id := h.runner.rest[0];
    assert id in h.queues && QueueOk(h, id);
    RestOf(h.runner.rest);
    OfferedIsFaithful(h.log, h.queues[id], h.runner.event);
  }

  lemma OfferKeepsOther(h: Hub, id: nat)
    requires Inv(h) && h.runner.Publishing? && h.runner.rest != [] && id in h.queues && id != h.runner.rest[0]
    ensures QueueOk(After(h, Offer), id)
  {
    assert QueueOk(h, id);
    RestOf(h.runner.rest);
  }

  lemma OfferKeeps(h: Hub)
    requires Inv(h) && h.runner.Publishing? && h.runner.rest != []
    ensures Inv(After(h, Offer))
  {
    var t := After(h, Offer);
    RestOf(h.runner.rest);
    OfferKeepsFirst(h);
    forall id | id in t.queues
      ensures QueueOk(t, id)
    {
      if id != h.runner.rest[0] {
        OfferKeepsOther(h, id);
      }
    }
  }

  lemma EndedIsFaithful(log: seq<nat>, q: Queue)
    requires Faithful(log, q) && !EndedQueue(q)
    ensures Faithful(log, Ended(q)) && EndedQueue(Ended(q))
  {
    SentGrows(q, End);
  }

  lemma PutEndKeepsQueue(h: Hub, id: nat)
    requires Inv(h) && h.runner.Finishing? && h.runner.rest != [] && Enabled(h, PutEnd) && id in h.queues
    ensures QueueOk(After(h, PutEnd), id)
  {
    assert QueueOk(h, id);
    RestOf(h.runner.rest);
    if id == h.runner.rest[0] {
      EndedIsFaithful(h.log, h.queues[id]);
    }
  }

  lemma PutEndKeeps(h: Hub)
    requires Inv(h) && h.runner.Finishing? && h.runner.rest != [] && Enabled(h, PutEnd)
    ensures Inv(After(h, PutEnd))
  {
    var t := After(h, PutEnd);
    RestOf(h.runner.rest);
    assert h.runner.rest[0] in h.queues;
    forall id | id in t.queues
      ensures QueueOk(t, id)
    {
      PutEndKeepsQueue(h, id);
    }
  }

  lemma TakenIsOk(log: seq<nat>, q: Queue)
    requires Faithful(log, q) && q.unread != []
    ensures Faithful(log, Taken(q)) && (EndedQueue(Taken(q)) <==> EndedQueue(q))
  {
    SentGrows(q, End);
  }

  /** A queue that changes only in what was taken of it stays as it should be. */
  lemma SameButTaken(h: Hub, t: Hub, id: nat)
    requires id in h.queues && QueueOk(h, id) && h.queues[id].unread != []
    requires t == h.(queues := h.queues[id := Taken(h.queues[id])])
    ensures QueueOk(t, id)
  {
    TakenIsOk(h.log, h.queues[id]);
  }

  lemma SameQueue(h: Hub, t: Hub, id: nat)
    requires id in h.queues && QueueOk(h, id) && t == h.(queues := t.queues)
    requires id in t.queues && t.queues[id] == h.queues[id]
    ensures QueueOk(t, id)
  {
  }

  lemma GetKeeps(h: Hub, id: nat)
    requires Inv(h) && Enabled(h, Get(id))
    ensures Inv(After(h, Get(id)))
  {
    var t := After(h, Get(id));
    forall x | x in t.queues
      ensures QueueOk(t, x)
    {
      assert QueueOk(h, x);
      if x == id {
        SameButTaken(h, t, id);
      } else {
        SameQueue(h, t, x);
      }
    }
  }

  lemma NewQueueOk(h: Hub, id: nat)
    requires Inv(h) && id !in h.queues
    ensures QueueOk(After(h, Subscribe(id)), id)
  {
    assert h.log[|h.log|..] == [];
  }

  lemma SubscribeKeepsQueue(h: Hub, id: nat, x: nat)
    requires Inv(h) && id !in h.queues && x in h.queues
    ensures QueueOk(After(h, Subscribe(id)), x)
  {
    assert QueueOk(h, x);
    assert x in h.subscribers + [id] <==> x in h.subscribers;
  }

  lemma SubscribeKeeps(h: Hub, id: nat)
    requires Inv(h) && id !in h.queues
    ensures Inv(After(h, Subscribe(id)))
  {
    var t := After(h, Subscribe(id));
    assert forall i :: 0 <= i < |h.subscribers| ==> h.subscribers[i] in h.queues;
    NewQueueOk(h, id);
    forall x | x in t.queues
      ensures QueueOk(t, x)
    {
      if x != id {
        SubscribeKeepsQueue(h, id, x);
      }
    }
  }

  lemma UnsubscribeKeeps(h: Hub, id: nat)
    requires Inv(h) && id in h.queues
    ensures Inv(After(h, Unsubscribe(id)))
  {
    var t := After(h, Unsubscribe(id));
    WithoutMembers(h.subscribers, id);
    forall x | x in t.queues
      ensures QueueOk(t, x)
    {
      assert QueueOk(h, x);
    }
  }

  lemma PublishKeeps(h: Hub, e: nat)
    requires Inv(h) && h.runner.Running?
    ensures Inv(After(h, Publish(e)))
  {
    var t := After(h, Publish(e));
    forall id | id in t.queues
      ensures QueueOk(t, id)
    {
      PublishKeepsQueue(h, e, id);
    }
  }

  /** Steps that touch no queue. */
  lemma QuietStepKeeps(h: Hub, step: Step)
    requires Inv(h) && Enabled(h, step)
    requires step.Finish? || ((step.Offer? || step.PutEnd?) && h.runner.rest == [])
    ensures Inv(After(h, step))
  {
    var t := After(h, step);
    forall id | id in t.queues
      ensures QueueOk(t, id)
    {
      assert QueueOk(h, id);
    }
  }

  lemma StepKeepsInv(h: Hub, step: Step)
    requires Inv(h) && Enabled(h, step)
    ensures Inv(After(h, step))
  {
    match step
    case Publish(e) => PublishKeeps(h, e);
    case Offer => if h.runner.rest == [] { QuietStepKeeps(h, step); } else { OfferKeeps(h); }
    case PutEnd => if h.runner.rest == [] { QuietStepKeeps(h, step); } else { PutEndKeeps(h); }
    case Subscribe(id) => SubscribeKeeps(h, id);
    case Unsubscribe(id) => UnsubscribeKeeps(h, id);
    case Get(id) => GetKeeps(h, id);
    case _ => QuietStepKeeps(h, step);
  }

  // ------------------------------------------------------------ every interleaving

  ghost predicate ValidRun(h: Hub, steps: seq<Step>)
    decreases |steps|
  {
    steps == [] || (Enabled(h, steps[0]) && ValidRun(After(h, steps[0]), steps[1..]))
  }

  ghost function Reached(h: Hub, steps: seq<Step>): Hub
    requires ValidRun(h, steps)
    decreases |steps|
  {
    if steps == [] then h else Reached(After(h, steps[0]), steps[1..])
  }

  lemma {:induction false} RunKeepsInv(h: Hub, steps: seq<Step>)
    requires Inv(h) && ValidRun(h, steps)
    ensures Inv(Reached(h, steps))
    decreases |steps|
  {
    if steps != [] {
      StepKeepsInv(h, steps[0]);
      RunKeepsInv(After(h, steps[0]), steps[1..]);
    }
  }

  /** Nothing follows an end marker in any queue, so no queue gets two. */
  lemma NothingAfterEnd(steps: seq<Step>, id: nat)
    requires ValidRun(INIT, steps) && id in Reached(INIT, steps).queues
    ensures var sent := Reached(INIT, steps).queues[id].Sent();
      forall i :: 0 <= i < |sent| && sent[i] == End ==> i == |sent| - 1
  {
    RunKeepsInv(INIT, steps);
    var h := Reached(INIT, steps);
    var q := h.queues[id];
    assert QueueOk(h, id);
    KeptHasNoEnd(h.log[q.joined..], q.fate);
  }

  /** When the session's task is through, every queue still subscribed has been sent the end marker
      and, before it, every event published since it subscribed that found room. */
  lemma EverySubscriberIsEnded(steps: seq<Step>, id: nat)
    requires ValidRun(INIT, steps)
    requires var h := Reached(INIT, steps); h.runner.Finished? && id in h.subscribers
    ensures var h := Reached(INIT, steps);
      && id in h.queues
      && var q := h.queues[id];
      && |q.fate| == |h.log| - q.joined
      && q.Sent() == Kept(h.log[q.joined..], q.fate) + [End]
  {
    RunKeepsInv(INIT, steps);
    assert QueueOk(Reached(INIT, steps), id);
  }

  /** At any moment a queue holds the events published since it subscribed, in order and without
      repetition, minus those that found it full. */
  lemma DeliveredInOrder(steps: seq<Step>, id: nat)
    requires ValidRun(INIT, steps) && id in Reached(INIT, steps).queues
    ensures var h := Reached(INIT, steps); Faithful(h.log, h.queues[id])
  {
    RunKeepsInv(INIT, steps);
    assert QueueOk(Reached(INIT, steps), id);
  }

  predicate AllFit(h: Hub) {
    forall id :: id in h.queues ==> WithinCapacity(h.queues[id])
  }

  lemma StepKeepsFit(h: Hub, step: Step)
    requires Inv(h) && AllFit(h) && Enabled(h, step)
    ensures AllFit(After(h, step))
  {
    if step.Offer? && h.runner.rest != [] && h.runner.rest[0] in h.queues {
      var id := h.runner.rest[0];
      assert QueueOk(h, id);
      OfferedFits(h.log, h.queues[id], h.runner.event);
    }
  }

  lemma {:induction false} RunKeepsFit(h: Hub, steps: seq<Step>)
    requires Inv(h) && AllFit(h) && ValidRun(h, steps)
    ensures AllFit(Reached(h, steps))
    decreases |steps|
  {
    if steps != [] {
      StepKeepsInv(h, steps[0]);
      StepKeepsFit(h, steps[0]);
      RunKeepsFit(After(h, steps[0]), steps[1..]);
    }
  }

  /** No queue ever holds more than its capacity, and a subscriber's first events, as many as a queue
      holds, all reach it, however slowly it reads. */
  lemma FirstEventsAreKept(steps: seq<Step>, id: nat)
    requires ValidRun(INIT, steps) && id in Reached(INIT, steps).queues
    ensures var q := Reached(INIT, steps).queues[id];
      && |q.unread| <= CAPACITY
      && forall k :: 0 <= k < |q.fate| && k < CAPACITY ==> q.fate[k]
  {
    RunKeepsFit(INIT, steps);
    var q := Reached(INIT, steps).queues[id];
    forall k | 0 <= k < |q.fate| && k < CAPACITY
      ensures q.fate[k]
    {
      CountAtMost(q.fate[..k]);
    }
  }

  // ------------------------------------------------------------ a reader that keeps up

  /** Whenever an event is offered to the queue, fewer than 2048 are unread. */
  ghost predicate KeepsUp(h: Hub, steps: seq<Step>, id: nat)
    requires ValidRun(h, steps)
    decreases |steps|
  {
    steps == []
    || ((steps[0].Offer? && h.runner.rest != [] && h.runner.rest[0] == id && id in h.queues ==> |h.queues[id].unread| < 2048)
        && KeepsUp(After(h, steps[0]), steps[1..], id))
  }

  predicate NoneDropped(h: Hub, id: nat) {
    id in h.queues ==> forall k :: 0 <= k < |h.queues[id].fate| ==> h.queues[id].fate[k]
  }

  lemma {:induction false} NoneDroppedStays(h: Hub, steps: seq<Step>, id: nat)
    requires ValidRun(h, steps) && KeepsUp(h, steps, id) && NoneDropped(h, id)
    ensures NoneDropped(Reached(h, steps), id)
    decreases |steps|
  {
    if steps != [] {
      NoneDroppedStays(After(h, steps[0]), steps[1..], id);
    }
  }

  function Events(log: seq<nat>): seq<Msg> {
    seq(|log|, i requires 0 <= i < |log| => Event(log[i]))
  }

  lemma {:induction false} KeptAll(events: seq<nat>, fate: seq<bool>)
    requires |fate| <= |events| && forall k :: 0 <= k < |fate| ==> fate[k]
    ensures Kept(events, fate) == Events(events[..|fate|])
    decreases |fate|
  {
    if fate != [] {
      KeptAll(events, fate[..|fate| - 1]);
    }
  }

  /** The queue has handed out and holds every event offered to it since it joined, in order, and the
      end marker at most; and every event was offered, but one that is just being published. */
  predicate GotAll(h: Hub, id: nat)
    requires id in h.queues
  {
    var q := h.queues[id];
    && q.joined + |q.fate| <= |h.log|
    && (id in h.subscribers && !(h.runner.Publishing? && id in h.runner.rest) ==> q.joined + |q.fate| == |h.log|)
    && q.Sent() == Events(h.log[q.joined..q.joined + |q.fate|]) + if EndedQueue(q) then [End] else []
  }

  lemma NoneDroppedGotAll(h: Hub, id: nat)
    requires Inv(h) && NoneDropped(h, id) && id in h.queues
    ensures GotAll(h, id)
  {
    assert QueueOk(h, id);
    AllKept(h.log, h.queues[id]);
  }

  /** A reader that never lets its queue fill up loses nothing, however long the session. */
  lemma KeepingUpLosesNothing(steps: seq<Step>, id: nat)
    requires ValidRun(INIT, steps) && KeepsUp(INIT, steps, id) && id in Reached(INIT, steps).queues
    ensures GotAll(Reached(INIT, steps), id)
  {
    RunKeepsInv(INIT, steps);
    NoneDroppedStays(INIT, steps, id);
    NoneDroppedGotAll(Reached(INIT, steps), id);
  }

  lemma AllKept(log: seq<nat>, q: Queue)
    requires Faithful(log, q) && forall k :: 0 <= k < |q.fate| ==> q.fate[k]
    ensures q.Sent() == Events(log[q.joined..q.joined + |q.fate|]) + if EndedQueue(q) then [End] else []
  {
    KeptAll(log[q.joined..], q.fate);
    assert log[q.joined..][..|q.fate|] == log[q.joined..q.joined + |q.fate|];
  }

  // ------------------------------------------------------------ a finish that never ends

  /** `finish` stands before a full queue while another one, read to the end, waits for its marker. */
  predicate Stuck(h: Hub, full: nat, waiting: nat) {
    && h.runner.Finishing? && h.runner.rest != [] && h.runner.rest[0] == full && waiting in h.runner.rest
    && full in h.queues && Full(h.queues[full])
    && waiting in h.queues && h.queues[waiting].unread == [] && !EndedQueue(h.queues[waiting])
  }

  /** The marker is put with a put that waits, so `finish` is stuck until the full queue is read: any
      run without such a read leaves it there, and the other subscriber without an end marker. */
  lemma {:induction false} StuckUntilRead(h: Hub, full: nat, waiting: nat, steps: seq<Step>)
    requires ValidRun(h, steps) && Stuck(h, full, waiting) && Get(full) !in steps
    ensures Stuck(Reached(h, steps), full, waiting) && !Enabled(Reached(h, steps), PutEnd)
    decreases |steps|
  {
    if steps != [] {
      assert steps[0] in steps;
      StuckUntilRead(After(h, steps[0]), full, waiting, steps[1..]);
    }
  }

  lemma {:induction false} RunsConcat(h: Hub, a: seq<Step>, b: seq<Step>)
    requires ValidRun(h, a) && ValidRun(Reached(h, a), b)
    ensures ValidRun(h, a + b) && Reached(h, a + b) == Reached(Reached(h, a), b)
    decreases |a|
  {
    if a == [] {
      assert a + b == b;
    } else {
      assert (a + b)[0] == a[0] && (a + b)[1..] == a[1..] + b;
      RunsConcat(After(h, a[0]), a[1..], b);
    }
  }

  lemma OneStep(h: Hub, step: Step)
    requires Enabled(h, step)
    ensures ValidRun(h, [step]) && Reached(h, [step]) == After(h, step)
  {
    assert [step][1..] == [];
  }

  /** Two subscribers; the first has read nothing of `n` events, the second all of them. */
  predicate OneReads(h: Hub, n: nat) {
    && h.runner.Running? && !h.completed && h.subscribers == [0, 1] && h.queues.Keys == {0, 1}
    && |h.queues[0].unread| == n && h.queues[1].unread == [] && End !in h.queues[1].taken
  }

  /** One event is published, offered to both, and read by the second. */
  lemma OneReadsMore(h: Hub, n: nat, event: nat) returns (steps: seq<Step>)
    requires OneReads(h, n) && n < CAPACITY
    ensures ValidRun(h, steps) && OneReads(Reached(h, steps), n + 1)
  {
    var published := After(h, Publish(event));
    var first := After(published, Offer);
    var second := After(first, Offer);
    var offered := After(second, Offer);
    assert published.runner.rest == [0, 1] && first.runner.rest == [1] && second.runner.rest == [];
    OneStep(h, Publish(event));
    OneStep(published, Offer);
    OneStep(first, Offer);
    OneStep(second, Offer);
    OneStep(offered, Get(1));
    RunsConcat(h, [Publish(event)], [Offer]);
    RunsConcat(h, [Publish(event)] + [Offer], [Offer]);
    RunsConcat(h, [Publish(event)] + [Offer] + [Offer], [Offer]);
    steps := [Publish(event)] + [Offer] + [Offer] + [Offer] + [Get(1)];
    RunsConcat(h, [Publish(event)] + [Offer] + [Offer] + [Offer], [Get(1)]);
  }

  lemma {:induction false} OneReadsMany(n: nat) returns (steps: seq<Step>)
    requires n <= CAPACITY
    ensures ValidRun(INIT, steps) && OneReads(Reached(INIT, steps), n)
  {
    if n == 0 {
      var one := After(INIT, Subscribe(0));
      OneStep(INIT, Subscribe(0));
      OneStep(one, Subscribe(1));
      RunsConcat(INIT, [Subscribe(0)], [Subscribe(1)]);
      steps := [Subscribe(0)] + [Subscribe(1)];
    } else {
      var before := OneReadsMany(n - 1);
      var more := OneReadsMore(Reached(INIT, before), n - 1, n);
      RunsConcat(INIT, before, more);
      steps := before + more;
    }
  }

  /** A reader that falls behind by a queue full and leaves after `finish` has begun leaves `finish`
      stuck, and a subscriber that has read everything is never told that the session is over. */
  lemma FinishMayNeverEnd() returns (steps: seq<Step>)
    ensures ValidRun(INIT, steps)
    ensures var h := Reached(INIT, steps);
      h.completed && 0 !in h.subscribers && 1 in h.subscribers && Stuck(h, 0, 1)
  {
    var full := OneReadsMany(CAPACITY);
    var h := Reached(INIT, full);
    var finishing := After(h, Finish);
    OneStep(h, Finish);
    OneStep(finishing, Unsubscribe(0));
    RunsConcat(INIT, full, [Finish]);
    RunsConcat(INIT, full + [Finish], [Unsubscribe(0)]);
    steps := full + [Finish] + [Unsubscribe(0)];
    assert Without([0, 1], 0) == [1];
  }

  /** What a whole `publish` does: the section, then one offer to each queue it saw. */
  ghost predicate Published(h: Hub, t: Hub, event: nat) {
    && t.runner.Running? && t.subscribers == h.subscribers && t.live == h.live && t.completed == h.completed
    && t.log == h.log + [event] && t.queues.Keys == h.queues.Keys
    && (forall id :: id in t.queues ==>
          t.queues[id] == if id in h.subscribers then Offered(h.queues[id], event) else h.queues[id])
  }

  lemma PublishedQueue(h: Hub, t: Hub, event: nat, id: nat)
    requires Inv(h) && h.runner.Running? && Published(h, t, event) && id in h.queues
    ensures QueueOk(t, id)
  {
    var mid := After(h, Publish(event));
    PublishKeepsQueue(h, event, id);
    if id in h.subscribers {
      OfferedIsFaithful(mid.log, mid.queues[id], event);
    }
  }

  lemma PublishedInv(h: Hub, t: Hub, event: nat)
    requires Inv(h) && h.runner.Running? && Published(h, t, event)
    ensures Inv(t)
  {
    forall id | id in t.queues
      ensures QueueOk(t, id)
    {
      PublishedQueue(h, t, event, id);
    }
  }

  ghost predicate OfferedTo(before: map<nat, Queue>, queues: map<nat, Queue>, done: seq<nat>, event: nat) {
    && queues.Keys == before.Keys
    && (forall id :: id in queues ==> queues[id] == if id in done then Offered(before[id], event) else before[id])
  }

  lemma OfferNext(before: map<nat, Queue>, queues: map<nat, Queue>, targets: seq<nat>, i: nat, event: nat)
    requires i < |targets| && targets[i] !in targets[..i] && targets[i] in queues && OfferedTo(before, queues, targets[..i], event)
    ensures OfferedTo(before, queues[targets[i] := Offered(queues[targets[i]], event)], targets[..i + 1], event)
  {
    assert targets[..i + 1] == targets[..i] + [targets[i]];
  }

  lemma OfferOneMore(h: Hub, queues: map<nat, Queue>, i: nat, event: nat)
    requires Inv(h) && i < |h.subscribers| && OfferedTo(h.queues, queues, h.subscribers[..i], event)
    ensures var id := h.subscribers[i];
      id in queues && OfferedTo(h.queues, queues[id := Offered(queues[id], event)], h.subscribers[..i + 1], event)
  {
    assert h.subscribers[i] in h.subscribers && h.subscribers[i] !in h.subscribers[..i];
    OfferNext(h.queues, queues, h.subscribers, i, event);
  }

  lemma OfferedIsPublished(h: Hub, t: Hub, event: nat)
    requires Inv(h) && h.runner.Running? && OfferedTo(h.queues, t.queues, h.subscribers, event)
    requires t == h.(log := h.log + [event], queues := t.queues)
    ensures Published(h, t, event) && Inv(t)
  {
    PublishedInv(h, t, event);
  }

  // ------------------------------------------------------------ the object

  /** The hub as the source has it: `publish` is a section under the lock followed by its puts,
      which nothing interrupts; `finish` and `subscribe` likewise. */
  class Session {
    var subscribers: seq<nat>
    var live: bool
    var completed: bool
    var queues: map<nat, Queue>
    var log: seq<nat>

    constructor ()
      ensures Now(Running) == INIT
    {
      subscribers, live, completed, queues, log := [], true, false, map[], [];
    }

    ghost function Now(runner: Runner): Hub
      reads this
    {
      Hub(subscribers, live, completed, queues, runner, log)
    }

    /** Publishing an event is the section and one offer to each queue it saw. */
    method PublishEvent(event: nat)
      requires Inv(Now(Running))
      modifies this
      ensures Published(old(Now(Running)), Now(Running), event) && Inv(Now(Running))
    {
      ghost var h := Now(Running);
      var targets := subscribers;
      log := log + [event];
      var i := 0;
      while i < |targets|
        invariant 0 <= i <= |targets| && OfferedTo(h.queues, queues, targets[..i], event)
        invariant Now(Running) == h.(log := h.log + [event], queues := queues)
      {
        OfferOneMore(h, queues, i, event);
        queues := queues[targets[i] := Offered(queues[targets[i]], event)];
        i := i + 1;
      }
      assert targets[..i] == targets;
      OfferedIsPublished(h, Now(Running), event);
    }

    /** A new queue; when the session is already over it is ended at once. */
    method SubscribeQueue(id: nat, ghost runner: Runner)
      requires Inv(Now(runner)) && id !in queues
      modifies this
      ensures Now(runner) == After(old(Now(runner)), Subscribe(id)) && Inv(Now(runner))
    {
      ghost var h := Now(runner);
      subscribers := subscribers + [id];
      var q := Queue([], [], |log|, []);
      if completed {
        q := Ended(q);
      }
      queues := queues[id := q];
      assert Now(runner) == After(h, Subscribe(id));
      SubscribeKeeps(h, id);
    }

    /** Removes the queue from the fan-out; a put already under way still reaches it. */
    method UnsubscribeQueue(id: nat, ghost runner: Runner)
      requires Inv(Now(runner)) && id in queues
      modifies this
      ensures Now(runner) == After(old(Now(runner)), Unsubscribe(id)) && Inv(Now(runner))
    {
      StepKeepsInv(Now(runner), Unsubscribe(id));
      subscribers := Without(subscribers, id);
    }

    /** The section of `finish`: from here on a new subscriber is ended at once. */
    method FinishSection() returns (targets: seq<nat>)
      requires Inv(Now(Running))
      modifies this
      ensures targets == subscribers
      ensures Now(Finishing(targets)) == After(old(Now(Running)), Finish) && Inv(Now(Finishing(targets)))
    {
      StepKeepsInv(Now(Running), Finish);
      live, completed := false, true;
      targets := subscribers;
    }

    /** One end marker, once the queue has room. */
    method PutEndMarker(targets: seq<nat>) returns (rest: seq<nat>)
      requires targets != [] && Inv(Now(Finishing(targets))) && !Full(queues[targets[0]])
      modifies this
      ensures Now(Finishing(rest)) == After(old(Now(Finishing(targets))), PutEnd) && Inv(Now(Finishing(rest)))
    {
      StepKeepsInv(Now(Finishing(targets)), PutEnd);
      queues := queues[targets[0] := Ended(queues[targets[0]])];
      rest := targets[1..];
    }
  }
}
