// The in-memory FIFO queue (app/services/queue.py): producers, one consumer task and stop,
// interleaved at the points where the code awaits.
module JobQueue {
  import opened Prelude
  import opened Jobs

  // Where the task of queue.start is: testing the stop flag, waiting in get, holding what get returned,
  // in the except clause with what the handler raised, in the finally clause (returning or going round
  // again), or ended.
  datatype Consumer =
    | NotStarted
    | Testing
    | Getting
    | Holding(item: Option<JobId>)
    | Catching(id: JobId)
    | Finishing(returning: bool, held: Option<JobId>)
    | Ended

  datatype Stopper = NotCalled | Awaiting | Returned

  // enqueued, handled, logged and takenAfterStop are history: no step reads them.
  datatype QueueState = QueueState(
    items: seq<Option<JobId>>, unfinished: int, stopping: bool, consumer: Consumer, stopper: Stopper,
    enqueued: seq<JobId>, handled: seq<JobId>, logged: seq<JobId>, takenAfterStop: nat)

  datatype Event =
    | Put(id: JobId) | Start | BeginStop | Test | Get
    | ReturnAtSentinel | HandlerReturns | HandlerRaises | LogException
    | TaskDone | StopReturns

  const FRESH := QueueState([], 0, false, NotStarted, NotCalled, [], [], [], 0)

  predicate Ready(q: QueueState, e: Event)
  {
    match e
    case Put(_) => true
    case Start => q.consumer.NotStarted? && q.stopper.NotCalled?
    case BeginStop => q.stopper.NotCalled?
    case Test => q.consumer.Testing?
    case Get => q.consumer.Getting? && q.items != []
    case ReturnAtSentinel => q.consumer == Holding(None)
    case HandlerReturns => q.consumer.Holding? && q.consumer.item.Some?
    case HandlerRaises => q.consumer.Holding? && q.consumer.item.Some?
    case LogException => q.consumer.Catching?
    case TaskDone => q.consumer.Finishing?
    case StopReturns => q.stopper.Awaiting? && (q.consumer.Ended? || q.consumer.NotStarted?)
  }

  function Next(q: QueueState, e: Event): QueueState
    requires Ready(q, e)
  {
    match e
    case Put(id) => q.(items := q.items + [Some(id)], unfinished := q.unfinished + 1, enqueued := q.enqueued + [id])
    case Start => q.(consumer := Testing)
    case BeginStop =>
      // The sentinel is put only when a task was started.
      if q.consumer.NotStarted? then q.(stopping := true, stopper := Awaiting)
      else q.(stopping := true, stopper := Awaiting, items := q.items + [None], unfinished := q.unfinished + 1)
    case Test => q.(consumer := if q.stopping then Ended else Getting)
    case Get =>
      q.(items := q.items[1..], consumer := Holding(q.items[0]),
         takenAfterStop := q.takenAfterStop + (if q.stopping && q.items[0].Some? then 1 else 0))
    case ReturnAtSentinel => q.(consumer := Finishing(true, None))
    case HandlerReturns => q.(consumer := Finishing(false, q.consumer.item))
    case HandlerRaises => q.(consumer := Catching(q.consumer.item.value))
    case LogException => q.(consumer := Finishing(false, Some(q.consumer.id)), logged := q.logged + [q.consumer.id])
    case TaskDone =>
      q.(unfinished := q.unfinished - 1,
         handled := if q.consumer.held.Some? then q.handled + [q.consumer.held.value] else q.handled,
         consumer := if q.consumer.returning then Ended else Testing)
    case StopReturns => q.(stopper := Returned)
  }

  // The ids among the waiting items, in order.
  function Ids(items: seq<Option<JobId>>): seq<JobId>
  {
    if items == [] then []
    else
      var n := |items| - 1;
      if items[n].Some? then Ids(items[..n]) + [items[n].value] else Ids(items[..n])
  }

  function Held(c: Consumer): Option<JobId>
  {
    match c
    case Holding(item) => item
    case Catching(id) => Some(id)
    case Finishing(_, held) => held
    case _ => None
  }

  function HeldIds(c: Consumer): seq<JobId>
  {
    if Held(c).Some? then [Held(c).value] else []
  }

  // An item taken from the queue and not yet marked done, the sentinel included.
  predicate Busy(c: Consumer) { c.Holding? || c.Catching? || c.Finishing? }

  // Nothing is lost, repeated or reordered, and the unfinished count is what join waits for.
  ghost predicate Conserved(q: QueueState)
  {
    && q.handled + HeldIds(q.consumer) + Ids(q.items) == q.enqueued
    && q.unfinished == |q.items| + (if Busy(q.consumer) then 1 else 0)
  }

  ghost predicate StopOk(q: QueueState)
  {
    && (q.stopping <==> !q.stopper.NotCalled?)
    && (q.takenAfterStop > 0 ==> q.takenAfterStop == 1 && q.stopping && !q.consumer.Getting? && !q.consumer.NotStarted?)
    && (q.consumer.Finishing? ==> (q.consumer.returning <==> q.consumer.held.None?))
    && (q.stopper.Returned? ==> q.consumer.Ended? || q.consumer.NotStarted?)
    // A consumer that waits after stop has the sentinel to wake it.
    && (q.stopping && q.consumer.Getting? ==> q.items != [])
  }

  // What was logged is an id whose handler raised; it counts as handled all the same.
  ghost predicate LoggedOk(q: QueueState)
  {
    forall id :: id in q.logged ==> id in q.handled || Held(q.consumer) == Some(id)
  }

  ghost predicate QueueOk(q: QueueState) { Conserved(q) && StopOk(q) && LoggedOk(q) }

  lemma {:induction false} IdsOfFront(items: seq<Option<JobId>>)
    requires items != []
    ensures Ids(items) == (if items[0].Some? then [items[0].value] else []) + Ids(items[1..])
  {
    var n := |items| - 1;
    if n == 0 {
      assert items[..0] == [] && items[1..] == [];
    } else {
      IdsOfFront(items[..n]);
      assert items[..n][1..] == items[1..][..n-1];
      assert items[1..][n-1] == items[n];
    }
  }

  lemma IdsAppend(items: seq<Option<JobId>>, item: Option<JobId>)
    ensures Ids(items + [item]) == Ids(items) + (if item.Some? then [item.value] else [])
  {
    assert (items + [item])[..|items|] == items;
  }

  lemma NextConserves(q: QueueState, e: Event)
    requires QueueOk(q) && Ready(q, e)
    ensures Conserved(Next(q, e))
  {
    if e.Put? {
      PutConserves(q, e.id);
    } else if e.BeginStop? {
      IdsAppend(q.items, None);
    } else if e.Get? {
      GetConserves(q);
    }
  }

  lemma PutConserves(q: QueueState, id: JobId)
    requires QueueOk(q)
    ensures Conserved(Next(q, Put(id)))
  {
    IdsAppend(q.items, Some(id));
    var taken := q.handled + HeldIds(q.consumer);
    assert taken + (Ids(q.items) + [id]) == taken + Ids(q.items) + [id];
  }

  lemma GetConserves(q: QueueState)
    requires QueueOk(q) && Ready(q, Get)
    ensures Conserved(Next(q, Get))
  {
    IdsOfFront(q.items);
    assert q.handled + [] == q.handled;
  }

  lemma NextStopOk(q: QueueState, e: Event)
    requires QueueOk(q) && Ready(q, e)
    ensures StopOk(Next(q, e))
  {
  }

  lemma NextLoggedOk(q: QueueState, e: Event)
    requires QueueOk(q) && Ready(q, e)
    ensures LoggedOk(Next(q, e))
  {
  }

  lemma NextOk(q: QueueState, e: Event)
    requires QueueOk(q) && Ready(q, e)
    ensures QueueOk(Next(q, e))
  {
    NextConserves(q, e);
    NextLoggedOk(q, e);
    NextStopOk(q, e);
  }

  ghost predicate IsQueueRun(qs: seq<QueueState>, events: seq<Event>)
  {
    && |qs| == |events| + 1 && qs[0] == FRESH
    && forall i :: 0 <= i < |events| ==> QueueStep(qs[i], events[i], qs[i+1])
  }

  ghost predicate QueueStep(q: QueueState, e: Event, q': QueueState)
  {
    Ready(q, e) && q' == Next(q, e)
  }

  lemma {:induction false} QueueRunOk(qs: seq<QueueState>, events: seq<Event>, i: nat)
    requires IsQueueRun(qs, events) && i < |qs|
    ensures QueueOk(qs[i])
  {
    if i > 0 {
      QueueRunOk(qs, events, i - 1);
      assert QueueStep(qs[i-1], events[i-1], qs[i]);
      NextOk(qs[i-1], events[i-1]);
    }
  }

  // ----- The sentinel -----

  // No sentinel has been put.
  ghost predicate NoSentinel(q: QueueState)
  {
    (forall p :: 0 <= p < |q.items| ==> q.items[p].Some?) && q.consumer != Holding(None)
  }

  // The ids handled, in hand and waiting before a sentinel are exactly those enqueued before stop.
  ghost predicate SentinelOk(q: QueueState, before: seq<JobId>)
  {
    && (forall p :: 0 <= p < |q.items| && q.items[p].None? ==>
          q.handled + HeldIds(q.consumer) + Ids(q.items[..p]) == before)
    && (q.consumer == Holding(None) ==> q.handled == before)
  }

  lemma StillNoSentinel(q: QueueState, e: Event)
    requires NoSentinel(q) && Ready(q, e) && !e.BeginStop?
    ensures NoSentinel(Next(q, e))
  {
  }

  lemma SentinelPut(q: QueueState)
    requires QueueOk(q) && NoSentinel(q) && Ready(q, BeginStop)
    ensures SentinelOk(Next(q, BeginStop), q.enqueued)
  {
    var r := Next(q, BeginStop);
    forall p | 0 <= p < |r.items| && r.items[p].None?
      ensures r.handled + HeldIds(r.consumer) + Ids(r.items[..p]) == q.enqueued
    {
      assert r.items[..p] == q.items;
    }
  }

  lemma PutKeepsSentinel(q: QueueState, id: JobId, before: seq<JobId>)
    requires SentinelOk(q, before)
    ensures SentinelOk(Next(q, Put(id)), before)
  {
    var r := Next(q, Put(id));
    forall p | 0 <= p < |r.items| && r.items[p].None?
      ensures r.handled + HeldIds(r.consumer) + Ids(r.items[..p]) == before
    {
      assert r.items[..p] == q.items[..p];
    }
  }

  lemma GetKeepsSentinel(q: QueueState, before: seq<JobId>)
    requires SentinelOk(q, before) && Ready(q, Get)
    ensures SentinelOk(Next(q, Get), before)
  {
    var r := Next(q, Get);
    if q.items[0].None? {
      assert q.items[..0] == [];
      assert q.handled + [] + [] == q.handled;
    }
    forall p | 0 <= p < |r.items| && r.items[p].None?
      ensures r.handled + HeldIds(r.consumer) + Ids(r.items[..p]) == before
    {
      var front := q.items[..p+1];
      assert front != [] && front[1..] == r.items[..p];
      IdsOfFront(front);
    }
  }

  lemma NextKeepsSentinel(q: QueueState, e: Event, before: seq<JobId>)
    requires SentinelOk(q, before) && Ready(q, e) && !e.BeginStop?
    ensures SentinelOk(Next(q, e), before)
  {
    if e.Put? {
      PutKeepsSentinel(q, e.id, before);
    } else if e.Get? {
      GetKeepsSentinel(q, before);
    }
  }

  lemma {:induction false} NoSentinelBeforeStop(qs: seq<QueueState>, events: seq<Event>, i: nat)
    requires IsQueueRun(qs, events) && i < |qs| && qs[i].stopper.NotCalled?
    ensures NoSentinel(qs[i])
  {
    if i > 0 {
      assert QueueStep(qs[i-1], events[i-1], qs[i]);
      NoSentinelBeforeStop(qs, events, i - 1);
      StillNoSentinel(qs[i-1], events[i-1]);
    }
  }

  lemma {:induction false} StopBeginsOnce(qs: seq<QueueState>, events: seq<Event>, b: nat, i: nat)
    requires IsQueueRun(qs, events) && b < i < |qs| && events[b].BeginStop?
    ensures !qs[i].stopper.NotCalled?
  {
    assert QueueStep(qs[i-1], events[i-1], qs[i]);
    if i > b + 1 { StopBeginsOnce(qs, events, b, i - 1); }
  }

  // The sentinel never overtakes an id: the ids handled, in hand or waiting before it are, in order, exactly those
  // enqueued before stop began. A consumer that takes the sentinel has handled all of these.
  lemma {:induction false} IdsBeforeStopComeFirst(qs: seq<QueueState>, events: seq<Event>, b: nat, i: nat)
    requires IsQueueRun(qs, events) && b < i < |qs| && events[b].BeginStop?
    ensures forall p :: 0 <= p < |qs[i].items| && qs[i].items[p].None? ==>
              qs[i].handled + HeldIds(qs[i].consumer) + Ids(qs[i].items[..p]) == qs[b].enqueued
    ensures qs[i].consumer == Holding(None) ==> qs[i].handled == qs[b].enqueued
  {
    assert QueueStep(qs[i-1], events[i-1], qs[i]);
    if i == b + 1 {
      QueueRunOk(qs, events, b);
      NoSentinelBeforeStop(qs, events, b);
      SentinelPut(qs[b]);
    } else {
      IdsBeforeStopComeFirst(qs, events, b, i - 1);
      StopBeginsOnce(qs, events, b, i - 1);
      NextKeepsSentinel(qs[i-1], events[i-1], qs[b].enqueued);
    }
  }

  // ----- What a run keeps -----

  // Whatever the handlers raise, ids are handled in the order they were enqueued, each once, and none is
  // lost; the unfinished count is what is waiting plus what is in hand; an id whose handler raised is
  // handled or in hand like any other.
  lemma IdsAreConserved(qs: seq<QueueState>, events: seq<Event>, i: nat)
    requires IsQueueRun(qs, events) && i < |qs|
    ensures qs[i].handled + HeldIds(qs[i].consumer) + Ids(qs[i].items) == qs[i].enqueued
    ensures qs[i].unfinished == |qs[i].items| + (if Busy(qs[i].consumer) then 1 else 0)
    ensures forall id :: id in qs[i].logged ==> id in qs[i].handled + HeldIds(qs[i].consumer)
  {
    QueueRunOk(qs, events, i);
  }

  // After stop has begun at most one further id is taken. When stop returns nothing is in flight: every
  // id was handled or still waits. Until then the consumer is not stuck: it can always take a step.
  lemma StopIsBounded(qs: seq<QueueState>, events: seq<Event>, i: nat)
    requires IsQueueRun(qs, events) && i < |qs|
    ensures qs[i].takenAfterStop <= 1
    ensures qs[i].stopper.Returned? ==>
              !Busy(qs[i].consumer) && qs[i].handled + Ids(qs[i].items) == qs[i].enqueued
    ensures qs[i].stopper.Awaiting? ==>
              exists e :: Ready(qs[i], e) && (e.StopReturns? || ConsumerMoves(e))
  {
    QueueRunOk(qs, events, i);
    var q := qs[i];
    assert q.handled + [] == q.handled;
    if q.stopper.Awaiting? {
      var e := match q.consumer
        case Testing => Test
        case Getting => Get
        case Holding(item) => if item.None? then ReturnAtSentinel else HandlerReturns
        case Catching(_) => LogException
        case Finishing(_, _) => TaskDone
        case _ => StopReturns;
      assert Ready(q, e);
    }
  }

  predicate ConsumerMoves(e: Event)
  {
    e.Test? || e.Get? || e.ReturnAtSentinel? || e.HandlerReturns? || e.HandlerRaises? || e.LogException? || e.TaskDone?
  }

  // The consumer's own steps until it ends, once stop has begun: at most five, so stop returns when the
  // handler in hand does.
  function StepsToEnd(c: Consumer): nat
  {
    match c
    case Getting => 5
    case Holding(_) => 4
    case Catching(_) => 3
    case Finishing(_, _) => 2
    case Testing => 1
    case _ => 0
  }

  lemma ConsumerEnds(q: QueueState, e: Event)
    requires QueueOk(q) && Ready(q, e) && q.stopping && ConsumerMoves(e)
    ensures StepsToEnd(Next(q, e).consumer) < StepsToEnd(q.consumer)
    ensures StepsToEnd(Next(q, e).consumer) == 0 ==> Next(q, e).consumer.Ended?
  {
  }

  // From the item in hand to task_done: the return at the sentinel, or the handler call with its except clause.
  function AfterItem(q: QueueState, raised: bool): QueueState
    requires q.consumer.Holding?
  {
    Next(AfterTry(q, raised), TaskDone)
  }

  function AfterTry(q: QueueState, raised: bool): (r: QueueState)
    requires q.consumer.Holding?
    ensures r.consumer.Finishing?
  {
    if q.consumer.item.None? then Next(q, ReturnAtSentinel)
    else if raised then Next(Next(q, HandlerRaises), LogException)
    else Next(q, HandlerReturns)
  }

  // One round of _run that finds an item waiting.
  function AfterRound(q: QueueState, raised: bool): QueueState
    requires q.consumer == Testing && q.items != []
  {
    if q.stopping then Next(q, Test) else AfterItem(Next(Next(q, Test), Get), raised)
  }

  lemma ItemIsHandled(q: QueueState, raised: bool)
    requires QueueOk(q) && q.consumer.Holding?
    ensures QueueOk(AfterItem(q, raised))
    ensures var r, id := AfterItem(q, raised), q.consumer.item;
            && r.items == q.items && r.enqueued == q.enqueued && r.unfinished == q.unfinished - 1
            && r.handled == q.handled + (if id.Some? then [id.value] else [])
            && r.logged == q.logged + (if id.Some? && raised then [id.value] else [])
            && r.consumer == (if id.None? then Ended else Testing)
            && r.stopping == q.stopping && r.stopper == q.stopper
  {
    if q.consumer.item.None? {
      NextOk(q, ReturnAtSentinel);
      NextOk(Next(q, ReturnAtSentinel), TaskDone);
    } else if raised {
      NextOk(q, HandlerRaises);
      NextOk(Next(q, HandlerRaises), LogException);
      NextOk(Next(Next(q, HandlerRaises), LogException), TaskDone);
    } else {
      NextOk(q, HandlerReturns);
      NextOk(Next(q, HandlerReturns), TaskDone);
    }
  }

  // A round that stop has not reached takes the first item, hands it on, logs what the handler raised, if it
  // did, and goes round again unless the item was the sentinel; after stop a round takes nothing.
  lemma RoundTakesOne(q: QueueState, raised: bool)
    requires QueueOk(q) && q.consumer == Testing && q.items != []
    ensures QueueOk(AfterRound(q, raised))
    ensures var r, id := AfterRound(q, raised), q.items[0];
            && r.enqueued == q.enqueued && r.stopping == q.stopping && r.stopper == q.stopper
            && (q.stopping ==>
                  r.items == q.items && r.handled == q.handled && r.logged == q.logged && r.consumer == Ended)
            && (!q.stopping ==>
                  && r.items == q.items[1..] && r.unfinished == q.unfinished - 1
                  && r.handled == q.handled + (if id.Some? then [id.value] else [])
                  && r.logged == q.logged + (if id.Some? && raised then [id.value] else [])
                  && r.consumer == (if id.None? then Ended else Testing))
  {
    NextOk(q, Test);
    if !q.stopping {
      NextOk(Next(q, Test), Get);
      ItemIsHandled(Next(Next(q, Test), Get), raised);
    }
  }

  // ----- The class -----

  // InMemoryJobQueue: each method is the code between two awaits; unfinished is asyncio.Queue's own count.
  class InMemoryJobQueue {
    var items: seq<Option<JobId>>
    var unfinished: int
    var stopping: bool
    var consumer: Consumer
    var stopper: Stopper
    ghost var enqueued: seq<JobId>
    ghost var handled: seq<JobId>
    ghost var logged: seq<JobId>
    ghost var takenAfterStop: nat

    ghost function View(): QueueState
      reads this
    {
      QueueState(items, unfinished, stopping, consumer, stopper, enqueued, handled, logged, takenAfterStop)
    }

    ghost predicate Valid()
      reads this
    {
      QueueOk(View())
    }

    constructor ()
      ensures Valid() && View() == FRESH
    {
      items, unfinished, stopping := [], 0, false;
      consumer, stopper := NotStarted, NotCalled;
      enqueued, handled, logged, takenAfterStop := [], [], [], 0;
    }

    // enqueue, and the depth it reports.
    method Enqueue(id: JobId) returns (depth: nat)
      requires Valid()
      modifies this
      ensures Valid() && View() == Next(old(View()), Put(id)) && depth == |items|
    {
      NextOk(View(), Put(id));
      items := items + [Some(id)];
      unfinished := unfinished + 1;
      enqueued := enqueued + [id];
      depth := |items|;
    }

    method StartTask()
      requires Valid() && Ready(View(), Start)
      modifies this
      ensures Valid() && View() == Next(old(View()), Start)
    {
      NextOk(View(), Start);
      consumer := Testing;
    }

    // stop up to its await.
    method RequestStop()
      requires Valid() && Ready(View(), BeginStop)
      modifies this
      ensures Valid() && View() == Next(old(View()), BeginStop)
    {
      NextOk(View(), BeginStop);
      stopping := true;
      stopper := Awaiting;
      if !consumer.NotStarted? {
        items := items + [None];
        unfinished := unfinished + 1;
      }
    }

    // The try and except clauses. The handler is the caller's; raised tells whether it raised.
    method Try(raised: bool)
      requires consumer.Holding?
      modifies this
      ensures View() == AfterTry(old(View()), raised)
    {
      var item := consumer.item;
      if item.None? {
        consumer := Finishing(true, None);
        return;
      }
      if raised {
        consumer := Catching(item.value);
        logged := logged + [item.value];
      }
      consumer := Finishing(false, item);
    }

    // The finally clause, and the way back to the loop test or out.
    method MarkDone() returns (ended: bool)
      requires consumer.Finishing?
      modifies this
      ensures View() == Next(old(View()), TaskDone) && (ended <==> consumer == Ended)
    {
      ended := consumer.returning;
      unfinished := unfinished - 1;
      if consumer.held.Some? {
        handled := handled + [consumer.held.value];
      }
      consumer := if ended then Ended else Testing;
    }

    method HandleItem(raised: bool) returns (ended: bool)
      requires Valid() && consumer.Holding?
      modifies this
      ensures Valid() && View() == AfterItem(old(View()), raised)
      ensures ended <==> consumer == Ended
    {
      ItemIsHandled(View(), raised);
      Try(raised);
      ended := MarkDone();
    }

    method RunRound(raised: bool) returns (ended: bool)
      requires Valid() && consumer == Testing && items != []
      modifies this
      ensures Valid() && View() == AfterRound(old(View()), raised)
      ensures ended <==> consumer == Ended
    {
      NextOk(View(), Test);
      if stopping {
        consumer := Ended;
        return true;
      }
      NextOk(Next(View(), Test), Get);
      var item := items[0];
      items := items[1..];
      consumer := Holding(item);
      ended := HandleItem(raised);
    }

    // The loop of _run as far as it gets without waiting for another enqueue.
    method Run(raises: JobId -> bool) returns (ended: bool)
      requires Valid() && consumer == Testing
      modifies this
      ensures Valid() && enqueued == old(enqueued) && stopping == old(stopping)
      ensures ended ==> consumer == Ended
      ensures !ended ==> items == [] && handled == enqueued
      ensures old(stopping) ==> ended && handled == old(handled)
    {
      ended := false;
      while !ended && items != []
        invariant Valid() && enqueued == old(enqueued) && stopping == old(stopping)
        invariant consumer == if ended then Ended else Testing
        invariant old(stopping) ==> handled == old(handled) && (ended || items == old(items))
        decreases if ended then 0 else 1, |items|
      {
        var raised := items[0].Some? && raises(items[0].value);
        RoundTakesOne(View(), raised);
        ended := RunRound(raised);
      }
      if !ended && stopping {
        NextOk(View(), Test);
        consumer := Ended;
        ended := true;
      }
      assert Ids([]) == [];
    }
  }
}
