// Shutdown in combined mode: the queue of module JobQueue and the queue of module Protocol are one, each step of
// the consumer task being one of queue.py, one of the service, or both; so stop says what becomes of the jobs.
module Shutdown {
  import opened Prelude
  import opened Jobs
  import opened Protocol
  import opened Invariants
  import Lifecycle
  import Combined
  import JobQueue

  datatype Joint = Joint(s: State, q: JobQueue.QueueState)

  datatype Move = JobsOnly(l: Label) | QueueOnly(e: JobQueue.Event) | Both(l: Label, e: JobQueue.Event)

  // enqueue is a step of both, and so are taking an id and the return of the handler, which raises if process did.
  // The consumer takes no step of its own after a crash.
  ghost predicate Coupled(s: State, q: JobQueue.QueueState, l: Label, e: JobQueue.Event)
    requires !l.Tick? && l.a < |s.actors|
  {
    var pc := s.actors[l.a];
    || (l.Put? && pc.Enqueuing? && pc.job < |s.jobs| && e == JobQueue.Put(s.jobs[pc.job].jobId))
    || (l.Take? && e.Get? && q.items != [] && q.items[0].Some?)
    || (l.Return? && pc.Finished? && e == if pc.raised then JobQueue.HandlerRaises else JobQueue.HandlerReturns)
  }

  predicate QueueAlone(q: JobQueue.QueueState, e: JobQueue.Event)
  {
    || e.Start? || e.BeginStop? || e.StopReturns? || e.Test? || e.ReturnAtSentinel? || e.LogException? || e.TaskDone?
    || (e.Get? && q.items != [] && q.items[0].None?)
  }

  ghost predicate CanMove(c: Config, w: Joint, m: Move)
  {
    match m
    case JobsOnly(l) => Enabled(c, w.s, l) && Combined.CombinedLabel(l) && !l.Put? && !l.Take? && !l.Return?
    case QueueOnly(e) =>
      && JobQueue.Ready(w.q, e) && QueueAlone(w.q, e)
      && |w.s.actors| > 0 && (JobQueue.ConsumerMoves(e) ==> !w.s.actors[0].Crashed?)
    case Both(l, e) =>
      && Enabled(c, w.s, l) && Combined.CombinedLabel(l) && JobQueue.Ready(w.q, e)
      && !l.Tick? && Coupled(w.s, w.q, l, e)
  }

  ghost function Moved(c: Config, w: Joint, m: Move): Joint
    requires CanMove(c, w, m)
  {
    match m
    case JobsOnly(l) => w.(s := Apply(c, w.s, l))
    case QueueOnly(e) => w.(q := JobQueue.Next(w.q, e))
    case Both(l, e) => Joint(Apply(c, w.s, l), JobQueue.Next(w.q, e))
  }

  // ----- How the two fit -----

  ghost predicate Within(jobs: seq<Job>, ks: seq<nat>) { forall i :: 0 <= i < |ks| ==> ks[i] < |jobs| }

  ghost function IdsOf(jobs: seq<Job>, ks: seq<nat>): (ids: seq<JobId>)
    requires Within(jobs, ks)
    ensures |ids| == |ks| && forall i :: 0 <= i < |ks| ==> ids[i] == jobs[ks[i]].jobId
  {
    seq(|ks|, i requires 0 <= i < |ks| => jobs[ks[i]].jobId)
  }

  // The consumer has an id in hand, and is at work on its job.
  ghost predicate Handling(q: JobQueue.QueueState) { q.consumer.Holding? && q.consumer.item.Some? }

  ghost predicate ConsumerFits(jobs: seq<Job>, pc: Pc, q: JobQueue.QueueState)
  {
    if pc.Idle? then !Handling(q)
    else
      && Handling(q) && Combined.Consuming(pc)
      && Combined.InFlight(pc) < |jobs| && q.consumer.item.value == jobs[Combined.InFlight(pc)].jobId
  }

  ghost predicate QueuesFit(w: Joint)
  {
    && Within(w.s.jobs, w.s.queue) && Within(w.s.jobs, w.s.enqueued)
    && JobQueue.Ids(w.q.items) == IdsOf(w.s.jobs, w.s.queue) && w.q.enqueued == IdsOf(w.s.jobs, w.s.enqueued)
  }

  ghost predicate Fits(w: Joint)
  {
    |w.s.actors| > 0 && QueuesFit(w) && ConsumerFits(w.s.jobs, At(w.s.actors[0]), w.q)
  }

  ghost predicate JointOk(c: Config, w: Joint, clean: bool)
  {
    Inv(c, w.s) && Combined.CombinedOk(w.s, clean) && JobQueue.QueueOk(w.q) && Fits(w)
  }

  // ----- Steps of the jobs alone -----

  ghost predicate SameIds(before: seq<Job>, after: seq<Job>)
  {
    |before| <= |after| && forall k :: 0 <= k < |before| ==> after[k].jobId == before[k].jobId
  }

  lemma StepKeepsIds(c: Config, s: State, l: Label)
    requires Inv(c, s) && Enabled(c, s, l)
    ensures SameIds(s.jobs, Apply(c, s, l).jobs)
  {
    StepEvolves(c, s, l);
    forall k | 0 <= k < |s.jobs| ensures Apply(c, s, l).jobs[k].jobId == s.jobs[k].jobId {
      assert Evolves(s.jobs[k], Apply(c, s, l).jobs[k]);
    }
  }

  lemma SameIdsOf(before: seq<Job>, after: seq<Job>, ks: seq<nat>)
    requires SameIds(before, after) && Within(before, ks)
    ensures Within(after, ks) && IdsOf(after, ks) == IdsOf(before, ks)
  {
  }

  lemma QueuesFitStill(w: Joint, s': State)
    requires QueuesFit(w) && SameIds(w.s.jobs, s'.jobs) && Combined.SameQueue(w.s, s')
    ensures QueuesFit(w.(s := s'))
  {
    SameIdsOf(w.s.jobs, s'.jobs, w.s.queue);
    SameIdsOf(w.s.jobs, s'.jobs, w.s.enqueued);
  }

  lemma OtherStepKeepsQueue(c: Config, s: State, l: Label)
    requires Enabled(c, s, l) && !l.Put? && !l.Take?
    ensures Combined.SameQueue(s, Apply(c, s, l))
  {
    if Settles(l) { SettlerKeepsQueue(c, s, l); }
  }

  lemma SettlerKeepsQueue(c: Config, s: State, l: Label)
    requires Settles(l) && Enabled(c, s, l)
    ensures Combined.SameQueue(s, SettleStep(c, s, l))
  {
  }

  // Only its return makes the consumer idle.
  lemma StarterIsNotIdle(c: Config, s: State, l: Label)
    requires Starts(l) && Enabled(c, s, l)
    ensures |StartStep(c, s, l).actors| == |s.actors| && !At(StartStep(c, s, l).actors[l.a]).Idle?
  {
  }

  lemma SettlerIsNotIdle(c: Config, s: State, l: Label)
    requires Settles(l) && !l.Return? && Enabled(c, s, l)
    ensures |SettleStep(c, s, l).actors| == |s.actors| && !At(SettleStep(c, s, l).actors[l.a]).Idle?
  {
  }

  lemma MoverIsNotIdle(c: Config, s: State, l: Label)
    requires (Starts(l) || Settles(l)) && !l.Return? && Enabled(c, s, l)
    ensures |Apply(c, s, l).actors| == |s.actors| && !At(Apply(c, s, l).actors[l.a]).Idle?
  {
    if Starts(l) { StarterIsNotIdle(c, s, l); } else { SettlerIsNotIdle(c, s, l); }
  }

  // The consumer is on its way with the same job.
  ghost predicate SameFlight(pc: Pc, pc': Pc)
  {
    && !pc.Idle? && !pc'.Idle? && Combined.Consuming(pc) && Combined.Consuming(pc')
    && Combined.InFlight(pc') == Combined.InFlight(pc)
  }

  lemma StaysInFlight(s: State, s': State, clean: bool)
    requires |s.actors| > 0 && Combined.Consuming(At(s.actors[0])) && !At(s.actors[0]).Idle?
    requires Combined.StaysWithJob(s, s', Combined.InFlight(At(s.actors[0])), clean) && !At(s'.actors[0]).Idle?
    ensures SameFlight(At(s.actors[0]), At(s'.actors[0]))
  {
  }

  lemma ConsumerKeepsJob(c: Config, s: State, l: Label, clean: bool)
    requires ActorsOk(c, s) && Combined.CombinedOk(s, clean) && Combined.CombinedLabel(l)
    requires (Starts(l) || Settles(l)) && !l.Take? && !l.Return? && Enabled(c, s, l)
    ensures |Apply(c, s, l).actors| == |s.actors| && SameFlight(At(s.actors[0]), At(Apply(c, s, l).actors[0]))
  {
    Combined.ConsumerIsOnItsWay(c, s, l, clean);
    Combined.ConsumerStays(c, s, l, Combined.InFlight(At(s.actors[0])), clean);
    MoverIsNotIdle(c, s, l);
    StaysInFlight(s, Apply(c, s, l), clean && !l.EvaluateError?);
  }

  // A step of the jobs alone leaves the consumer where it was, or with the same job.
  lemma ConsumerPlaceKept(c: Config, s: State, l: Label, clean: bool)
    requires ActorsOk(c, s) && Combined.CombinedOk(s, clean) && Combined.CombinedLabel(l)
    requires !l.Put? && !l.Take? && !l.Return? && Enabled(c, s, l)
    ensures |Apply(c, s, l).actors| == |s.actors|
    ensures var pc, pc' := At(s.actors[0]), At(Apply(c, s, l).actors[0]); pc' == pc || SameFlight(pc, pc')
  {
    if Starts(l) || Settles(l) {
      ConsumerKeepsJob(c, s, l, clean);
    } else {
      OtherActorsStay(c, s, l);
    }
  }

  lemma ConsumerFitsStill(before: seq<Job>, after: seq<Job>, pc: Pc, pc': Pc, q: JobQueue.QueueState)
    requires ConsumerFits(before, pc, q) && SameIds(before, after)
    requires pc' == pc || SameFlight(pc, pc')
    ensures ConsumerFits(after, pc', q)
  {
  }

  lemma JobsStepFits(c: Config, w: Joint, l: Label, clean: bool)
    requires JointOk(c, w, clean) && CanMove(c, w, JobsOnly(l))
    ensures Fits(w.(s := Apply(c, w.s, l)))
  {
    StepKeepsIds(c, w.s, l);
    OtherStepKeepsQueue(c, w.s, l);
    QueuesFitStill(w, Apply(c, w.s, l));
    ConsumerPlaceKept(c, w.s, l, clean);
    ConsumerFitsStill(w.s.jobs, Apply(c, w.s, l).jobs, At(w.s.actors[0]), At(Apply(c, w.s, l).actors[0]), w.q);
  }

  // ----- Steps of the queue alone -----

  lemma QueueStepFits(w: Joint, e: JobQueue.Event)
    requires Fits(w) && JobQueue.QueueOk(w.q) && JobQueue.Ready(w.q, e) && QueueAlone(w.q, e)
    ensures Fits(w.(q := JobQueue.Next(w.q, e)))
  {
    if e.BeginStop? { JobQueue.IdsAppend(w.q.items, None); }
    if e.Get? { JobQueue.IdsOfFront(w.q.items); }
  }

  // ----- Steps of both -----

  lemma IdsOfOneMore(jobs: seq<Job>, ks: seq<nat>, k: nat)
    requires Within(jobs, ks) && k < |jobs|
    ensures Within(jobs, ks + [k]) && IdsOf(jobs, ks + [k]) == IdsOf(jobs, ks) + [jobs[k].jobId]
  {
  }

  lemma PutFits(c: Config, w: Joint, l: Label, e: JobQueue.Event)
    requires Fits(w) && l.Put? && l.a != 0 && Enabled(c, w.s, l) && JobQueue.Ready(w.q, e) && Coupled(w.s, w.q, l, e)
    ensures Fits(Joint(Apply(c, w.s, l), JobQueue.Next(w.q, e)))
  {
    var k := w.s.actors[l.a].job;
    IdsOfOneMore(w.s.jobs, w.s.queue, k);
    IdsOfOneMore(w.s.jobs, w.s.enqueued, k);
    JobQueue.IdsAppend(w.q.items, Some(e.id));
  }

  lemma FirstsAgree(w: Joint)
    requires QueuesFit(w) && w.s.queue != [] && w.q.items != [] && w.q.items[0].Some?
    ensures w.s.queue[0] < |w.s.jobs| && w.q.items[0].value == w.s.jobs[w.s.queue[0]].jobId
    ensures Within(w.s.jobs, w.s.queue[1..]) && JobQueue.Ids(w.q.items[1..]) == IdsOf(w.s.jobs, w.s.queue[1..])
  {
    JobQueue.IdsOfFront(w.q.items);
    var ids := IdsOf(w.s.jobs, w.s.queue);
    assert ids[0] == w.q.items[0].value;
    assert ids[1..] == JobQueue.Ids(w.q.items[1..]);
  }

  lemma TakeFits(c: Config, w: Joint, l: Label, e: JobQueue.Event)
    requires Fits(w) && l.Take? && l.a == 0 && Enabled(c, w.s, l) && JobQueue.Ready(w.q, e) && Coupled(w.s, w.q, l, e)
    ensures Fits(Joint(Apply(c, w.s, l), JobQueue.Next(w.q, e)))
  {
    FirstsAgree(w);
  }

  lemma ReturnFits(c: Config, w: Joint, l: Label, e: JobQueue.Event)
    requires Fits(w) && l.Return? && l.a == 0 && Enabled(c, w.s, l) && JobQueue.Ready(w.q, e) && Coupled(w.s, w.q, l, e)
    ensures Fits(Joint(Apply(c, w.s, l), JobQueue.Next(w.q, e)))
  {
  }

  lemma BothFits(c: Config, w: Joint, l: Label, e: JobQueue.Event)
    requires Fits(w) && CanMove(c, w, Both(l, e))
    ensures Fits(Joint(Apply(c, w.s, l), JobQueue.Next(w.q, e)))
  {
    if l.Put? {
      PutFits(c, w, l, e);
    } else if l.Take? {
      TakeFits(c, w, l, e);
    } else {
      ReturnFits(c, w, l, e);
    }
  }

  // ----- Runs -----

  // No evaluation fails in the move.
  predicate CleanMove(m: Move) { m.QueueOnly? || !m.l.EvaluateError? }

  lemma JobsPartOk(c: Config, s: State, l: Label, clean: bool)
    requires Inv(c, s) && Combined.CombinedOk(s, clean) && Enabled(c, s, l) && Combined.CombinedLabel(l)
    ensures Inv(c, Apply(c, s, l)) && Combined.CombinedOk(Apply(c, s, l), clean && !l.EvaluateError?)
  {
    StepInv(c, s, l);
    Combined.StepCombinedOk(c, s, l, Apply(c, s, l), clean);
  }

  lemma MovedOk(c: Config, w: Joint, m: Move, clean: bool)
    requires JointOk(c, w, clean) && CanMove(c, w, m)
    ensures JointOk(c, Moved(c, w, m), clean && CleanMove(m))
  {
    match m
    case JobsOnly(l) =>
      JobsPartOk(c, w.s, l, clean);
      JobsStepFits(c, w, l, clean);
    case QueueOnly(e) =>
      JobQueue.NextOk(w.q, e);
      QueueStepFits(w, e);
    case Both(l, e) =>
      JobsPartOk(c, w.s, l, clean);
      JobQueue.NextOk(w.q, e);
      BothFits(c, w, l, e);
  }

  ghost predicate JointStep(c: Config, w: Joint, m: Move, w': Joint)
  {
    CanMove(c, w, m) && w' == Moved(c, w, m)
  }

  ghost predicate IsJointRun(c: Config, ws: seq<Joint>, moves: seq<Move>)
  {
    && |ws| == |moves| + 1 && Init(ws[0].s) && |ws[0].s.actors| > 0 && ws[0].q == JobQueue.FRESH
    && forall i: nat :: i < |moves| ==> JointStep(c, ws[i], moves[i], ws[i+1])
  }

  ghost predicate CleanMoves(moves: seq<Move>, i: nat)
    requires i <= |moves|
  {
    forall m :: 0 <= m < i ==> CleanMove(moves[m])
  }

  lemma InitJointOk(c: Config, w: Joint)
    requires Init(w.s) && |w.s.actors| > 0 && w.q == JobQueue.FRESH
    ensures JointOk(c, w, true)
  {
    InitInv(c, w.s);
    Combined.InitCombinedOk(w.s);
    assert w.s.actors[0] == Idle;
  }

  ghost predicate OkAt(c: Config, ws: seq<Joint>, moves: seq<Move>, i: nat)
  {
    i < |ws| && i <= |moves| && JointOk(c, ws[i], CleanMoves(moves, i))
  }

  lemma OkAtNext(c: Config, ws: seq<Joint>, moves: seq<Move>, i: nat)
    requires IsJointRun(c, ws, moves) && i < |moves| && OkAt(c, ws, moves, i)
    ensures OkAt(c, ws, moves, i + 1)
  {
    assert JointStep(c, ws[i], moves[i], ws[i+1]);
    MovedOk(c, ws[i], moves[i], CleanMoves(moves, i));
    assert CleanMoves(moves, i + 1) == (CleanMoves(moves, i) && CleanMove(moves[i]));
  }

  lemma {:induction false} RunOkAt(c: Config, ws: seq<Joint>, moves: seq<Move>, i: nat)
    requires IsJointRun(c, ws, moves) && i < |ws|
    ensures OkAt(c, ws, moves, i)
  {
    if i == 0 {
      InitJointOk(c, ws[0]);
    } else {
      RunOkAt(c, ws, moves, i - 1);
      OkAtNext(c, ws, moves, i - 1);
    }
  }

  // The jobs of the waiting ids are queued, and those of the ids taken are done with.
  ghost predicate QueueSettled(s: State, clean: bool)
  {
    && Within(s.jobs, s.enqueued)
    && forall k :: k in s.enqueued ==>
         if k in s.queue then s.jobs[k].status == Queued else Combined.Done(s.jobs[k].status, clean)
  }

  lemma IdleConsumerSettles(s: State, clean: bool)
    requires Combined.CombinedOk(s, clean) && At(s.actors[0]).Idle?
    ensures QueueSettled(s, clean)
  {
    forall k | k in s.enqueued
      ensures if k in s.queue then s.jobs[k].status == Queued else Combined.Done(s.jobs[k].status, clean)
    {
      Combined.QueuedIff(s, clean, k);
      var p :| 0 <= p < |s.enqueued| && s.enqueued[p] == k;
      if p >= Combined.Taken(s) { assert s.queue[p - Combined.Taken(s)] == k; }
    }
  }

  // A succeeded job has its score when the consumer is idle.
  lemma IdleConsumerSaved(c: Config, s: State, clean: bool, k: nat)
    requires Inv(c, s) && Combined.CombinedOk(s, clean) && At(s.actors[0]).Idle?
    requires k < |s.jobs| && s.jobs[k].status == Succeeded
    ensures s.jobs[k].result == Some(c.score(s.jobs[k].request))
  {
    assert ScoredBy(c.score, s.jobs[k]);
    forall a: nat | a < |s.actors| ensures !OwesResult(s, a, k) {
      if a > 0 { assert Combined.SubmitterOk(s, a); }
    }
  }

  // When stop has returned, whoever crashed meanwhile: the ids still waiting are those of the queue of jobs, their
  // jobs are queued, and every job whose id was taken is settled, successfully and with its own score if no
  // evaluation failed.
  lemma StopSettlesTakenJobs(c: Config, ws: seq<Joint>, moves: seq<Move>, i: nat)
    requires IsJointRun(c, ws, moves) && i < |ws| && ws[i].q.stopper.Returned?
    ensures var s, q := ws[i].s, ws[i].q;
            && Within(s.jobs, s.queue) && JobQueue.Ids(q.items) == IdsOf(s.jobs, s.queue)
            && QueueSettled(s, CleanMoves(moves, i))
            && q.handled + JobQueue.Ids(q.items) == q.enqueued == IdsOf(s.jobs, s.enqueued)
            && forall k: nat :: k < |s.jobs| && s.jobs[k].status == Succeeded ==>
                 s.jobs[k].result == Some(c.score(s.jobs[k].request))
  {
    RunOkAt(c, ws, moves, i);
    var s, q, clean := ws[i].s, ws[i].q, CleanMoves(moves, i);
    IdleConsumerSettles(s, clean);
    assert q.handled + [] == q.handled;
    forall k: nat | k < |s.jobs| && s.jobs[k].status == Succeeded
      ensures s.jobs[k].result == Some(c.score(s.jobs[k].request))
    {
      IdleConsumerSaved(c, s, clean, k);
    }
  }

  // ----- Progress -----

  // The move brings the return of stop nearer: it is a step of the consumer, or the return itself.
  predicate ServesStop(m: Move)
  {
    match m
    case QueueOnly(e) => e.StopReturns? || JobQueue.ConsumerMoves(e)
    case JobsOnly(l) => !l.Tick? && !l.Crash? && l.a == 0
    case Both(l, e) => !l.Tick? && l.a == 0 && JobQueue.ConsumerMoves(e)
  }

  lemma TaskGoesOn(c: Config, s: State) returns (l: Label)
    requires Inv(c, s) && |s.actors| > 0 && HasTask(s.actors[0])
    ensures Enabled(c, s, l) && Combined.CombinedLabel(l) && !l.Put? && !l.Take? && !l.Return?
    ensures !l.Tick? && !l.Crash? && l.a == 0
  {
    Lifecycle.ProcessingIsNeverStuck(c, s, 0);
    l :| Enabled(c, s, l) && !l.Tick? && !l.Crash? && l.a == 0;
  }

  lemma HandlerGoesOn(c: Config, w: Joint, clean: bool) returns (m: Move)
    requires JointOk(c, w, clean) && Handling(w.q) && !w.s.actors[0].Crashed?
    ensures CanMove(c, w, m) && ServesStop(m)
  {
    var pc := w.s.actors[0];
    if pc.Lookup? {
      m := JobsOnly(Read(0));
    } else if pc.Finished? {
      m := Both(Return(0), if pc.raised then JobQueue.HandlerRaises else JobQueue.HandlerReturns);
    } else {
      var l := TaskGoesOn(c, w.s);
      m := JobsOnly(l);
    }
  }

  lemma GetGoesOn(c: Config, w: Joint, clean: bool) returns (m: Move)
    requires JointOk(c, w, clean) && w.q.consumer.Getting? && w.q.stopping && !w.s.actors[0].Crashed?
    ensures CanMove(c, w, m) && ServesStop(m)
  {
    if w.q.items[0].None? {
      m := QueueOnly(JobQueue.Get);
    } else {
      JobQueue.IdsOfFront(w.q.items);
      m := Both(Take(0), JobQueue.Get);
    }
  }

  lemma StopGoesOn(c: Config, w: Joint, clean: bool) returns (m: Move)
    requires JointOk(c, w, clean) && w.q.stopper.Awaiting? && !w.s.actors[0].Crashed?
    ensures CanMove(c, w, m) && ServesStop(m)
  {
    m := QueueOnly(JobQueue.StopReturns);
    if Handling(w.q) {
      m := HandlerGoesOn(c, w, clean);
    } else {
      match w.q.consumer
      case Testing => m := QueueOnly(JobQueue.Test);
      case Getting => m := GetGoesOn(c, w, clean);
      case Holding(_) => m := QueueOnly(JobQueue.ReturnAtSentinel);
      case Catching(_) => m := QueueOnly(JobQueue.LogException);
      case Finishing(_, _) => m := QueueOnly(JobQueue.TaskDone);
      case _ =>
    }
  }

  // Until stop returns, a step towards it is possible unless the consumer has crashed.
  lemma StopIsNeverStuck(c: Config, ws: seq<Joint>, moves: seq<Move>, i: nat)
    requires IsJointRun(c, ws, moves) && i < |ws| && ws[i].q.stopper.Awaiting?
    ensures |ws[i].s.actors| > 0
    ensures ws[i].s.actors[0].Crashed? || exists m :: CanMove(c, ws[i], m) && ServesStop(m)
  {
    RunOkAt(c, ws, moves, i);
    if !ws[i].s.actors[0].Crashed? {
      var m := StopGoesOn(c, ws[i], CleanMoves(moves, i));
    }
  }
}
