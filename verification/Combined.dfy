// Combined mode: submitters and one queue consumer in one process, no polling workers.
// The consumer drains the queue in order and every job is processed once.
module Combined {
  import opened Prelude
  import opened Jobs
  import opened Protocol
  import opened Invariants

  // Actor 0 is the task that queue.start creates; all others submit. Any of them may crash.
  predicate CombinedLabel(l: Label)
  {
    || l.Tick? || l.Crash?
    || (Submits(l) && l.a != 0)
    || (Starts(l) && !l.Call? && l.a == 0)
    || (Settles(l) && l.a == 0)
  }

  predicate Submitting(pc: Pc) { pc.Idle? || pc.Enqueuing? || pc.AnnounceQueued? }

  // The consumer is idle or on its way with a job read from the queue.
  predicate Consuming(pc: Pc)
  {
    || pc.Idle? || pc.Lookup?
    || (HasTask(pc) && pc.task.leasedAt.None?)
    || (pc.Finished? && pc.handled.Some? && !pc.claimed)
  }

  function InFlight(pc: Pc): nat
    requires Consuming(pc) && !pc.Idle?
  {
    if pc.Lookup? then pc.job else if pc.Finished? then pc.handled.value else pc.task.job
  }

  // The status of the job in flight, by where the consumer is.
  predicate StatusFits(pc: Pc, status: Status, clean: bool)
  {
    if pc.Lookup? || pc.Start? then status == Queued
    else if pc.AnnounceRunning? || pc.Evaluate? || pc.Succeed? then status == Running
    else if pc.Fail? then status == Running && !clean
    else if clean then status == Succeeded
    else status.Terminal()
  }

  ghost predicate Distinct(s: seq<nat>)
  {
    forall i, j :: 0 <= i < j < |s| ==> s[i] != s[j]
  }

  ghost predicate QueueOk(s: State)
  {
    && |s.queue| <= |s.enqueued| && s.queue == s.enqueued[|s.enqueued| - |s.queue|..]
    && Distinct(s.enqueued)
    && forall i :: 0 <= i < |s.enqueued| ==> s.enqueued[i] < |s.jobs|
  }

  // How many ids the consumer has taken, and how many of those it is done with.
  ghost function Taken(s: State): nat
    requires QueueOk(s)
  {
    |s.enqueued| - |s.queue|
  }

  ghost function Handled(s: State): int
    requires QueueOk(s) && |s.actors| > 0
  {
    if At(s.actors[0]).Idle? then Taken(s) else Taken(s) - 1
  }

  // Submitter a has created job k and not yet enqueued its id, or crashed at that point.
  ghost predicate Enqueues(s: State, a: nat, k: nat)
  {
    0 < a < |s.actors| && At(s.actors[a]) == Enqueuing(k)
  }

  ghost predicate SubmitterOk(s: State, a: nat)
    requires a < |s.actors|
  {
    var pc := At(s.actors[a]);
    && Submitting(pc)
    && (pc.Enqueuing? ==> pc.job < |s.jobs| && pc.job !in s.enqueued && s.jobs[pc.job].status == Queued)
  }

  ghost predicate Accounted(s: State, k: nat)
  {
    k in s.enqueued || exists a: nat :: Enqueues(s, a, k)
  }

  ghost predicate SubmittersOk(s: State)
  {
    && (forall a: nat :: 0 < a < |s.actors| ==> SubmitterOk(s, a))
    && (forall a: nat, b: nat, k: nat :: Enqueues(s, a, k) && Enqueues(s, b, k) ==> a == b)
    && (forall k: nat :: k < |s.jobs| ==> Accounted(s, k))
  }

  ghost predicate ConsumerOk(s: State, clean: bool)
    requires QueueOk(s)
  {
    && |s.actors| > 0
    && Consuming(At(s.actors[0]))
    && (!At(s.actors[0]).Idle? ==>
          && Taken(s) > 0 && InFlight(At(s.actors[0])) == s.enqueued[Taken(s) - 1]
          && StatusFits(At(s.actors[0]), s.jobs[s.enqueued[Taken(s) - 1]].status, clean))
  }

  predicate Done(status: Status, clean: bool)
  {
    if clean then status == Succeeded else status.Terminal()
  }

  // Taken jobs are settled but for the one in flight; waiting jobs are queued.
  ghost predicate ProgressOk(s: State, clean: bool)
    requires QueueOk(s) && |s.actors| > 0
  {
    && (forall i :: 0 <= i < Handled(s) ==> Done(s.jobs[s.enqueued[i]].status, clean))
    && (forall i :: Taken(s) <= i < |s.enqueued| ==> s.jobs[s.enqueued[i]].status == Queued)
  }

  // clean: no evaluation has failed so far.
  ghost predicate CombinedOk(s: State, clean: bool)
  {
    QueueOk(s) && SubmittersOk(s) && ConsumerOk(s, clean) && ProgressOk(s, clean)
  }

  // ----- Moves of a submitter -----

  ghost predicate SameQueue(s: State, s': State)
  {
    s'.queue == s.queue && s'.enqueued == s.enqueued
  }

  ghost predicate Created(s: State, s': State, a: nat)
  {
    && 0 < a < |s.actors| && OthersStay(s, s', a) && SameQueue(s, s')
    && At(s.actors[a]).Idle? && At(s'.actors[a]) == Enqueuing(|s.jobs|)
    && |s'.jobs| == |s.jobs| + 1 && s'.jobs[|s.jobs|].status == Queued
    && forall k :: 0 <= k < |s.jobs| ==> s'.jobs[k] == s.jobs[k]
  }

  lemma CreatedSubmitters(s: State, s': State, a: nat)
    requires QueueOk(s) && SubmittersOk(s) && Created(s, s', a)
    ensures SubmittersOk(s')
  {
    assert forall b: nat, k: nat :: b != a ==> Enqueues(s', b, k) == Enqueues(s, b, k);
    forall k: nat | k < |s'.jobs| ensures Accounted(s', k) {
      if k == |s.jobs| {
        assert Enqueues(s', a, k);
      } else {
        assert Accounted(s, k);
        if k !in s.enqueued {
          var b: nat :| Enqueues(s, b, k);
          assert Enqueues(s', b, k);
        }
      }
    }
    forall b: nat | 0 < b < |s'.actors| ensures SubmitterOk(s', b) {
      if b != a { assert SubmitterOk(s, b); }
    }
    forall b: nat, k: nat | Enqueues(s', b, k) ensures b == a || (Enqueues(s, b, k) && k < |s.jobs|) {
      if b != a { assert SubmitterOk(s, b); }
    }
  }

  lemma CreatedKeeps(s: State, s': State, a: nat, clean: bool)
    requires CombinedOk(s, clean) && Created(s, s', a)
    ensures CombinedOk(s', clean)
  {
    CreatedSubmitters(s, s', a);
    assert s'.actors[0] == s.actors[0];
    assert forall i :: 0 <= i < |s.enqueued| ==> s'.jobs[s'.enqueued[i]] == s.jobs[s.enqueued[i]];
  }

  ghost predicate Enqueued(s: State, s': State, a: nat, k: nat)
  {
    && 0 < a < |s.actors| && OthersStay(s, s', a) && At(s.actors[a]) == Enqueuing(k)
    && At(s'.actors[a]).AnnounceQueued? && s'.jobs == s.jobs
    && s'.queue == s.queue + [k] && s'.enqueued == s.enqueued + [k]
  }

  lemma EnqueuedSubmitters(s: State, s': State, a: nat, k: nat)
    requires QueueOk(s) && SubmittersOk(s) && Enqueued(s, s', a, k)
    ensures SubmittersOk(s')
  {
    assert Enqueues(s, a, k) && SubmitterOk(s, a);
    assert s'.enqueued[|s.enqueued|] == k;
    forall b: nat | 0 < b < |s'.actors| ensures SubmitterOk(s', b) {
      assert SubmitterOk(s, b);
      if b != a && At(s.actors[b]).Enqueuing? { assert Enqueues(s, b, At(s.actors[b]).job); }
    }
    forall i: nat | i < |s'.jobs| ensures Accounted(s', i) {
      assert Accounted(s, i);
      if i != k && i !in s.enqueued {
        var b: nat :| Enqueues(s, b, i);
        assert Enqueues(s', b, i);
      }
    }
    assert forall b: nat, i: nat :: Enqueues(s', b, i) ==> Enqueues(s, b, i);
  }

  lemma EnqueuedQueue(s: State, s': State, a: nat, k: nat)
    requires QueueOk(s) && SubmittersOk(s) && Enqueued(s, s', a, k)
    ensures QueueOk(s') && Taken(s') == Taken(s)
  {
    assert SubmitterOk(s, a);
    assert s'.queue == s'.enqueued[|s'.enqueued| - |s'.queue|..];
  }

  lemma EnqueuedKeeps(s: State, s': State, a: nat, k: nat, clean: bool)
    requires CombinedOk(s, clean) && Enqueued(s, s', a, k)
    ensures CombinedOk(s', clean)
  {
    EnqueuedSubmitters(s, s', a, k);
    EnqueuedQueue(s, s', a, k);
    assert SubmitterOk(s, a) && s'.actors[0] == s.actors[0];
    assert forall i :: 0 <= i < |s.enqueued| ==> s'.enqueued[i] == s.enqueued[i];
  }

  // ----- Moves that concern nobody's job: reports, the clock, crashes -----

  ghost predicate Quiet(s: State, s': State)
  {
    && |s'.actors| == |s.actors| && s'.jobs == s.jobs && SameQueue(s, s')
    && (|s.actors| > 0 ==> At(s'.actors[0]) == At(s.actors[0]))
    && forall a: nat :: 0 < a < |s.actors| ==>
         At(s'.actors[a]) == At(s.actors[a]) || (At(s.actors[a]).AnnounceQueued? && At(s'.actors[a]).Idle?)
  }

  lemma SubmittersKept(s: State, s': State)
    requires SubmittersOk(s) && s'.enqueued == s.enqueued && |s'.jobs| == |s.jobs| && |s'.actors| == |s.actors|
    requires forall a: nat :: 0 < a < |s.actors| ==>
               At(s'.actors[a]) == At(s.actors[a]) || (At(s.actors[a]).AnnounceQueued? && At(s'.actors[a]).Idle?)
    requires forall k :: 0 <= k < |s.jobs| && k !in s.enqueued ==> s'.jobs[k] == s.jobs[k]
    ensures SubmittersOk(s')
  {
    assert forall a: nat, k: nat :: Enqueues(s', a, k) == Enqueues(s, a, k);
    forall a: nat | 0 < a < |s'.actors| ensures SubmitterOk(s', a) {
      assert SubmitterOk(s, a);
    }
    forall k: nat | k < |s'.jobs| ensures Accounted(s', k) {
      assert Accounted(s, k);
      if k !in s.enqueued {
        var a: nat :| Enqueues(s, a, k);
        assert Enqueues(s', a, k);
      }
    }
  }

  lemma QuietKeeps(s: State, s': State, clean: bool)
    requires CombinedOk(s, clean) && Quiet(s, s')
    ensures CombinedOk(s', clean)
  {
    SubmittersKept(s, s');
    ConsumerKept(s, s', clean);
  }

  // The rest of the invariant looks at the queue, the jobs and the place of the consumer only.
  lemma ConsumerKept(s: State, s': State, clean: bool)
    requires QueueOk(s) && ConsumerOk(s, clean) && ProgressOk(s, clean)
    requires s'.jobs == s.jobs && SameQueue(s, s') && |s'.actors| == |s.actors| && At(s'.actors[0]) == At(s.actors[0])
    ensures QueueOk(s') && ConsumerOk(s', clean) && ProgressOk(s', clean)
  {
    assert Taken(s') == Taken(s) && Handled(s') == Handled(s);
  }

  // ----- Moves of the consumer -----

  ghost predicate TookFirst(s: State, s': State)
  {
    && |s.actors| > 0 && OthersStay(s, s', 0) && s'.jobs == s.jobs && s.queue != []
    && At(s.actors[0]).Idle? && At(s'.actors[0]) == Lookup(s.queue[0])
    && s'.queue == s.queue[1..] && s'.enqueued == s.enqueued
  }

  lemma TookFirstKeeps(s: State, s': State, clean: bool)
    requires CombinedOk(s, clean) && TookFirst(s, s')
    ensures CombinedOk(s', clean)
  {
    assert s'.queue == s'.enqueued[|s'.enqueued| - |s'.queue|..];
    assert s.queue[0] == s.enqueued[Taken(s)];
    SubmittersKept(s, s');
  }

  // The consumer at work: it stays with its job, and the job keeps up with it.
  ghost predicate StaysWithJob(s: State, s': State, k: nat, clean: bool)
  {
    && |s.actors| > 0 && OthersStay(s, s', 0) && SameQueue(s, s')
    && |s'.jobs| == |s.jobs| && k < |s.jobs|
    && (forall i :: 0 <= i < |s.jobs| && i != k ==> s'.jobs[i] == s.jobs[i])
    && Fits(s'.actors[0], k, s'.jobs[k].status, clean)
  }

  // Where the consumer may be with job k in that status.
  ghost predicate Fits(pc: Pc, k: nat, status: Status, clean: bool)
  {
    && Consuming(At(pc))
    && if At(pc).Idle? then Done(status, clean) else InFlight(At(pc)) == k && StatusFits(At(pc), status, clean)
  }

  lemma WorkKeeps(s: State, s': State, clean: bool, clean': bool)
    requires CombinedOk(s, clean) && !At(s.actors[0]).Idle? && (clean' ==> clean)
    requires StaysWithJob(s, s', InFlight(At(s.actors[0])), clean')
    ensures CombinedOk(s', clean')
  {
    SubmittersKept(s, s');
  }

  // ----- Steps -----

  lemma SubmitKeeps(c: Config, s: State, l: Label, clean: bool)
    requires CombinedOk(s, clean) && Enabled(c, s, l) && Submits(l) && l.a != 0
    ensures CombinedOk(SubmitStep(c, s, l), clean)
  {
    var s' := SubmitStep(c, s, l);
    if l.Create? {
      assert Created(s, s', l.a);
      CreatedKeeps(s, s', l.a, clean);
    } else if l.Put? {
      assert Enqueued(s, s', l.a, s.actors[l.a].job);
      EnqueuedKeeps(s, s', l.a, s.actors[l.a].job, clean);
    } else {
      assert Quiet(s, s');
      QuietKeeps(s, s', clean);
    }
  }

  // The consumer as it stands before a step of its own with the job in flight.
  ghost predicate OnItsWay(c: Config, s: State, k: nat, clean: bool)
  {
    && |s.actors| > 0 && !s.actors[0].Crashed? && PcOk(c, s.jobs, s.actors[0]) && k < |s.jobs|
    && !s.actors[0].Idle? && Fits(s.actors[0], k, s.jobs[k].status, clean)
  }

  lemma BeginningStays(c: Config, s: State, l: Label, k: nat, clean: bool)
    requires OnItsWay(c, s, k, clean) && (l.Read? || l.SetRunning?) && l.a == 0 && Enabled(c, s, l)
    ensures StaysWithJob(s, StartStep(c, s, l), k, clean)
  {
  }

  lemma EvaluatingStays(c: Config, s: State, l: Label, k: nat, clean: bool)
    requires OnItsWay(c, s, k, clean) && (l.ReportRunning? || l.EvaluateOk? || l.EvaluateError?)
    requires l.a == 0 && Enabled(c, s, l)
    ensures StaysWithJob(s, StartStep(c, s, l), k, clean && !l.EvaluateError?)
  {
  }

  lemma SetSucceededStays(c: Config, s: State, l: Label, k: nat, clean: bool)
    requires OnItsWay(c, s, k, clean) && l.SetSucceeded? && l.a == 0 && Enabled(c, s, l)
    ensures StaysWithJob(s, SettleStep(c, s, l), k, clean)
  {
  }

  lemma SucceedingStays(c: Config, s: State, l: Label, k: nat, clean: bool)
    requires OnItsWay(c, s, k, clean) && (l.StoreResult? || l.ReportSucceeded?) && l.a == 0 && Enabled(c, s, l)
    ensures StaysWithJob(s, SettleStep(c, s, l), k, clean)
  {
  }

  lemma SetFailedStays(c: Config, s: State, l: Label, k: nat, clean: bool)
    requires OnItsWay(c, s, k, clean) && l.SetFailed? && l.a == 0 && Enabled(c, s, l)
    ensures StaysWithJob(s, SettleStep(c, s, l), k, clean)
  {
  }

  lemma FailingStays(c: Config, s: State, l: Label, k: nat, clean: bool)
    requires OnItsWay(c, s, k, clean) && (l.StoreError? || l.ReportFailed?) && l.a == 0 && Enabled(c, s, l)
    ensures StaysWithJob(s, SettleStep(c, s, l), k, clean)
  {
  }

  lemma ReturningStays(c: Config, s: State, l: Label, k: nat, clean: bool)
    requires OnItsWay(c, s, k, clean) && l.Return? && l.a == 0 && Enabled(c, s, l)
    ensures StaysWithJob(s, SettleStep(c, s, l), k, clean)
  {
  }

  lemma SettlerStays(c: Config, s: State, l: Label, k: nat, clean: bool)
    requires OnItsWay(c, s, k, clean) && Settles(l) && l.a == 0 && Enabled(c, s, l)
    ensures StaysWithJob(s, SettleStep(c, s, l), k, clean)
  {
    if l.SetSucceeded? {
      SetSucceededStays(c, s, l, k, clean);
    } else if l.StoreResult? || l.ReportSucceeded? {
      SucceedingStays(c, s, l, k, clean);
    } else if l.SetFailed? {
      SetFailedStays(c, s, l, k, clean);
    } else if l.Return? {
      ReturningStays(c, s, l, k, clean);
    } else {
      FailingStays(c, s, l, k, clean);
    }
  }

  lemma ConsumerStays(c: Config, s: State, l: Label, k: nat, clean: bool)
    requires OnItsWay(c, s, k, clean) && ((Starts(l) && !l.Call? && !l.Take?) || Settles(l))
    requires l.a == 0 && Enabled(c, s, l)
    ensures StaysWithJob(s, Apply(c, s, l), k, clean && !l.EvaluateError?)
  {
    if l.Read? || l.SetRunning? {
      BeginningStays(c, s, l, k, clean);
    } else if Starts(l) {
      EvaluatingStays(c, s, l, k, clean);
    } else {
      SettlerStays(c, s, l, k, clean);
    }
  }

  lemma ConsumerIsOnItsWay(c: Config, s: State, l: Label, clean: bool)
    requires ActorsOk(c, s) && CombinedOk(s, clean) && ((Starts(l) && !l.Call? && !l.Take?) || Settles(l))
    requires l.a == 0 && Enabled(c, s, l)
    ensures !At(s.actors[0]).Idle? && OnItsWay(c, s, InFlight(At(s.actors[0])), clean)
  {
    assert ActorOk(c, s, 0);
  }

  lemma ConsumerKeeps(c: Config, s: State, l: Label, clean: bool)
    requires ActorsOk(c, s) && CombinedOk(s, clean) && ((Starts(l) && !l.Call? && !l.Take?) || Settles(l))
    requires l.a == 0 && Enabled(c, s, l)
    ensures CombinedOk(Apply(c, s, l), clean && !l.EvaluateError?)
  {
    ConsumerIsOnItsWay(c, s, l, clean);
    ConsumerStays(c, s, l, InFlight(At(s.actors[0])), clean);
    WorkKeeps(s, Apply(c, s, l), clean, clean && !l.EvaluateError?);
  }

  lemma TakeKeeps(c: Config, s: State, l: Label, clean: bool)
    requires CombinedOk(s, clean) && Enabled(c, s, l) && l.Take? && l.a == 0
    ensures CombinedOk(StartStep(c, s, l), clean)
  {
    assert TookFirst(s, StartStep(c, s, l));
    TookFirstKeeps(s, StartStep(c, s, l), clean);
  }

  lemma QuietStepKeeps(c: Config, s: State, l: Label, clean: bool)
    requires CombinedOk(s, clean) && Enabled(c, s, l) && (l.Tick? || l.Crash?)
    ensures CombinedOk(Apply(c, s, l), clean)
  {
    assert Quiet(s, Apply(c, s, l));
    QuietKeeps(s, Apply(c, s, l), clean);
  }

  lemma StepCombinedOk(c: Config, s: State, l: Label, s': State, clean: bool)
    requires ActorsOk(c, s) && CombinedOk(s, clean) && Step(c, s, l, s') && CombinedLabel(l)
    ensures CombinedOk(s', clean && !l.EvaluateError?)
  {
    if Submits(l) {
      SubmitKeeps(c, s, l, clean);
    } else if l.Tick? || l.Crash? {
      QuietStepKeeps(c, s, l, clean);
    } else {
      ConsumerStepKeeps(c, s, l, clean);
    }
  }

  lemma ConsumerStepKeeps(c: Config, s: State, l: Label, clean: bool)
    requires ActorsOk(c, s) && CombinedOk(s, clean) && ((Starts(l) && !l.Call?) || Settles(l)) && l.a == 0
              && Enabled(c, s, l)
    ensures CombinedOk(Apply(c, s, l), clean && !l.EvaluateError?)
  {
    if l.Take? {
      TakeKeeps(c, s, l, clean);
    } else {
      ConsumerKeeps(c, s, l, clean);
    }
  }

  // No evaluation failed in the first i steps.
  ghost predicate Clean(labels: seq<Label>, i: nat)
    requires i <= |labels|
  {
    forall m :: 0 <= m < i ==> !labels[m].EvaluateError?
  }

  lemma CleanGrows(labels: seq<Label>, i: nat)
    requires 0 < i <= |labels|
    ensures Clean(labels, i) == (Clean(labels, i - 1) && !labels[i-1].EvaluateError?)
  {
  }

  lemma InitSubmittersOk(s: State)
    requires Init(s)
    ensures SubmittersOk(s)
  {
    assert forall a: nat, k: nat :: !Enqueues(s, a, k);
    forall a: nat | 0 < a < |s.actors| ensures SubmitterOk(s, a) { assert s.actors[a] == Idle; }
  }

  lemma InitCombinedOk(s: State)
    requires Init(s) && |s.actors| > 0
    ensures CombinedOk(s, true)
  {
    InitSubmittersOk(s);
    InitConsumerOk(s);
  }

  lemma InitConsumerOk(s: State)
    requires Init(s) && |s.actors| > 0
    ensures QueueOk(s) && ConsumerOk(s, true) && ProgressOk(s, true)
  {
    assert s.actors[0] == Idle;
  }

  ghost predicate CombinedAt(states: seq<State>, labels: seq<Label>, i: nat)
  {
    i < |states| && i <= |labels| && CombinedOk(states[i], Clean(labels, i))
  }

  lemma StepCombinedAt(c: Config, states: seq<State>, labels: seq<Label>, i: nat)
    requires CombinedAt(states, labels, i) && i + 1 < |states| && i < |labels|
    requires ActorsOk(c, states[i]) && Step(c, states[i], labels[i], states[i+1]) && CombinedLabel(labels[i])
    ensures CombinedAt(states, labels, i + 1)
  {
    StepCombinedOk(c, states[i], labels[i], states[i+1], Clean(labels, i));
    CleanGrows(labels, i + 1);
  }

  lemma {:induction false} RunCombinedAt(c: Config, states: seq<State>, labels: seq<Label>, i: nat)
    requires IsRun(c, states, labels) && i < |states| && |states[0].actors| > 0
    requires forall m :: 0 <= m < i ==> CombinedLabel(labels[m])
    ensures CombinedAt(states, labels, i)
  {
    if i == 0 {
      InitCombinedOk(states[0]);
    } else {
      RunCombinedAt(c, states, labels, i - 1);
      RunInv(c, states, labels, i - 1);
      StepCombinedAt(c, states, labels, i - 1);
    }
  }

  // The consumer has just taken job k and not yet moved it.
  predicate HasTaken(pc: Pc, k: nat)
  {
    At(pc) == Lookup(k) || (At(pc).Start? && At(pc).task.job == k)
  }

  lemma QueuedIff(s: State, clean: bool, k: nat)
    requires CombinedOk(s, clean) && k in s.enqueued
    ensures k < |s.jobs|
    ensures s.jobs[k].status == Queued <==> k in s.queue || HasTaken(s.actors[0], k)
  {
    var p :| 0 <= p < |s.enqueued| && s.enqueued[p] == k;
    assert k in s.queue <==> p >= Taken(s) by {
      assert forall q :: 0 <= q < |s.queue| ==> s.queue[q] == s.enqueued[Taken(s) + q];
      if p >= Taken(s) { assert s.queue[p - Taken(s)] == k; }
    }
    assert p < Handled(s) ==> Done(s.jobs[s.enqueued[p]].status, clean);
  }

  lemma TakenIsQueued(s: State, clean: bool)
    requires CombinedOk(s, clean) && At(s.actors[0]).Start?
    ensures At(s.actors[0]).task.job < |s.jobs| && s.jobs[At(s.actors[0]).task.job].status == Queued
  {
  }

  // Whoever crashes: the queue is the untaken end of the ids enqueued, in that order and without
  // repetition, so each job is taken at most once; a job whose id was enqueued is queued exactly while its
  // id waits or has just been taken; set_running finds its job queued; and a job whose id was not enqueued
  // is queued and waits for its submitter.
  lemma QueueHoldsTheQueuedJobs(c: Config, states: seq<State>, labels: seq<Label>, i: nat)
    requires IsRun(c, states, labels) && i < |states| && |states[0].actors| > 0
    requires forall m :: 0 <= m < i ==> CombinedLabel(labels[m])
    ensures var s := states[i];
            && |s.actors| > 0
            && |s.queue| <= |s.enqueued| && s.queue == s.enqueued[|s.enqueued| - |s.queue|..] && Distinct(s.enqueued)
            && (forall k :: k in s.enqueued ==>
                  k < |s.jobs| && (s.jobs[k].status == Queued <==> k in s.queue || HasTaken(s.actors[0], k)))
            && (At(s.actors[0]).Start? ==>
                  At(s.actors[0]).task.job < |s.jobs| && s.jobs[At(s.actors[0]).task.job].status == Queued)
            && (forall k: nat :: k < |s.jobs| && k !in s.enqueued ==>
                  s.jobs[k].status == Queued && exists a: nat :: Enqueues(s, a, k))
  {
    RunCombinedAt(c, states, labels, i);
    var s, clean := states[i], Clean(labels, i);
    forall k | k in s.enqueued
      ensures k < |s.jobs| && (s.jobs[k].status == Queued <==> k in s.queue || HasTaken(s.actors[0], k))
    {
      QueuedIff(s, clean, k);
    }
    if At(s.actors[0]).Start? { TakenIsQueued(s, clean); }
    forall k: nat | k < |s.jobs| && k !in s.enqueued
      ensures s.jobs[k].status == Queued && exists a: nat :: Enqueues(s, a, k)
    {
      assert Accounted(s, k);
      var a: nat :| Enqueues(s, a, k);
      assert SubmitterOk(s, a);
    }
  }

  // Nobody is between two steps of a program; who has crashed, crashed there too.
  ghost predicate AtRest(s: State)
  {
    forall a: nat :: a < |s.actors| ==> At(s.actors[a]).Idle?
  }

  lemma DrainedIsDone(s: State, clean: bool, k: nat)
    requires CombinedOk(s, clean) && AtRest(s) && s.queue == [] && k < |s.jobs|
    ensures Done(s.jobs[k].status, clean)
  {
    assert Accounted(s, k);
    assert forall a: nat :: !Enqueues(s, a, k);
    var p :| 0 <= p < |s.enqueued| && s.enqueued[p] == k;
    assert p < Handled(s);
  }

  // Once everyone is idle and the queue is empty every job is settled, and if no evaluation failed
  // every job has succeeded with the score of its own request.
  lemma DrainedQueueSettlesEverything(c: Config, states: seq<State>, labels: seq<Label>, i: nat, k: nat)
    requires IsRun(c, states, labels) && i < |states| && |states[0].actors| > 0
    requires forall m :: 0 <= m < i ==> CombinedLabel(labels[m])
    requires states[i].queue == [] && AtRest(states[i]) && k < |states[i].jobs|
    ensures states[i].jobs[k].status.Terminal()
    ensures Clean(labels, i) ==>
              states[i].jobs[k].status == Succeeded
              && states[i].jobs[k].result == Some(c.score(states[i].jobs[k].request))
  {
    RunCombinedAt(c, states, labels, i);
    RunInv(c, states, labels, i);
    var s := states[i];
    DrainedIsDone(s, Clean(labels, i), k);
    assert ScoredBy(c.score, s.jobs[k]);
    assert forall a: nat :: a < |s.actors| ==> !OwesResult(s, a, k);
  }
}
