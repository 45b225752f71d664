// The worker programs over Postgres with its row locks (app/services/job_service.py and worker.py over
// app/storage/postgres.py): an operation of an actor takes its locks in one step and commits in another, and
// others move in between. Every such run is a run of module Protocol in which a claim and a recovery may
// skip rows, so what is proved of those runs holds of these.
module LockedPrograms {
  import opened Prelude
  import opened Jobs
  import opened Store
  import P = Protocol
  import opened RowLocks
  import Invariants

  // txns[a] is the transaction of actor a.
  datatype Locked = Locked(core: P.State, txns: seq<Txn>)

  // A transaction commits with the time it has read from the clock, which is no later than the commit.
  datatype Move =
    | Local(l: P.Label)
    | Acquire(x: Action)
    | Finish(a: nat, at: Time)

  function DbOf(w: Locked): Db { Db(w.core.jobs, w.txns, w.core.claims) }

  // What an actor there takes its locks for.
  predicate Wants(pc: P.Pc, txn: Txn)
  {
    match txn
    case NoTxn => true
    case Claiming(_, _, _) => pc.Poll?
    case Recovering(cutoff, _) => pc == P.Sweep(cutoff)
    case Writing(row, _, ToRunning) => pc.Start? && pc.task.job == row
    case Writing(row, _, ToSucceeded(result)) => pc.Succeed? && pc.task.job == row && pc.result == result
    case Writing(row, _, ToFailed(message)) => pc.Fail? && pc.task.job == row && message == EVALUATION_FAILED
  }

  // The step ends without a transaction left open: it is not on the store, or inserts a row, or finds no free
  // row to claim, or reads a free row and rejects the transition. A crash rolls back.
  ghost predicate EndsAtOnce(w: Locked, l: P.Label)
    requires !l.Tick? && l.a < |w.txns| && l.a < |w.core.actors|
  {
    var pc := w.core.actors[l.a];
    match l
    case Crash(_) => true
    case RecoverStale(_, _, _) => false
    case ClaimNext(a, choice, _) => choice.None? && Possible(DbOf(w), SelectOldest(a, None))
    case SetRunning(_, _) => pc.Start? && Rejected(w, pc.task.job, ToRunning)
    case SetSucceeded(_, _) => pc.Succeed? && Rejected(w, pc.task.job, ToSucceeded(pc.result))
    case SetFailed(_, _) => pc.Fail? && Rejected(w, pc.task.job, ToFailed(EVALUATION_FAILED))
    // There are no second lock sections here.
    case StoreResult(_) => false
    case StoreError(_) => false
    case _ => true
  }

  ghost predicate Rejected(w: Locked, row: nat, write: Write)
  {
    row < |w.core.jobs| && !RowLocks.Locked(DbOf(w), row) && !Allowed(write, w.core.jobs[row].status)
  }

  ghost predicate CanMove(c: P.Config, w: Locked, m: Move)
  {
    match m
    case Local(l) =>
      && P.Enabled(c, w.core, l)
      && (l.Tick? || (l.a < |w.txns| && (l.Crash? || w.txns[l.a].NoTxn?) && EndsAtOnce(w, l)))
    case Acquire(x) =>
      && (x.SelectStale? || x.LockRow? || (x.SelectOldest? && x.choice.Some?))
      && x.t < |w.core.actors| && Possible(DbOf(w), x)
      && Wants(w.core.actors[x.t], Perform(DbOf(w), x).txns[x.t])
    case Finish(a, at) =>
      // The last two always hold, as CommitIsFree says.
      && a < |w.core.actors| && a < |w.txns| && !w.txns[a].NoTxn? && at <= w.core.now
      && Possible(DbOf(w), Commit(a, at)) && Wants(w.core.actors[a], w.txns[a])
  }

  // What the program makes of its transaction, all of it from the rows as they were read.
  function Outcome(s: P.State, a: nat, txn: Txn, at: Time): P.State
    requires a < |s.actors| && !txn.NoTxn? && Wants(s.actors[a], txn)
  {
    match txn
    case Claiming(row, read, _) => P.To(s, a, P.AnnounceRunning(P.Task(row, read.request, Some(at))))
    case Recovering(cutoff, rows) =>
      var n, t := |rows|, |ExhaustedOf(rows)|;
      ExhaustedAreFewer(rows);
      P.To(s, a, if n > 0 then P.CountRecovered(n) else P.Poll)
        .(timeouts := s.timeouts + t, requeues := s.requeues + (n - t))
    case Writing(_, _, ToRunning) => P.To(s, a, P.AnnounceRunning(s.actors[a].task))
    case Writing(_, _, ToSucceeded(_)) => P.To(s, a, P.AnnounceSuccess(s.actors[a].task, s.actors[a].result))
    case Writing(_, _, ToFailed(_)) => P.To(s, a, P.AnnounceFailure(s.actors[a].task))
  }

  function ExhaustedOf(rows: map<nat, Job>): set<nat> { set k | k in rows && Exhausted(rows[k]) }

  lemma ExhaustedAreFewer(rows: map<nat, Job>)
    ensures |ExhaustedOf(rows)| <= |rows|
  {
    assert rows.Keys == ExhaustedOf(rows) + (rows.Keys - ExhaustedOf(rows));
  }

  ghost function Moved(c: P.Config, w: Locked, m: Move): Locked
    requires CanMove(c, w, m)
  {
    match m
    case Local(l) =>
      Locked(P.Apply(c, w.core, l), if l.Crash? then w.txns[l.a := NoTxn] else w.txns)
    case Acquire(x) => w.(txns := Perform(DbOf(w), x).txns)
    case Finish(a, at) =>
      var d := Perform(DbOf(w), Commit(a, at));
      Locked(Outcome(w.core, a, w.txns[a], at).(jobs := d.rows, claims := d.claims), d.txns)
  }

  // With no row locked the select may return exactly the rows that a claim of Protocol may choose when it
  // skips nothing.
  lemma SelectWithoutLocks(d: Db, t: nat, choice: Option<nat>)
    requires t < |d.txns| && forall u :: 0 <= u < |d.txns| ==> d.txns[u].NoTxn?
    ensures Possible(d, SelectOldest(t, choice)) <==> P.ClaimChoice(P.Postgres(false), d.rows, choice)
  {
    assert forall k :: 0 <= k < |d.rows| ==> !RowLocks.Locked(d, k);
  }

  // ----- The invariant -----

  ghost predicate WantsAll(w: Locked)
  {
    |w.txns| == |w.core.actors| && forall a: nat :: a < |w.txns| ==> Wants(w.core.actors[a], w.txns[a])
  }

  ghost predicate LockedOk(w: Locked) { DbOk(DbOf(w)) && WantsAll(w) }

  lemma NewRowsKeepDbOk(d: Db, d': Db)
    requires DbOk(d) && d'.txns == d.txns && |d.rows| <= |d'.rows|
    requires forall k :: 0 <= k < |d.rows| ==> d'.rows[k] == d.rows[k]
    ensures DbOk(d')
  {
    forall t | 0 <= t < |d'.txns| ensures TxnOk(d'.rows, d'.txns[t]) {
      assert TxnOk(d.rows, d.txns[t]);
    }
  }

  lemma RollbackKeepsDbOk(d: Db, t: nat)
    requires DbOk(d) && t < |d.txns|
    ensures DbOk(d.(txns := d.txns[t := NoTxn]))
  {
    var d' := d.(txns := d.txns[t := NoTxn]);
    forall u | 0 <= u < |d'.txns| ensures TxnOk(d'.rows, d'.txns[u]) {
      if u != t { assert TxnOk(d.rows, d.txns[u]); }
    }
  }

  // A step that ends at once changes no existing row.
  lemma LocalKeepsRows(c: P.Config, w: Locked, l: P.Label)
    requires CanMove(c, w, Local(l)) && c.backend == P.Postgres(true)
    ensures var s' := P.Apply(c, w.core, l);
            |w.core.jobs| <= |s'.jobs| && forall k :: 0 <= k < |w.core.jobs| ==> s'.jobs[k] == w.core.jobs[k]
  {
    if !l.Tick? && P.Settles(l) {
      SettleKeepsRows(c, w, l);
    }
  }

  lemma SettleKeepsRows(c: P.Config, w: Locked, l: P.Label)
    requires P.Settles(l) && CanMove(c, w, Local(l)) && c.backend == P.Postgres(true)
    ensures P.SettleStep(c, w.core, l).jobs == w.core.jobs
  {
  }

  lemma LocalOk(c: P.Config, w: Locked, l: P.Label)
    requires c.backend == P.Postgres(true) && LockedOk(w) && CanMove(c, w, Local(l))
    ensures LockedOk(Moved(c, w, Local(l)))
  {
    var w' := Moved(c, w, Local(l));
    LocalKeepsRows(c, w, l);
    if l.Crash? {
      RollbackKeepsDbOk(DbOf(w), l.a);
      NewRowsKeepDbOk(DbOf(w).(txns := w'.txns), DbOf(w'));
    } else {
      NewRowsKeepDbOk(DbOf(w), DbOf(w'));
    }
    LocalWants(c, w, l);
  }

  lemma LocalWants(c: P.Config, w: Locked, l: P.Label)
    requires LockedOk(w) && CanMove(c, w, Local(l))
    ensures WantsAll(Moved(c, w, Local(l)))
  {
    Invariants.OtherActorsStay(c, w.core, l);
  }

  lemma AcquireOk(c: P.Config, w: Locked, x: Action)
    requires LockedOk(w) && CanMove(c, w, Acquire(x))
    ensures LockedOk(Moved(c, w, Acquire(x)))
  {
    PerformOk(DbOf(w), x);
    OtherTxnsStay(DbOf(w), x);
    SelectsClaimNothing(DbOf(w), x);
  }

  lemma SelectsClaimNothing(d: Db, x: Action)
    requires Possible(d, x) && (x.SelectOldest? || x.SelectStale? || x.LockRow?)
    ensures Perform(d, x).rows == d.rows && Perform(d, x).claims == d.claims
  {
  }

  lemma FinishOk(c: P.Config, w: Locked, a: nat, at: Time)
    requires LockedOk(w) && CanMove(c, w, Finish(a, at))
    ensures LockedOk(Moved(c, w, Finish(a, at)))
  {
    var x := Commit(a, at);
    PerformOk(DbOf(w), x);
    OtherTxnsStay(DbOf(w), x);
    OutcomeMovesOne(w.core, a, w.txns[a], at);
  }

  lemma OutcomeMovesOne(s: P.State, a: nat, txn: Txn, at: Time)
    requires a < |s.actors| && !txn.NoTxn? && Wants(s.actors[a], txn)
    ensures P.OthersStay(s, Outcome(s, a, txn, at), a)
  {
  }

  lemma MovedOk(c: P.Config, w: Locked, m: Move)
    requires c.backend == P.Postgres(true) && LockedOk(w) && CanMove(c, w, m)
    ensures LockedOk(Moved(c, w, m))
  {
    match m
    case Local(l) => LocalOk(c, w, l);
    case Acquire(x) => AcquireOk(c, w, x);
    case Finish(a, at) => FinishOk(c, w, a, at);
  }

  // ----- A commit is a step of Protocol -----

  // The step that takes effect when the transaction of actor a commits. A recovery skips what it has not locked.
  function CommitLabel(w: Locked, a: nat, at: Time): P.Label
    requires a < |w.txns| && !w.txns[a].NoTxn?
  {
    match w.txns[a]
    case Claiming(row, _, _) => P.ClaimNext(a, Some(row), Some(at))
    case Recovering(_, rows) => P.RecoverStale(a, Skipped(w.core.jobs, rows), Some(at))
    case Writing(_, _, ToRunning) => P.SetRunning(a, Some(at))
    case Writing(_, _, ToSucceeded(_)) => P.SetSucceeded(a, Some(at))
    case Writing(_, _, ToFailed(_)) => P.SetFailed(a, Some(at))
  }

  function Skipped(jobs: seq<Job>, rows: map<nat, Job>): set<nat> { set k: nat | k < |jobs| && k !in rows }

  lemma LockedRowsAreCounted(jobs: seq<Job>, cutoff: Time, rows: map<nat, Job>)
    requires forall k :: k in rows ==> k < |jobs| && rows[k] == jobs[k] && Stale(jobs[k], cutoff)
    ensures CountStale(jobs, cutoff, Skipped(jobs, rows)) == |rows|
    ensures CountExhausted(jobs, cutoff, Skipped(jobs, rows)) == |ExhaustedOf(rows)|
  {
    var skipped := Skipped(jobs, rows);
    assert StalePositions(jobs, cutoff, skipped) == rows.Keys;
    assert ExhaustedPositions(jobs, cutoff, skipped) == ExhaustedOf(rows);
  }

  lemma LockedRowsAreRecovered(jobs: seq<Job>, cutoff: Time, now: Time, rows: map<nat, Job>)
    requires forall k :: k in rows ==> k < |jobs| && rows[k] == jobs[k] && Stale(jobs[k], cutoff)
    ensures RecoverAll(jobs, cutoff, now, Skipped(jobs, rows)) == RowLocks.Recovered(jobs, rows, now)
  {
  }

  lemma ClaimCommits(c: P.Config, w: Locked, a: nat, at: Time)
    requires c.backend == P.Postgres(true) && LockedOk(w) && CanMove(c, w, Finish(a, at)) && w.txns[a].Claiming?
    ensures P.Step(c, w.core, CommitLabel(w, a, at), Moved(c, w, Finish(a, at)).core)
  {
    assert TxnOk(w.core.jobs, w.txns[a]) && Holds(w.txns[a], w.txns[a].row);
  }

  // The step of Protocol, from the rows as they are, and the outcome, from the rows as they were read.
  lemma RecoveryOutcome(c: P.Config, s: P.State, a: nat, at: Time, cutoff: Time, rows: map<nat, Job>)
    requires c.backend == P.Postgres(true) && at <= s.now && a < |s.actors| && s.actors[a] == P.Sweep(cutoff)
    requires CountStale(s.jobs, cutoff, Skipped(s.jobs, rows)) == |rows|
    requires CountExhausted(s.jobs, cutoff, Skipped(s.jobs, rows)) == |ExhaustedOf(rows)|
    ensures P.Enabled(c, s, P.RecoverStale(a, Skipped(s.jobs, rows), Some(at)))
    ensures P.Apply(c, s, P.RecoverStale(a, Skipped(s.jobs, rows), Some(at)))
              == Outcome(s, a, Recovering(cutoff, rows), at)
                 .(jobs := RecoverAll(s.jobs, cutoff, at, Skipped(s.jobs, rows)))
  {
  }

  lemma RecoveryCommits(c: P.Config, w: Locked, a: nat, at: Time)
    requires c.backend == P.Postgres(true) && LockedOk(w) && CanMove(c, w, Finish(a, at)) && w.txns[a].Recovering?
    ensures P.Step(c, w.core, CommitLabel(w, a, at), Moved(c, w, Finish(a, at)).core)
  {
    var cutoff, rows := w.txns[a].cutoff, w.txns[a].rows;
    RowsHeld(w, a);
    LockedRowsAreCounted(w.core.jobs, cutoff, rows);
    LockedRowsAreRecovered(w.core.jobs, cutoff, at, rows);
    RecoveryOutcome(c, w.core, a, at, cutoff, rows);
    var d := Perform(DbOf(w), Commit(a, at));
    assert d.rows == RowLocks.Recovered(w.core.jobs, rows, at) && d.claims == w.core.claims;
  }

  lemma RowsHeld(w: Locked, a: nat)
    requires LockedOk(w) && a < |w.txns| && w.txns[a].Recovering?
    ensures forall k :: k in w.txns[a].rows ==>
              k < |w.core.jobs| && w.txns[a].rows[k] == w.core.jobs[k] && Stale(w.core.jobs[k], w.txns[a].cutoff)
  {
    assert TxnOk(w.core.jobs, w.txns[a]);
    forall k | k in w.txns[a].rows ensures k < |w.core.jobs| && w.txns[a].rows[k] == w.core.jobs[k] {
      assert Holds(w.txns[a], k);
    }
  }

  lemma WriteCommits(c: P.Config, w: Locked, a: nat, at: Time)
    requires c.backend == P.Postgres(true) && LockedOk(w) && CanMove(c, w, Finish(a, at)) && w.txns[a].Writing?
    ensures P.Step(c, w.core, CommitLabel(w, a, at), Moved(c, w, Finish(a, at)).core)
  {
    assert TxnOk(w.core.jobs, w.txns[a]) && Holds(w.txns[a], w.txns[a].row);
  }

  // ----- Runs -----

  ghost predicate LockedStep(c: P.Config, w: Locked, m: Move, w': Locked)
  {
    CanMove(c, w, m) && w' == Moved(c, w, m)
  }

  ghost predicate IsLockedRun(c: P.Config, ws: seq<Locked>, moves: seq<Move>)
  {
    && |ws| == |moves| + 1 && P.Init(ws[0].core)
    && |ws[0].txns| == |ws[0].core.actors| && (forall a :: 0 <= a < |ws[0].txns| ==> ws[0].txns[a].NoTxn?)
    && forall i: nat :: i < |moves| ==> LockedStep(c, ws[i], moves[i], ws[i+1])
  }

  // The steps of Protocol in a locked run: taking a lock is none, and an operation takes effect at its commit.
  ghost function Effective(ws: seq<Locked>, moves: seq<Move>, i: nat): seq<P.Label>
    requires i <= |moves| && i <= |ws|
  {
    if i == 0 then []
    else Effective(ws, moves, i - 1) + EffectiveLabel(ws[i-1], moves[i-1])
  }

  ghost function EffectiveLabel(w: Locked, m: Move): seq<P.Label>
  {
    match m
    case Local(l) => [l]
    case Acquire(_) => []
    case Finish(a, at) => if a < |w.txns| && !w.txns[a].NoTxn? then [CommitLabel(w, a, at)] else []
  }

  lemma FinishIsStep(c: P.Config, w: Locked, a: nat, at: Time)
    requires c.backend == P.Postgres(true) && LockedOk(w) && CanMove(c, w, Finish(a, at))
    ensures P.Step(c, w.core, CommitLabel(w, a, at), Moved(c, w, Finish(a, at)).core)
  {
    if w.txns[a].Claiming? {
      ClaimCommits(c, w, a, at);
    } else if w.txns[a].Recovering? {
      RecoveryCommits(c, w, a, at);
    } else {
      WriteCommits(c, w, a, at);
    }
  }

  // One move of a locked run is no step of Protocol or one.
  lemma MoveIsStep(c: P.Config, w: Locked, m: Move, w': Locked)
    requires c.backend == P.Postgres(true) && LockedOk(w) && LockedStep(c, w, m, w')
    ensures P.Leads(c, w.core, EffectiveLabel(w, m), w'.core)
  {
    match m
    case Local(l) => P.LeadsOne(c, w.core, l);
    case Acquire(_) => P.LeadsNowhere(c, w.core);
    case Finish(a, at) =>
      FinishIsStep(c, w, a, at);
      P.LeadsOne(c, w.core, CommitLabel(w, a, at));
  }

  // An open transaction can always commit.
  lemma CommitIsFree(c: P.Config, w: Locked, a: nat, at: Time)
    requires LockedOk(w) && a < |w.txns| && !w.txns[a].NoTxn? && at <= w.core.now
    ensures CanMove(c, w, Finish(a, at))
  {
    assert TxnOk(w.core.jobs, w.txns[a]);
    assert w.txns[a].Recovering? || Holds(w.txns[a], w.txns[a].row);
  }

  lemma InitLockedOk(w: Locked)
    requires P.Init(w.core) && |w.txns| == |w.core.actors| && (forall a :: 0 <= a < |w.txns| ==> w.txns[a].NoTxn?)
    ensures LockedOk(w)
  {
  }

  lemma {:induction false} LockedRunOk(c: P.Config, ws: seq<Locked>, moves: seq<Move>, i: nat)
    requires c.backend == P.Postgres(true) && IsLockedRun(c, ws, moves) && i < |ws|
    ensures LockedOk(ws[i])
  {
    if i == 0 {
      InitLockedOk(ws[0]);
    } else {
      LockedRunOk(c, ws, moves, i - 1);
      assert LockedStep(c, ws[i-1], moves[i-1], ws[i]);
      MovedOk(c, ws[i-1], moves[i-1]);
    }
  }

  lemma EffectiveGrows(ws: seq<Locked>, moves: seq<Move>, i: nat)
    requires 0 < i <= |moves| && i <= |ws|
    ensures Effective(ws, moves, i) == Effective(ws, moves, i - 1) + EffectiveLabel(ws[i-1], moves[i-1])
  {
  }

  lemma MoveLeadsAt(c: P.Config, ws: seq<Locked>, moves: seq<Move>, i: nat)
    requires c.backend == P.Postgres(true) && IsLockedRun(c, ws, moves) && i < |moves|
    ensures P.Leads(c, ws[i].core, EffectiveLabel(ws[i], moves[i]), ws[i+1].core)
  {
    LockedRunOk(c, ws, moves, i);
    assert LockedStep(c, ws[i], moves[i], ws[i+1]);
    MoveIsStep(c, ws[i], moves[i], ws[i+1]);
  }

  // Every run of the worker programs under row locks, however their transactions overlap, is a run of
  // Protocol over the same jobs, audit events and counters, each operation taking effect when it commits.
  lemma {:induction false} LockedRunLeads(c: P.Config, ws: seq<Locked>, moves: seq<Move>, i: nat)
    requires c.backend == P.Postgres(true) && IsLockedRun(c, ws, moves) && i < |ws|
    ensures P.Leads(c, ws[0].core, Effective(ws, moves, i), ws[i].core)
  {
    if i == 0 {
      P.LeadsNowhere(c, ws[0].core);
    } else {
      LockedRunLeads(c, ws, moves, i - 1);
      MoveLeadsAt(c, ws, moves, i - 1);
      EffectiveGrows(ws, moves, i);
      P.LeadsThen(c, ws[0].core, Effective(ws, moves, i - 1), ws[i-1].core,
                  EffectiveLabel(ws[i-1], moves[i-1]), ws[i].core);
    }
  }

  lemma LockedRunIsProtocolRun(c: P.Config, ws: seq<Locked>, moves: seq<Move>, i: nat)
    requires c.backend == P.Postgres(true) && IsLockedRun(c, ws, moves) && i < |ws|
    ensures exists states ::
              && P.IsRun(c, states, Effective(ws, moves, i))
              && states[0] == ws[0].core && states[|Effective(ws, moves, i)|] == ws[i].core
  {
    LockedRunLeads(c, ws, moves, i);
    var labels := Effective(ws, moves, i);
    var states :| P.IsPath(c, states, labels) && states[0] == ws[0].core && states[|labels|] == ws[i].core;
    assert P.IsRun(c, states, labels);
  }
}
