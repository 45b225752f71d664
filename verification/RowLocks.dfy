// The Postgres store under row locks: each operation locks the rows it read, with SKIP LOCKED for claims
// and recoveries and blocking locks for the other writes, and commits later. Locks make every run equal
// to one of single atomic operations in commit order.
module RowLocks {
  import opened Prelude
  import opened Jobs
  import opened Lifecycle

  datatype Write = ToRunning | ToSucceeded(result: Evaluation) | ToFailed(message: string)

  // A transaction in flight holds the row values it read when it took the locks; free are the claimable rows
  // nobody held when a claim was selected.
  datatype Txn =
    | NoTxn
    | Claiming(row: nat, read: Job, free: set<nat>)
    | Recovering(cutoff: Time, rows: map<nat, Job>)
    | Writing(row: nat, read: Job, write: Write)

  datatype Db = Db(rows: seq<Job>, txns: seq<Txn>, claims: seq<(nat, int)>)

  predicate Holds(t: Txn, k: nat)
  {
    match t
    case NoTxn => false
    case Claiming(row, _, _) => row == k
    case Recovering(_, rows) => k in rows
    case Writing(row, _, _) => row == k
  }

  function ReadOf(t: Txn, k: nat): Job
    requires Holds(t, k)
  {
    if t.Recovering? then t.rows[k] else t.read
  }

  predicate Locked(d: Db, k: nat)
  {
    exists t :: 0 <= t < |d.txns| && Holds(d.txns[t], k)
  }

  // _validate_transition for each write.
  predicate Allowed(w: Write, status: Status)
  {
    match w
    case ToRunning => status == Queued
    case ToSucceeded(_) => status == Running
    case ToFailed(_) => !status.Terminal()
  }

  function Written(j: Job, w: Write, now: Time): Job
  {
    match w
    case ToRunning => MoveJob(j, Running, now)
    case ToSucceeded(result) => WithResult(MoveJob(j, Succeeded, now), result, now).(claimedAt := None)
    case ToFailed(message) => WithError(MoveJob(j, Failed, now), message, now).(claimedAt := None)
  }

  datatype Action =
    | Insert(id: JobId, request: Request, maxAttempts: int, at: Time)
    | SelectOldest(t: nat, choice: Option<nat>)
    | SelectStale(t: nat, cutoff: Time)
    | LockRow(t: nat, row: nat, write: Write)
    | Commit(t: nat, now: Time)
    | Rollback(t: nat)

  // SELECT ... ORDER BY created_at LIMIT 1 FOR UPDATE SKIP LOCKED: an oldest row among the unlocked claimable ones.
  ghost predicate OldestUnlocked(d: Db, k: nat)
  {
    && k < |d.rows| && Claimable(d.rows[k]) && !Locked(d, k)
    && forall i :: 0 <= i < |d.rows| && Claimable(d.rows[i]) && !Locked(d, i) ==>
         d.rows[k].createdAt <= d.rows[i].createdAt
  }

  ghost predicate Possible(d: Db, x: Action)
  {
    if x.Insert? then x.maxAttempts >= 1
    else
      && x.t < |d.txns|
      && match x
         case SelectOldest(t, choice) =>
           && d.txns[t].NoTxn?
           && (if choice.Some? then OldestUnlocked(d, choice.value)
               else forall k :: 0 <= k < |d.rows| && Claimable(d.rows[k]) ==> Locked(d, k))
         case SelectStale(t, _) => d.txns[t].NoTxn?
         // A blocking lock waits until the row is free; a rejected transition ends the transaction at once.
         case LockRow(t, row, write) =>
           d.txns[t].NoTxn? && row < |d.rows| && !Locked(d, row) && Allowed(write, d.rows[row].status)
         case Commit(t, _) => !d.txns[t].NoTxn? && (d.txns[t].Recovering? || d.txns[t].row < |d.rows|)
         case Rollback(t) => !d.txns[t].NoTxn?
  }

  function FreeRows(d: Db): set<nat>
  {
    set k: nat | k < |d.rows| && Claimable(d.rows[k]) && !Locked(d, k)
  }

  function Set(d: Db, t: nat, txn: Txn): Db
    requires t < |d.txns|
  {
    d.(txns := d.txns[t := txn])
  }

  // Only the columns a transaction assigns are written, from the values it read.
  function Recovered(rows: seq<Job>, read: map<nat, Job>, now: Time): (r: seq<Job>)
    ensures |r| == |rows|
    ensures forall k :: 0 <= k < |rows| ==> r[k] == if k in read then RequeueOrFail(read[k], now) else rows[k]
  {
    seq(|rows|, k requires 0 <= k < |rows| => if k in read then RequeueOrFail(read[k], now) else rows[k])
  }

  function RequeueOrFail(j: Job, now: Time): Job
  {
    if Exhausted(j) then
      j.(status := Failed, errorMessage := Some(TIMED_OUT), claimedAt := None, updatedAt := now)
    else
      j.(status := Queued, errorMessage := Some(WORKER_STOPPED), claimedAt := None, updatedAt := now)
  }

  function Perform(d: Db, x: Action): Db
    requires Possible(d, x)
  {
    match x
    case Insert(id, request, maxAttempts, at) => d.(rows := d.rows + [NewJob(id, request, maxAttempts, at)])
    case SelectOldest(t, choice) =>
      if choice.None? then d else Set(d, t, Claiming(choice.value, d.rows[choice.value], FreeRows(d)))
    case SelectStale(t, cutoff) =>
      Set(d, t, Recovering(cutoff,
                           map k: nat | 0 <= k < |d.rows| && Stale(d.rows[k], cutoff) && !Locked(d, k) :: d.rows[k]))
    case LockRow(t, row, write) => Set(d, t, Writing(row, d.rows[row], write))
    case Commit(t, now) =>
      (match d.txns[t]
       case NoTxn => d
       case Claiming(row, read, _) =>
         var j := ClaimJob(read, now);
         Set(d, t, NoTxn).(rows := d.rows[row := j], claims := d.claims + [(row, j.attemptCount)])
       case Recovering(_, read) => Set(d, t, NoTxn).(rows := Recovered(d.rows, read, now))
       case Writing(row, read, write) => Set(d, t, NoTxn).(rows := d.rows[row := Written(read, write, now)]))
    case Rollback(t) => Set(d, t, NoTxn)
  }

  // ----- What locks guarantee -----

  // The row is one of free, and none of them is older. Rows keep their creation time.
  ghost predicate OldestOf(rows: seq<Job>, row: nat, free: set<nat>)
  {
    row in free && row < |rows| && forall k :: k in free ==> k < |rows| && rows[row].createdAt <= rows[k].createdAt
  }

  // A transaction that holds a row has the current value of the row, and what it is about to do is
  // still allowed.
  ghost predicate TxnOk(rows: seq<Job>, t: Txn)
  {
    && (forall k: nat :: Holds(t, k) ==> k < |rows| && ReadOf(t, k) == rows[k])
    && (t.Claiming? ==> Claimable(t.read) && OldestOf(rows, t.row, t.free))
    && (t.Recovering? ==> forall k :: k in t.rows ==> Stale(t.rows[k], t.cutoff))
    && (t.Writing? ==> Allowed(t.write, t.read.status))
  }

  ghost predicate DbOk(d: Db)
  {
    && (forall t :: 0 <= t < |d.txns| ==> TxnOk(d.rows, d.txns[t]))
    && (forall t, u, k: nat :: 0 <= t < |d.txns| && 0 <= u < |d.txns| && Holds(d.txns[t], k) && Holds(d.txns[u], k)
         ==> t == u)
  }

  // Only rows the committing transaction holds change.
  lemma OnlyHeldRowsChange(d: Db, x: Action, k: nat)
    requires DbOk(d) && Possible(d, x) && k < |d.rows|
    requires x.Commit? ==> !Holds(d.txns[x.t], k)
    ensures k < |Perform(d, x).rows| && Perform(d, x).rows[k] == d.rows[k]
  {
  }

  lemma OtherTxnsStay(d: Db, x: Action)
    requires Possible(d, x)
    ensures |Perform(d, x).txns| == |d.txns| && |Perform(d, x).rows| >= |d.rows|
    ensures forall u :: 0 <= u < |d.txns| && (x.Insert? || u != x.t) ==> Perform(d, x).txns[u] == d.txns[u]
    ensures x.Commit? || x.Rollback? ==> Perform(d, x).txns[x.t] == NoTxn
    ensures !x.Commit? && !x.Insert? ==> Perform(d, x).rows == d.rows
  {
  }

  // What a transaction newly holds was free before.
  lemma NewLocksWereFree(d: Db, x: Action, k: nat)
    requires DbOk(d) && Possible(d, x) && !x.Insert? && !x.Commit?
    requires |Perform(d, x).txns| == |d.txns| && Holds(Perform(d, x).txns[x.t], k)
    ensures Holds(d.txns[x.t], k) || !Locked(d, k)
    ensures TxnOk(d.rows, Perform(d, x).txns[x.t])
  {
    assert TxnOk(d.rows, d.txns[x.t]);
  }

  lemma CreationKept(d: Db, x: Action, k: nat)
    requires DbOk(d) && Possible(d, x) && k < |d.rows|
    ensures k < |Perform(d, x).rows| && Perform(d, x).rows[k].createdAt == d.rows[k].createdAt
  {
    if x.Commit? {
      assert TxnOk(d.rows, d.txns[x.t]);
      assert Holds(d.txns[x.t], k) ==> ReadOf(d.txns[x.t], k) == d.rows[k];
    }
  }

  lemma OldestStays(d: Db, x: Action, row: nat, free: set<nat>)
    requires DbOk(d) && Possible(d, x) && OldestOf(d.rows, row, free)
    ensures OldestOf(Perform(d, x).rows, row, free)
  {
    CreationKept(d, x, row);
    forall k | k in free
      ensures k < |Perform(d, x).rows| && Perform(d, x).rows[row].createdAt <= Perform(d, x).rows[k].createdAt
    {
      CreationKept(d, x, k);
    }
  }

  lemma MoverOk(d: Db, x: Action)
    requires DbOk(d) && Possible(d, x) && !x.Insert?
    ensures |Perform(d, x).txns| == |d.txns| && TxnOk(Perform(d, x).rows, Perform(d, x).txns[x.t])
  {
    assert TxnOk(d.rows, d.txns[x.t]);
  }

  lemma PerformOk(d: Db, x: Action)
    requires DbOk(d) && Possible(d, x)
    ensures DbOk(Perform(d, x))
  {
    var d' := Perform(d, x);
    OtherTxnsStay(d, x);
    if !x.Insert? { MoverOk(d, x); }
    forall u | 0 <= u < |d'.txns| ensures TxnOk(d'.rows, d'.txns[u]) {
      if x.Insert? || u != x.t {
        assert TxnOk(d.rows, d.txns[u]);
        if d.txns[u].Claiming? { OldestStays(d, x, d.txns[u].row, d.txns[u].free); }
        forall k: nat | Holds(d'.txns[u], k) ensures k < |d'.rows| && ReadOf(d'.txns[u], k) == d'.rows[k] {
          OnlyHeldRowsChange(d, x, k);
        }
      }
    }
    forall t, u, k: nat | 0 <= t < |d'.txns| && 0 <= u < |d'.txns| && Holds(d'.txns[t], k) && Holds(d'.txns[u], k)
      ensures t == u
    {
      if t != u && !x.Insert? && !x.Commit? && (t == x.t || u == x.t) {
        NewLocksWereFree(d, x, k);
      }
    }
  }

  // ----- The same operations without locks, each in one step -----

  datatype AtomicOp =
    | OpInsert(id: JobId, request: Request, maxAttempts: int, at: Time)
    | OpClaim(row: nat, free: set<nat>, now: Time)
    | OpRecover(chosen: set<nat>, cutoff: Time, now: Time)
    | OpWrite(row: nat, write: Write, now: Time)

  // Each operation finds the rows in a state that allows it when it takes effect.
  ghost predicate OpPossible(rows: seq<Job>, op: AtomicOp)
  {
    match op
    case OpInsert(_, _, maxAttempts, _) => maxAttempts >= 1
    case OpClaim(row, free, _) => row < |rows| && Claimable(rows[row]) && OldestOf(rows, row, free)
    case OpRecover(chosen, cutoff, _) => forall k :: k in chosen ==> k < |rows| && Stale(rows[k], cutoff)
    case OpWrite(row, write, _) => row < |rows| && Allowed(write, rows[row].status)
  }

  function OpApply(rows: seq<Job>, op: AtomicOp): seq<Job>
    requires OpPossible(rows, op)
  {
    match op
    case OpInsert(id, request, maxAttempts, at) => rows + [NewJob(id, request, maxAttempts, at)]
    case OpClaim(row, _, now) => rows[row := ClaimJob(rows[row], now)]
    case OpRecover(chosen, cutoff, now) =>
      seq(|rows|, k requires 0 <= k < |rows| => if k in chosen then RecoverJob(rows[k], cutoff, now) else rows[k])
    case OpWrite(row, write, now) => rows[row := Written(rows[row], write, now)]
  }

  // The operation that takes effect with an action: at the commit, or nothing.
  ghost function EffectOf(d: Db, x: Action): Option<AtomicOp>
    requires Possible(d, x)
  {
    match x
    case Insert(id, request, maxAttempts, at) => Some(OpInsert(id, request, maxAttempts, at))
    case Commit(t, now) =>
      (match d.txns[t]
       case NoTxn => None
       case Claiming(row, _, free) => Some(OpClaim(row, free, now))
       case Recovering(cutoff, rows) => Some(OpRecover(rows.Keys, cutoff, now))
       case Writing(row, _, write) => Some(OpWrite(row, write, now)))
    case _ => None
  }

  // What a commit leaves of a row its transaction holds, column by column.
  ghost predicate RowLeft(txn: Txn, j: Job, now: Time, j': Job)
  {
    && SameIdentity(j, j') && j'.updatedAt == now
    && match txn
       case NoTxn => false
       case Claiming(_, _, _) =>
         && j'.status == Running && j'.attemptCount == j.attemptCount + 1 && j'.claimedAt == Some(now)
         && j'.result == j.result && j'.errorMessage == j.errorMessage
       case Recovering(_, _) => LeftByRecovery(j, now, j')
       case Writing(_, _, write) =>
         && j'.attemptCount == j.attemptCount
         && match write
            case ToRunning =>
              && j'.status == Running && j'.claimedAt == j.claimedAt
              && j'.result == j.result && j'.errorMessage == j.errorMessage
            case ToSucceeded(result) =>
              && j'.status == Succeeded && j'.claimedAt.None?
              && j'.result == Some(result) && j'.errorMessage == j.errorMessage
            case ToFailed(message) =>
              && j'.status == Failed && j'.claimedAt.None?
              && j'.result == j.result && j'.errorMessage == Some(message)
  }

  ghost predicate RowsLeft(txn: Txn, rows: seq<Job>, now: Time, rows': seq<Job>)
  {
    |rows'| == |rows| && forall k: nat :: k < |rows| ==>
      if Holds(txn, k) then RowLeft(txn, rows[k], now, rows'[k]) else rows'[k] == rows[k]
  }

  lemma CommitLeaves(d: Db, x: Action)
    requires DbOk(d) && Possible(d, x) && x.Commit?
    ensures RowsLeft(d.txns[x.t], d.rows, x.now, Perform(d, x).rows)
  {
    var txn := d.txns[x.t];
    assert TxnOk(d.rows, txn);
    forall k: nat | k < |d.rows| && Holds(txn, k) ensures RowLeft(txn, d.rows[k], x.now, Perform(d, x).rows[k]) {
      assert ReadOf(txn, k) == d.rows[k];
    }
  }

  // A commit does what the atomic operation would do to the rows of that moment, though it was decided
  // and computed from the rows of the moment it took its locks, and leaves each row as RowLeft says.
  lemma CommitIsAtomic(d: Db, x: Action)
    requires DbOk(d) && Possible(d, x)
    ensures var effect := EffectOf(d, x);
            if effect.None? then Perform(d, x).rows == d.rows
            else OpPossible(d.rows, effect.value) && Perform(d, x).rows == OpApply(d.rows, effect.value)
    ensures x.Commit? ==> RowsLeft(d.txns[x.t], d.rows, x.now, Perform(d, x).rows)
  {
    if x.Commit? {
      CommitLeaves(d, x);
      var txn := d.txns[x.t];
      assert TxnOk(d.rows, txn);
      if txn.Claiming? || txn.Writing? {
        assert Holds(txn, txn.row);
      } else if txn.Recovering? {
        forall k | k in txn.rows ensures k < |d.rows| && txn.rows[k] == d.rows[k] && Stale(d.rows[k], txn.cutoff) {
          assert Holds(txn, k);
        }
      }
    }
  }

  ghost predicate DbInit(d: Db)
  {
    d.rows == [] && d.claims == [] && forall t :: 0 <= t < |d.txns| ==> d.txns[t].NoTxn?
  }

  ghost predicate IsDbRun(dbs: seq<Db>, actions: seq<Action>)
  {
    && |dbs| == |actions| + 1 && DbInit(dbs[0])
    && forall i :: 0 <= i < |actions| ==> DbStep(dbs[i], actions[i], dbs[i+1])
  }

  ghost predicate DbStep(d: Db, x: Action, d': Db)
  {
    Possible(d, x) && d' == Perform(d, x)
  }

  // The effects of the first i actions, in commit order.
  ghost function Effects(dbs: seq<Db>, actions: seq<Action>, i: nat): seq<AtomicOp>
    requires IsDbRun(dbs, actions) && i <= |actions|
  {
    if i == 0 then []
    else
      assert DbStep(dbs[i-1], actions[i-1], dbs[i]);
      var effect := EffectOf(dbs[i-1], actions[i-1]);
      Effects(dbs, actions, i - 1) + (if effect.None? then [] else [effect.value])
  }

  // The operations one at a time from the empty table, each possible when its turn comes.
  ghost function Replay(ops: seq<AtomicOp>): Option<seq<Job>>
  {
    if ops == [] then Some([])
    else
      var n := |ops| - 1;
      match Replay(ops[..n])
      case None => None
      case Some(rows) => if OpPossible(rows, ops[n]) then Some(OpApply(rows, ops[n])) else None
  }

  lemma {:induction false} DbRunOk(dbs: seq<Db>, actions: seq<Action>, i: nat)
    requires IsDbRun(dbs, actions) && i < |dbs|
    ensures DbOk(dbs[i])
  {
    if i > 0 {
      DbRunOk(dbs, actions, i - 1);
      assert DbStep(dbs[i-1], actions[i-1], dbs[i]);
      PerformOk(dbs[i-1], actions[i-1]);
    }
  }

  lemma ReplayOneMore(ops: seq<AtomicOp>, op: AtomicOp, rows: seq<Job>)
    requires Replay(ops) == Some(rows) && OpPossible(rows, op)
    ensures Replay(ops + [op]) == Some(OpApply(rows, op))
  {
    assert (ops + [op])[..|ops|] == ops;
  }

  ghost predicate ReplaysTo(dbs: seq<Db>, actions: seq<Action>, i: nat)
    requires IsDbRun(dbs, actions) && i < |dbs|
  {
    Replay(Effects(dbs, actions, i)) == Some(dbs[i].rows)
  }

  lemma NothingReplayed(dbs: seq<Db>, actions: seq<Action>)
    requires IsDbRun(dbs, actions)
    ensures ReplaysTo(dbs, actions, 0)
  {
  }

  lemma {:induction false} PrefixReplays(dbs: seq<Db>, actions: seq<Action>, i: nat)
    requires IsDbRun(dbs, actions) && i < |dbs|
    ensures ReplaysTo(dbs, actions, i)
  {
    if i == 0 {
      NothingReplayed(dbs, actions);
    } else {
      PrefixReplays(dbs, actions, i - 1);
      SerialStep(dbs, actions, i - 1);
    }
  }

  lemma SerialStep(dbs: seq<Db>, actions: seq<Action>, i: nat)
    requires IsDbRun(dbs, actions) && i < |actions| && ReplaysTo(dbs, actions, i)
    ensures ReplaysTo(dbs, actions, i + 1)
  {
    DbRunOk(dbs, actions, i);
    assert DbStep(dbs[i], actions[i], dbs[i+1]);
    CommitIsAtomic(dbs[i], actions[i]);
    var before, effect := Effects(dbs, actions, i), EffectOf(dbs[i], actions[i]);
    if effect.Some? {
      ReplayOneMore(before, effect.value, dbs[i].rows);
    } else {
      assert before + [] == before;
    }
  }

  // Every locked run equals a run of atomic operations in commit order, in which each claim takes an oldest
  // of the rows that were free and claimable when it was selected.
  lemma LockedRunIsSerial(dbs: seq<Db>, actions: seq<Action>, i: nat)
    requires IsDbRun(dbs, actions) && i < |dbs|
    ensures Replay(Effects(dbs, actions, i)) == Some(dbs[i].rows)
  {
    PrefixReplays(dbs, actions, i);
  }

  // No two transactions ever hold the same row, and the guard of a blocked commit never goes stale.
  lemma LocksAreExclusive(dbs: seq<Db>, actions: seq<Action>, i: nat, t: nat, u: nat, k: nat)
    requires IsDbRun(dbs, actions) && i < |dbs| && t < |dbs[i].txns| && u < |dbs[i].txns|
    requires Holds(dbs[i].txns[t], k) && Holds(dbs[i].txns[u], k)
    ensures t == u && k < |dbs[i].rows| && ReadOf(dbs[i].txns[t], k) == dbs[i].rows[k]
  {
    DbRunOk(dbs, actions, i);
    assert TxnOk(dbs[i].rows, dbs[i].txns[t]);
  }

  // ----- Claims -----

  ghost predicate ClaimsCounted(d: Db, k: nat)
  {
    CountsUpTo(ClaimsOf(d.claims, k), if k < |d.rows| then d.rows[k].attemptCount else 0)
  }

  lemma CommittedClaimCounted(d: Db, x: Action, k: nat)
    requires DbOk(d) && Possible(d, x) && ClaimsCounted(d, k) && x.Commit? && d.txns[x.t].Claiming?
    ensures ClaimsCounted(Perform(d, x), k)
  {
    var txn := d.txns[x.t];
    assert TxnOk(d.rows, txn) && Holds(txn, txn.row);
    OneMoreClaim(d.claims, txn.row, txn.read.attemptCount + 1, k, if k < |d.rows| then d.rows[k].attemptCount else 0);
  }

  lemma OtherRowsCounted(d: Db, x: Action, k: nat)
    requires DbOk(d) && Possible(d, x) && !(x.Commit? && d.txns[x.t].Claiming?)
    ensures Perform(d, x).claims == d.claims && |d.rows| <= |Perform(d, x).rows|
    ensures k < |Perform(d, x).rows| ==>
              Perform(d, x).rows[k].attemptCount == if k < |d.rows| then d.rows[k].attemptCount else 0
  {
    if x.Commit? {
      var txn := d.txns[x.t];
      assert TxnOk(d.rows, txn);
      assert k < |d.rows| && Holds(txn, k) ==> ReadOf(txn, k) == d.rows[k];
    }
  }

  lemma StepClaimsCounted(d: Db, x: Action, k: nat)
    requires DbOk(d) && Possible(d, x) && ClaimsCounted(d, k)
    ensures ClaimsCounted(Perform(d, x), k)
  {
    if x.Commit? && d.txns[x.t].Claiming? {
      CommittedClaimCounted(d, x, k);
    } else {
      OtherRowsCounted(d, x, k);
    }
  }

  // However claims, recoveries and writes overlap, the committed claims on a row are attempts
  // 1, 2, ..., attempt_count: no (job, attempt) pair is claimed twice.
  lemma {:induction false} LockedClaimsCountAttempts(dbs: seq<Db>, actions: seq<Action>, i: nat, k: nat)
    requires IsDbRun(dbs, actions) && i < |dbs|
    ensures ClaimsCounted(dbs[i], k)
  {
    if i > 0 {
      LockedClaimsCountAttempts(dbs, actions, i - 1, k);
      DbRunOk(dbs, actions, i - 1);
      assert DbStep(dbs[i-1], actions[i-1], dbs[i]);
      StepClaimsCounted(dbs[i-1], actions[i-1], k);
    }
  }

  // ----- Jobs under locks -----

  ghost predicate RowOk(j: Job)
  {
    WithinBudget(j) && (j.result.Some? ==> j.status == Succeeded)
  }

  lemma OpEvolves(rows: seq<Job>, op: AtomicOp, k: nat)
    requires OpPossible(rows, op) && k < |rows| && RowOk(rows[k])
    ensures k < |OpApply(rows, op)| && Evolves(rows[k], OpApply(rows, op)[k]) && RowOk(OpApply(rows, op)[k])
  {
    EvolvingKeepsBudget(rows[k], OpApply(rows, op)[k]);
  }

  // Under locks too a job stays within its budget, settles for good, keeps its request and its first
  // result, and every status change uses up some of what it has left.
  lemma {:induction false} LockedJobsEvolve(dbs: seq<Db>, actions: seq<Action>, i: nat, k: nat)
    requires IsDbRun(dbs, actions) && i < |dbs| && k < |dbs[i].rows|
    ensures RowOk(dbs[i].rows[k])
    ensures i + 1 < |dbs| ==>
              && k < |dbs[i+1].rows| && Evolves(dbs[i].rows[k], dbs[i+1].rows[k])
              && ChangesLeft(dbs[i+1].rows[k]) <= ChangesLeft(dbs[i].rows[k])
              && (dbs[i+1].rows[k].status != dbs[i].rows[k].status ==>
                    ChangesLeft(dbs[i+1].rows[k]) < ChangesLeft(dbs[i].rows[k]))
  {
    if i > 0 {
      var d, x := dbs[i-1], actions[i-1];
      assert DbStep(d, x, dbs[i]);
      if k < |d.rows| {
        LockedJobsEvolve(dbs, actions, i - 1, k);
        LockedStep(dbs, actions, i - 1, k);
      } else {
        assert x.Insert?;
      }
    }
    if i + 1 < |dbs| {
      LockedStep(dbs, actions, i, k);
      EvolvingKeepsBudget(dbs[i].rows[k], dbs[i+1].rows[k]);
    }
  }

  lemma LockedStep(dbs: seq<Db>, actions: seq<Action>, i: nat, k: nat)
    requires IsDbRun(dbs, actions) && i < |actions| && k < |dbs[i].rows| && RowOk(dbs[i].rows[k])
    ensures k < |dbs[i+1].rows| && Evolves(dbs[i].rows[k], dbs[i+1].rows[k]) && RowOk(dbs[i+1].rows[k])
  {
    DbRunOk(dbs, actions, i);
    assert DbStep(dbs[i], actions[i], dbs[i+1]);
    CommitIsAtomic(dbs[i], actions[i]);
    if EffectOf(dbs[i], actions[i]).Some? {
      OpEvolves(dbs[i].rows, EffectOf(dbs[i], actions[i]).value, k);
    }
  }

  // ----- Which row a claim takes -----

  // The select that took the lock of a claim in flight.
  lemma {:induction false} ClaimBegan(dbs: seq<Db>, actions: seq<Action>, j: nat, t: nat) returns (i: nat)
    requires IsDbRun(dbs, actions) && j < |dbs| && t < |dbs[j].txns| && dbs[j].txns[t].Claiming?
    ensures i < j && t < |dbs[i].txns| && actions[i] == SelectOldest(t, Some(dbs[j].txns[t].row))
    ensures OldestUnlocked(dbs[i], dbs[j].txns[t].row)
  {
    assert j > 0;
    assert DbStep(dbs[j-1], actions[j-1], dbs[j]);
    OtherTxnsStay(dbs[j-1], actions[j-1]);
    if dbs[j-1].txns[t] == dbs[j].txns[t] {
      i := ClaimBegan(dbs, actions, j - 1, t);
    } else {
      i := j - 1;
    }
  }

  lemma {:induction false} RowsKeepCreation(dbs: seq<Db>, actions: seq<Action>, i: nat, j: nat, k: nat)
    requires IsDbRun(dbs, actions) && i <= j < |dbs| && k < |dbs[i].rows|
    ensures k < |dbs[j].rows| && dbs[j].rows[k].createdAt == dbs[i].rows[k].createdAt
    decreases j
  {
    if i < j {
      RowsKeepCreation(dbs, actions, i, j - 1, k);
      LockedJobsEvolve(dbs, actions, j - 1, k);
    }
  }

  // A claim in flight holds a row that was, when it was selected, claimable, free and no younger than any
  // other such row. So every older row that is claimable when the claim commits was locked then, or not
  // claimable then.
  lemma ClaimTakesOldestUnlocked(dbs: seq<Db>, actions: seq<Action>, j: nat, t: nat) returns (i: nat)
    requires IsDbRun(dbs, actions) && j < |dbs| && t < |dbs[j].txns| && dbs[j].txns[t].Claiming?
    ensures i < j && actions[i] == SelectOldest(t, Some(dbs[j].txns[t].row))
             && OldestUnlocked(dbs[i], dbs[j].txns[t].row)
    ensures dbs[j].txns[t].row < |dbs[j].rows|
    ensures forall r: nat ::
              r < |dbs[j].rows| && dbs[j].rows[r].createdAt < dbs[j].rows[dbs[j].txns[t].row].createdAt ==>
              r >= |dbs[i].rows| || !Claimable(dbs[i].rows[r]) || Locked(dbs[i], r)
  {
    i := ClaimBegan(dbs, actions, j, t);
    var row := dbs[j].txns[t].row;
    RowsKeepCreation(dbs, actions, i, j, row);
    forall r: nat | r < |dbs[j].rows| && dbs[j].rows[r].createdAt < dbs[j].rows[row].createdAt
      ensures r >= |dbs[i].rows| || !Claimable(dbs[i].rows[r]) || Locked(dbs[i], r)
    {
      if r < |dbs[i].rows| { RowsKeepCreation(dbs, actions, i, j, r); }
    }
  }
}
