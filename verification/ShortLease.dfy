/** What a lease shorter than the task's hard limit breaks, and what it does not. */
module ShortLease {
  import opened Options
  import opened StagePlans
  import opened RunRows
  import opened LeaseProtocol
  import opened LeaseInvariant
  import opened Numbering
  import opened LeaseTheorems
  import opened StaleGiveUp

  ghost predicate OneLiveWorker(c: Settings, s: State) {
    forall j, k :: Live(c, s, j) && Live(c, s, k) ==> j == k
  }

  /** The lease may lapse while the task that holds it still runs. */
  predicate TooShort(c: Settings) { 0 <= c.hardLimitSeconds && c.leaseSeconds < c.hardLimitSeconds }

  /** A moment at which a lease taken at 0 has lapsed and its task is still alive. */
  function Lapse(c: Settings): nat { if c.leaseSeconds < 0 then 0 else c.leaseSeconds + 1 }

  // ----------------------------------------------------------- two workers at once

  /** A claim whose lease lapses while its task may still run. */
  lemma LapsedWhileAlive(c: Settings) returns (h: History)
    requires TooShort(c)
    ensures IsHistory(c, h) && GiveUpsAreCurrent(h) && Last(h).scans == []
    ensures var s := Last(h);
      && s.now == Lapse(c) && |s.workers| == 1
      && s.workers[0].started == 0 && s.workers[0].pc == Claimed
      && s.run.row.status == In(FIRST_STAGE) && s.run.row.attempt == 1
      && s.run.row.lease == Some(c.leaseSeconds)
  {
    h := History([State(0, NewRun(0), [], [])], []);
    h := Extend(c, h, StartTask(true));
    h := Extend(c, h, TryClaim(0, 0));
    h := Extend(c, h, Tick(Lapse(c)));
  }

  /** The reconciler requeues the run from under its worker. */
  lemma RequeuedWhileAlive(c: Settings) returns (h: History)
    requires TooShort(c) && c.maxAttempts >= 2
    ensures IsHistory(c, h) && GiveUpsAreCurrent(h)
    ensures var s := Last(h);
      && s.now == Lapse(c) && |s.workers| == 1
      && s.workers[0].started == 0 && s.workers[0].pc == Claimed
      && s.run.row.status == InQueue && s.run.row.attempt == 2
  {
    h := LapsedWhileAlive(c);
    var now := Last(h).now;
    h := Extend(c, h, ScanRun(now));
    h := Extend(c, h, RecoverRequeue(0, now));
  }

  /** A second task claims the run while the first one is still inside its hard limit. */
  lemma TwoWorkers(c: Settings) returns (h: History)
    requires TooShort(c) && c.maxAttempts >= 2
    ensures IsHistory(c, h) && GiveUpsAreCurrent(h)
    ensures Live(c, Last(h), 0) && Live(c, Last(h), 1)
  {
    h := RequeuedWhileAlive(c);
    var now := Last(h).now;
    h := Extend(c, h, StartTask(true));
    h := Extend(c, h, TryClaim(1, now));
  }

  // -------------------------------------------------------- one attempt, one worker

  /** With a single attempt the run leaves the queue once, whatever the lease. */
  ghost predicate OneClaim(c: Settings, s: State) {
    && (s.run.row.status == InQueue ==> forall i :: 0 <= i < |s.workers| ==> !Executing(s.workers[i].pc))
    && (forall i, j :: 0 <= i < j < |s.workers| ==> !(Executing(s.workers[i].pc) && Executing(s.workers[j].pc)))
    && (forall i :: 0 <= i < |s.workers| ==> OneTry(s.run.row, s.workers[i]))
    && ScansOld(s)
    && (c.maxAttempts == 1 && s.run.row.status != InQueue ==> s.run.row.attempt >= 1)
  }

  /** Nobody may retry when there is one attempt, and its number is everybody's. */
  predicate OneTry(row: Row, w: Worker) {
    !w.pc.Retrying? && (Executing(w.pc) && !w.pc.Claimed? ==> w.attempt == row.attempt)
  }

  lemma OneTryStep(c: Settings, now: int, run: Run, w: Worker, a: Action)
    requires a.ByWorker() && WorkerEnabled(c, now, w, a) && OneTry(run.row, w) && c.maxAttempts <= 1
    requires c.maxAttempts == 1 && Executing(w.pc) ==> run.row.attempt >= 1
    ensures var (run', w') := WorkerStep(c, now, run, w, a);
      && OneTry(run'.row, w') && (Executing(w'.pc) ==> Executing(w.pc) || (a.TryClaim? && run.row.status == InQueue))
      && (run'.row.status == InQueue ==> run.row.status == InQueue)
      && (a.TryClaim? && run.row.status == InQueue && Executing(w'.pc) ==> run'.row.status != InQueue)
      && (run'.row.attempt != run.row.attempt ==> run.row.status == InQueue && a.TryClaim?)
  {
  }

  lemma OneClaimWorkerStep(c: Settings, s: State, a: Action)
    requires OneClaim(c, s) && NumbersOK(c, s) && c.maxAttempts <= 1 && Enabled(c, s, a) && a.ByWorker()
    ensures OneClaim(c, Next(c, s, a))
  {
    OneTryStep(c, s.now, s.run, s.workers[a.w], a);
    StepAttempts(c, s, a);
  }

  lemma OneClaimStep(c: Settings, s: State, a: Action)
    requires OneClaim(c, s) && NumbersOK(c, s) && c.maxAttempts <= 1 && Enabled(c, s, a)
    ensures OneClaim(c, Next(c, s, a))
  {
    if a.ByWorker() { OneClaimWorkerStep(c, s, a); }
  }

  lemma {:induction false} OneClaimAlways(c: Settings, h: History, i: nat)
    requires IsHistory(c, h) && i < |h.states| && c.maxAttempts <= 1
    ensures OneClaim(c, h.states[i])
  {
    if i > 0 {
      OneClaimAlways(c, h, i - 1);
      NumbersAlways(c, h, i - 1);
      OneClaimStep(c, h.states[i - 1], h.actions[i - 1]);
    }
  }

  // ------------------------------------------------------- exactly the long leases

  /** The lease is at least as long as the hard limit, or one attempt is all there is, or no
      task may run at all. */
  predicate Suffices(c: Settings) {
    c.leaseSeconds >= c.hardLimitSeconds || c.maxAttempts <= 1 || c.hardLimitSeconds < 0
  }

  lemma OneLiveAlways(c: Settings, h: History, i: nat)
    requires Suffices(c) && IsHistory(c, h) && i < |h.states|
    ensures OneLiveWorker(c, h.states[i])
  {
    if c.maxAttempts <= 1 {
      OneClaimAlways(c, h, i);
    } else if c.hardLimitSeconds < 0 {
      StartedBefore(c, h, i);
    } else {
      MutualExclusion(c, h, i);
    }
  }

  /** Mutual exclusion holds in every history, stale give-ups included, exactly when the lease
      suffices. The settings validator asks for one second more than is needed. */
  lemma MutualExclusionExactly(c: Settings)
    ensures (forall h: History, i: nat :: IsHistory(c, h) && i < |h.states| ==> OneLiveWorker(c, h.states[i]))
            <==> Suffices(c)
    ensures c.Valid() ==> c.leaseSeconds >= c.hardLimitSeconds
  {
    if Suffices(c) {
      forall h: History, i: nat | IsHistory(c, h) && i < |h.states| ensures OneLiveWorker(c, h.states[i]) {
        OneLiveAlways(c, h, i);
      }
    } else {
      var h := TwoWorkers(c);
      assert Last(h) == h.states[|h.states| - 1];
      assert !OneLiveWorker(c, h.states[|h.states| - 1]);
    }
  }

  /** What a worker commits, it commits under the row's current number. */
  predicate OwnCommit(h: History, i: nat)
    requires i < |h.actions| && |h.states| == |h.actions| + 1
  {
    WorkerCommits(h, i) ==>
      h.actions[i].w < |h.states[i].workers|
      && h.states[i].workers[h.actions[i].w].attempt == h.states[i].run.row.attempt
  }

  lemma CommitsOwnAlways(c: Settings, h: History, i: nat)
    requires Suffices(c) && IsHistory(c, h) && i < |h.actions|
    ensures OwnCommit(h, i)
  {
    assert Enabled(c, h.states[i], h.actions[i]);
    if WorkerCommits(h, i) {
      if c.maxAttempts <= 1 {
        OneClaimAlways(c, h, i);
      } else if c.hardLimitSeconds < 0 {
        StartedBefore(c, h, i);
      } else {
        EveryCommitIsOwn(c, h, i);
      }
    }
  }

  // --------------------------------------------------- what no fence stands before

  /** A worker that has claimed and loaded the run. */
  lemma LoadedWorker(c: Settings) returns (h: History)
    requires TooShort(c)
    ensures Proper(c, h)
    ensures var s := Last(h);
      && s.now == 0 && s.workers == [Worker(0, DETERMINISTIC_STAGE_PLAN, 1, Loaded)] && s.scans == []
      && s.run == Claim(NewRun(0), c.leaseSeconds)
  {
    h := History([State(0, NewRun(0), [], [])], []);
    h := Proceed(c, h, StartTask(false));
    h := Proceed(c, h, TryClaim(0, 0));
    assert Last(h).workers == [Worker(0, DETERMINISTIC_STAGE_PLAN, 0, Claimed)];
    h := Proceed(c, h, Load(0));
  }

  ghost predicate Proper(c: Settings, h: History) { IsHistory(c, h) && GiveUpsAreCurrent(h) }

  lemma Proceed(c: Settings, h: History, a: Action) returns (h': History)
    requires Proper(c, h) && Enabled(c, Last(h), a) && !a.RecoverGiveUp?
    ensures Proper(c, h') && Last(h') == Next(c, Last(h), a)
    ensures h'.states == h.states + [Last(h')] && h'.actions == h.actions + [a]
  {
    h' := Extend(c, h, a);
  }

  /** Its lease lapses and the run is requeued, as the last step. */
  lemma Supersede(c: Settings, h: History) returns (h': History)
    requires TooShort(c) && c.maxAttempts >= 2 && Proper(c, h)
    requires Last(h).now == 0 && Last(h).scans == [] && Last(h).run.row.attempt == 1
    requires Last(h).run.row.status.In? && Last(h).run.row.lease == Some(c.leaseSeconds)
    ensures Proper(c, h') && |h'.states| >= 2 && h'.states[|h'.states| - 2].run.row.attempt == 1
    ensures var s, s' := Last(h), Last(h');
      && s'.now == Lapse(c) && s'.workers == s.workers && |s'.scans| == 1
      && s'.run == Requeue(s.run, Lapse(c) + c.graceSeconds)
  {
    h' := Proceed(c, h, Tick(Lapse(c)));
    h' := Proceed(c, h', ScanRun(Lapse(c)));
    h' := Proceed(c, h', RecoverRequeue(0, Lapse(c)));
  }

  /** A commit of a worker whose number was out of date already at step `j`. */
  predicate StaleCommit(h: History, j: nat, i: nat)
    requires |h.states| == |h.actions| + 1
  {
    && j < i < |h.actions| && h.actions[i].ByWorker() && h.actions[i].w < |h.states[i].workers|
    && h.states[j].run.row.attempt < h.states[j + 1].run.row.attempt
    && h.states[i].workers[h.actions[i].w].attempt < h.states[j + 1].run.row.attempt
    && h.states[i + 1].run != h.states[i].run
  }

  /** Recording the skipped stages and logging an event check no attempt number: under a short
      lease a worker whose number is already out of date still commits both. */
  lemma UnguardedCommits(c: Settings) returns (h: History, j: nat, i: nat, k: nat)
    requires TooShort(c) && c.maxAttempts >= 2
    ensures Proper(c, h) && StaleCommit(h, j, i) && StaleCommit(h, j, k)
    ensures h.actions[i].StoreSkipped? && h.actions[k].InsertEvent?
  {
    h := LoadedWorker(c);
    h := Supersede(c, h);
    j, i := |h.actions| - 1, |h.actions|;
    var stale := h;
    h := Proceed(c, h, StoreSkipped(0));
    assert Last(h).run.row.skipped == [Simulating] && Last(stale).run.row.skipped == [];
    assert StaleCommit(h, j, i);
    h, k := LogAnyway(c, h, j, i);
  }

  lemma LogAnyway(c: Settings, h: History, j: nat, i: nat) returns (h': History, k: nat)
    requires Proper(c, h) && StaleCommit(h, j, i) && h.actions[i].StoreSkipped?
    requires Last(h).run.log == [] && |Last(h).workers| == 1 && Alive(c, Last(h).now, Last(h).workers[0])
    requires Last(h).workers[0].pc.Announcing? && Last(h).workers[0].attempt < h.states[j + 1].run.row.attempt
    ensures Proper(c, h') && StaleCommit(h', j, i) && StaleCommit(h', j, k)
    ensures h'.actions[i].StoreSkipped? && h'.actions[k].InsertEvent?
  {
    h' := Proceed(c, h, ReadSequence(0));
    k := |h'.actions|;
    assert Last(h').workers[0].pc.Inserting? && Last(h').run.log == [];
    var before := h';
    h' := Proceed(c, h', InsertEvent(0));
    assert |Last(h').run.log| == 1;
    assert h'.states[k] == Last(before) && h'.states[k + 1] == Last(h');
  }

  /** Every commit of every worker, the skipped stages, the events and a failure written late
      included, carries the row's current number in every history exactly when the lease
      suffices: the attempt number does not fence them, the lease does. */
  lemma CommitsAreOwnExactly(c: Settings)
    ensures (forall h: History, i: nat :: IsHistory(c, h) && i < |h.actions| ==> OwnCommit(h, i)) <==> Suffices(c)
  {
    if Suffices(c) {
      forall h: History, i: nat | IsHistory(c, h) && i < |h.actions| ensures OwnCommit(h, i) {
        CommitsOwnAlways(c, h, i);
      }
    } else {
      var h, j, i, k := UnguardedCommits(c);
      AttemptsNeverFall(c, h, j + 1, i);
      assert WorkerCommits(h, i) && !OwnCommit(h, i);
    }
  }

  /** A worker in the middle of `_fail`: the row is read again, the write is pending. */
  lemma FailingWorker(c: Settings) returns (h: History)
    requires TooShort(c)
    ensures Proper(c, h) && |Last(h).workers| == 1 && Last(h).scans == [] && Last(h).now == 0
    ensures var w, row := Last(h).workers[0], Last(h).run.row;
      && w.started == 0 && w.pc.Failing? && w.attempt == 1
      && row.attempt == 1 && row.status.In? && row.lease == Some(c.leaseSeconds)
    ensures Last(h).run.log == [] && Last(h).run.data == []
  {
    h := LoadedWorker(c);
    h := Proceed(c, h, StoreSkipped(0));
    assert Last(h).workers[0].pc.Announcing?;
    h := Proceed(c, h, ReadForFailure(0));
  }

  /** So does a failure whose check came before the requeue and whose write came after: the
      check and the write of `_fail` must be one step, or the lease long enough. */
  lemma SplitFailureUnguarded(c: Settings) returns (h: History, j: nat, i: nat)
    requires TooShort(c) && c.maxAttempts >= 2
    ensures Proper(c, h) && StaleCommit(h, j, i)
    ensures h.actions[i].WriteFailure? && h.states[i].run.row.status == InQueue
    ensures h.states[i + 1].run.row.status == Failed
  {
    h := FailingWorker(c);
    h := Supersede(c, h);
    j, i := |h.actions| - 1, |h.actions|;
    var before := h;
    h := Proceed(c, h, WriteFailure(0, []));
    assert h.states[i] == Last(before) && h.states[i + 1] == Last(h);
  }
}
