/** `discard_attempt` deletes what an aborted attempt stored, inside every requeue. Exactly
    when it never has anything to delete. */
module Discards {
  import opened Options
  import opened StagePlans
  import opened RunRows
  import opened LeaseProtocol
  import opened LeaseInvariant
  import opened Numbering
  import opened LastAttempt
  import opened LeaseTheorems
  import opened StaleGiveUp
  import opened ShortLease

  predicate DeletesNothing(h: History, i: nat)
    requires i < |h.actions| && |h.states| == |h.actions| + 1
  {
    h.actions[i].RecoverRequeue? || h.actions[i].RequeueForRetry? ==>
      h.states[i + 1].run.data == h.states[i].run.data
  }

  // ------------------------------------------------------- at most two attempts

  /** Until the last attempt is reserved there was one claim, and rows are stored only by the
      commit that ends the run. */
  ghost predicate Undisturbed(s: State) {
    && (s.run.row.status != InQueue ==> s.run.row.attempt >= 1)
    && (s.run.row.status == InQueue ==>
          s.run.data == [] && forall i :: 0 <= i < |s.workers| ==> !Executing(s.workers[i].pc))
    && (forall i, j :: 0 <= i < j < |s.workers| ==> !(Executing(s.workers[i].pc) && Executing(s.workers[j].pc)))
    && (s.run.data != [] ==>
          Terminal(s.run.row.status)
          && forall i :: 0 <= i < |s.workers| && Executing(s.workers[i].pc) ==> Closing(s.workers[i].pc))
  }

  ghost predicate EarlyUndisturbed(c: Settings, s: State) {
    s.run.row.attempt < c.maxAttempts ==> Undisturbed(s)
  }

  lemma UndisturbedWorker(c: Settings, now: int, run: Run, w: Worker, a: Action)
    requires c.maxAttempts <= 2 && a.ByWorker() && WorkerEnabled(c, now, w, a)
    requires WorkerStep(c, now, run, w, a).0.row.attempt < c.maxAttempts
    requires run.row.status != InQueue ==> run.row.attempt >= 1
    requires run.row.status == InQueue ==> run.data == [] && !Executing(w.pc)
    requires run.row.status == InQueue && run.row.lease.Some? ==> run.row.attempt >= 1
    requires run.data != [] ==> Terminal(run.row.status) && (Executing(w.pc) ==> Closing(w.pc))
    ensures var (run', w') := WorkerStep(c, now, run, w, a);
      && (run'.row.status != InQueue ==> run'.row.attempt >= 1)
      && (run'.row.status == InQueue ==> run == run' && !Executing(w'.pc))
      && (Executing(w'.pc) ==> Executing(w.pc) || run.row.status == InQueue)
      && (run'.data != [] ==> Terminal(run'.row.status) && (Executing(w'.pc) ==> Closing(w'.pc)))
      && (run'.data != run.data ==> Executing(w.pc))
  {
  }

  lemma UndisturbedByWorker(c: Settings, s: State, a: Action)
    requires c.maxAttempts <= 2 && Undisturbed(s) && NumbersOK(c, s) && Enabled(c, s, a) && a.ByWorker()
    requires Next(c, s, a).run.row.attempt < c.maxAttempts
    ensures Undisturbed(Next(c, s, a))
  {
    UndisturbedWorker(c, s.now, s.run, s.workers[a.w], a);
  }

  lemma UndisturbedOtherwise(c: Settings, s: State, a: Action)
    requires c.maxAttempts <= 2 && Undisturbed(s) && ScansOld(s) && Enabled(c, s, a) && !a.ByWorker()
    requires Next(c, s, a).run.row.attempt < c.maxAttempts
    ensures Undisturbed(Next(c, s, a))
  {
  }

  lemma UndisturbedStep(c: Settings, s: State, a: Action)
    requires c.maxAttempts <= 2 && EarlyUndisturbed(c, s) && ScansOld(s) && NumbersOK(c, s)
    requires Enabled(c, s, a)
    ensures EarlyUndisturbed(c, Next(c, s, a))
  {
    StepAttempts(c, s, a);
    if Next(c, s, a).run.row.attempt < c.maxAttempts {
      if a.ByWorker() { UndisturbedByWorker(c, s, a); } else { UndisturbedOtherwise(c, s, a); }
    }
  }

  lemma {:induction false} UndisturbedAlways(c: Settings, h: History, i: nat)
    requires c.maxAttempts <= 2 && IsHistory(c, h) && i < |h.states|
    ensures EarlyUndisturbed(c, h.states[i])
  {
    if i > 0 {
      UndisturbedAlways(c, h, i - 1);
      ScansAreOld(c, h, i - 1);
      NumbersAlways(c, h, i - 1);
      UndisturbedStep(c, h.states[i - 1], h.actions[i - 1]);
    }
  }

  /** No task may run: nobody stores anything. */
  lemma {:induction false} NobodyStores(c: Settings, h: History, i: nat)
    requires c.hardLimitSeconds < 0 && IsHistory(c, h) && i < |h.states|
    ensures h.states[i].run.data == []
  {
    if i > 0 {
      NobodyStores(c, h, i - 1);
      StartedBefore(c, h, i - 1);
      assert Enabled(c, h.states[i - 1], h.actions[i - 1]);
    }
  }

  lemma NothingToDelete(c: Settings, h: History, i: nat)
    requires c.leaseSeconds >= c.hardLimitSeconds || c.maxAttempts <= 2 || c.hardLimitSeconds < 0
    requires IsHistory(c, h) && i < |h.actions|
    ensures DeletesNothing(h, i)
  {
    NumbersAlways(c, h, i);
    if c.maxAttempts <= 2 {
      UndisturbedAlways(c, h, i);
    } else if c.hardLimitSeconds < 0 {
      NobodyStores(c, h, i);
      NobodyStores(c, h, i + 1);
    } else if h.actions[i].RecoverRequeue? || h.actions[i].RequeueForRetry? {
      DiscardDeletesNothing(c, h, i);
    }
  }

  // ---------------------------------------------------- a third attempt deletes

  /** A failing worker is superseded; its successor claims the run and enters a stage. */
  lemma SuccessorStarts(c: Settings) returns (h: History)
    requires TooShort(c) && c.maxAttempts >= 2
    ensures Proper(c, h) && |Last(h).workers| == 2 && |Last(h).scans| == 1 && Last(h).now == Lapse(c)
    ensures var s := Last(h);
      && s.workers[0].pc.Failing? && s.workers[0].attempt == 1 && s.workers[0].started == 0
      && s.workers[1] == Worker(Lapse(c), DETERMINISTIC_STAGE_PLAN, 2, Loaded)
      && s.run.row.attempt == 2 && s.run.row.status.In? && s.run.log == [] && s.run.data == []
  {
    h := FailingWorker(c);
    h := Supersede(c, h);
    h := Proceed(c, h, StartTask(false));
    h := Proceed(c, h, TryClaim(1, Lapse(c)));
    assert Last(h).workers[1].pc.Claimed?;
    h := Proceed(c, h, Load(1));
  }

  lemma SuccessorEmits(c: Settings) returns (h: History)
    requires TooShort(c) && c.maxAttempts >= 2
    ensures Proper(c, h) && |Last(h).workers| == 2 && |Last(h).scans| == 1 && Last(h).now == Lapse(c)
    ensures var s, w := Last(h), Last(h).workers[1];
      && s.workers[0].pc.Failing? && s.workers[0].attempt == 1 && s.workers[0].started == 0
      && w.started == Lapse(c) && w.plan == DETERMINISTIC_STAGE_PLAN && w.attempt == 2
      && w.pc == Inserting(StageNote(w.plan, 1), 1, 1)
      && s.run.row.attempt == 2 && s.run.row.status.In? && s.run.log == [] && s.run.data == []
  {
    h := SuccessorStarts(c);
    h := Proceed(c, h, StoreSkipped(1));
    assert Last(h).workers[1].pc.Announcing? && Last(h).run.log == [];
    h := Proceed(c, h, ReadSequence(1));
  }

  lemma SuccessorWorks(c: Settings) returns (h: History)
    requires TooShort(c) && c.maxAttempts >= 2
    ensures Proper(c, h) && |Last(h).workers| == 2 && |Last(h).scans| == 1 && Last(h).now == Lapse(c)
    ensures var s := Last(h);
      && s.workers[0].pc.Failing? && s.workers[0].attempt == 1 && s.workers[0].started == 0
      && s.workers[1] == Worker(Lapse(c), DETERMINISTIC_STAGE_PLAN, 2, At(1))
      && s.run.row.attempt == 2 && s.run.row.status.In? && s.run.data == []
  {
    h := SuccessorEmits(c);
    h := Proceed(c, h, InsertEvent(1));
  }

  /** The superseded worker stores its trace with its failure, and the successor, entering its
      next stage, makes the run a working one again. */
  lemma TraceOnWorkingRun(c: Settings) returns (h: History)
    requires TooShort(c) && c.maxAttempts >= 2
    ensures Proper(c, h) && |Last(h).scans| == 1 && Last(h).now == Lapse(c)
    ensures var run := Last(h).run;
      run.data != [] && run.row.attempt == 2 && run.row.status.In? && run.row.lease == Some(Lapse(c) + c.leaseSeconds)
  {
    h := SuccessorWorks(c);
    var batch := [TraceRow(1)];
    h := Proceed(c, h, WriteFailure(0, batch));
    assert Last(h).run.data == batch && Last(h).workers[1].pc == At(1);
    h := Proceed(c, h, EnterNext(1, Lapse(c)));
  }

  /** When the successor's lease lapses too, the requeue deletes that trace. */
  lemma RequeueDeletes(c: Settings) returns (h: History, i: nat)
    requires TooShort(c) && c.maxAttempts >= 3
    ensures Proper(c, h) && i < |h.actions| && !DeletesNothing(h, i)
  {
    h := TraceOnWorkingRun(c);
    var now := Lapse(c) + Lapse(c);
    h := Proceed(c, h, Tick(Lapse(c)));
    h := Proceed(c, h, ScanRun(now));
    var before := h;
    i := |h.actions|;
    h := Proceed(c, h, RecoverRequeue(1, now));
    assert h.states[i] == Last(before) && h.states[i + 1] == Last(h) && h.actions[i] == RecoverRequeue(1, now);
  }

  /** In every history no requeue deletes a row, exactly when the lease is as long as the hard
      limit, or no third attempt is allowed, or no task may run. */
  lemma DiscardsNothingExactly(c: Settings)
    ensures (forall h: History, i: nat :: IsHistory(c, h) && i < |h.actions| ==> DeletesNothing(h, i))
            <==> c.leaseSeconds >= c.hardLimitSeconds || c.maxAttempts <= 2 || c.hardLimitSeconds < 0
  {
    if c.leaseSeconds >= c.hardLimitSeconds || c.maxAttempts <= 2 || c.hardLimitSeconds < 0 {
      forall h: History, i: nat | IsHistory(c, h) && i < |h.actions| ensures DeletesNothing(h, i) {
        NothingToDelete(c, h, i);
      }
    } else {
      var h, i := RequeueDeletes(c);
      assert !DeletesNothing(h, i);
    }
  }
}
