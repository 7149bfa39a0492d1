/** What a stale give-up leaves standing: it can overwrite a run only on its last attempt,
    where nothing is ever requeued or claimed again. */
module LastAttempt {
  import opened Options
  import opened StagePlans
  import opened RunRows
  import opened LeaseProtocol
  import opened LeaseInvariant
  import opened Numbering

  /** An event that follows a terminal commit is pending. */
  predicate Closing(pc: Pc) {
    (pc.Announcing? || pc.Inserting?) && Terminal(pc.note.status)
  }

  /** A live worker holds the row's number, and a lease that is set outlasts it. */
  predicate Holds(c: Settings, row: Row, w: Worker) {
    && (!w.pc.Claimed? ==> w.attempt == row.attempt)
    && (row.lease.Some? ==> row.lease.value >= w.started + c.hardLimitSeconds)
    && (Closing(w.pc) ==> Terminal(row.status))
  }

  predicate LateWorker(c: Settings, now: int, row: Row, w: Worker) {
    w.started <= now && (Executing(w.pc) && Alive(c, now, w) ==> Holds(c, row, w))
  }

  /** The invariant from the first stale give-up on. */
  ghost predicate Late(c: Settings, s: State) {
    && s.run.row.attempt >= c.maxAttempts && s.run.row.status != InQueue
    && AtMostOneLive(c, s)
    && forall i :: 0 <= i < |s.workers| ==> LateWorker(c, s.now, s.run.row, s.workers[i])
  }

  // ----------------------------------------------------------------- it is reached

  lemma GiveUpIsLate(c: Settings, s: State, scan: nat)
    requires Inv(c, s) && Enabled(c, s, RecoverGiveUp(scan)) && ScansOld(s)
    ensures Late(c, Next(c, s, RecoverGiveUp(scan)))
  {
    var s' := Next(c, s, RecoverGiveUp(scan));
    forall j, k | Live(c, s', j) && Live(c, s', k) ensures j == k {
      assert Live(c, s, j) && Live(c, s, k);
    }
    forall i | 0 <= i < |s'.workers| ensures LateWorker(c, s'.now, s'.run.row, s'.workers[i]) {
      assert WorkerOK(c, s.now, s.run, s.workers[i]);
    }
  }

  // -------------------------------------------------------------------- it is kept

  /** A worker's own step: it claims and requeues nothing, and goes on holding the row. */
  lemma LateWorkerStep(c: Settings, now: int, run: Run, w: Worker, a: Action)
    requires c.Outlives() && a.ByWorker() && WorkerEnabled(c, now, w, a) && Alive(c, now, w)
    requires run.row.attempt >= c.maxAttempts && run.row.status != InQueue && LateWorker(c, now, run.row, w)
    requires w.pc.Retrying? ==> w.pc.seen.attempt < c.maxAttempts
    ensures var (run', w') := WorkerStep(c, now, run, w, a);
      && run'.row.attempt == run.row.attempt && run'.row.status != InQueue
      && LateWorker(c, now, run'.row, w') && (Executing(w'.pc) ==> Executing(w.pc))
      && (run'.row != run.row ==> Executing(w.pc))
  {
  }

  lemma LateByWorker(c: Settings, s: State, a: Action)
    requires c.Outlives() && Late(c, s) && NumbersOK(c, s) && Enabled(c, s, a) && a.ByWorker()
    ensures Late(c, Next(c, s, a))
  {
    var s', w := Next(c, s, a), s.workers[a.w];
    LateWorkerStep(c, s.now, s.run, w, a);
    forall i | 0 <= i < |s'.workers| ensures LateWorker(c, s'.now, s'.run.row, s'.workers[i]) {
      assert LateWorker(c, s.now, s.run.row, s.workers[i]);
      if i != a.w && s'.run.row != s.run.row { assert Live(c, s, a.w) && !Live(c, s, i); }
    }
    forall j, k | Live(c, s', j) && Live(c, s', k) ensures j == k {
      assert Live(c, s, j) && Live(c, s, k);
    }
  }

  lemma LateStep(c: Settings, s: State, a: Action)
    requires c.Outlives() && Late(c, s) && NumbersOK(c, s) && Enabled(c, s, a)
    ensures Late(c, Next(c, s, a))
  {
    var s' := Next(c, s, a);
    if a.ByWorker() {
      LateByWorker(c, s, a);
    } else {
      forall j, k | Live(c, s', j) && Live(c, s', k) ensures j == k {
        assert Live(c, s, j) && Live(c, s, k);
      }
    }
  }

  /** Every reachable state under a lease that is long enough, stale give-ups included. */
  lemma {:induction false} AlwaysHeld(c: Settings, h: History, i: nat)
    requires c.Outlives() && IsHistory(c, h) && i < |h.states|
    ensures Inv(c, h.states[i]) || Late(c, h.states[i])
  {
    if i == 0 {
      InitialInv(c, h.states[0]);
    } else {
      AlwaysHeld(c, h, i - 1);
      HeldStep(c, h, i - 1);
    }
  }

  lemma HeldStep(c: Settings, h: History, i: nat)
    requires c.Outlives() && IsHistory(c, h) && i < |h.actions|
    requires Inv(c, h.states[i]) || Late(c, h.states[i])
    ensures Inv(c, h.states[i]) && Current(h.states[i], h.actions[i]) ==> Inv(c, h.states[i + 1])
    ensures Inv(c, h.states[i]) && !Current(h.states[i], h.actions[i]) ==> Late(c, h.states[i + 1])
    ensures Late(c, h.states[i]) ==> Late(c, h.states[i + 1])
  {
    var s, a := h.states[i], h.actions[i];
    if Inv(c, s) && Current(s, a) {
      StepKeeps(c, s, a);
    } else if Inv(c, s) {
      ScansAreOld(c, h, i);
      GiveUpIsLate(c, s, a.scan);
    }
    if Late(c, s) {
      NumbersAlways(c, h, i);
      LateStep(c, s, a);
    }
  }
}
