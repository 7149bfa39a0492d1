/** Recovery is bounded: what is left to do falls with every change of the row. */
module BoundedRecovery {
  import opened Options
  import opened StagePlans
  import opened RunRows
  import opened LeaseProtocol
  import opened LeaseInvariant
  import opened Numbering
  import opened LastAttempt
  import opened LeaseTheorems

  /** What is left to do: attempts first, then stages of the current attempt. */
  function Remaining(c: Settings, row: Row): nat {
    if Terminal(row.status) then 0
    else if row.attempt > c.maxAttempts then 0
    else 10 * (c.maxAttempts - row.attempt)
         + (if row.status.In? then 8 - Rank(row.status.stage) else 9)
  }

  /** The columns every guard reads; only recording the skipped stages leaves them alone. */
  predicate Effective(row: Row, row': Row) {
    row'.status != row.status || row'.attempt != row.attempt || row'.lease != row.lease
  }

  ghost predicate Progresses(c: Settings, row: Row, row': Row) {
    && Remaining(c, row') <= Remaining(c, row)
    && (Effective(row, row') ==> Remaining(c, row') < Remaining(c, row))
  }

  /** A renewal that moves the run to a later stage. */
  lemma EnterProgresses(c: Settings, now: int, run: Run, w: Worker, a: Action)
    requires Ready(c, now, run, w) && a.EnterNext? && WorkerEnabled(c, now, w, a)
    ensures Progresses(c, run.row, WorkerStep(c, now, run, w, a).0.row)
  {
    EnterNextOK(c, now, run, w, a);
  }

  /** Completing, failing and requeueing. */
  lemma EndProgresses(c: Settings, now: int, run: Run, w: Worker, a: Action)
    requires a.FinishRun? || a.WriteFailure? || a.RequeueForRetry?
    requires Ready(c, now, run, w) && WorkerEnabled(c, now, w, a)
    ensures Progresses(c, run.row, WorkerStep(c, now, run, w, a).0.row)
  {
  }

  lemma WorkerProgresses(c: Settings, now: int, run: Run, w: Worker, a: Action)
    requires Ready(c, now, run, w) && a.ByWorker() && !a.TryClaim? && WorkerEnabled(c, now, w, a)
    ensures Progresses(c, run.row, WorkerStep(c, now, run, w, a).0.row)
  {
    if a.EnterNext? {
      EnterProgresses(c, now, run, w, a);
    } else if a.FinishRun? || a.WriteFailure? || a.RequeueForRetry? {
      EndProgresses(c, now, run, w, a);
    }
  }

  lemma StepProgresses(c: Settings, s: State, a: Action)
    requires c.Outlives() && Inv(c, s) && Enabled(c, s, a) && Current(s, a)
    ensures Progresses(c, s.run.row, Next(c, s, a).run.row)
  {
    if a.ByWorker() && !a.TryClaim? && !a.Stop? {
      assert Live(c, s, a.w);
      LiveReady(c, s, a.w);
      WorkerProgresses(c, s.now, s.run, s.workers[a.w], a);
    }
  }

  lemma HistoryProgresses(c: Settings, h: History, i: nat)
    requires Orderly(c, h) && i < |h.actions|
    ensures Progresses(c, h.states[i].run.row, h.states[i + 1].run.row)
  {
    Reachable(c, h, i);
    StepProgresses(c, h.states[i], h.actions[i]);
  }

  function EffectiveSteps(states: seq<State>): nat {
    if |states| <= 1 then 0
    else EffectiveSteps(states[..|states| - 1])
         + (if Effective(states[|states| - 2].run.row, states[|states| - 1].run.row) then 1 else 0)
  }

  /** Without a stale give-up the row changes at most `10 * maxAttempts + 9` times, however
      long the history and whatever crashes or is delivered twice. */
  lemma {:induction false} OrderlyRecoveryIsBounded(c: Settings, h: History, n: nat)
    requires Orderly(c, h) && n < |h.states|
    ensures EffectiveSteps(h.states[..n + 1]) + Remaining(c, h.states[n].run.row)
            <= 10 * c.maxAttempts + 9
  {
    if n > 0 {
      OrderlyRecoveryIsBounded(c, h, n - 1);
      HistoryProgresses(c, h, n - 1);
      assert h.states[..n + 1][..n] == h.states[..n];
    }
  }

  // ----------------------------------------------------------- with stale give-ups

  function StagesFrom(plan: StagePlan, pos: nat): nat {
    if pos < |plan.stages| then |plan.stages| - pos else 1
  }

  /** The commits a worker may still make on the last attempt: its later stages and its end. */
  function StepsLeft(w: Worker): nat {
    match w.pc
    case Claimed => StagesFrom(w.plan, 1)
    case Loaded => StagesFrom(w.plan, 1)
    case Announcing(_, pos) => if Closing(w.pc) then 0 else StagesFrom(w.plan, pos)
    case Inserting(_, pos, _) => if Closing(w.pc) then 0 else StagesFrom(w.plan, pos)
    case At(pos) => StagesFrom(w.plan, pos)
    case Failing(_) => 1
    case _ => 0
  }

  ghost predicate LiveLeft(c: Settings, s: State, left: nat) {
    forall i :: Live(c, s, i) ==> StepsLeft(s.workers[i]) <= left
  }

  /** Each commit left to the live worker may be overwritten by one more give-up. */
  function Budget(row: Row, left: nat): nat {
    2 * left + if row.status == Failed && row.lease.None? then 0 else 1
  }

  lemma {:induction false} StagesBelowRank(stages: seq<Stage>, pos: nat)
    requires Ascending(stages) && pos < |stages| && stages[|stages| - 1] == ValidatingReport
    ensures |stages| - pos <= 8 - Rank(stages[pos])
    decreases |stages| - pos
  {
    if pos < |stages| - 1 { StagesBelowRank(stages, pos + 1); }
  }

  /** While the invariant holds, a live worker has no more left than the row has. */
  lemma LeftBelowRemaining(c: Settings, s: State, i: nat)
    requires Inv(c, s) && Live(c, s, i) && s.run.row.attempt >= c.maxAttempts
    ensures StepsLeft(s.workers[i]) <= Remaining(c, s.run.row) && StepsLeft(s.workers[i]) <= 7
  {
    var w := s.workers[i];
    assert WorkerOK(c, s.now, s.run, w);
    if Holding(w.pc) {
      LeftFrom(w.plan, 1);
      if w.pc.At? || w.pc.Announcing? || w.pc.Inserting? { LeftFrom(w.plan, w.pc.pos); }
    }
  }

  lemma LeftFrom(plan: StagePlan, pos: nat)
    requires IsPlan(plan) && 1 <= pos < |plan.stages|
    ensures StagesFrom(plan, pos) <= 8 - Rank(plan.stages[pos]) <= 7
  {
    StagesBelowRank(plan.stages, pos);
    assert Rank(plan.stages[pos - 1]) < Rank(plan.stages[pos - 1 + 1]);
  }

  lemma WorkerUsesStep(c: Settings, now: int, run: Run, w: Worker, a: Action)
    requires c.Outlives() && a.ByWorker() && WorkerEnabled(c, now, w, a) && Alive(c, now, w)
    requires run.row.attempt >= c.maxAttempts && run.row.status != InQueue && LateWorker(c, now, run.row, w)
    requires w.pc.Retrying? ==> w.pc.seen.attempt < c.maxAttempts
    ensures var (run', w') := WorkerStep(c, now, run, w, a);
      && StepsLeft(w') <= StepsLeft(w)
      && (Effective(run.row, run'.row) ==> Executing(w.pc) && StepsLeft(w') < StepsLeft(w))
  {
  }

  lemma LateProgresses(c: Settings, s: State, a: Action, left: nat) returns (left': nat)
    requires c.Outlives() && Late(c, s) && NumbersOK(c, s) && Enabled(c, s, a) && LiveLeft(c, s, left)
    ensures var s' := Next(c, s, a);
      && LiveLeft(c, s', left')
      && Budget(s'.run.row, left') + (if Effective(s.run.row, s'.run.row) then 1 else 0) <= Budget(s.run.row, left)
  {
    var s' := Next(c, s, a);
    left' := left;
    if a.ByWorker() {
      var w := s.workers[a.w];
      WorkerUsesStep(c, s.now, s.run, w, a);
      LateWorkerStep(c, s.now, s.run, w, a);
      if Effective(s.run.row, s'.run.row) {
        assert Live(c, s, a.w);
        left' := left - 1;
      }
    }
    forall i | Live(c, s', i) ensures StepsLeft(s'.workers[i]) <= left' {
      assert Live(c, s, i);
    }
  }

  /** The first stale give-up: what the row had left bounds what is left to the live worker. */
  lemma FirstOverwrite(c: Settings, s: State, scan: nat) returns (left: nat)
    requires Inv(c, s) && Enabled(c, s, RecoverGiveUp(scan)) && ScansOld(s)
    ensures var s' := Next(c, s, RecoverGiveUp(scan));
      LiveLeft(c, s', left) && Budget(s'.run.row, left) <= Remaining(c, s.run.row) + 7
  {
    left := 0;
    var s' := Next(c, s, RecoverGiveUp(scan));
    if i :| Live(c, s, i) {
      LeftBelowRemaining(c, s, i);
      left := StepsLeft(s.workers[i]);
    }
    forall i | Live(c, s', i) ensures StepsLeft(s'.workers[i]) <= left {
      assert Live(c, s, i);
    }
  }

  /** Before the first stale give-up, and from it on. */
  ghost predicate Early(c: Settings, h: History, n: nat)
    requires n < |h.states|
  {
    Inv(c, h.states[n])
    && EffectiveSteps(h.states[..n + 1]) + Remaining(c, h.states[n].run.row) <= 10 * c.maxAttempts + 9
  }

  ghost predicate Overwritten(c: Settings, h: History, n: nat, left: nat)
    requires n < |h.states|
  {
    Late(c, h.states[n]) && LiveLeft(c, h.states[n], left)
    && EffectiveSteps(h.states[..n + 1]) + Budget(h.states[n].run.row, left) <= 10 * c.maxAttempts + 17
  }

  lemma StepsNext(h: History, n: nat)
    requires n + 1 < |h.states|
    ensures EffectiveSteps(h.states[..n + 2]) == EffectiveSteps(h.states[..n + 1])
              + if Effective(h.states[n].run.row, h.states[n + 1].run.row) then 1 else 0
  {
    assert h.states[..n + 2][..n + 1] == h.states[..n + 1];
  }

  lemma BoundedStep(c: Settings, h: History, n: nat, left: nat) returns (left': nat)
    requires c.Outlives() && IsHistory(c, h) && n < |h.actions|
    requires Early(c, h, n) || Overwritten(c, h, n, left)
    ensures Early(c, h, n + 1) || Overwritten(c, h, n + 1, left')
  {
    var s, a := h.states[n], h.actions[n];
    left' := left;
    HeldStep(c, h, n);
    StepsNext(h, n);
    if Overwritten(c, h, n, left) {
      NumbersAlways(c, h, n);
      left' := LateProgresses(c, s, a, left);
    } else if Current(s, a) {
      StepProgresses(c, s, a);
    } else {
      ScansAreOld(c, h, n);
      left' := FirstOverwrite(c, s, a.scan);
    }
  }

  lemma {:induction false} AlwaysBounded(c: Settings, h: History, n: nat) returns (left: nat)
    requires c.Outlives() && IsHistory(c, h) && n < |h.states|
    ensures Early(c, h, n) || Overwritten(c, h, n, left)
  {
    left := 0;
    if n == 0 {
      InitialInv(c, h.states[0]);
    } else {
      left := AlwaysBounded(c, h, n - 1);
      left := BoundedStep(c, h, n - 1, left);
    }
  }

  /** Recovery is bounded in every history: crashes, duplicate deliveries, stale give-ups and
      the worker they overwrite together change the row at most `10 * maxAttempts + 17` times;
      at most `10 * maxAttempts + 9` times, less what remains, when no give-up is stale. */
  lemma RecoveryIsBounded(c: Settings, h: History, n: nat)
    requires c.Outlives() && IsHistory(c, h) && n < |h.states|
    ensures EffectiveSteps(h.states[..n + 1]) <= 10 * c.maxAttempts + 17
    ensures GiveUpsAreCurrent(h) ==>
              EffectiveSteps(h.states[..n + 1]) + Remaining(c, h.states[n].run.row) <= 10 * c.maxAttempts + 9
  {
    var left := AlwaysBounded(c, h, n);
    if GiveUpsAreCurrent(h) { OrderlyRecoveryIsBounded(c, h, n); }
  }
}
