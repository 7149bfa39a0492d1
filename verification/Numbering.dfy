/** What holds of attempt numbers in every history: leases of any length, stale give-ups,
    crashes and any number of duplicate deliveries included. */
module Numbering {
  import opened Options
  import opened StagePlans
  import opened RunRows
  import opened LeaseProtocol

  // --------------------------------------------------------------------- fencing

  lemma StepAttempts(c: Settings, s: State, a: Action)
    requires Enabled(c, s, a)
    ensures s.run.row.attempt <= Next(c, s, a).run.row.attempt
  {
  }

  lemma {:induction false} AttemptsNeverFall(c: Settings, h: History, i: nat, j: nat)
    requires IsHistory(c, h) && i <= j < |h.states|
    ensures h.states[i].run.row.attempt <= h.states[j].run.row.attempt
  {
    if i < j {
      AttemptsNeverFall(c, h, i, j - 1);
      StepAttempts(c, h.states[j - 1], h.actions[j - 1]);
    }
  }

  /** Both exception handlers keep only a row that still carries the worker's own number. */
  ghost predicate SeenIsOwn(s: State) {
    forall i :: 0 <= i < |s.workers| && (s.workers[i].pc.Failing? || s.workers[i].pc.Retrying?) ==>
      s.workers[i].pc.seen.attempt == s.workers[i].attempt
  }

  lemma SeenStep(c: Settings, s: State, a: Action)
    requires SeenIsOwn(s) && Enabled(c, s, a)
    ensures SeenIsOwn(Next(c, s, a))
  {
    if a.ByWorker() { SeenWorkerStep(c, s.now, s.run, s.workers[a.w], a); }
  }

  lemma SeenWorkerStep(c: Settings, now: int, run: Run, w: Worker, a: Action)
    requires a.ByWorker() && WorkerEnabled(c, now, w, a)
    requires w.pc.Failing? || w.pc.Retrying? ==> w.pc.seen.attempt == w.attempt
    ensures var w' := WorkerStep(c, now, run, w, a).1;
            w'.pc.Failing? || w'.pc.Retrying? ==> w'.pc.seen.attempt == w'.attempt
  {
  }

  lemma {:induction false} SeenAlways(c: Settings, h: History, i: nat)
    requires IsHistory(c, h) && i < |h.states|
    ensures SeenIsOwn(h.states[i])
  {
    if i > 0 {
      SeenAlways(c, h, i - 1);
      SeenStep(c, h.states[i - 1], h.actions[i - 1]);
    }
  }

  /** The commits that check the attempt number: entering a stage, completing, requeueing, and
      failing when the check of `_fail` still holds at its write. */
  predicate Guarded(s: State, a: Action) {
    a.EnterNext? || a.FinishRun? || a.RequeueForRetry?
    || (a.WriteFailure? && a.w < |s.workers| && StillMine(s.run.row, s.workers[a.w].attempt))
  }

  lemma GuardedOwnsAttempt(c: Settings, s: State, a: Action)
    requires SeenIsOwn(s) && Enabled(c, s, a) && Guarded(s, a) && Next(c, s, a).run != s.run
    ensures s.workers[a.w].attempt == s.run.row.attempt
  {
  }

  /** Fencing, in every history: leases of any length, stale give-ups and any number of
      duplicate deliveries included. Once the attempt number has moved on, no worker that
      holds an earlier number enters a stage, completes, requeues or fails the run. */
  lemma Fencing(c: Settings, h: History, j: nat, i: nat)
    requires IsHistory(c, h) && j < i < |h.actions|
    requires h.states[j].run.row.attempt < h.states[j + 1].run.row.attempt
    requires Guarded(h.states[i], h.actions[i]) && h.states[i + 1].run != h.states[i].run
    ensures h.states[i].workers[h.actions[i].w].attempt >= h.states[j + 1].run.row.attempt
    ensures h.states[i].workers[h.actions[i].w].attempt > h.states[j].run.row.attempt
  {
    SeenAlways(c, h, i);
    GuardedOwnsAttempt(c, h.states[i], h.actions[i]);
    AttemptsNeverFall(c, h, j + 1, i);
  }

  /** The status is assigned before the guarded renewal, so whatever the row's status was, even
      `queued` or terminal, the attempt number alone decides whether a stage is entered. */
  lemma EnterDecidedByAttempt(run: Run, w: Worker, leaseUntil: int)
    requires w.pc.At? && w.pc.pos + 1 < |w.plan.stages|
    ensures var (run', w') := EnterStep(run, w, leaseUntil);
      if w.attempt == run.row.attempt
      then run'.row.status == In(w.plan.stages[w.pc.pos + 1]) && run'.row.lease == Some(leaseUntil)
           && w'.pc == Announcing(StageNote(w.plan, w.pc.pos + 1), w.pc.pos + 1)
      else run' == run && w'.pc == Done
  {
  }

  // ------------------------------------------------------- scans and starting times

  ghost predicate ScansOld(s: State) {
    forall k :: 0 <= k < |s.scans| ==> s.scans[k].row.attempt <= s.run.row.attempt
  }

  /** Scanned rows are never ahead of the row. */
  lemma {:induction false} ScansAreOld(c: Settings, h: History, i: nat)
    requires IsHistory(c, h) && i < |h.states|
    ensures ScansOld(h.states[i])
  {
    if i > 0 {
      ScansAreOld(c, h, i - 1);
      var s, a := h.states[i - 1], h.actions[i - 1];
      assert Enabled(c, s, a) && h.states[i] == Next(c, s, a);
      StepAttempts(c, s, a);
    }
  }

  /** A task never starts in the future. */
  lemma {:induction false} StartedBefore(c: Settings, h: History, i: nat)
    requires IsHistory(c, h) && i < |h.states|
    ensures forall k :: 0 <= k < |h.states[i].workers| ==> h.states[i].workers[k].started <= h.states[i].now
  {
    if i > 0 {
      StartedBefore(c, h, i - 1);
      StartedStep(c, h.states[i - 1], h.actions[i - 1]);
    }
  }

  lemma StartedStep(c: Settings, s: State, a: Action)
    requires Enabled(c, s, a) && forall k :: 0 <= k < |s.workers| ==> s.workers[k].started <= s.now
    ensures var s' := Next(c, s, a);
            forall k :: 0 <= k < |s'.workers| ==> s'.workers[k].started <= s'.now
  {
    if a.ByWorker() { StartedKept(c, s.now, s.run, s.workers[a.w], a); }
  }

  lemma StartedKept(c: Settings, now: int, run: Run, w: Worker, a: Action)
    requires a.ByWorker() && WorkerEnabled(c, now, w, a)
    ensures WorkerStep(c, now, run, w, a).1.started == w.started
  {
  }

  // ------------------------------------------------------------------ claims

  /** Claims carry strictly increasing numbers, so remember whether one is outstanding. */
  function Generation(row: Row): nat {
    2 * row.attempt + (if row.status == InQueue then 0 else 1)
  }

  lemma StepGenerations(c: Settings, s: State, a: Action)
    requires Enabled(c, s, a)
    ensures Generation(s.run.row) <= Generation(Next(c, s, a).run.row)
  {
  }

  lemma {:induction false} GenerationsRise(states: seq<State>, i: nat, j: nat)
    requires i <= j < |states|
    requires forall k :: 0 <= k < |states| - 1 ==> Generation(states[k].run.row) <= Generation(states[k + 1].run.row)
    ensures Generation(states[i].run.row) <= Generation(states[j].run.row)
  {
    if i < j {
      GenerationsRise(states, i, j - 1);
      assert Generation(states[j - 1].run.row) <= Generation(states[j - 1 + 1].run.row);
    }
  }

  lemma GenerationsNeverFall(c: Settings, h: History, i: nat, j: nat)
    requires IsHistory(c, h) && i <= j < |h.states|
    ensures Generation(h.states[i].run.row) <= Generation(h.states[j].run.row)
  {
    forall k | 0 <= k < |h.states| - 1
      ensures Generation(h.states[k].run.row) <= Generation(h.states[k + 1].run.row)
    {
      StepGenerations(c, h.states[k], h.actions[k]);
    }
    GenerationsRise(h.states, i, j);
  }

  predicate Claims(h: History, i: nat)
    requires i < |h.actions| && |h.states| == |h.actions| + 1
  {
    h.actions[i].TryClaim? && h.states[i + 1].run != h.states[i].run
  }

  /** In every history two successful claims never share an attempt number, whatever was
      delivered twice, and every number lies between 1 and the configured maximum. */
  lemma ClaimsStrictlyIncrease(c: Settings, h: History, i: nat, j: nat)
    requires IsHistory(c, h) && i < j < |h.actions| && Claims(h, i) && Claims(h, j)
    ensures 1 <= h.states[i + 1].run.row.attempt < h.states[j + 1].run.row.attempt
    ensures c.maxAttempts >= 1 ==> h.states[j + 1].run.row.attempt <= c.maxAttempts
  {
    ClaimStep(c, h.states[i], h.actions[i]);
    ClaimStep(c, h.states[j], h.actions[j]);
    GenerationsNeverFall(c, h, i + 1, j);
    NumbersAlways(c, h, i);
    if c.maxAttempts >= 1 { NumbersAlways(c, h, j + 1); }
  }

  lemma ClaimStep(c: Settings, s: State, a: Action)
    requires Enabled(c, s, a) && a.TryClaim? && Next(c, s, a).run != s.run
    ensures var row, row' := s.run.row, Next(c, s, a).run.row;
      && row.status == InQueue && row'.status == In(FIRST_STAGE)
      && row'.attempt == if row.lease.None? then row.attempt + 1 else row.attempt
  {
  }

  /** Attempt numbers stay within the maximum, and only a new run is queued without a lease:
      the reason why a claim adds one exactly to the first number. */
  ghost predicate NumbersOK(c: Settings, s: State) {
    && SeenIsOwn(s)
    && (s.run.row.status == InQueue ==> (s.run.row.lease.None? <==> s.run.row.attempt == 0))
    && (c.maxAttempts >= 1 ==> s.run.row.attempt <= c.maxAttempts)
    && (forall i :: 0 <= i < |s.workers| && s.workers[i].pc.Retrying? ==> s.workers[i].attempt < c.maxAttempts)
  }

  lemma NumbersStep(c: Settings, s: State, a: Action)
    requires NumbersOK(c, s) && Enabled(c, s, a)
    ensures NumbersOK(c, Next(c, s, a))
  {
    SeenStep(c, s, a);
  }

  lemma {:induction false} NumbersAlways(c: Settings, h: History, i: nat)
    requires IsHistory(c, h) && i < |h.states|
    ensures NumbersOK(c, h.states[i])
  {
    if i > 0 {
      NumbersAlways(c, h, i - 1);
      NumbersStep(c, h.states[i - 1], h.actions[i - 1]);
    }
  }
}
