/** What the unconditional UPDATE of the reconciler's give-up can break, and exactly when
    it does not. */
module StaleGiveUp {
  import opened Options
  import opened StagePlans
  import opened RunRows
  import opened LeaseProtocol
  import opened LeaseInvariant
  import opened Numbering
  import opened LeaseTheorems

  function Last(h: History): State
    requires h.states != []
  {
    h.states[|h.states| - 1]
  }

  lemma Extend(c: Settings, h: History, a: Action) returns (h': History)
    requires IsHistory(c, h) && Enabled(c, Last(h), a)
    ensures IsHistory(c, h') && Last(h') == Next(c, Last(h), a)
    ensures h'.states == h.states + [Last(h')] && h'.actions == h.actions + [a]
  {
    h' := History(h.states + [Next(c, Last(h), a)], h.actions + [a]);
  }

  /** The row of a run requeued once and never picked up. */
  function QueuedOnce(): Row { Row(InQueue, Queued, [Queued], [], 1, Some(241), 0) }

  /** A queued run on its last attempt, its dispatch grace lapsed and scanned as such. */
  lemma ScannedOnLastAttempt(c: Settings) returns (h: History)
    requires c == Settings(960, 900, 120, 1)
    ensures IsHistory(c, h)
    ensures Last(h) == State(242, Run(QueuedOnce(), [], []), [],
                             [Scan(121, NewRun(0).row), Scan(242, QueuedOnce())])
  {
    h := History([State(0, NewRun(0), [], [])], []);
    h := Extend(c, h, Tick(121));
    h := Extend(c, h, ScanRun(121));
    h := Extend(c, h, RecoverRequeue(0, 121));
    h := Extend(c, h, Tick(121));
    h := Extend(c, h, ScanRun(242));
  }

  /** A worker then claims the run. */
  lemma ClaimedAfterScan(c: Settings) returns (h: History)
    requires c == Settings(960, 900, 120, 1)
    ensures IsHistory(c, h)
    ensures Last(h).now == 242 && |Last(h).scans| == 2 && Last(h).scans[1].row == QueuedOnce()
    ensures Last(h).run.log == [] && Last(h).run.row.status == In(FIRST_STAGE)
    ensures Last(h).run.row.attempt == 1
    ensures Last(h).workers == [Worker(242, StagePlanFor(true), 1, Loaded)]
  {
    h := ScannedOnLastAttempt(c);
    h := Extend(c, h, StartTask(true));
    h := Extend(c, h, TryClaim(0, 242));
    assert Last(h).workers == [Worker(242, StagePlanFor(true), 0, Claimed)];
    h := Extend(c, h, Load(0));
  }

  /** The reconciler writes `failed` from its scan over whatever the row has become. */
  lemma GiveUpAnyway(c: Settings, h: History, scan: nat) returns (h': History)
    requires IsHistory(c, h) && Enabled(c, Last(h), RecoverGiveUp(scan)) && Contiguous(Last(h).run.log)
    requires !Unchanged(Last(h).run.row, Last(h).scans[scan].row)
    ensures IsHistory(c, h') && !GiveUpsAreCurrent(h')
    ensures h'.states == h.states + [Last(h')] && h.actions < h'.actions
    ensures var s, s' := Last(h), Last(h');
      && s'.now == s.now && s'.workers == s.workers && s'.run.row.attempt == s.run.row.attempt
      && s'.run.row.status == Failed && Contiguous(s'.run.log)
      && |s'.run.log| == |s.run.log| + 1 && s'.run.log[|s.run.log|].status == Failed
  {
    ContiguousMax(Last(h).run.log);
    h' := Extend(c, h, RecoverGiveUp(scan));
    var i := |h.actions|;
    assert h'.actions[i] == RecoverGiveUp(scan) && h'.states[i] == Last(h);
    assert !Current(h'.states[i], h'.actions[i]);
  }

  lemma StaleStaysStale(h: History, h': History)
    requires |h.states| == |h.actions| + 1 && |h'.states| == |h'.actions| + 1
    requires h.states <= h'.states && h.actions <= h'.actions && GiveUpsAreCurrent(h')
    ensures GiveUpsAreCurrent(h)
  {
    forall i | 0 <= i < |h.actions| ensures Current(h.states[i], h.actions[i]) {
      assert Current(h'.states[i], h'.actions[i]);
    }
  }

  /** From a just given-up row, a live worker that has only loaded the run logs its first
      stage and enters the next one. */
  lemma LoadedWorkerGoesOn(c: Settings, h: History) returns (h': History)
    requires IsHistory(c, h) && |Last(h).workers| == 1 && Contiguous(Last(h).run.log)
    requires var w := Last(h).workers[0];
      && w.pc.Loaded? && Alive(c, Last(h).now, w) && w.started <= Last(h).now
      && w.attempt == Last(h).run.row.attempt && 2 < |w.plan.stages|
    ensures IsHistory(c, h') && h.states < h'.states && h.actions < h'.actions
    ensures Last(h').run.row.status.In? && Last(h).run.log < Last(h').run.log
  {
    var w := Last(h).workers[0];
    var sequence := |Last(h).run.log| + 1;
    ContiguousMax(Last(h).run.log);
    h' := Extend(c, h, StoreSkipped(0));
    h' := Extend(c, h', ReadSequence(0));
    assert Last(h').workers[0] == w.(pc := Inserting(StageNote(w.plan, 1), 1, sequence));
    assert Last(h').run.log == Last(h).run.log && Last(h').now == Last(h).now;
    h' := InsertAndEnter(c, h', sequence);
  }

  lemma InsertAndEnter(c: Settings, h: History, sequence: nat) returns (h': History)
    requires IsHistory(c, h) && |Last(h).workers| == 1
    requires !SequenceTaken(Last(h).run.log, sequence)
    requires var w := Last(h).workers[0];
      && 2 < |w.plan.stages| && w.pc == Inserting(StageNote(w.plan, 1), 1, sequence)
      && Alive(c, Last(h).now, w) && w.started <= Last(h).now
      && w.attempt == Last(h).run.row.attempt
    ensures IsHistory(c, h') && h.states < h'.states && h.actions < h'.actions
    ensures Last(h').run.row.status.In? && Last(h).run.log < Last(h').run.log
  {
    h' := Extend(c, h, InsertEvent(0));
    assert Last(h').workers[0].pc == At(1);
    h' := Extend(c, h', EnterNext(0, Last(h).now));
  }

  /** A stale give-up lets a failed run come back to life: the run is `failed` and its log
      ends in a terminal event, yet the live worker then logs a stage and moves the row
      back to a working status. */
  lemma StaleGiveUpResurrects() returns (c: Settings, h: History, i: nat)
    ensures c.Valid() && IsHistory(c, h) && !GiveUpsAreCurrent(h)
    ensures i < |h.states| - 1
    ensures Terminal(h.states[i].run.row.status) && !Terminal(Last(h).run.row.status)
    ensures exists k :: 0 <= k < |Last(h).run.log| - 1 && Terminal(Last(h).run.log[k].status)
  {
    c := Settings(960, 900, 120, 1);
    var claimed := ClaimedAfterScan(c);
    var given := GiveUpAnyway(c, claimed, 1);
    i := |given.states| - 1;
    h := LoadedWorkerGoesOn(c, given);
    assert h.states[i] == Last(given);
    assert Terminal(Last(h).run.log[0].status);
    if GiveUpsAreCurrent(h) {
      StaleStaysStale(given, h);
    }
  }

  // --------------------------------------------------- exactly when it is harmless

  /** A history from a given state on, in which nothing is given up again. */
  ghost predicate Continues(c: Settings, k: History, s: State) {
    && |k.states| == |k.actions| + 1 && k.states[0] == s
    && forall i :: 0 <= i < |k.actions| ==>
         Enabled(c, k.states[i], k.actions[i]) && !k.actions[i].RecoverGiveUp?
         && k.states[i + 1] == Next(c, k.states[i], k.actions[i])
  }

  lemma GoOn(c: Settings, k: History, s: State, a: Action) returns (k': History)
    requires Continues(c, k, s) && Enabled(c, Last(k), a) && !a.RecoverGiveUp?
    ensures Continues(c, k', s) && Last(k') == Next(c, Last(k), a)
  {
    k' := History(k.states + [Next(c, Last(k), a)], k.actions + [a]);
  }

  ghost predicate TerminalLast(log: seq<Event>) {
    forall i :: 0 <= i < |log| && Terminal(log[i].status) ==> i == |log| - 1
  }

  /** What is promised of a run that was given up: its row and its rows stay as they are, the
      log says nothing after the terminal event, and row, log and rows are well formed. */
  ghost predicate StillGivenUp(c: Settings, given: Run, now: Run) {
    now.row == given.row && now.data == given.data && TerminalLast(now.log) && RunOK(c, now)
  }

  ghost predicate GuaranteesHold(c: Settings, s: State) {
    forall k: History, n: nat :: Continues(c, k, s) && n < |k.states| ==> StillGivenUp(c, s.run, k.states[n].run)
  }

  /** No step is left to it that writes to a run that is given up now: its event meets the
      sequence the give-up took, its requeue the changed row, its completion the status. */
  predicate OutOfSteps(w: Worker) {
    w.pc.Inserting? || w.pc.Retrying? || (w.pc.At? && w.pc.pos + 1 == |w.plan.stages|)
  }

  /** What the give-up must find: no success, no terminal event, and every live worker either
      between reading a sequence and inserting it, about to requeue, or in its last stage. */
  ghost predicate Harmless(c: Settings, s: State) {
    && s.run.row.status != Completed && s.run.row.status != Partial
    && NoTerminal(s.run.log)
    && forall j :: Live(c, s, j) ==> OutOfSteps(s.workers[j])
  }

  // Harmless is enough.

  ghost predicate QuietWorker(c: Settings, now: int, given: Run, w: Worker) {
    Executing(w.pc) && Alive(c, now, w) ==>
      OutOfSteps(w) && (w.pc.Inserting? ==> SequenceTaken(given.log, w.pc.sequence))
  }

  ghost predicate Quiet(c: Settings, given: Run, t: State) {
    && t.run == given && Terminal(given.row.status)
    && forall j :: 0 <= j < |t.workers| ==> QuietWorker(c, t.now, given, t.workers[j])
  }

  lemma QuietWorkerStep(c: Settings, now: int, given: Run, w: Worker, a: Action)
    requires a.ByWorker() && WorkerEnabled(c, now, w, a) && Alive(c, now, w)
    requires QuietWorker(c, now, given, w) && Terminal(given.row.status)
    ensures var (run, w') := WorkerStep(c, now, given, w, a);
            run == given && QuietWorker(c, now, given, w')
  {
  }

  lemma QuietStep(c: Settings, given: Run, t: State, a: Action)
    requires Quiet(c, given, t) && Enabled(c, t, a) && !a.RecoverGiveUp?
    ensures Quiet(c, given, Next(c, t, a))
  {
    if a.ByWorker() { QuietWorkerStep(c, t.now, given, t.workers[a.w], a); }
  }

  lemma {:induction false} QuietAlways(c: Settings, k: History, s: State, n: nat)
    requires Continues(c, k, s) && n < |k.states| && Quiet(c, s.run, s)
    ensures Quiet(c, s.run, k.states[n])
  {
    if n > 0 {
      QuietAlways(c, k, s, n - 1);
      QuietStep(c, s.run, k.states[n - 1], k.actions[n - 1]);
    }
  }

  lemma GivenUpRunOK(c: Settings, run: Run, seen: Row)
    requires c.Outlives() && RunOK(c, run) && NoTerminal(run.log)
    requires run.row.status != Completed && run.row.status != Partial
    requires seen.completed == [Queued] && seen.attempt >= c.maxAttempts
    requires seen.attempt <= run.row.attempt
    ensures RunOK(c, GiveUp(run, seen)) && TerminalLast(GiveUp(run, seen).log)
  {
    var e := GiveUp(run, seen).log[|run.log|];
    QueuedOnlyIsZero(PlanFromStored(seen.skipped));
    assert FailureEvent(e);
    AppendFailureEvent(run.log, e);
    ContiguousMax(run.log);
  }

  lemma HarmlessIsQuiet(c: Settings, s: State, scan: nat)
    requires Inv(c, s) && Enabled(c, s, RecoverGiveUp(scan)) && Harmless(c, s)
    ensures var s' := Next(c, s, RecoverGiveUp(scan)); Quiet(c, s'.run, s')
  {
    var s' := Next(c, s, RecoverGiveUp(scan));
    ContiguousMax(s.run.log);
    assert s'.run.log[|s.run.log|].sequence == |s.run.log| + 1;
    forall j | 0 <= j < |s'.workers| ensures QuietWorker(c, s'.now, s'.run, s'.workers[j]) {
      if Live(c, s, j) { assert WorkerOK(c, s.now, s.run, s.workers[j]); }
    }
  }

  // Harmless is necessary.

  /** A pending event of a live worker is logged after the terminal one. */
  lemma AnnouncedBreaks(c: Settings, s: State, k: History, j: nat) returns (k': History)
    requires Continues(c, k, s) && j < |Last(k).workers|
    requires Last(k).workers[j].pc.Announcing? && Alive(c, Last(k).now, Last(k).workers[j])
    requires var log := Last(k).run.log; Contiguous(log) && log != [] && Terminal(log[|log| - 1].status)
    ensures Continues(c, k', s) && !TerminalLast(Last(k').run.log)
  {
    var log := Last(k).run.log;
    ContiguousMax(log);
    k' := GoOn(c, k, s, ReadSequence(j));
    assert !SequenceTaken(log, |log| + 1);
    assert Last(k').workers[j].pc.Inserting? && Last(k').workers[j].pc.sequence == |log| + 1;
    k' := GoOn(c, k', s, InsertEvent(j));
    assert Last(k').run.log[|log| - 1] == log[|log| - 1] && |Last(k').run.log| == |log| + 1;
  }

  lemma LoadedBreaks(c: Settings, s: State, k: History, j: nat) returns (k': History)
    requires Continues(c, k, s) && j < |Last(k).workers| && 1 < |Last(k).workers[j].plan.stages|
    requires Last(k).workers[j].pc.Loaded? && Alive(c, Last(k).now, Last(k).workers[j])
    requires var log := Last(k).run.log; Contiguous(log) && log != [] && Terminal(log[|log| - 1].status)
    ensures Continues(c, k', s) && !TerminalLast(Last(k').run.log)
  {
    k' := GoOn(c, k, s, StoreSkipped(j));
    k' := AnnouncedBreaks(c, s, k', j);
  }

  /** A pending failure is written again, and logged again. */
  lemma FailingBreaks(c: Settings, s: State, k: History, j: nat) returns (k': History)
    requires Continues(c, k, s) && j < |Last(k).workers|
    requires Last(k).workers[j].pc.Failing? && Alive(c, Last(k).now, Last(k).workers[j])
    requires var log := Last(k).run.log; Contiguous(log) && log != [] && Terminal(log[|log| - 1].status)
    ensures Continues(c, k', s) && !TerminalLast(Last(k').run.log)
  {
    k' := GoOn(c, k, s, WriteFailure(j, []));
    k' := AnnouncedBreaks(c, s, k', j);
  }

  /** A live worker that still has a step enters its stage, or logs after the terminal event. */
  lemma WorkerBreaks(c: Settings, s: State, j: nat) returns (k: History)
    requires j < |s.workers| && Executing(s.workers[j].pc) && Alive(c, s.now, s.workers[j]) && !OutOfSteps(s.workers[j])
    requires IsPlan(s.workers[j].plan) && s.workers[j].started <= s.now
    requires s.workers[j].pc.At? ==> s.workers[j].attempt == s.run.row.attempt
                                     && s.workers[j].pc.pos < |s.workers[j].plan.stages|
    requires s.run.row.status == Failed && Contiguous(s.run.log)
    requires s.run.log != [] && Terminal(s.run.log[|s.run.log| - 1].status)
    ensures Continues(c, k, s) && (Last(k).run.row != s.run.row || !TerminalLast(Last(k).run.log))
  {
    k := History([s], []);
    match s.workers[j].pc
    case Claimed =>
      k := GoOn(c, k, s, Load(j));
      k := LoadedBreaks(c, s, k, j);
    case Loaded => k := LoadedBreaks(c, s, k, j);
    case Announcing(_, _) => k := AnnouncedBreaks(c, s, k, j);
    case Failing(_) => k := FailingBreaks(c, s, k, j);
    case At(_) => k := GoOn(c, k, s, EnterNext(j, s.now));
  }

  lemma FinishedRunBreaks(c: Settings, s: State, scan: nat)
    requires Inv(c, s) && Enabled(c, s, RecoverGiveUp(scan))
    requires s.run.row.status == Completed || s.run.row.status == Partial || !NoTerminal(s.run.log)
    ensures var run := Next(c, s, RecoverGiveUp(scan)).run; !StillGivenUp(c, run, run)
  {
    var run := Next(c, s, RecoverGiveUp(scan)).run;
    if !NoTerminal(s.run.log) {
      var m :| 0 <= m < |s.run.log| && Terminal(s.run.log[m].status);
      assert run.log[m] == s.run.log[m];
    } else {
      assert ReportPresent(s.run.data) && run.data == s.run.data;
    }
  }

  lemma LiveWorkerBreaks(c: Settings, s: State, scan: nat, j: nat) returns (k: History)
    requires Inv(c, s) && Enabled(c, s, RecoverGiveUp(scan)) && Live(c, s, j) && !OutOfSteps(s.workers[j])
    ensures var s' := Next(c, s, RecoverGiveUp(scan));
      Continues(c, k, s') && (Last(k).run.row != s'.run.row || !TerminalLast(Last(k).run.log))
  {
    var s' := Next(c, s, RecoverGiveUp(scan));
    ContiguousMax(s.run.log);
    assert WorkerOK(c, s.now, s.run, s.workers[j]);
    assert s'.run.log[|s.run.log|].status == Failed;
    k := WorkerBreaks(c, s', j);
  }

  lemma UnharmlessBreaks(c: Settings, s: State, scan: nat) returns (k: History)
    requires Inv(c, s) && Enabled(c, s, RecoverGiveUp(scan)) && !Harmless(c, s)
    ensures var s' := Next(c, s, RecoverGiveUp(scan));
      Continues(c, k, s') && !StillGivenUp(c, s'.run, Last(k).run)
  {
    if s.run.row.status == Completed || s.run.row.status == Partial || !NoTerminal(s.run.log) {
      FinishedRunBreaks(c, s, scan);
      k := History([Next(c, s, RecoverGiveUp(scan))], []);
    } else {
      var j :| Live(c, s, j) && !OutOfSteps(s.workers[j]);
      k := LiveWorkerBreaks(c, s, scan, j);
    }
  }

  /** Whether the row is as it was scanned or not: a give-up leaves a run that nothing ever
      reopens, logs to or spoils if and only if it is harmless. */
  lemma GiveUpSafeExactly(c: Settings, h: History, i: nat, scan: nat)
    requires Orderly(c, h) && i < |h.states| && Enabled(c, h.states[i], RecoverGiveUp(scan))
    ensures GuaranteesHold(c, Next(c, h.states[i], RecoverGiveUp(scan))) <==> Harmless(c, h.states[i])
  {
    var s := h.states[i];
    var s' := Next(c, s, RecoverGiveUp(scan));
    Reachable(c, h, i);
    ScansAreOld(c, h, i);
    if Harmless(c, s) {
      assert ScanOK(c, s.now, s.scans[scan]);
      GivenUpRunOK(c, s.run, s.scans[scan].row);
      HarmlessIsQuiet(c, s, scan);
      forall k: History, n: nat | Continues(c, k, s') && n < |k.states|
        ensures StillGivenUp(c, s'.run, k.states[n].run)
      {
        QuietAlways(c, k, s', n);
      }
    } else {
      var k := UnharmlessBreaks(c, s, scan);
      assert Last(k) == k.states[|k.states| - 1];
      assert !StillGivenUp(c, s'.run, k.states[|k.states| - 1].run);
    }
  }

  /** The guard the requeue already has, which the reconciler can check before it writes, is
      enough: an unchanged row means that nobody is executing at all. */
  lemma UnchangedRowIsSafe(c: Settings, h: History, i: nat, scan: nat)
    requires Orderly(c, h) && i < |h.states| && Enabled(c, h.states[i], RecoverGiveUp(scan))
    requires Unchanged(h.states[i].run.row, h.states[i].scans[scan].row)
    ensures Harmless(c, h.states[i]) && forall j :: !Live(c, h.states[i], j)
    ensures GuaranteesHold(c, Next(c, h.states[i], RecoverGiveUp(scan)))
  {
    Reachable(c, h, i);
    NobodyLiveWhenScanHolds(c, h.states[i], h.states[i].scans[scan]);
    GiveUpSafeExactly(c, h, i, scan);
  }
}
