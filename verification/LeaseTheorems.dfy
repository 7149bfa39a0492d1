/** What the lease protocol guarantees over whole histories. */
module LeaseTheorems {
  import opened Options
  import opened StagePlans
  import opened RunRows
  import opened LeaseProtocol
  import opened LeaseInvariant
  import opened Numbering
  import opened LastAttempt

  ghost predicate Orderly(c: Settings, h: History) {
    c.Outlives() && IsHistory(c, h) && GiveUpsAreCurrent(h)
  }

  lemma {:induction false} Reachable(c: Settings, h: History, i: nat)
    requires Orderly(c, h) && i < |h.states|
    ensures Inv(c, h.states[i])
  {
    if i == 0 {
      InitialInv(c, h.states[0]);
    } else {
      Reachable(c, h, i - 1);
      StepKeeps(c, h.states[i - 1], h.actions[i - 1]);
    }
  }

  // ------------------------------------------------- mutual exclusion over time

  /** At any instant, in every history, stale give-ups included, at most one live task
      executes the run, and once its lease has lapsed nobody does: the reconciler never
      fences a worker that is still running. */
  lemma MutualExclusion(c: Settings, h: History, i: nat)
    requires c.Outlives() && IsHistory(c, h) && i < |h.states|
    ensures forall j, k :: Live(c, h.states[i], j) && Live(c, h.states[i], k) ==> j == k
    ensures var s := h.states[i];
            s.run.row.lease.Some? && s.run.row.lease.value < s.now ==> forall j :: !Live(c, s, j)
  {
    AlwaysHeld(c, h, i);
    var s := h.states[i];
    if Inv(c, s) && s.run.row.lease.Some? && s.run.row.lease.value < s.now {
      NobodyLiveWhenLapsed(c, s);
    }
  }

  /** The worker took a step that committed something to the run. */
  predicate WorkerCommits(h: History, i: nat)
    requires i < |h.actions| && |h.states| == |h.actions| + 1
  {
    h.actions[i].ByWorker() && !h.actions[i].TryClaim? && h.states[i + 1].run != h.states[i].run
  }

  lemma CommitterOwnsAttempt(c: Settings, s: State, a: Action)
    requires Inv(c, s) || Late(c, s)
    requires c.Outlives() && Enabled(c, s, a) && a.ByWorker() && !a.TryClaim? && Next(c, s, a).run != s.run
    ensures s.workers[a.w].attempt == s.run.row.attempt
  {
    assert !a.Stop?;
    assert Live(c, s, a.w);
    if Inv(c, s) { LiveReady(c, s, a.w); }
  }

  /** When the lease outlasts the hard limit, the same is true of every commit in every history,
      also of the ones that check nothing: the skipped stages, the events, and a failure whose
      check and write are two steps. */
  lemma EveryCommitIsOwn(c: Settings, h: History, i: nat)
    requires c.Outlives() && IsHistory(c, h) && i < |h.actions| && WorkerCommits(h, i)
    ensures h.states[i].workers[h.actions[i].w].attempt == h.states[i].run.row.attempt
    ensures forall j: nat :: j <= i ==> h.states[j].run.row.attempt <= h.states[i].workers[h.actions[i].w].attempt
  {
    AlwaysHeld(c, h, i);
    CommitterOwnsAttempt(c, h.states[i], h.actions[i]);
    forall j: nat | j <= i ensures h.states[j].run.row.attempt <= h.states[i].run.row.attempt {
      AttemptsNeverFall(c, h, j, i);
    }
  }

  // ------------------------------------------------------------- terminal is final

  lemma TerminalStep(c: Settings, s: State, a: Action)
    requires c.Outlives() && Inv(c, s) && Enabled(c, s, a) && Current(s, a) && Terminal(s.run.row.status)
    ensures Next(c, s, a).run.row == s.run.row && Next(c, s, a).run.data == s.run.data
  {
    if a.ByWorker() && !a.TryClaim? && !a.Stop? {
      assert Live(c, s, a.w);
      LiveReady(c, s, a.w);
    }
  }

  lemma TerminalHistoryStep(c: Settings, h: History, i: nat)
    requires Orderly(c, h) && i < |h.actions| && Terminal(h.states[i].run.row.status)
    ensures h.states[i + 1].run.row == h.states[i].run.row
    ensures h.states[i + 1].run.data == h.states[i].run.data
  {
    Reachable(c, h, i);
    TerminalStep(c, h.states[i], h.actions[i]);
  }

  lemma {:induction false} StaysTerminal(states: seq<State>, i: nat, j: nat)
    requires i <= j < |states| && Terminal(states[i].run.row.status)
    requires forall k :: 0 <= k < |states| - 1 && Terminal(states[k].run.row.status) ==>
               states[k + 1].run.row == states[k].run.row && states[k + 1].run.data == states[k].run.data
    ensures states[j].run.row == states[i].run.row && states[j].run.data == states[i].run.data
  {
    if i < j {
      StaysTerminal(states, i, j - 1);
      assert states[j - 1 + 1].run.row == states[j - 1].run.row;
    }
  }

  /** A terminal run is never moved, reported again or stripped of its rows. */
  lemma TerminalIsFinal(c: Settings, h: History, i: nat, j: nat)
    requires Orderly(c, h) && i <= j < |h.states| && Terminal(h.states[i].run.row.status)
    ensures h.states[j].run.row == h.states[i].run.row
    ensures h.states[j].run.data == h.states[i].run.data
  {
    forall k | 0 <= k < |h.states| - 1 && Terminal(h.states[k].run.row.status)
      ensures h.states[k + 1].run.row == h.states[k].run.row && h.states[k + 1].run.data == h.states[k].run.data
    {
      TerminalHistoryStep(c, h, k);
    }
    StaysTerminal(h.states, i, j);
  }

  // --------------------------------------------------------- rows of one attempt

  /** Rows exist only on terminal runs, all from the last attempt; a report exists exactly
      on completed and partial runs, and then exactly one. */
  lemma RowsOfOneAttempt(c: Settings, h: History, i: nat)
    requires Orderly(c, h) && i < |h.states|
    ensures var run := h.states[i].run;
      && (!Terminal(run.row.status) ==> run.data == [])
      && RowsOf(run.data, run.row.attempt)
      && (ReportPresent(run.data) <==> run.row.status == Completed || run.row.status == Partial)
      && OneReport(run.data)
  {
    Reachable(c, h, i);
  }

  /** `discard_attempt` runs inside every requeue of every history and never finds anything to
      delete. */
  lemma DiscardDeletesNothing(c: Settings, h: History, i: nat)
    requires c.Outlives() && IsHistory(c, h) && i < |h.actions|
    requires h.actions[i].RecoverRequeue? || h.actions[i].RequeueForRetry?
    ensures h.states[i + 1].run.data == h.states[i].run.data
    ensures h.states[i + 1].run != h.states[i].run ==> h.states[i].run.data == []
  {
    AlwaysHeld(c, h, i);
    NumbersAlways(c, h, i);
  }

  // --------------------------------------------------------- the log is contiguous

  /** Emitters read max+1 and insert in separate steps; nothing else is assumed of them. */
  ghost predicate EmittersOK(s: State) {
    && Contiguous(s.run.log)
    && forall i :: 0 <= i < |s.workers| && s.workers[i].pc.Inserting? ==>
         1 <= s.workers[i].pc.sequence <= |s.run.log| + 1
  }

  lemma InsertKeepsEmitters(c: Settings, s: State, a: Action)
    requires EmittersOK(s) && Enabled(c, s, a) && a.InsertEvent?
    ensures EmittersOK(Next(c, s, a))
    ensures s.run.log <= Next(c, s, a).run.log
  {
    var sequence := s.workers[a.w].pc.sequence;
    if sequence <= |s.run.log| {
      assert s.run.log[sequence - 1].sequence == sequence;
    }
  }

  lemma EmittersStep(c: Settings, s: State, a: Action)
    requires EmittersOK(s) && Enabled(c, s, a)
    ensures EmittersOK(Next(c, s, a))
    ensures s.run.log <= Next(c, s, a).run.log
  {
    if a.InsertEvent? {
      InsertKeepsEmitters(c, s, a);
    } else {
      ContiguousMax(s.run.log);
    }
  }

  /** In every history, orderly or not, under every interleaving of emitters, the committed
      sequences are exactly 1..n and earlier entries survive every requeue unchanged. */
  lemma LogIsContiguous(c: Settings, h: History, i: nat, j: nat)
    requires IsHistory(c, h) && i <= j < |h.states|
    ensures Contiguous(h.states[j].run.log)
    ensures h.states[i].run.log <= h.states[j].run.log
  {
    EmittersAlways(c, h, j);
    LogOnlyGrows(c, h, i, j);
  }

  lemma {:induction false} GrowingLogs(states: seq<State>, i: nat, j: nat)
    requires i <= j < |states|
    requires forall k :: 0 <= k < |states| - 1 ==> states[k].run.log <= states[k + 1].run.log
    ensures states[i].run.log <= states[j].run.log
  {
    if i < j {
      GrowingLogs(states, i, j - 1);
      assert states[j - 1].run.log <= states[j - 1 + 1].run.log;
    }
  }

  lemma LogOnlyGrows(c: Settings, h: History, i: nat, j: nat)
    requires IsHistory(c, h) && i <= j < |h.states|
    ensures h.states[i].run.log <= h.states[j].run.log
  {
    forall k | 0 <= k < |h.states| - 1 ensures h.states[k].run.log <= h.states[k + 1].run.log {
      LogGrows(c, h, k);
    }
    GrowingLogs(h.states, i, j);
  }

  lemma LogGrows(c: Settings, h: History, i: nat)
    requires IsHistory(c, h) && i < |h.actions|
    ensures h.states[i].run.log <= h.states[i + 1].run.log
  {
    EmittersAlways(c, h, i);
    EmittersStep(c, h.states[i], h.actions[i]);
  }

  lemma {:induction false} EmittersAlways(c: Settings, h: History, i: nat)
    requires IsHistory(c, h) && i < |h.states|
    ensures EmittersOK(h.states[i])
  {
    if i > 0 {
      EmittersAlways(c, h, i - 1);
      EmittersStep(c, h.states[i - 1], h.actions[i - 1]);
    }
  }

  // ------------------------------------------------------- the shape of the log

  /** The events one attempt emitted. */
  function Segment(log: seq<Event>, attempt: nat): seq<Event> {
    if log == [] then []
    else
      var before := Segment(log[..|log| - 1], attempt);
      var last := log[|log| - 1];
      if last.attempt == attempt then before + [last] else before
  }

  /** Segments 1..n in order. */
  function Segments(log: seq<Event>, n: nat): seq<Event> {
    if n == 0 then [] else Segments(log, n - 1) + Segment(log, n)
  }

  lemma {:induction false} SegmentsBelow(log: seq<Event>, e: Event, n: nat)
    requires n < e.attempt
    ensures Segments(log + [e], n) == Segments(log, n)
  {
    if n > 0 {
      SegmentsBelow(log, e, n - 1);
      assert (log + [e])[..|log|] == log;
    }
  }

  lemma {:induction false} EmptySegment(log: seq<Event>, attempt: nat)
    requires AttemptsUpTo(log, attempt - 1)
    ensures Segment(log, attempt) == []
  {
    if log != [] {
      EmptySegment(log[..|log| - 1], attempt);
    }
  }

  lemma {:induction false} SegmentsAppend(log: seq<Event>, e: Event, n: nat)
    requires AttemptsUpTo(log, e.attempt) && 1 <= e.attempt <= n
    ensures Segments(log + [e], n) == Segments(log, n) + [e]
  {
    assert (log + [e])[..|log|] == log;
    if n == e.attempt {
      SegmentsBelow(log, e, n - 1);
    } else {
      SegmentsAppend(log, e, n - 1);
      EmptySegment(log, n);
    }
  }

  lemma {:induction false} AttemptsAscend(log: seq<Event>)
    requires LogShape(log) && log != []
    ensures AttemptsUpTo(log, log[|log| - 1].attempt)
  {
    var before := log[..|log| - 1];
    if before != [] {
      AttemptsAscend(before);
      assert Follows(log[|log| - 2], log[|log| - 1]);
    }
  }

  lemma {:induction false} NoSegments(n: nat)
    ensures Segments([], n) == []
  {
    if n > 0 { NoSegments(n - 1); }
  }

  lemma {:induction false} LogIsItsSegments(log: seq<Event>, n: nat)
    requires LogShape(log) && AttemptsUpTo(log, n)
    ensures Segments(log, n) == log
  {
    if log == [] {
      NoSegments(n);
    } else {
      var before := log[..|log| - 1];
      var e := log[|log| - 1];
      LogIsItsSegments(before, n);
      AttemptsAscend(log);
      assert log == before + [e];
      assert AttemptsUpTo(before, e.attempt);
      SegmentsAppend(before, e, n);
    }
  }

  /** One attempt walks an in-order prefix of its plan, one stage per event; it may then
      fail, or, only after the last stage, succeed. */
  ghost predicate AttemptWalk(segment: seq<Event>) {
    && (forall i :: 0 <= i < |segment| - 1 ==> StageEvent(segment[i]))
    && (forall i :: 0 <= i < |segment| ==>
          LogEvent(segment[i])
          && (StageEvent(segment[i]) ==> segment[i].plan == segment[0].plan && Pos(segment[i]) == i + 1)
          && (SuccessEvent(segment[i]) ==>
                i > 0 && segment[i].plan == segment[0].plan && |segment[i].plan.stages| == i + 1))
  }

  /** The last event of an attempt still being walked is the last event of the log. */
  lemma {:induction false} SegmentEndsLog(log: seq<Event>, attempt: nat)
    requires LogShape(log) && AttemptsUpTo(log, attempt)
    ensures var segment := Segment(log, attempt);
      if segment == [] then AttemptsUpTo(log, attempt - 1)
      else log != [] && segment[|segment| - 1] == log[|log| - 1] && log[|log| - 1].attempt == attempt
  {
    if log != [] {
      var before := log[..|log| - 1];
      SegmentEndsLog(before, attempt);
      if log[|log| - 1].attempt < attempt {
        AttemptsAscend(log);
      }
    }
  }

  lemma {:induction false} SegmentWalks(log: seq<Event>, attempt: nat)
    requires LogShape(log)
    ensures AttemptWalk(Segment(log, attempt))
  {
    if log != [] {
      var before := log[..|log| - 1];
      var e := log[|log| - 1];
      SegmentWalks(before, attempt);
      if e.attempt == attempt {
        assert log == before + [e];
        AttemptsAscend(log);
        assert AttemptsUpTo(before, attempt);
        SegmentEndsLog(before, attempt);
        ExtendWalk(before, e);
        assert Segment(log, attempt) == Segment(before, attempt) + [e];
      }
    }
  }

  lemma ExtendWalk(before: seq<Event>, e: Event)
    requires LogShape(before + [e]) && AttemptWalk(Segment(before, e.attempt))
    requires var segment := Segment(before, e.attempt);
      if segment == [] then AttemptsUpTo(before, e.attempt - 1)
      else before != [] && segment[|segment| - 1] == before[|before| - 1]
           && before[|before| - 1].attempt == e.attempt
    ensures AttemptWalk(Segment(before, e.attempt) + [e])
  {
    var log := before + [e];
    if before == [] {
      assert First(log[0]);
    } else {
      assert Follows(log[|before| - 1], log[|before|]);
    }
  }

  /** Events carry one of the two plans a deployment can pick, unless they report failure. */
  ghost predicate KnownPlans(s: State) {
    && (forall i :: 0 <= i < |s.workers| ==>
          s.workers[i].plan == FULL_STAGE_PLAN || s.workers[i].plan == DETERMINISTIC_STAGE_PLAN)
    && (forall i :: 0 <= i < |s.run.log| ==>
          s.run.log[i].status == Failed
          || s.run.log[i].plan == FULL_STAGE_PLAN || s.run.log[i].plan == DETERMINISTIC_STAGE_PLAN)
  }

  lemma WorkerKeepsPlan(c: Settings, now: int, run: Run, w: Worker, a: Action)
    requires a.ByWorker() && WorkerEnabled(c, now, w, a)
    ensures var (run', w') := WorkerStep(c, now, run, w, a);
      && w'.plan == w.plan
      && |run.log| <= |run'.log| <= |run.log| + 1 && run.log <= run'.log
      && (run'.log != run.log ==> run'.log[|run.log|].plan == w.plan)
  {
  }

  /** Steps outside the workers log nothing but failures, under the plans they stored. */
  lemma OthersLogFailures(c: Settings, s: State, a: Action)
    requires Enabled(c, s, a) && !a.ByWorker()
    ensures var log, log' := s.run.log, Next(c, s, a).run.log;
      && log <= log' && |log'| <= |log| + 1
      && (log' != log ==> log'[|log|].status == Failed)
  {
  }

  lemma NewWorkersPlan(c: Settings, s: State, a: Action)
    requires KnownPlans(s) && Enabled(c, s, a) && !a.ByWorker()
    ensures forall i :: 0 <= i < |Next(c, s, a).workers| ==>
              Next(c, s, a).workers[i].plan == FULL_STAGE_PLAN
              || Next(c, s, a).workers[i].plan == DETERMINISTIC_STAGE_PLAN
  {
  }

  lemma KnownPlansStep(c: Settings, s: State, a: Action)
    requires KnownPlans(s) && Enabled(c, s, a)
    ensures KnownPlans(Next(c, s, a))
  {
    if a.ByWorker() {
      WorkerKeepsPlan(c, s.now, s.run, s.workers[a.w], a);
    } else {
      OthersLogFailures(c, s, a);
      NewWorkersPlan(c, s, a);
    }
  }

  lemma {:induction false} PlansAreKnown(c: Settings, h: History, i: nat)
    requires IsHistory(c, h) && i < |h.states|
    ensures KnownPlans(h.states[i])
  {
    if i > 0 {
      PlansAreKnown(c, h, i - 1);
      KnownPlansStep(c, h.states[i - 1], h.actions[i - 1]);
    }
  }

  /** The shape of every log: at most `maxAttempts` attempt walks, one after the other; only
      the very last event may be terminal. */
  lemma LogSplitsIntoAttempts(c: Settings, h: History, i: nat)
    requires Orderly(c, h) && i < |h.states|
    ensures var log := h.states[i].run.log;
      && Segments(log, c.maxAttempts) == log
      && (forall attempt: nat :: AttemptWalk(Segment(log, attempt)))
      && (forall k :: 0 <= k < |log| && Terminal(log[k].status) ==> k == |log| - 1)
      && (forall k :: 0 <= k < |log| ==> 1 <= log[k].attempt <= c.maxAttempts)
      && (forall k :: 0 <= k < |log| && log[k].status != Failed ==>
            log[k].plan == FULL_STAGE_PLAN || log[k].plan == DETERMINISTIC_STAGE_PLAN)
  {
    Reachable(c, h, i);
    PlansAreKnown(c, h, i);
    var log := h.states[i].run.log;
    LogIsItsSegments(log, c.maxAttempts);
    forall attempt: nat ensures AttemptWalk(Segment(log, attempt)) {
      SegmentWalks(log, attempt);
    }
    forall k | 0 <= k < |log| - 1
      ensures !Terminal(log[k].status)
    {
      assert Follows(log[k + 1 - 1], log[k + 1]);
    }
  }

  /** Within an attempt the percentage never falls, except that a failure reports the
      stored list of completed stages, which is 0 percent. */
  lemma PercentNeverFallsWithinAttempt(c: Settings, h: History, i: nat, attempt: nat, j: nat, k: nat)
    requires Orderly(c, h) && i < |h.states|
    requires j <= k < |Segment(h.states[i].run.log, attempt)|
    ensures var segment := Segment(h.states[i].run.log, attempt);
      if segment[k].status == Failed then segment[k].percent == 0
      else segment[j].percent <= segment[k].percent <= 100
  {
    LogSplitsIntoAttempts(c, h, i);
    WalkPercent(Segment(h.states[i].run.log, attempt), j, k);
  }

  lemma WalkPercent(segment: seq<Event>, j: nat, k: nat)
    requires AttemptWalk(segment) && j <= k < |segment|
    ensures if segment[k].status == Failed then segment[k].percent == 0
            else segment[j].percent <= segment[k].percent <= 100
  {
    var a, b := segment[j], segment[k];
    if StageEvent(b) {
      var more := b.completed[|a.completed|..];
      assert j < k ==> StageEvent(a);
      assert b.completed == a.completed + more;
      PercentNeverFalls(a.plan, a.completed, more);
    } else if SuccessEvent(b) && j < k {
      assert StageEvent(a);
      PercentNeverFalls(a.plan, a.completed, []);
    }
  }
}
