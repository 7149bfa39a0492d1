/** The server-sent-events reader: polling the persisted log, and what a client that
    reconnects with `Last-Event-ID` receives over all its connections. */
module EventStream {
  import opened Options
  import opened StagePlans
  import opened RunRows

  /** What reaches the client: an event with its id, or a comment it ignores. */
  datatype Frame = Delivered(id: nat, status: Status) | HeartbeatComment | TimeoutComment

  /** One poll: the row's status, then the log, as its two queries read them, and the clock
      when the poll ends. */
  datatype Poll = Poll(status: Status, log: seq<Event>, clock: int)

  datatype StreamSettings = StreamSettings(
    pollInterval: nat, heartbeat: nat, batchLimit: nat)

  /** A malformed header, `None` here, replays from the start; negatives are clamped. */
  function ParseLastEventId(raw: Option<int>): (after: nat)
    ensures raw.Some? && raw.value >= 0 ==> after == raw.value
  {
    match raw
    case None => 0
    case Some(value) => if value < 0 then 0 else value
  }

  // ------------------------------------------------------------------- replaying

  function RecordsAfter(log: seq<Event>, after: nat): seq<Event> {
    if log == [] then []
    else if log[0].sequence > after then [log[0]] + RecordsAfter(log[1..], after)
    else RecordsAfter(log[1..], after)
  }

  function Take(records: seq<Event>, limit: nat): seq<Event> {
    if |records| <= limit then records else records[..limit]
  }

  function Frames(records: seq<Event>): (frames: seq<Frame>)
    ensures |frames| == |records|
    ensures forall i :: 0 <= i < |records| ==>
              frames[i] == Delivered(records[i].sequence, records[i].status)
  {
    seq(|records|, i requires 0 <= i < |records| => Delivered(records[i].sequence, records[i].status))
  }

  /** Persisted transitions past `after`, or one made up from the row when nothing has been
      emitted yet; that one carries id 0. */
  function EventsSince(status: Status, log: seq<Event>, after: nat, limit: nat): seq<Frame> {
    var records := Take(RecordsAfter(log, after), limit);
    if records != [] then Frames(records)
    else if after == 0 then [Delivered(0, status)]
    else []
  }

  lemma {:induction false} RecordsAfterIsSuffix(log: seq<Event>, base: nat, after: nat)
    requires forall i :: 0 <= i < |log| ==> log[i].sequence == base + i + 1
    ensures RecordsAfter(log, after) ==
            (if after <= base then log else if after - base <= |log| then log[after - base..] else [])
  {
    if log != [] {
      forall i | 0 <= i < |log[1..]| ensures log[1..][i].sequence == base + 1 + i + 1 {
        assert log[1..][i] == log[i + 1];
      }
      RecordsAfterIsSuffix(log[1..], base + 1, after);
    }
  }

  /** The next ids, in order, as many as are logged or fit the batch. */
  predicate NextBatch(events: seq<Frame>, status: Status, log: seq<Event>, after: nat, limit: nat) {
    if after < |log| then
      && |events| == (if |log| - after <= limit then |log| - after else limit)
      && forall i :: 0 <= i < |events| ==> events[i] == Delivered(after + i + 1, log[after + i].status)
    else events == (if after == 0 then [Delivered(0, status)] else [])
  }

  lemma TakenFrames(log: seq<Event>, after: nat, limit: nat)
    requires Contiguous(log) && after < |log|
    ensures var events := Frames(Take(log[after..], limit));
      && |events| == (if |log| - after <= limit then |log| - after else limit)
      && forall i :: 0 <= i < |events| ==> events[i] == Delivered(after + i + 1, log[after + i].status)
  {
    var records := Take(log[after..], limit);
    forall i | 0 <= i < |records| ensures records[i] == log[after + i] {
    }
  }

  lemma RecordsOfLog(log: seq<Event>, after: nat)
    requires Contiguous(log)
    ensures RecordsAfter(log, after) == if after < |log| then log[after..] else []
  {
    RecordsAfterIsSuffix(log, 0, after);
  }

  /** A poll of a contiguous log delivers the next ids, in order, from the next one on. */
  lemma EventsSinceAreNext(status: Status, log: seq<Event>, after: nat, limit: nat)
    requires Contiguous(log) && limit > 0
    ensures NextBatch(EventsSince(status, log, after, limit), status, log, after, limit)
  {
    RecordsOfLog(log, after);
    if after < |log| { TakenFrames(log, after, limit); }
  }

  // ---------------------------------------------------------- what a stream may say

  /** Ids follow `after` one by one; the made-up id 0 appears only before any real one. */
  predicate Consecutive(frames: seq<Frame>, after: nat) {
    frames == []
    || match frames[0]
       case Delivered(id, _) =>
         if id == 0 then after == 0 && Consecutive(frames[1..], 0)
         else id == after + 1 && Consecutive(frames[1..], id)
       case _ => Consecutive(frames[1..], after)
  }

  function RealIds(frames: seq<Frame>): seq<nat> {
    if frames == [] then []
    else (if frames[0].Delivered? && frames[0].id != 0 then [frames[0].id] else [])
         + RealIds(frames[1..])
  }

  /** What the browser sends back when it reconnects. */
  function LastId(frames: seq<Frame>, initial: nat): nat {
    if frames == [] then initial
    else LastId(frames[1..], if frames[0].Delivered? then frames[0].id else initial)
  }

  predicate CountsFrom(ids: seq<nat>, after: nat) {
    forall i :: 0 <= i < |ids| ==> ids[i] == after + 1 + i
  }

  predicate StopsAtTerminal(frames: seq<Frame>) {
    forall i :: 0 <= i < |frames| - 1 ==> !(frames[i].Delivered? && Terminal(frames[i].status))
  }

  lemma {:induction false} ConsecutiveAppend(a: seq<Frame>, b: seq<Frame>, after: nat)
    requires Consecutive(a, after) && Consecutive(b, LastId(a, after))
    ensures Consecutive(a + b, after)
    ensures LastId(a + b, after) == LastId(b, LastId(a, after))
  {
    if a == [] {
      assert a + b == b;
    } else {
      assert (a + b)[1..] == a[1..] + b;
      ConsecutiveAppend(a[1..], b, if a[0].Delivered? then a[0].id else after);
    }
  }

  lemma {:induction false} ConsecutivePrefix(frames: seq<Frame>, k: nat, after: nat)
    requires Consecutive(frames, after) && k <= |frames|
    ensures Consecutive(frames[..k], after)
  {
    if k > 0 {
      assert frames[..k][1..] == frames[1..][..k - 1];
      ConsecutivePrefix(frames[1..], k - 1, if frames[0].Delivered? then frames[0].id else after);
    }
  }

  lemma {:induction false} ConsecutiveCounts(frames: seq<Frame>, after: nat)
    requires Consecutive(frames, after)
    ensures CountsFrom(RealIds(frames), after)
    ensures LastId(frames, after) == after + |RealIds(frames)|
  {
    if frames != [] {
      ConsecutiveCounts(frames[1..], if frames[0].Delivered? then frames[0].id else after);
    }
  }

  lemma ConsecutiveOne(frame: Frame, after: nat)
    requires !frame.Delivered? || frame.id == after + 1 || (frame.id == 0 && after == 0)
    ensures Consecutive([frame], after)
    ensures LastId([frame], after) == if frame.Delivered? then frame.id else after
  {
    assert [frame][1..] == [];
    assert Consecutive([], if frame.Delivered? then frame.id else after);
  }

  // ------------------------------------------------------------------- the stream

  /** The log only grows between polls and stays contiguous. It may go on after a terminal
      event. */
  ghost predicate Feed(polls: seq<Poll>) {
    && (forall k :: 0 <= k < |polls| ==> Contiguous(polls[k].log))
    && (forall j, k :: 0 <= j <= k < |polls| ==> polls[j].log <= polls[k].log)
  }

  /** Every real frame repeats the persisted event with that id, every made-up one a status
      that was read. */
  ghost predicate Faithful(frames: seq<Frame>, log: seq<Event>, said: set<Status>) {
    forall i :: 0 <= i < |frames| && frames[i].Delivered? ==>
      if frames[i].id == 0 then frames[i].status in said
      else frames[i].id <= |log| && frames[i].status == log[frames[i].id - 1].status
  }

  lemma FaithfulLater(frames: seq<Frame>, log: seq<Event>, said: set<Status>, later: seq<Event>, more: set<Status>)
    requires Faithful(frames, log, said) && log <= later && said <= more
    ensures Faithful(frames, later, more)
  {
  }

  function Statuses(polls: seq<Poll>): set<Status> { set k | 0 <= k < |polls| :: polls[k].status }

  /** Where a poll leaves a reader that stood at `after`: a whole batch further, or caught up. */
  function Advance(after: nat, logged: nat, limit: nat): nat {
    if logged <= after then after
    else if logged - after <= limit then logged else after + limit
  }

  function AdvanceAll(polls: seq<Poll>, after: nat, limit: nat): nat {
    if polls == [] then after
    else Advance(AdvanceAll(polls[..|polls| - 1], after, limit),
                 |polls[|polls| - 1].log|, limit)
  }

  function Max(a: nat, b: nat): nat { if a > b then a else b }

  /** The ids right after `start`, or the made-up event alone. */
  predicate NextIds(events: seq<Frame>, start: nat) {
    && (forall i :: 0 <= i < |events| ==> events[i].Delivered?)
    && ((start == 0 && |events| == 1 && events[0].id == 0)
        || forall i :: 0 <= i < |events| ==> events[i].id == start + i + 1)
  }

  lemma BatchFacts(events: seq<Frame>, status: Status, log: seq<Event>, after: nat, limit: nat)
    requires Contiguous(log) && limit > 0 && NextBatch(events, status, log, after, limit)
    ensures NextIds(events, after) && Faithful(events, log, {status})
    ensures LastId(events, after) == Advance(after, |log|, limit)
  {
    LastIdOfBatch(events, after);
  }

  /** Yield one poll's events, stopping right after a terminal one. */
  method YieldEvents(events: seq<Frame>, start: nat) returns (frames: seq<Frame>, after: nat, ended: bool)
    requires NextIds(events, start)
    ensures frames <= events && Consecutive(frames, start) && StopsAtTerminal(frames)
    ensures after == LastId(frames, start)
    ensures ended <==> frames != [] && Terminal(frames[|frames| - 1].status)
    ensures !ended ==> frames == events
  {
    frames, after, ended := [], start, false;
    for n := 0 to |events|
      invariant frames == events[..n] && Consecutive(frames, start)
      invariant after == LastId(frames, start)
      invariant n > 0 ==> after == events[n - 1].id
      invariant n == 0 ==> after == start
      invariant forall i :: 0 <= i < n ==> !Terminal(frames[i].status)
    {
      var event := events[n];
      ConsecutiveOne(event, after);
      ConsecutiveAppend(frames, [event], start);
      after := Max(after, event.id);
      frames := frames + [event];
      if Terminal(event.status) {
        ended := true;
        return;
      }
    }
  }

  predicate NothingTerminal(frames: seq<Frame>) {
    forall i :: 0 <= i < |frames| ==> !(frames[i].Delivered? && Terminal(frames[i].status))
  }

  predicate EndsTheStream(frame: Frame) {
    frame.TimeoutComment? || (frame.Delivered? && Terminal(frame.status))
  }

  method Fetch(poll: Poll, after: nat, limit: nat) returns (events: seq<Frame>)
    requires Contiguous(poll.log) && limit > 0
    ensures NextIds(events, after) && Faithful(events, poll.log, {poll.status})
    ensures LastId(events, after) == Advance(after, |poll.log|, limit)
  {
    EventsSinceAreNext(poll.status, poll.log, after, limit);
    events := EventsSince(poll.status, poll.log, after, limit);
    BatchFacts(events, poll.status, poll.log, after, limit);
  }

  /** One round of the loop up to its comments: query, yield, remember the last id. */
  method PollOnce(poll: Poll, position: nat, limit: nat)
    returns (frames: seq<Frame>, after: nat, ended: bool)
    requires Contiguous(poll.log) && limit > 0
    ensures Consecutive(frames, position) && StopsAtTerminal(frames)
    ensures after == LastId(frames, position) && Faithful(frames, poll.log, {poll.status})
    ensures if ended then frames != [] && EndsTheStream(frames[|frames| - 1])
            else NothingTerminal(frames) && after == Advance(position, |poll.log|, limit)
  {
    var events := Fetch(poll, position, limit);
    frames, after, ended := YieldEvents(events, position);
  }

  /** What a stream has sent while it goes on. */
  ghost predicate Sent(frames: seq<Frame>, start: nat, position: nat, log: seq<Event>, said: set<Status>) {
    && Consecutive(frames, start) && position == LastId(frames, start)
    && NothingTerminal(frames) && Faithful(frames, log, said)
  }

  lemma SendMore(frames: seq<Frame>, start: nat, position: nat, more: seq<Frame>, poll: Poll, log: seq<Event>,
                 said: set<Status>)
    requires Sent(frames, start, position, log, said)
    requires Consecutive(more, position) && StopsAtTerminal(more)
    requires Faithful(more, poll.log, {poll.status}) && poll.log <= log && poll.status in said
    ensures Consecutive(frames + more, start)
    ensures LastId(frames + more, start) == LastId(more, position)
    ensures StopsAtTerminal(frames + more) && Faithful(frames + more, log, said)
    ensures NothingTerminal(more) ==> NothingTerminal(frames + more)
  {
    ConsecutiveAppend(frames, more, start);
    FaithfulLater(more, poll.log, {poll.status}, log, said);
  }

  lemma SendComment(frames: seq<Frame>, start: nat, position: nat, comment: Frame, log: seq<Event>, said: set<Status>)
    requires Sent(frames, start, position, log, said) && !comment.Delivered?
    ensures Sent(frames + [comment], start, position, log, said)
  {
    ConsecutiveOne(comment, position);
    ConsecutiveAppend(frames, [comment], start);
  }

  /** A heartbeat comment after enough quiet polls. */
  method KeepAlive(frames: seq<Frame>, quiet: bool, idle: nat, settings: StreamSettings, ghost start: nat,
                   ghost position: nat, ghost log: seq<Event>, ghost said: set<Status>)
    returns (out: seq<Frame>, idle': nat)
    requires Sent(frames, start, position, log, said)
    ensures Sent(out, start, position, log, said)
    ensures out == frames || (quiet && out == frames + [HeartbeatComment])
    ensures idle' == 0 || (quiet && idle' == idle + settings.pollInterval < settings.heartbeat)
  {
    out, idle' := frames, 0;
    if quiet {
      idle' := idle + settings.pollInterval;
      if idle' >= settings.heartbeat {
        idle' := 0;
        SendComment(frames, start, position, HeartbeatComment, log, said);
        out := frames + [HeartbeatComment];
      }
    }
  }

  /** What a stream has sent when it returned: up to a terminal event or the deadline. */
  ghost predicate Ended(frames: seq<Frame>, start: nat, position: nat, log: seq<Event>, said: set<Status>) {
    && Consecutive(frames, start) && position == LastId(frames, start)
    && StopsAtTerminal(frames) && Faithful(frames, log, said)
    && frames != [] && EndsTheStream(frames[|frames| - 1])
  }

  /** One round of the loop. */
  method PollRound(poll: Poll, frames: seq<Frame>, position: nat, idle: nat, deadline: int,
                   settings: StreamSettings, ghost start: nat, ghost log: seq<Event>, ghost said: set<Status>)
    returns (out: seq<Frame>, after: nat, idle': nat, closed: bool)
    requires Sent(frames, start, position, log, said) && settings.batchLimit > 0
    requires Contiguous(poll.log) && poll.log <= log && poll.status in said
    ensures closed ==> Ended(out, start, after, log, said)
    ensures !closed ==> Sent(out, start, after, log, said)
                        && after == Advance(position, |poll.log|, settings.batchLimit)
  {
    var yielded, ended;
    yielded, after, ended := PollOnce(poll, position, settings.batchLimit);
    SendMore(frames, start, position, yielded, poll, log, said);
    out, idle', closed := frames + yielded, idle, ended;
    if ended { return; }
    out, idle' := KeepAlive(out, yielded == [], idle, settings, start, after, log, said);
    if poll.clock >= deadline {
      SendComment(out, start, after, TimeoutComment, log, said);
      out, closed := out + [TimeoutComment], true;
    }
  }

  /** `_stream` over any schedule of polls. It is cut when the schedule ends, returns after a
      terminal event or at the deadline, and until then misses nothing that was logged. */
  method Stream(polls: seq<Poll>, start: nat, deadline: int, settings: StreamSettings)
    returns (frames: seq<Frame>, position: nat, closed: bool)
    requires Feed(polls) && settings.batchLimit > 0
    ensures Consecutive(frames, start) && position == LastId(frames, start)
    ensures StopsAtTerminal(frames)
    ensures if polls == [] then frames == [] else Faithful(frames, polls[|polls| - 1].log, Statuses(polls))
    ensures closed ==> frames != [] && EndsTheStream(frames[|frames| - 1])
    ensures !closed ==> position == AdvanceAll(polls, start, settings.batchLimit)
  {
    frames, position, closed := [], start, false;
    var idle: nat := 0;
    var n := 0;
    ghost var said := Statuses(polls);
    ghost var log := if polls == [] then [] else polls[|polls| - 1].log;
    while n < |polls| && !closed
      invariant n <= |polls| && (n == 0 ==> frames == [] && !closed)
      invariant if closed then Ended(frames, start, position, log, said) else Sent(frames, start, position, log, said)
      invariant !closed ==> position == AdvanceAll(polls[..n], start, settings.batchLimit)
    {
      assert polls[..n + 1][..n] == polls[..n];
      frames, position, idle, closed :=
        PollRound(polls[n], frames, position, idle, deadline, settings, start, log, said);
      n := n + 1;
    }
    assert !closed ==> polls[..n] == polls;
  }

  lemma {:induction false} LastIdOfBatch(events: seq<Frame>, after: nat)
    requires forall i :: 0 <= i < |events| ==> events[i].Delivered?
    ensures LastId(events, after) == if events == [] then after else events[|events| - 1].id
  {
    if events != [] {
      LastIdOfBatch(events[1..], events[0].id);
    }
  }

  // ------------------------------------------------------------------ reconnecting

  /** One connection: what the server sent and how much of it arrived before the cut. */
  datatype Connection = Connection(frames: seq<Frame>, received: nat)

  /** Each connection starts from the last id received on the ones before it. */
  ghost predicate Reconnects(connections: seq<Connection>, after: nat) {
    connections == []
    || (&& connections[0].received <= |connections[0].frames|
        && Consecutive(connections[0].frames, after)
        && Reconnects(connections[1..],
                      LastId(connections[0].frames[..connections[0].received], after)))
  }

  function Received(connections: seq<Connection>): seq<nat>
    requires forall i :: 0 <= i < |connections| ==>
               connections[i].received <= |connections[i].frames|
  {
    if connections == [] then []
    else RealIds(connections[0].frames[..connections[0].received]) + Received(connections[1..])
  }

  lemma {:induction false} ReconnectsInRange(connections: seq<Connection>, after: nat)
    requires Reconnects(connections, after)
    ensures forall i :: 0 <= i < |connections| ==>
              connections[i].received <= |connections[i].frames|
  {
    if connections != [] {
      ReconnectsInRange(connections[1..],
                        LastId(connections[0].frames[..connections[0].received], after));
      forall i | 0 <= i < |connections|
        ensures connections[i].received <= |connections[i].frames|
      {
        assert i > 0 ==> connections[i] == connections[1..][i - 1];
      }
    }
  }

  /** Exactly once: over any number of connections, each cut anywhere and resumed with the
      last id received, the ids form one run without gap or duplicate. */
  lemma {:induction false} ReplayedExactlyOnce(connections: seq<Connection>, after: nat)
    requires Reconnects(connections, after)
    ensures forall i :: 0 <= i < |connections| ==>
              connections[i].received <= |connections[i].frames|
    ensures CountsFrom(Received(connections), after)
  {
    ReconnectsInRange(connections, after);
    if connections != [] {
      var arrived := connections[0].frames[..connections[0].received];
      ConsecutivePrefix(connections[0].frames, connections[0].received, after);
      ConsecutiveCounts(arrived, after);
      ReplayedExactlyOnce(connections[1..], LastId(arrived, after));
    }
  }

  /** The id a further connection would start from. */
  function FinalId(connections: seq<Connection>, after: nat): nat
    requires forall i :: 0 <= i < |connections| ==> connections[i].received <= |connections[i].frames|
  {
    if connections == [] then after
    else FinalId(connections[1..], LastId(connections[0].frames[..connections[0].received], after))
  }

  lemma {:induction false} ReconnectsAppend(connections: seq<Connection>, after: nat, next: Connection)
    requires forall i :: 0 <= i < |connections| ==> connections[i].received <= |connections[i].frames|
    requires Reconnects(connections, after) && next.received <= |next.frames|
    requires Consecutive(next.frames, FinalId(connections, after))
    ensures Reconnects(connections + [next], after)
    ensures FinalId(connections + [next], after)
            == LastId(next.frames[..next.received], FinalId(connections, after))
  {
    var all := connections + [next];
    if connections == [] {
      assert all[1..] == [];
      assert Reconnects([], LastId(next.frames[..next.received], after));
    } else {
      assert all[0] == connections[0] && all[1..] == connections[1..] + [next];
      ReconnectsAppend(connections[1..], LastId(connections[0].frames[..connections[0].received], after), next);
    }
  }

  predicate IdsWithin(ids: seq<nat>, log: seq<Event>) {
    forall k :: 0 <= k < |ids| ==> 1 <= ids[k] <= |log|
  }

  lemma {:induction false} RealIdsWithin(frames: seq<Frame>, log: seq<Event>, said: set<Status>)
    requires Faithful(frames, log, said)
    ensures IdsWithin(RealIds(frames), log)
  {
    if frames != [] {
      assert forall i :: 0 <= i < |frames[1..]| ==> frames[1..][i] == frames[i + 1];
      RealIdsWithin(frames[1..], log, said);
    }
  }

  lemma {:induction false} ReceivedWithin(connections: seq<Connection>, log: seq<Event>, said: set<Status>)
    requires forall i :: 0 <= i < |connections| ==>
               connections[i].received <= |connections[i].frames| && Faithful(connections[i].frames, log, said)
    ensures IdsWithin(Received(connections), log)
  {
    if connections != [] {
      var frames := connections[0].frames;
      assert forall i :: 0 <= i < connections[0].received ==> frames[..connections[0].received][i] == frames[i];
      RealIdsWithin(frames[..connections[0].received], log, said);
      ReceivedWithin(connections[1..], log, said);
    }
  }

  ghost predicate TerminalOnlyLast(log: seq<Event>) {
    forall i :: 0 <= i < |log| - 1 ==> !Terminal(log[i].status)
  }

  /** Where the log ends with its terminal event, nothing can follow that event in the client's
      hands: it is the last id there is, so every later real id would lie past the log. */
  lemma NothingAfterTerminal(connections: seq<Connection>, after: nat, log: seq<Event>, i: nat)
    requires Reconnects(connections, after) && TerminalOnlyLast(log)
    requires forall k :: 0 <= k < |connections| ==>
               connections[k].received <= |connections[k].frames|
    requires var ids := Received(connections);
      && i < |ids| && IdsWithin(ids, log)
      && Terminal(log[ids[i] - 1].status)
    ensures i == |Received(connections)| - 1
  {
    ReplayedExactlyOnce(connections, after);
    var ids := Received(connections);
    forall k | 0 <= k < |ids| - 1 ensures !Terminal(log[ids[k] - 1].status) {
      assert ids[k + 1] == ids[k] + 1;
    }
  }
}
