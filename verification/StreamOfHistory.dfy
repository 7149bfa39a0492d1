/** Reading the log while the protocol runs. */
module StreamOfHistory {
  import opened Options
  import opened RunRows
  import opened LeaseProtocol
  import opened LeaseTheorems
  import opened EventStream

  /** When a poll's two queries are answered: the row, then the log. */
  datatype Reads = Reads(row: nat, log: nat)

  /** Polls of one run, each query answered by some state of its history, in order of time. */
  ghost predicate PollsOf(polls: seq<Poll>, at: seq<Reads>, h: History) {
    && |at| == |polls|
    && (forall k :: 0 <= k < |at| ==>
          && at[k].row <= at[k].log < |h.states|
          && polls[k].status == h.states[at[k].row].run.row.status && polls[k].log == h.states[at[k].log].run.log)
    && forall j, k :: 0 <= j <= k < |at| ==> at[j].log <= at[k].log
  }

  /** Whatever the workers, reconcilers and crashes do meanwhile, under leases of any length and
      with stale give-ups, a reader that polls a run at any times sees a feed: a log that only
      grows and never skips a number. So everything proved of a stream holds of it. */
  lemma PollsAreAFeed(c: Settings, h: History, at: seq<Reads>, polls: seq<Poll>)
    requires IsHistory(c, h) && PollsOf(polls, at, h)
    ensures Feed(polls) && Statuses(polls) <= RowStatuses(h)
    ensures polls != [] ==> polls[|polls| - 1].log <= FinalLog(h)
  {
    forall k | 0 <= k < |polls| ensures Contiguous(polls[k].log) {
      LogIsContiguous(c, h, at[k].log, at[k].log);
    }
    forall j, k | 0 <= j <= k < |polls| ensures polls[j].log <= polls[k].log {
      LogIsContiguous(c, h, at[j].log, at[k].log);
    }
    if polls != [] { LogIsContiguous(c, h, at[|at| - 1].log, |h.states| - 1); }
  }

  /** The statuses the row ever had. */
  function RowStatuses(h: History): set<Status> { set k | 0 <= k < |h.states| :: h.states[k].run.row.status }

  /** The log at the end of a history. */
  function FinalLog(h: History): seq<Event>
    requires h.states != []
  {
    h.states[|h.states| - 1].run.log
  }

  /** What a client of a live run gets from one connection, for any times of polling. */
  method StreamLive(c: Settings, ghost h: History, ghost at: seq<Reads>, polls: seq<Poll>, start: nat, deadline: int,
                    settings: StreamSettings) returns (frames: seq<Frame>, closed: bool)
    requires IsHistory(c, h) && PollsOf(polls, at, h) && settings.batchLimit > 0
    ensures Consecutive(frames, start) && StopsAtTerminal(frames)
    ensures Faithful(frames, FinalLog(h), RowStatuses(h))
    ensures closed ==> frames != [] && EndsTheStream(frames[|frames| - 1])
    ensures !closed ==> LastId(frames, start) == AdvanceAll(polls, start, settings.batchLimit)
  {
    PollsAreAFeed(c, h, at, polls);
    var position;
    frames, position, closed := Stream(polls, start, deadline, settings);
    if polls != [] {
      FaithfulLater(frames, polls[|polls| - 1].log, Statuses(polls), FinalLog(h), RowStatuses(h));
    }
  }

  /** One connection to come: when it polls, its deadline, and how many frames arrive. */
  datatype Session = Session(polls: seq<Poll>, deadline: int, cut: nat)

  /** A connection as its session cut it, stopping at the first terminal event, faithful. */
  ghost predicate Served(connection: Connection, session: Session, h: History)
    requires h.states != []
  {
    && connection.received == Arrived(connection.frames, session.cut)
    && StopsAtTerminal(connection.frames) && Faithful(connection.frames, FinalLog(h), RowStatuses(h))
  }

  /** Exactly once, end to end, in every history: a client of a live run connects any number of
      times, each connection is served by the stream at its own times of polling, is cut
      anywhere, and the next one resumes with the last id received. Over all connections the
      ids form one run without gap or duplicate from the header on, every frame repeats the
      logged event of its id, and each connection stops at its first terminal event. Where the
      history is orderly, nothing follows a terminal event over all connections. */
  method ReplayLive(c: Settings, ghost h: History, ghost at: seq<seq<Reads>>, sessions: seq<Session>,
                    header: Option<int>, settings: StreamSettings)
    returns (connections: seq<Connection>)
    requires IsHistory(c, h) && settings.batchLimit > 0
    requires |at| == |sessions| && forall i :: 0 <= i < |sessions| ==> PollsOf(sessions[i].polls, at[i], h)
    ensures |connections| == |sessions|
    ensures forall i :: 0 <= i < |connections| ==> Served(connections[i], sessions[i], h)
    ensures forall i :: 0 <= i < |connections| ==> connections[i].received <= |connections[i].frames|
    ensures CountsFrom(Received(connections), ParseLastEventId(header))
    ensures IdsWithin(Received(connections), FinalLog(h))
    ensures Orderly(c, h) ==> TerminalComesLast(Received(connections), FinalLog(h))
  {
    var lastEventId := header;
    ghost var first := ParseLastEventId(header);
    connections := [];
    for n := 0 to |sessions|
      invariant |connections| == n
      invariant forall i :: 0 <= i < n ==> Served(connections[i], sessions[i], h)
      invariant Reconnects(connections, first) && ParseLastEventId(lastEventId) == FinalId(connections, first)
    {
      var start := ParseLastEventId(lastEventId);
      var frames, closed := StreamLive(c, h, at[n], sessions[n].polls, start, sessions[n].deadline, settings);
      var next := Connection(frames, Arrived(frames, sessions[n].cut));
      ReconnectsAppend(connections, first, next);
      lastEventId := Some(LastId(frames[..next.received], start));
      connections := connections + [next];
    }
    ReplayedExactlyOnce(connections, first);
    ReceivedWithin(connections, FinalLog(h), RowStatuses(h));
    if Orderly(c, h) {
      LogSplitsIntoAttempts(c, h, |h.states| - 1);
      ReplayEndsTerminal(FinalLog(h), connections, first);
    }
  }

  function Arrived(frames: seq<Frame>, cut: nat): (received: nat)
    ensures received <= |frames|
  {
    if cut <= |frames| then cut else |frames|
  }

  ghost predicate TerminalComesLast(ids: seq<nat>, log: seq<Event>)
    requires IdsWithin(ids, log)
  {
    forall i :: 0 <= i < |ids| && Terminal(log[ids[i] - 1].status) ==> i == |ids| - 1
  }

  lemma ReplayEndsTerminal(log: seq<Event>, connections: seq<Connection>, first: nat)
    requires TerminalOnlyLast(log) && Reconnects(connections, first)
    requires forall i :: 0 <= i < |connections| ==> connections[i].received <= |connections[i].frames|
    requires IdsWithin(Received(connections), log)
    ensures TerminalComesLast(Received(connections), log)
  {
    var ids := Received(connections);
    forall i | 0 <= i < |ids| && Terminal(log[ids[i] - 1].status) ensures i == |ids| - 1 {
      NothingAfterTerminal(connections, first, log, i);
    }
  }
}
