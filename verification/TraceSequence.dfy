/** The random run traces of the stress-test seeder. */
module TraceSequence {
  import opened Numbers

  datatype RunStatus = RunFailed | Running | Queued | Cancelled | TimedOut | Terminated | Stale | Completed

  datatype EventType =
    | NodeStarted
    | NodeProgress
    | HttpRequestSent(requestId: nat)
    | HttpResponseReceived(responseId: nat)
    | NodeCompleted
    | NodeFailed
    | NodeSkipped

  /** An event of the node at an index of the node list. */
  datatype TraceEvent = TraceEvent(event: EventType, node: nat)

  type Trace = seq<TraceEvent>

  predicate IsRunning(status: RunStatus) { status.Running? || status.Queued? }

  /** How the last node of the list ends. */
  function LastEnd(status: RunStatus): EventType {
    match status
    case RunFailed => NodeFailed
    case Cancelled => NodeSkipped
    case TimedOut => NodeFailed
    case Terminated => NodeFailed
    case Stale => NodeFailed
    case _ => NodeCompleted
  }

  /** The events of one node: how many progress events, the id of the HTTP exchange if there
      is one, and the end if there is one. */
  datatype Block = Block(node: nat, progress: nat, http: seq<nat>, end: seq<EventType>)

  function Repeat(e: TraceEvent, n: nat): Trace {
    if n == 0 then [] else Repeat(e, n - 1) + [e]
  }

  function HttpEvents(node: nat, http: seq<nat>): Trace {
    if http == [] then []
    else [TraceEvent(HttpRequestSent(http[0]), node), TraceEvent(HttpResponseReceived(http[0]), node)]
  }

  function EndEvents(node: nat, end: seq<EventType>): Trace {
    if end == [] then [] else [TraceEvent(end[0], node)]
  }

  function Events(b: Block): Trace {
    [TraceEvent(NodeStarted, b.node)] + Repeat(TraceEvent(NodeProgress, b.node), b.progress)
    + HttpEvents(b.node, b.http) + EndEvents(b.node, b.end)
  }

  function Flatten(blocks: seq<Block>): Trace {
    if blocks == [] then [] else Flatten(blocks[..|blocks| - 1]) + Events(blocks[|blocks| - 1])
  }

  /** STARTED PROGRESS* (REQUEST RESPONSE)? END, at most three progress events, END missing
      only for the last active node of a running run, and a failure or a skip only for the
      last node of the list. */
  predicate IsBlock(b: Block, k: nat, nodes: nat, active: nat, status: RunStatus) {
    && b.node == k && b.progress <= 3 && |b.http| <= 1
    && b.end == NodeEnd(k, nodes, active, status)
  }

  predicate AreBlocks(blocks: seq<Block>, nodes: nat, active: nat, status: RunStatus) {
    |blocks| <= active && forall k :: 0 <= k < |blocks| ==> IsBlock(blocks[k], k, nodes, active, status)
  }

  /** A block behind so many events shows the progress that was chosen, as far as the limit
      lets it, and the exchange exactly when it was wanted and both its events fit. */
  predicate ShowsChoices(b: Block, before: nat, maxTraces: int, progress: nat, http: bool, exchangeId: nat) {
    && b.progress <= progress
    && (b.progress < progress ==> maxTraces <= before + 1 + b.progress)
    && (0 < b.progress ==> before + 1 + b.progress <= maxTraces)
    && b.http == if http && before + 3 + b.progress <= maxTraces then [exchangeId] else []
  }

  /** Each node has its share of the limit; progress events take what start and end leave. */
  predicate ShareAllows(progress: nat, maxTraces: int, nodes: nat) {
    progress == 0 || (progress <= 3 && (progress + 2) * Max(1, nodes) <= maxTraces)
  }

  /** The greatest number of progress events that was chosen and that the share allows. */
  predicate IsProgressOf(count: nat, chosen: nat, maxTraces: int, nodes: nat) {
    && count <= chosen && ShareAllows(count, maxTraces, nodes)
    && (count < chosen ==> !ShareAllows(count + 1, maxTraces, nodes))
  }

  /** The random choices: how many nodes are active, progress events and HTTP exchanges. */
  datatype Choices = Choices(active: nat, progress: nat -> nat, http: nat -> bool, exchangeId: nat -> nat)

  /** A block shows the choices for its node. */
  ghost predicate ShowsNode(b: Block, k: nat, before: nat, nodes: nat, maxTraces: int, c: Choices) {
    exists count: nat ::
      && IsProgressOf(count, c.progress(k), maxTraces, nodes)
      && ShowsChoices(b, before, maxTraces, count, c.http(k), c.exchangeId(k))
  }

  ghost predicate AllShowChoices(blocks: seq<Block>, nodes: nat, maxTraces: int, c: Choices) {
    forall k :: 0 <= k < |blocks| ==> ShowsNode(blocks[k], k, |Flatten(blocks[..k])|, nodes, maxTraces, c)
  }

  /** A running run has between one active node and all of them. */
  predicate ActiveInRange(c: Choices, nodes: nat) {
    1 <= c.active <= if nodes > 1 then nodes else 1
  }

  method Progress(node: nat, count: nat, maxTraces: int, traces: Trace) returns (longer: Trace, done: nat)
    ensures done <= count && longer == traces + Repeat(TraceEvent(NodeProgress, node), done)
    ensures |longer| == |traces| + done <= Max(|traces|, maxTraces)
    ensures done < count ==> maxTraces <= |longer|
  {
    longer, done := traces, 0;
    while done < count && |longer| < maxTraces
      invariant done <= count && longer == traces + Repeat(TraceEvent(NodeProgress, node), done)
      invariant |longer| == |traces| + done <= Max(|traces|, maxTraces)
    {
      longer := longer + [TraceEvent(NodeProgress, node)];
      done := done + 1;
    }
  }

  /** The exchange of one node, when it is wanted and both events fit. */
  method HttpExchange(k: nat, wanted: bool, exchangeId: nat, maxTraces: int, traces: Trace)
    returns (longer: Trace, ghost exchange: seq<nat>)
    ensures exchange == if wanted && |traces| + 2 <= maxTraces then [exchangeId] else []
    ensures longer == traces + HttpEvents(k, exchange) && |longer| <= Max(|traces|, maxTraces)
  {
    longer, exchange := traces, [];
    if wanted && |traces| + 2 <= maxTraces {
      exchange := [exchangeId];
      longer := traces + [TraceEvent(HttpRequestSent(exchangeId), k), TraceEvent(HttpResponseReceived(exchangeId), k)];
    }
  }

  function NodeEnd(k: nat, nodes: nat, active: nat, status: RunStatus): seq<EventType> {
    if k + 1 == nodes && LastEnd(status) != NodeCompleted then [LastEnd(status)]
    else if IsRunning(status) && k + 1 == active then []
    else [NodeCompleted]
  }

  /** The completion of one node, by the status of the run. */
  method Completion(k: nat, nodes: nat, active: nat, status: RunStatus, traces: Trace) returns (longer: Trace)
    ensures longer == traces + EndEvents(k, NodeEnd(k, nodes, active, status))
  {
    var isLastNode, isLastActiveNode := k + 1 == nodes, k + 1 == active;
    if status.RunFailed? && isLastNode {
      longer := traces + [TraceEvent(NodeFailed, k)];
    } else if status.Cancelled? && isLastNode {
      longer := traces + [TraceEvent(NodeSkipped, k)];
    } else if status.TimedOut? && isLastNode {
      longer := traces + [TraceEvent(NodeFailed, k)];
    } else if (status.Terminated? || status.Stale?) && isLastNode {
      longer := traces + [TraceEvent(NodeFailed, k)];
    } else if IsRunning(status) && isLastActiveNode {
      longer := traces;
    } else {
      longer := traces + [TraceEvent(NodeCompleted, k)];
    }
  }

  /** The events of one node. */
  method TraceNode(k: nat, nodes: nat, active: nat, status: RunStatus, maxTraces: int,
                   progressCount: nat, http: bool, exchangeId: nat, traces: Trace)
    returns (longer: Trace, ghost block: Block)
    requires |traces| < maxTraces && progressCount <= 3
    ensures IsBlock(block, k, nodes, active, status)
    ensures ShowsChoices(block, |traces|, maxTraces, progressCount, http, exchangeId)
    ensures longer == traces + Events(block) && |traces| < |longer| <= maxTraces + 1
  {
    var started := traces + [TraceEvent(NodeStarted, k)];
    var progressed, done := Progress(k, progressCount, maxTraces, started);
    var exchanged; ghost var exchange;
    exchanged, exchange := HttpExchange(k, http, exchangeId, maxTraces, progressed);
    longer := Completion(k, nodes, active, status, exchanged);
    block := Block(k, done, exchange, NodeEnd(k, nodes, active, status));
    assert longer == traces + Events(block);
  }

  function MaxPerNode(maxTraces: int, nodes: nat): (m: int)
    ensures 2 <= m
  {
    Max(2, if maxTraces < 0 then 0 else maxTraces / Max(1, nodes))
  }

  lemma ShareOfLimit(chosen: nat, maxTraces: int, nodes: nat)
    requires 0 <= maxTraces
    ensures IsProgressOf(Min(chosen, Min(3, MaxPerNode(maxTraces, nodes) - 2)), chosen, maxTraces, nodes)
  {
    var n := Max(1, nodes);
    FitsIff(maxTraces, n, 3);
    FitsIff(maxTraces, n, 4);
    FitsIff(maxTraces, n, 5);
  }

  lemma FitsIff(maxTraces: nat, n: nat, m: nat)
    requires 0 < n
    ensures m <= maxTraces / n <==> m * n <= maxTraces
  {
    var share := maxTraces / n;
    assert n * share <= maxTraces < n * share + n;
    if m <= share {
      TimesGrows(n, m, share);
    } else {
      TimesGrows(n, share + 1, m);
    }
  }

  lemma TimesGrows(n: nat, a: nat, b: nat)
    requires a <= b
    ensures n * a <= n * b
  {
  }

  lemma ChoicesSnoc(blocks: seq<Block>, b: Block, nodes: nat, maxTraces: int, c: Choices)
    requires AllShowChoices(blocks, nodes, maxTraces, c)
    requires ShowsNode(b, |blocks|, |Flatten(blocks)|, nodes, maxTraces, c)
    ensures AllShowChoices(blocks + [b], nodes, maxTraces, c)
  {
    hide ShowsNode, Flatten;
    var longer := blocks + [b];
    forall k | 0 <= k < |longer|
      ensures ShowsNode(longer[k], k, |Flatten(longer[..k])|, nodes, maxTraces, c)
    {
      if k < |blocks| {
        assert longer[..k] == blocks[..k];
      } else {
        assert longer[..k] == blocks;
      }
    }
  }

  lemma BlocksSnoc(blocks: seq<Block>, b: Block, nodes: nat, active: nat, status: RunStatus)
    requires AreBlocks(blocks, nodes, active, status) && |blocks| < active
    requires IsBlock(b, |blocks|, nodes, active, status)
    ensures AreBlocks(blocks + [b], nodes, active, status)
    ensures Flatten(blocks + [b]) == Flatten(blocks) + Events(b)
  {
    assert (blocks + [b])[..|blocks|] == blocks;
  }

  /** For every node list, status, limit and random choice: the trace is a sequence of node
      blocks in node order, and exceeds its limit by at most one event. */
  method GenerateTraceSequence(nodes: nat, status: RunStatus, maxTraces: int, c: Choices)
    returns (traces: Trace, ghost blocks: seq<Block>)
    requires ActiveInRange(c, nodes)
    ensures traces == Flatten(blocks)
    ensures AreBlocks(blocks, nodes, if IsRunning(status) then c.active else nodes, status)
    ensures AllShowChoices(blocks, nodes, maxTraces, c)
    ensures |traces| <= Max(0, maxTraces + 1)
    ensures |blocks| < (if IsRunning(status) then c.active else nodes) ==> maxTraces <= |traces|
  {
    traces, blocks := [], [];
    var maxPerNode := MaxPerNode(maxTraces, nodes);
    var active := if IsRunning(status) then c.active else nodes;
    var k := 0;
    while k < active && |traces| < maxTraces
      invariant k <= active && |blocks| == k && traces == Flatten(blocks)
      invariant AreBlocks(blocks, nodes, active, status)
      invariant AllShowChoices(blocks, nodes, maxTraces, c)
      invariant |traces| <= Max(0, maxTraces + 1)
    {
      var count := Min(c.progress(k), Min(3, maxPerNode - 2));
      ghost var block;
      traces, block := TraceNode(k, nodes, active, status, maxTraces, count, c.http(k), c.exchangeId(k), traces);
      ShareOfLimit(c.progress(k), maxTraces, nodes);
      ChoicesSnoc(blocks, block, nodes, maxTraces, c);
      BlocksSnoc(blocks, block, nodes, active, status);
      blocks := blocks + [block];
      k := k + 1;
    }
  }

  // ---------- what a whole trace looks like ----------

  predicate IsAbnormalEnd(e: TraceEvent) {
    e.event.NodeFailed? || e.event.NodeSkipped?
  }

  lemma {:induction false} RepeatIsUniform(e: TraceEvent, n: nat)
    ensures |Repeat(e, n)| == n && forall i :: 0 <= i < n ==> Repeat(e, n)[i] == e
  {
    if n > 0 {
      RepeatIsUniform(e, n - 1);
    }
  }

  lemma EventsEndOnlyLast(b: Block, k: nat, nodes: nat, active: nat, status: RunStatus)
    requires IsBlock(b, k, nodes, active, status)
    ensures forall i :: 0 <= i < |Events(b)| && IsAbnormalEnd(Events(b)[i]) ==> i == |Events(b)| - 1 && k + 1 == nodes
  {
    RepeatIsUniform(TraceEvent(NodeProgress, b.node), b.progress);
  }

  /** A failure or a skip is the last event of the whole trace, so there is at most one. */
  lemma {:induction false} AbnormalEndIsLast(blocks: seq<Block>, nodes: nat, active: nat, status: RunStatus, i: nat)
    requires AreBlocks(blocks, nodes, active, status) && active <= Max(1, nodes)
    requires i < |Flatten(blocks)| && IsAbnormalEnd(Flatten(blocks)[i])
    ensures i == |Flatten(blocks)| - 1 && |blocks| == nodes
  {
    var n := |blocks| - 1;
    var front := Flatten(blocks[..n]);
    EventsEndOnlyLast(blocks[n], n, nodes, active, status);
    if i < |front| {
      AbnormalEndIsLast(blocks[..n], nodes, active, status, i);
    } else {
      assert Flatten(blocks)[i] == Events(blocks[n])[i - |front|];
    }
  }

  /** A trace with a failure is one of a run that failed, timed out, was terminated or went
      stale; a trace with a skip is one of a cancelled run. */
  lemma {:induction false} AbnormalEndTellsStatus(blocks: seq<Block>, nodes: nat, active: nat, status: RunStatus,
                                                  i: nat)
    requires AreBlocks(blocks, nodes, active, status) && active <= Max(1, nodes)
    requires i < |Flatten(blocks)|
    ensures Flatten(blocks)[i].event.NodeFailed? ==>
              status.RunFailed? || status.TimedOut? || status.Terminated? || status.Stale?
    ensures Flatten(blocks)[i].event.NodeSkipped? ==> status.Cancelled?
  {
    if IsAbnormalEnd(Flatten(blocks)[i]) {
      var n := |blocks| - 1;
      AbnormalEndIsLast(blocks, nodes, active, status, i);
      EventsEndOnlyLast(blocks[n], n, nodes, active, status);
      var events := Events(blocks[n]);
      assert Flatten(blocks)[i] == events[|events| - 1];
      assert events[|events| - 1] == EndEvents(n, blocks[n].end)[0];
    }
  }

  /** A run that failed, was skipped, timed out or was stopped ends with that event exactly
      when the limit lets the trace come to the last node. */
  lemma TerminalRunEndsSo(blocks: seq<Block>, nodes: nat, status: RunStatus)
    requires AreBlocks(blocks, nodes, nodes, status) && 0 < nodes
    requires !IsRunning(status) && !status.Completed?
    ensures |blocks| == nodes <==>
              && Flatten(blocks) != []
              && Flatten(blocks)[|Flatten(blocks)| - 1] ==
                 TraceEvent(if status.Cancelled? then NodeSkipped else NodeFailed, nodes - 1)
  {
    if blocks != [] {
      var n := |blocks| - 1;
      var events := Events(blocks[n]);
      assert events[|events| - 1] == EndEvents(n, blocks[n].end)[0];
      assert Flatten(blocks)[|Flatten(blocks)| - 1] == events[|events| - 1];
    }
  }
}
