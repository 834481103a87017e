/** Request multiplexing over one Chrome DevTools socket. */
module CdpSession {
  import opened Options

  type CommandId = nat

  datatype Outcome = Replied(result: int) | Refused(error: int) | TimedOut | SessionClosed

  /** A reply carries an id, or it is an event without one. */
  datatype Message = Message(id: Option<CommandId>, failed: bool, payload: int)

  /** Per command, the calls made on its promise, in order. */
  type Calls = map<CommandId, seq<Outcome>>

  datatype State = State(nextId: CommandId, pending: set<CommandId>, timers: set<CommandId>, calls: Calls)

  const OPENED := State(1, {}, {}, map[])

  function Called(calls: Calls, id: CommandId, outcome: Outcome): Calls {
    calls[id := (if id in calls then calls[id] else []) + [outcome]]
  }

  function Send(s: State): State {
    State(s.nextId + 1, s.pending + {s.nextId}, s.timers + {s.nextId}, s.calls[s.nextId := []])
  }

  function Receive(s: State, m: Message): State {
    if m.id == None || m.id.value == 0 || m.id.value !in s.pending then s
    else
      var id := m.id.value;
      s.(pending := s.pending - {id}, timers := s.timers - {id},
         calls := Called(s.calls, id, if m.failed then Refused(m.payload) else Replied(m.payload)))
  }

  function Expire(s: State, id: CommandId): State {
    s.(pending := s.pending - {id}, timers := s.timers - {id}, calls := Called(s.calls, id, TimedOut))
  }

  function CallAll(calls: Calls, ids: set<CommandId>): Calls {
    calls + map id | id in ids :: (if id in calls then calls[id] else []) + [SessionClosed]
  }

  function Close(s: State): State {
    s.(pending := {}, timers := s.timers - s.pending, calls := CallAll(s.calls, s.pending))
  }

  /** The session object: its id counter, its waiters and their timers. */
  class Session {
    var nextId: CommandId
    var pending: set<CommandId>
    var timers: set<CommandId>
    var calls: Calls

    function Abs(): State
      reads this
    {
      State(nextId, pending, timers, calls)
    }

    constructor ()
      ensures Abs() == OPENED
    {
      nextId, pending, timers, calls := 1, {}, {}, map[];
    }

    method SendCommand() returns (id: CommandId)
      modifies this
      ensures id == old(nextId) && Abs() == Send(old(Abs()))
    {
      id := nextId;
      nextId := nextId + 1;
      timers := timers + {id};
      pending := pending + {id};
      calls := calls[id := []];
    }

    method OnMessage(m: Message)
      modifies this
      ensures Abs() == Receive(old(Abs()), m)
    {
      if m.id == None || m.id.value == 0 { return; }
      var id := m.id.value;
      if id !in pending { return; }
      pending := pending - {id};
      timers := timers - {id};
      calls := Called(calls, id, if m.failed then Refused(m.payload) else Replied(m.payload));
    }

    method OnTimeout(id: CommandId)
      modifies this
      ensures Abs() == Expire(old(Abs()), id)
    {
      timers := timers - {id};
      pending := pending - {id};
      calls := Called(calls, id, TimedOut);
    }

    /** Every waiter is rejected, then the map is cleared. */
    method CloseSession()
      modifies this
      ensures Abs() == Close(old(Abs()))
    {
      timers, calls := RejectWaiters(pending, timers, calls);
      pending := {};
    }
  }

  /** One waiter: its timer is cancelled and its promise rejected. */
  method RejectWaiter(id: CommandId, ids: set<CommandId>, timers: set<CommandId>, calls: Calls)
    returns (left: set<CommandId>, after: Calls)
    requires id !in ids
    ensures left == timers - {id}
    ensures forall before: Calls :: calls == CallAll(before, ids) ==> after == CallAll(before, ids + {id})
  {
    left := timers - {id};
    after := Called(calls, id, SessionClosed);
    forall before: Calls | calls == CallAll(before, ids)
      ensures after == CallAll(before, ids + {id})
    {
      assert after.Keys == CallAll(before, ids + {id}).Keys;
    }
  }

  method RejectWaiters(ids: set<CommandId>, timers: set<CommandId>, calls: Calls)
    returns (left: set<CommandId>, after: Calls)
    ensures left == timers - ids && after == CallAll(calls, ids)
  {
    left, after := timers, calls;
    var waiting := ids;
    while waiting != {}
      invariant waiting <= ids && left == timers - (ids - waiting)
      invariant after == CallAll(calls, ids - waiting)
      decreases waiting
    {
      var id: CommandId :| id in waiting;
      left, after := RejectWaiter(id, ids - waiting, left, after);
      assert ids - (waiting - {id}) == ids - waiting + {id};
      waiting := waiting - {id};
    }
    assert ids - waiting == ids;
  }

  // ---------- runs ----------

  datatype Event = SendOne | Deliver(message: Message) | TimerFires(id: CommandId) | CloseAll

  predicate Enabled(s: State, e: Event) {
    e.TimerFires? ==> e.id in s.timers
  }

  function Step(s: State, e: Event): State {
    match e
    case SendOne => Send(s)
    case Deliver(m) => Receive(s, m)
    case TimerFires(id) => Expire(s, id)
    case CloseAll => Close(s)
  }

  function Exec(es: seq<Event>): Option<State> {
    if es == [] then Some(OPENED)
    else
      match Exec(es[..|es| - 1])
      case None => None
      case Some(s) => if Enabled(s, es[|es| - 1]) then Some(Step(s, es[|es| - 1])) else None
  }

  /** Every command sent is either pending, with a timer and no call yet, or has had
      exactly one call on its promise. */
  ghost predicate Inv(s: State) {
    && 1 <= s.nextId && s.timers == s.pending
    && (forall id: CommandId :: id in s.calls <==> 1 <= id < s.nextId)
    && (forall id <- s.pending :: id in s.calls)
    && (forall id <- s.calls.Keys :: |s.calls[id]| == if id in s.pending then 0 else 1)
  }

  lemma StepInv(s: State, e: Event)
    requires Inv(s) && Enabled(s, e)
    ensures Inv(Step(s, e))
  {
  }

  lemma {:induction false} ExecInv(es: seq<Event>)
    requires Exec(es).Some?
    ensures Inv(Exec(es).value)
  {
    if es != [] {
      ExecInv(es[..|es| - 1]);
      StepInv(Exec(es[..|es| - 1]).value, es[|es| - 1]);
    }
  }

  /** The commands sent are those below the next id; each settles at most once; and the
      pending ones are exactly those sent that have not settled. */
  lemma SettlesAtMostOnce(es: seq<Event>)
    requires Exec(es).Some?
    ensures var s := Exec(es).value;
            && s.pending <= s.calls.Keys
            && (forall id: CommandId :: id in s.calls <==> 1 <= id < s.nextId)
            && forall id <- s.calls.Keys :: |s.calls[id]| <= 1 && (id in s.pending <==> s.calls[id] == [])
  {
    ExecInv(es);
  }

  /** Closing settles everything pending, so that every command ever sent has settled once. */
  lemma CloseSettlesAll(es: seq<Event>)
    requires es != [] && es[|es| - 1] == CloseAll && Exec(es).Some?
    ensures var s := Exec(es).value;
            s.pending == {} && forall id :: 1 <= id < s.nextId ==> id in s.calls && |s.calls[id]| == 1
  {
    ExecInv(es);
  }

  ghost predicate Settled(es: seq<Event>, id: CommandId) {
    Exec(es).Some? && id in Exec(es).value.calls && Exec(es).value.calls[id] != []
  }

  /** In every run in which a command has settled, by a reply, a timeout or the closing, a
      further message with its id changes nothing at all. */
  lemma LateRepliesAreIgnored(es: seq<Event>, id: CommandId, m: Message)
    requires Settled(es, id) && m.id == Some(id)
    ensures Exec(es + [Deliver(m)]) == Exec(es)
  {
    ExecInv(es);
    assert (es + [Deliver(m)])[..|es|] == es;
  }

  /** However a run goes on, a settled command keeps the outcome it settled with. */
  lemma {:induction false} FirstOutcomeStays(es: seq<Event>, more: seq<Event>, id: CommandId)
    requires Settled(es, id) && Exec(es + more).Some?
    ensures id in Exec(es + more).value.calls
    ensures Exec(es + more).value.calls[id] == Exec(es).value.calls[id]
    decreases |more|
  {
    if more == [] {
      assert es + more == es;
    } else {
      var n := |more| - 1;
      assert (es + more)[..|es + more| - 1] == es + more[..n];
      FirstOutcomeStays(es, more[..n], id);
      ExecInv(es + more[..n]);
      ExecInv(es + more);
      CallsStep(Exec(es + more[..n]).value, more[n], id);
    }
  }

  function ReplyOf(m: Message): Outcome {
    if m.failed then Refused(m.payload) else Replied(m.payload)
  }

  /** How an event settles a command that is pending: a message with its id by what the message
      says, its own timer by a timeout, the closing by a rejection. */
  function Settles(e: Event, id: CommandId): Option<Outcome> {
    match e
    case SendOne => None
    case Deliver(m) => if m.id == Some(id) then Some(ReplyOf(m)) else None
    case TimerFires(other) => if other == id then Some(TimedOut) else None
    case CloseAll => Some(SessionClosed)
  }

  /** What one step does to the calls on a command. */
  lemma CallsStep(s: State, e: Event, id: CommandId)
    requires Inv(s) && Enabled(s, e) && id in Step(s, e).calls
    ensures Step(s, e).calls[id] ==
            if id !in s.calls then []
            else if id in s.pending && Settles(e, id).Some? then [Settles(e, id).value]
            else s.calls[id]
    ensures id in Step(s, e).pending <==> id !in s.calls || (id in s.pending && Settles(e, id).None?)
  {
    if id in s.pending {
      assert s.calls[id] == [];
    }
  }

  predicate SettlesNow(s: State, e: Event, id: CommandId, outcome: Outcome) {
    id in s.pending && Settles(e, id) == Some(outcome)
  }

  ghost predicate SettledAt(es: seq<Event>, i: nat, id: CommandId, outcome: Outcome) {
    i < |es| && Exec(es[..i]).Some? && SettlesNow(Exec(es[..i]).value, es[i], id, outcome)
  }

  /** A command has an outcome exactly when, while it was pending, an event gave it that
      outcome: so an answered command was answered by a message with its own id, and the first
      such message answers it. */
  lemma {:induction false} SettledIff(es: seq<Event>, id: CommandId, outcome: Outcome)
    requires Exec(es).Some? && id in Exec(es).value.calls
    ensures Exec(es).value.calls[id] == [outcome] <==> EverSettled(es, id, outcome)
  {
    if es != [] {
      var n := |es| - 1;
      var front := es[..n];
      var s := Exec(front).value;
      ExecInv(front);
      CallsStep(s, es[n], id);
      SettledSnoc(es, id, outcome);
      if id in s.calls {
        SettledIff(front, id, outcome);
      } else {
        NotSettledUnsent(front, id, outcome);
      }
    }
  }

  ghost predicate EverSettled(es: seq<Event>, id: CommandId, outcome: Outcome) {
    exists i :: SettledAt(es, i, id, outcome)
  }

  lemma SettledFront(es: seq<Event>, i: nat, id: CommandId, outcome: Outcome)
    requires i < |es| - 1
    ensures SettledAt(es, i, id, outcome) <==> SettledAt(es[..|es| - 1], i, id, outcome)
  {
    assert es[..|es| - 1][..i] == es[..i];
  }

  lemma SettledSnoc(es: seq<Event>, id: CommandId, outcome: Outcome)
    requires es != [] && Exec(es).Some?
    ensures var n := |es| - 1;
            EverSettled(es, id, outcome) <==>
              EverSettled(es[..n], id, outcome) || SettlesNow(Exec(es[..n]).value, es[n], id, outcome)
  {
    var n := |es| - 1;
    SettledLast(es, id, outcome);
    assert forall i: nat :: SettledAt(es, i, id, outcome) ==> i <= n;
    assert forall i: nat :: SettledAt(es[..n], i, id, outcome) ==> i < n;
    hide SettledAt, SettlesNow, Exec;
    if EverSettled(es, id, outcome) {
      var i: nat :| SettledAt(es, i, id, outcome);
      if i < n {
        SettledFront(es, i, id, outcome);
      }
    }
    if EverSettled(es[..n], id, outcome) {
      var i: nat :| SettledAt(es[..n], i, id, outcome);
      SettledFront(es, i, id, outcome);
    }
  }

  lemma SettledLast(es: seq<Event>, id: CommandId, outcome: Outcome)
    requires es != [] && Exec(es).Some?
    ensures var n := |es| - 1;
            SettledAt(es, n, id, outcome) <==> SettlesNow(Exec(es[..n]).value, es[n], id, outcome)
  {
  }

  lemma {:induction false} NotSettledUnsent(es: seq<Event>, id: CommandId, outcome: Outcome)
    requires Exec(es).Some? && id !in Exec(es).value.calls
    ensures !EverSettled(es, id, outcome)
  {
    if es != [] {
      var front := es[..|es| - 1];
      NotSettledUnsent(front, id, outcome);
      ExecInv(front);
      SettledSnoc(es, id, outcome);
    }
  }
}
