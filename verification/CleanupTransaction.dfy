/** The abortable cleanup transaction, for every way its queries, its abort signal and its
    bounded rollback can turn out. */
module CleanupTransaction {
  import opened ServerReplies

  type Statement = nat

  /** The rollback may also settle only after its timer has destroyed the connection. */
  datatype RollbackReply = InTime(reply: Reply) | Late(reply: Reply)

  /** What the signal reads at each of its checks, and how each query turns out. */
  datatype Environment = Environment(
    aborted: nat -> bool,
    begin: Reply,
    statement: nat -> Reply,
    commit: Reply,
    rollback: RollbackReply
  )

  datatype Outcome = Completed | Threw | ThrewWithRollbackError

  datatype Query = BeginQuery | StatementQuery(statement: Statement) | CommitQuery | RollbackQuery

  /** One pooled connection and what the server knows of its transaction. */
  class PgClient {
    var committed: seq<Statement>
    var transactionOpen: bool
    var pending: seq<Statement>
    var releases: nat
    var destroyed: bool
    var sent: seq<Query>

    predicate Idle()
      reads this
    {
      !transactionOpen && pending == [] && releases == 0 && !destroyed && sent == []
    }

    constructor ()
      ensures Idle() && committed == []
    {
      committed, transactionOpen, pending, releases, destroyed, sent := [], false, [], 0, false, [];
    }

    method Begin(reply: Reply) returns (ok: bool)
      modifies `transactionOpen, `pending, `sent
      ensures sent == old(sent) + [BeginQuery]
      ensures ok == reply.Ok()
      ensures transactionOpen == (old(transactionOpen) || reply.TookEffect())
      ensures pending == if reply.TookEffect() then [] else old(pending)
    {
      sent := sent + [BeginQuery];
      if reply.TookEffect() {
        transactionOpen, pending := true, [];
      }
      ok := reply.Ok();
    }

    method Run(s: Statement, reply: Reply) returns (ok: bool)
      modifies `pending, `sent
      ensures sent == old(sent) + [StatementQuery(s)]
      ensures ok == reply.Ok()
      ensures pending == if reply.TookEffect() then old(pending) + [s] else old(pending)
    {
      sent := sent + [StatementQuery(s)];
      if reply.TookEffect() {
        pending := pending + [s];
      }
      ok := reply.Ok();
    }

    method Commit(reply: Reply) returns (ok: bool)
      requires transactionOpen
      modifies `committed, `transactionOpen, `pending, `sent
      ensures sent == old(sent) + [CommitQuery]
      ensures ok == reply.Ok()
      ensures transactionOpen == !reply.TookEffect()
      ensures committed == if reply.TookEffect() then old(committed) + old(pending) else old(committed)
      ensures pending == if reply.TookEffect() then [] else old(pending)
    {
      sent := sent + [CommitQuery];
      if reply.TookEffect() {
        committed, transactionOpen, pending := committed + pending, false, [];
      }
      ok := reply.Ok();
    }

    method Rollback(reply: Reply) returns (ok: bool)
      modifies `transactionOpen, `pending, `sent
      ensures sent == old(sent) + [RollbackQuery]
      ensures ok == reply.Ok()
      ensures transactionOpen == (old(transactionOpen) && !reply.TookEffect())
      ensures pending == if reply.TookEffect() then [] else old(pending)
    {
      sent := sent + [RollbackQuery];
      if reply.TookEffect() {
        transactionOpen, pending := false, [];
      }
      ok := reply.Ok();
    }

    method Release(destroy: bool)
      modifies `releases, `destroyed
      ensures releases == old(releases) + 1 && destroyed == (old(destroyed) || destroy)
    {
      releases := releases + 1;
      destroyed := destroyed || destroy;
    }
  }

  /** Roll back within the bound; the timer destroys and releases the connection. */
  method RollbackPostgresCleanup(client: PgClient, reply: RollbackReply) returns (ok: bool, clientReleased: bool)
    modifies client
    ensures client.committed == old(client.committed)
    ensures clientReleased == reply.Late?
    ensures client.releases == old(client.releases) + (if reply.Late? then 1 else 0)
    ensures client.destroyed == (old(client.destroyed) || reply.Late?)
    ensures ok == (reply.InTime? && reply.reply.Ok())
    ensures client.transactionOpen == (old(client.transactionOpen) && !reply.reply.TookEffect())
    ensures client.pending == if reply.reply.TookEffect() then [] else old(client.pending)
    ensures client.sent == old(client.sent) + [RollbackQuery]
  {
    clientReleased := false;
    if reply.Late? {
      clientReleased := true;
      client.Release(true);
    }
    ok := client.Rollback(reply.reply);
    if reply.Late? {
      ok := false;
    }
  }

  /** The queries of a transaction that nothing stops. */
  function Script(statements: seq<Statement>): seq<Query> {
    [BeginQuery] + seq(|statements|, i requires 0 <= i < |statements| => StatementQuery(statements[i]))
    + [CommitQuery]
  }

  function ReplyTo(env: Environment, n: nat, q: nat): Reply {
    if q == 0 then env.begin else if q <= n then env.statement(q - 1) else env.commit
  }

  /** Query q of the script is sent when no earlier one failed and no check up to the one
      right before it found the signal aborted. */
  predicate Sends(env: Environment, n: nat, q: nat) {
    && (forall k :: 0 <= k <= 2 * q ==> !env.aborted(k))
    && (forall p :: 0 <= p < q ==> ReplyTo(env, n, p).Ok())
  }

  predicate SentExactly(sent: seq<Query>, statements: seq<Statement>, env: Environment) {
    && sent <= Script(statements)
    && forall q :: 0 <= q < |Script(statements)| ==> (q < |sent| <==> Sends(env, |statements|, q))
  }

  /** The transaction began but no COMMIT was reported as done. */
  predicate NeedsRollback(env: Environment, n: nat) {
    !env.aborted(0) && env.begin.Ok() && !(ReachesCommit(env, n) && env.commit.Ok())
  }

  /** Nothing fails and nothing is aborted up to the COMMIT. */
  predicate ReachesCommit(env: Environment, n: nat) {
    && env.begin.Ok()
    && (forall i :: 0 <= i < n ==> env.statement(i).Ok())
    && (forall k :: 0 <= k <= 2 * n + 2 ==> !env.aborted(k))
  }

  /** BEGIN opened a transaction on the server but was reported as failed. */
  predicate BeginLost(env: Environment) {
    !env.aborted(0) && env.begin == DoneButFailed
  }

  /** The signal is aborted before or after statement i, or the statement fails. */
  predicate StopsAt(env: Environment, i: nat) {
    env.aborted(2 * i + 2) || !env.statement(i).Ok() || env.aborted(2 * i + 3)
  }

  predicate FirstStop(env: Environment, i: nat) {
    StopsAt(env, i) && forall j :: 0 <= j < i ==> !StopsAt(env, j)
  }

  /** What has taken effect when statement i is the first to stop: everything before it, and
      the statement itself if it was sent and took effect. */
  function EffectsUpTo(statements: seq<Statement>, env: Environment, i: nat): seq<Statement>
    requires i < |statements|
  {
    statements[..i] + if !env.aborted(2 * i + 2) && env.statement(i).TookEffect() then [statements[i]] else []
  }

  /** The statements up to the first failure or abort. */
  method RunStatements(client: PgClient, statements: seq<Statement>, env: Environment) returns (failed: bool)
    requires client.transactionOpen && client.pending == []
    requires client.sent == [BeginQuery] && env.begin.Ok() && !env.aborted(0) && !env.aborted(1)
    modifies client`pending, client`sent
    ensures if failed then SentExactly(client.sent, statements, env)
            else client.sent == Script(statements)[..|statements| + 1] && Sends(env, |statements|, |statements|)
    ensures failed <==> exists i :: 0 <= i < |statements| && StopsAt(env, i)
    ensures !failed ==> client.pending == statements
    ensures failed ==>
              exists i :: 0 <= i < |statements| && FirstStop(env, i)
                          && client.pending == EffectsUpTo(statements, env, i)
  {
    failed := false;
    var i := 0;
    while i < |statements|
      invariant i <= |statements| && client.pending == statements[..i]
      invariant client.sent == Script(statements)[..i + 1]
      invariant forall q :: 0 <= q <= i ==> ReplyTo(env, |statements|, q).Ok()
      invariant forall k :: 0 <= k <= 2 * i + 1 ==> !env.aborted(k)
      invariant forall j :: 0 <= j < i ==> !StopsAt(env, j)
    {
      assert StopsAt(env, i) <==> env.aborted(2 * i + 2) || !env.statement(i).Ok() || env.aborted(2 * i + 3);
      assert StopsAt(env, i) ==> FirstStop(env, i);
      if env.aborted(2 * i + 2) { return true; }
      var ok := client.Run(statements[i], env.statement(i));
      assert ok == ReplyTo(env, |statements|, i + 1).Ok();
      if !ok { return true; }
      if env.aborted(2 * i + 3) { return true; }
      assert statements[..i + 1] == statements[..i] + [statements[i]];
      i := i + 1;
    }
    assert statements[..i] == statements;
  }

  /** The checks of the signal, one by one, are the checks up to the commit. */
  lemma ChecksInOrder(env: Environment, n: nat)
    ensures ReachesCommit(env, n) <==>
              && !env.aborted(0) && env.begin.Ok() && !env.aborted(1)
              && (forall i :: 0 <= i < n ==> !StopsAt(env, i))
              && !env.aborted(2 * n + 2)
  {
    if && !env.aborted(0) && env.begin.Ok() && !env.aborted(1)
       && (forall i :: 0 <= i < n ==> !StopsAt(env, i))
       && !env.aborted(2 * n + 2) {
      forall i | 0 <= i < n
        ensures env.statement(i).Ok()
      {
        assert !StopsAt(env, i);
      }
      forall k | 0 <= k <= 2 * n + 2
        ensures !env.aborted(k)
      {
        if 2 <= k < 2 * n + 2 {
          var i := (k - 2) / 2;
          assert k == 2 * i + 2 || k == 2 * i + 3;
          assert !StopsAt(env, i);
        }
      }
    }
  }

  /** The try block, up to and including the COMMIT. */
  method RunTransaction(client: PgClient, statements: seq<Statement>, env: Environment)
    returns (threw: bool, transactionStarted: bool)
    requires client.Idle()
    modifies client`committed, client`transactionOpen, client`pending, client`sent
    ensures SentExactly(client.sent, statements, env)
    ensures threw && transactionStarted <==> NeedsRollback(env, |statements|)
    ensures client.transactionOpen <==>
              BeginLost(env)
              || (NeedsRollback(env, |statements|) && !(ReachesCommit(env, |statements|) && env.commit.TookEffect()))
    ensures client.committed == if ReachesCommit(env, |statements|) && env.commit.TookEffect()
                                then old(client.committed) + statements
                                else old(client.committed)
    ensures !threw <==> ReachesCommit(env, |statements|) && env.commit.Ok() && !env.aborted(2 * |statements| + 3)
  {
    ChecksInOrder(env, |statements|);
    threw, transactionStarted := true, false;
    if env.aborted(0) { return; }
    var ok := client.Begin(env.begin);
    assert ok == ReplyTo(env, |statements|, 0).Ok();
    if !ok { return; }
    transactionStarted := true;
    if env.aborted(1) { return; }
    var failed := RunStatements(client, statements, env);
    if failed { return; }
    assert forall q :: 0 <= q <= |statements| ==> Sends(env, |statements|, q);
    assert ReachesCommit(env, |statements|) <==> Sends(env, |statements|, |statements| + 1);
    if env.aborted(2 * |statements| + 2) { return; }
    ok := client.Commit(env.commit);
    if !ok { return; }
    transactionStarted := false;
    threw := env.aborted(2 * |statements| + 3);
  }

  /** For every statement list and every failure or abort point: the client is released
      exactly once; the database has all effects exactly when the COMMIT took effect, and
      otherwise none; and the connection goes back to the pool undestroyed with a
      transaction open exactly when BEGIN took effect but was reported as failed. */
  method ExecuteAbortablePostgresTransaction(client: PgClient, statements: seq<Statement>, env: Environment)
    returns (outcome: Outcome)
    requires client.Idle()
    modifies client
    ensures client.releases == 1
    ensures var n := |statements|;
            if NeedsRollback(env, n) then
              && client.sent != [] && client.sent[|client.sent| - 1] == RollbackQuery
              && SentExactly(client.sent[..|client.sent| - 1], statements, env)
            else SentExactly(client.sent, statements, env)
    ensures client.committed == if ReachesCommit(env, |statements|) && env.commit.TookEffect()
                                then old(client.committed) + statements
                                else old(client.committed)
    ensures outcome.Completed? <==>
              ReachesCommit(env, |statements|) && env.commit.Ok() && !env.aborted(2 * |statements| + 3)
    ensures client.destroyed <==> NeedsRollback(env, |statements|) && env.rollback != InTime(Done)
    ensures outcome.ThrewWithRollbackError? <==> client.destroyed
    ensures !client.destroyed ==> (client.transactionOpen <==> BeginLost(env))
  {
    var destroyClient, clientReleased := false, false;
    var threw, transactionStarted := RunTransaction(client, statements, env);
    outcome := if threw then Threw else Completed;
    if threw && transactionStarted {
      var ok;
      ok, clientReleased := RollbackPostgresCleanup(client, env.rollback);
      if ok {
        transactionStarted := false;
      } else {
        destroyClient := true;
        outcome := ThrewWithRollbackError;
      }
    }
    if !clientReleased {
      client.Release(destroyClient);
    }
  }

  /** Connecting first: a signal that aborts in between gives the connection back unused. */
  method ExecuteConnectedAbortablePostgresTransaction(
    client: PgClient, connects: bool, abortedBefore: bool, abortedAfter: bool,
    statements: seq<Statement>, env: Environment)
    returns (outcome: Outcome)
    requires client.Idle()
    modifies client
    ensures var runs, n := !abortedBefore && connects && !abortedAfter, |statements|;
            if !runs then client.sent == []
            else if NeedsRollback(env, n) then
              && client.sent != [] && client.sent[|client.sent| - 1] == RollbackQuery
              && SentExactly(client.sent[..|client.sent| - 1], statements, env)
            else SentExactly(client.sent, statements, env)
    ensures client.releases == if !abortedBefore && connects then 1 else 0
    ensures var runs, n := !abortedBefore && connects && !abortedAfter, |statements|;
            && client.committed == (if runs && ReachesCommit(env, n) && env.commit.TookEffect()
                                    then old(client.committed) + statements
                                    else old(client.committed))
            && (outcome.Completed? <==>
                  runs && ReachesCommit(env, n) && env.commit.Ok() && !env.aborted(2 * n + 3))
            && (client.destroyed <==> runs && NeedsRollback(env, n) && env.rollback != InTime(Done))
            && (outcome.ThrewWithRollbackError? <==> client.destroyed)
            && (!client.destroyed ==> (client.transactionOpen <==> runs && BeginLost(env)))
  {
    if abortedBefore || !connects { return Threw; }
    if abortedAfter {
      client.Release(false);
      return Threw;
    }
    outcome := ExecuteAbortablePostgresTransaction(client, statements, env);
  }
}
