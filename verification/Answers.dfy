/** What the session tools answer, and what an answer tells about the session and the server: each section
    of the kernel in terms of the transaction's writes, the log of wire operations and the slot alone. */
module Answers {
  import opened Prelude
  import opened Classifier
  import opened Drain
  import opened Upstream
  import opened Kernel
  import Runs

  /** Nothing has happened but the refusal. */
  predicate Refused(s: Session, u: Server, o: Outcome, error: ErrorClass) {
    o == Outcome(s, u, Failure(error, error.RetriableInSameTx()))
  }

  /** The envelope is that of a failed call, with the class of what the server said. */
  predicate SaysWhy(e: Envelope, why: DriverError) {
    e == Failure(ClassifyDriverError(why), ClassifyDriverError(why).RetriableInSameTx())
  }

  /** The books agree but for the log, the transaction `t` and its writes. */
  ghost predicate OnlyTouches(u: Server, v: Server, t: TxId) {
    && v.pending - {t} == u.pending - {t} && v.kinds - {t} == u.kinds - {t}
    && (forall w :: w in u.origin ==> w in v.origin && v.origin[w] == u.origin[w])
    && (forall w :: w in v.origin && w !in u.origin ==> v.origin[w] == t)
  }

  function Writes(u: Server, t: TxId): set<WriteId> {
    if t in u.pending then set w | w in u.pending[t] else {}
  }

  /** Transaction `t` has ended with the call `op`, and its writes are discarded. */
  ghost predicate Discarded(u: Server, v: Server, t: TxId, op: WireOp) {
    && v.log == u.log + [op] && v.ledger == u.ledger && v.discarded == u.discarded + Writes(u, t)
    && v.pending == u.pending - {t} && v.kinds == u.kinds && v.origin == u.origin
  }

  /** ... or all of them, in order, are persisted. */
  ghost predicate Persisted(u: Server, v: Server, t: TxId) {
    && v.log == u.log + [Committed(t, true)] && v.discarded == u.discarded
    && t in u.pending && v.ledger == u.ledger + u.pending[t]
    && v.pending == u.pending - {t} && v.kinds == u.kinds && v.origin == u.origin
  }

  /** A new transaction of the kind asked for, with no writes. */
  ghost predicate Opens(u: Server, v: Server, t: TxId, kind: TxKind) {
    && v.log == u.log + [Opened(t)] && v.ledger == u.ledger && v.discarded == u.discarded
    && v.pending == u.pending[t := []] && v.kinds == u.kinds[t := kind] && v.origin == u.origin
  }

  // ---- opening -------------------------------------------------------------------------------------

  /** `open_*` succeeds iff no guard refuses and the server opens; the slot then holds a transaction of the
      database and kind asked for, used just now. Otherwise nothing changes, and the first reason is given. */
  lemma OpenTells(s: Session, u: Server, database: string, kind: TxKind, reserved: bool, now: Time,
                  fault: Option<DriverError>)
    ensures var o := OpenSection(s, u, database, kind, reserved, now, fault);
      && (reserved ==> Refused(s, u, o, Unclassified))
      && (!reserved && s.tx.Some? ==> Refused(s, u, o, TxAlreadyOpen))
      && (!reserved && s.tx.None? && database !in s.schemaSeen ==> Refused(s, u, o, SchemaNotRead))
      && (o.envelope.Success? <==> !reserved && s.tx.None? && database in s.schemaSeen && fault.None?)
      && (!reserved && s.tx.None? && database in s.schemaSeen && fault.Some? ==>
            o.session == s && o.server == u && SaysWhy(o.envelope, fault.value))
      && (o.envelope.Success? ==>
            && o.envelope.body == OpenedTx && o.session.tx.Some?
            && var tx := o.session.tx.value;
              && tx.database == database && tx.kind == kind && tx.lastActivity == now
              && o.session == s.(tx := Some(tx)) && Opens(u, o.server, tx.transaction, kind))
  {
    hide ClassifyDriverError;
  }

  // ---- queries -------------------------------------------------------------------------------------

  /** The writes a query adds to a transaction that stays alive. */
  function Added(u: Server, t: TxId, wrote: nat): seq<WriteId> {
    if t in u.kinds && u.kinds[t].Read? then [] else FreshWrites(u.nextWrite, wrote)
  }

  /** Ids of writes are handed out in order. */
  ghost predicate FreshIds(u: Server) {
    forall w :: w in u.origin ==> w < u.nextWrite
  }

  /** What the server has done after one query: `wrote` writes more are pending in a transaction that is still
      alive, and if it was torn down they are discarded with all its other writes. */
  ghost predicate Ran(u: Server, v: Server, t: TxId, wrote: nat, torn: bool) {
    && v.ledger == u.ledger && v.kinds == u.kinds && v.nextTx == u.nextTx && OnlyTouches(u, v, t)
    && (torn || t !in u.pending ==> t !in v.pending && u.discarded + Writes(u, t) <= v.discarded)
    && (!torn && t in u.pending ==>
          && v.pending == u.pending[t := u.pending[t] + Added(u, t, wrote)] && v.discarded == u.discarded
          && v.nextWrite == u.nextWrite + |Added(u, t, wrote)|)
  }

  lemma OneQueryTells(u: Server, t: TxId, x: Execution)
    requires FreshIds(u)
    ensures var v := Query(u, t, x.wrote, x.torn);
      Ran(u, v, t, x.wrote, x.torn) && v.log == u.log + [Queried(t)] && FreshIds(v)
  {
    assert t in u.pending ==> u.pending[t] + [] == u.pending[t] && u.pending[t := u.pending[t]] == u.pending;
  }

  lemma AddedTwice(u: Server, v: Server, t: TxId, a: nat, b: nat)
    requires v.kinds == u.kinds && v.nextWrite == u.nextWrite + |Added(u, t, a)|
    ensures Added(u, t, a) + Added(v, t, b) == Added(u, t, a + b)
  {
  }

  /** The slot after a query or closure: with the same transaction, used just now, or empty. */
  ghost predicate Keeps(s: Session, now: Time, o: Outcome, keeps: bool)
    requires s.tx.Some?
  {
    o.session == s.(tx := if keeps then Some(s.tx.value.(lastActivity := now)) else None)
  }

  lemma QueryTellsAnswer(s: Session, u: Server, now: Time, x: Execution, answer: Result<AnswerJson<Json>, DriverError>)
    ensures var o := QuerySection(s, u, now, x, answer);
      && (s.tx.None? ==> Refused(s, u, o, NoTxOpen))
      && (s.tx.Some? ==>
            var alive := s.tx.value.transaction in u.pending;
            && (o.envelope.Success? <==> alive && answer.Ok? && !answer.value.truncated)
            && (o.envelope.Success? ==> o.envelope.body == Answers(answer.value))
            && (alive && answer.Ok? && answer.value.truncated ==> o.envelope == Failure(ResultLimitExceeded, true))
            && (answer.Err? ==> SaysWhy(o.envelope, answer.error))
            && (!alive && answer.Ok? ==> SaysWhy(o.envelope, TransactionClosed)))
  {
    hide ClassifyDriverError, Query, Drop;
  }

  /** A query that succeeds, or fails with a class that is retriable, leaves the session its transaction, with
      all earlier writes and its own pending in it; any other lets go of it. Either way it persists nothing. */
  lemma QueryTellsState(s: Session, u: Server, now: Time, x: Execution, answer: Result<AnswerJson<Json>, DriverError>)
    requires s.tx.Some? && FreshIds(u)
    ensures var o, t := QuerySection(s, u, now, x, answer), s.tx.value.transaction;
      var keeps := o.envelope.Success? || o.envelope.retriableInSameTx;
      && Keeps(s, now, o, keeps) && OnlyTouches(u, o.server, t) && o.server.ledger == u.ledger
      && o.server.kinds == u.kinds
      && o.server.log == u.log + (if keeps then [Queried(t)] else [Queried(t), Dropped(t)])
      && (keeps && !x.torn && t in u.pending ==>
            && o.server.pending == u.pending[t := u.pending[t] + Added(u, t, x.wrote)]
            && o.server.discarded == u.discarded)
      && (!keeps || x.torn ==> t !in o.server.pending && u.discarded + Writes(u, t) <= o.server.discarded)
  {
    hide ClassifyDriverError, Ran, Added;
    var t := s.tx.value.transaction;
    var v := Query(u, t, x.wrote, x.torn);
    OneQueryTells(u, t, x);
    hide Query;
    QueryKeepsWrites(u, v, t, x);
  }

  lemma QueryKeepsWrites(u: Server, v: Server, t: TxId, x: Execution)
    requires Ran(u, v, t, x.wrote, x.torn)
    ensures u.discarded + Writes(u, t) <= v.discarded + Writes(v, t)
  {
  }

  // ---- closures ------------------------------------------------------------------------------------

  function Wrote(xs: seq<Execution>): nat {
    if xs == [] then 0 else Wrote(xs[..|xs| - 1]) + xs[|xs| - 1].wrote
  }

  predicate AnyTorn(xs: seq<Execution>) {
    exists i :: 0 <= i < |xs| && xs[i].torn
  }

  lemma RanTwice(u: Server, v: Server, w: Server, t: TxId, a: nat, ta: bool, b: nat, tb: bool)
    requires Ran(u, v, t, a, ta) && Ran(v, w, t, b, tb)
    ensures Ran(u, w, t, a + b, ta || tb)
  {
    AddedKinds(u, v, t, b);
    if !ta && t in u.pending {
      AddedTwice(u, v, t, a, b);
      var x, y := Added(u, t, a), Added(v, t, b);
      hide Added;
      assert forall w :: w in Writes(u, t) ==> w in u.pending[t] + x;
      assert (u.pending[t] + x) + y == u.pending[t] + (x + y);
    }
  }

  lemma AddedKinds(u: Server, v: Server, t: TxId, b: nat)
    requires v.kinds == u.kinds
    ensures |Added(u, t, b)| == |Added(v, t, b)|
  {
  }

  /** The queries of a closure: each is sent, and together they have done what one query with all their
      writes would have. */
  lemma {:induction false} QueriesTell(u: Server, t: TxId, xs: seq<Execution>)
    requires FreshIds(u)
    ensures var v := RunQueries(u, t, xs);
      Ran(u, v, t, Wrote(xs), AnyTorn(xs)) && v.log == u.log + seq(|xs|, _ => Queried(t)) && FreshIds(v)
  {
    var n := |xs|;
    if n == 0 {
      assert t in u.pending ==> u.pending[t] + [] == u.pending[t] && u.pending[t := u.pending[t]] == u.pending;
      assert Ran(u, u, t, 0, false);
      assert u.log + [] == u.log;
    } else {
      var v, w := RunQueries(u, t, xs[..n - 1]), RunQueries(u, t, xs);
      QueriesTell(u, t, xs[..n - 1]);
      OneQueryTells(v, t, xs[n - 1]);
      RanTwice(u, v, w, t, Wrote(xs[..n - 1]), AnyTorn(xs[..n - 1]), xs[n - 1].wrote, xs[n - 1].torn);
      assert AnyTorn(xs) <==> AnyTorn(xs[..n - 1]) || xs[n - 1].torn by {
        assert forall i :: 0 <= i < n - 1 ==> xs[..n - 1][i] == xs[i];
      }
      assert seq(n, _ => Queried(t)) == seq(n - 1, _ => Queried(t)) + [Queried(t)];
    }
  }

  lemma CurrentTells(s: Session, u: Server, now: Time, xs: seq<Execution>, result: Result<Json, DriverError>)
    requires FreshIds(u)
    ensures var o := CurrentSection(s, u, now, xs, result);
      && (s.tx.None? ==> Refused(s, u, o, NoTxOpen))
      && (s.tx.Some? ==>
            && (o.envelope.Success? <==> result.Ok?) && (result.Ok? ==> o.envelope.body == Value(result.value))
            && (result.Err? ==> SaysWhy(o.envelope, result.error))
            && var t := s.tx.value.transaction;
              var keeps := o.envelope.Success? || o.envelope.retriableInSameTx;
              && Keeps(s, now, o, keeps) && OnlyTouches(u, o.server, t) && o.server.ledger == u.ledger
              && o.server.kinds == u.kinds
              && o.server.log == u.log + seq(|xs|, _ => Queried(t)) + (if keeps then [] else [Dropped(t)])
              && (keeps && !AnyTorn(xs) && t in u.pending ==>
                    && o.server.pending == u.pending[t := u.pending[t] + Added(u, t, Wrote(xs))]
                    && o.server.discarded == u.discarded)
              && (!keeps || AnyTorn(xs) ==> t !in o.server.pending && u.discarded + Writes(u, t) <= o.server.discarded))
  {
    hide ClassifyDriverError, RunQueries, Added, FreshIds, Wrote, AnyTorn;
    if s.tx.Some? {
      var t := s.tx.value.transaction;
      var v := RunQueries(u, t, xs);
      QueriesTell(u, t, xs);
      assert v.log + [] == v.log;
      QueryKeepsWrites(u, v, t, Execution(Wrote(xs), AnyTorn(xs)));
    }
  }

  // ---- commit, checkpoint, rollback -------------------------------------------------------------------

  /** `commit` says so iff the server has accepted and persisted every pending write; otherwise it gives the
      server's reason, and all of them are discarded. */
  lemma CommitTells(s: Session, u: Server, fault: Option<DriverError>)
    ensures var o := CommitSection(s, u, fault);
      && (s.tx.None? ==> Refused(s, u, o, NoTxOpen))
      && (s.tx.Some? && s.tx.value.kind.Read? ==> Refused(s, u, o, TxIsRead))
      && (s.tx.Some? && !s.tx.value.kind.Read? ==>
            var t := s.tx.value.transaction;
            && o.session == s.(tx := None)
            && (o.envelope.Success? <==> fault.None? && t in u.pending)
            && (o.envelope.Success? ==> o.envelope.body == Commits && Persisted(u, o.server, t))
            && (o.envelope.Failure? ==>
                  && SaysWhy(o.envelope, if fault.Some? then fault.value else TransactionClosed)
                  && Discarded(u, o.server, t, Committed(t, false))))
  {
    hide ClassifyDriverError;
  }

  /** `checkpoint` is such a commit, and after a successful one the opening of a transaction of the same kind
      on the same database. A failure of the opening is told as that, and leaves the writes persisted. */
  lemma CheckpointTells(s: Session, u: Server, now: Time, fault: Option<DriverError>, reopenFault: Option<DriverError>)
    ensures var o := CheckpointSection(s, u, now, fault, reopenFault);
      && (s.tx.None? ==> Refused(s, u, o, NoTxOpen))
      && (s.tx.Some? && s.tx.value.kind.Read? ==> Refused(s, u, o, TxIsRead))
      && (s.tx.Some? && !s.tx.value.kind.Read? ==>
            var t, goes := s.tx.value.transaction, fault.None? && s.tx.value.transaction in u.pending;
            && (o.envelope.Success? <==> goes && reopenFault.None?)
            && (!goes ==>
                  && SaysWhy(o.envelope, if fault.Some? then fault.value else TransactionClosed)
                  && o.session == s.(tx := None) && Discarded(u, o.server, t, Committed(t, false)))
            && (goes && reopenFault.Some? ==>
                  SaysWhy(o.envelope, reopenFault.value) && o.session == s.(tx := None) && Persisted(u, o.server, t))
            && (o.envelope.Success? ==>
                  && o.envelope.body == Checkpointed && o.session.tx.Some?
                  && var tx := o.session.tx.value;
                    && o.session == s.(tx := Some(tx))
                    && tx == s.tx.value.(transaction := tx.transaction, lastActivity := now)
                    && exists v :: Persisted(u, v, t) && Opens(v, o.server, tx.transaction, tx.kind)))
  {
    hide ClassifyDriverError;
    if s.tx.Some? && !s.tx.value.kind.Read? && fault.None? && s.tx.value.transaction in u.pending {
      var v := Commit(u, s.tx.value.transaction, true);
      assert Persisted(u, v, s.tx.value.transaction);
      assert Opens(v, Begin(v, s.tx.value.kind), v.nextTx, s.tx.value.kind);
    }
  }

  /** `rollback` always succeeds, says whether there was a transaction, and ends it with the call its kind
      takes: close for READ, rollback otherwise. The reaper and a purge empty a slot in the same way. */
  lemma RollbackTells(s: Session, u: Server)
    ensures var o := RollbackSection(s, u);
      && o.envelope == Success(RolledBackTx(s.tx.Some?)) && o.session == s.(tx := None)
      && (s.tx.None? ==> o.server == u)
      && (s.tx.Some? ==>
            var t := s.tx.value.transaction;
            Discarded(u, o.server, t, if s.tx.value.kind.Read? then ClosedTx(t) else RolledBack(t)))
    ensures EmptySlot(s, u) == (RollbackSection(s, u).session, RollbackSection(s, u).server)
  {
  }

  // ---- transactions that do not outlive a call ------------------------------------------------------

  /** The guards of a one-shot transaction: the first that fails is told, and nothing has happened. */
  predicate Guarded(s: Session, u: Server, database: string, fault: Option<DriverError>, o: Outcome) {
    && (s.tx.Some? ==> Refused(s, u, o, TxAlreadyOpen))
    && (s.tx.None? && database !in s.schemaSeen ==> Refused(s, u, o, SchemaNotRead))
    && (s.tx.None? && database in s.schemaSeen && fault.Some? ==>
          o.session == s && o.server == u && SaysWhy(o.envelope, fault.value))
  }

  predicate MayBegin(s: Session, database: string, fault: Option<DriverError>) {
    s.tx.None? && database in s.schemaSeen && fault.None?
  }

  /** `read_once` and `with_read_tx`: a READ transaction is opened, queried and closed, in this order; the
      session, the ledger and every other transaction are as before, and nothing was written. */
  lemma ReadTells(s: Session, u: Server, database: string, fault: Option<DriverError>, xs: seq<Execution>,
                  result: Envelope)
    requires BooksOk(u)
    ensures var o := ReadSection(s, u, database, fault, xs, result);
      && Guarded(s, u, database, fault, o)
      && (MayBegin(s, database, fault) ==>
            && o.session == s && o.envelope == result
            && exists t :: t !in u.kinds && o.server.kinds == u.kinds[t := Read]
                 && o.server.log == u.log + [Opened(t)] + seq(|xs|, _ => Queried(t)) + [ClosedTx(t)]
                 && o.server.pending == u.pending && o.server.ledger == u.ledger && o.server.discarded == u.discarded
                 && o.server.origin == u.origin)
  {
    hide ClassifyDriverError, RunQueries, Finished;
    if MayBegin(s, database, fault) {
      var t, b := u.nextTx, Begin(u, Read);
      var v := RunQueries(b, t, xs);
      QueriesTell(b, t, xs);
      ReadWritesNothing(b, t, xs);
      var o := ReadSection(s, u, database, fault, xs, result);
      assert t !in u.kinds && t !in u.pending;
      assert o.server.pending == v.pending - {t} == b.pending - {t} == u.pending;
    }
  }

  lemma {:induction false} ReadWritesNothing(u: Server, t: TxId, xs: seq<Execution>)
    requires t in u.kinds && u.kinds[t].Read? && (t in u.pending ==> u.pending[t] == [])
    ensures var v := RunQueries(u, t, xs);
      && v.discarded == u.discarded && v.origin == u.origin && v.kinds == u.kinds
      && (t in v.pending ==> v.pending[t] == [])
  {
    if xs != [] {
      ReadWritesNothing(u, t, xs[..|xs| - 1]);
      hide RunQueries;
    }
  }

  /** A WRITE or SCHEMA closure: behind the same guards, a transaction of that kind with all that the
      closure wrote pending in it, unless the server has torn it down. */
  lemma OwnedTells(s: Session, u: Server, database: string, kind: TxKind, fault: Option<DriverError>,
                   xs: seq<Execution>)
    requires BooksOk(u)
    ensures var (r, v) := OwnedSection(s, u, database, kind, fault, xs);
      && (r.Ok? <==> MayBegin(s, database, fault))
      && (r.Err? ==> Guarded(s, u, database, fault, Outcome(s, v, r.error)))
      && (r.Ok? ==>
            && r.value.id !in u.kinds && r.value.kind == kind && v.kinds == u.kinds[r.value.id := kind]
            && v.log == u.log + [Opened(r.value.id)] + seq(|xs|, _ => Queried(r.value.id))
            && v.ledger == u.ledger && v.pending - {r.value.id} == u.pending
            && (!AnyTorn(xs) ==>
                  && r.value.id in v.pending && v.discarded == u.discarded
                  && v.pending[r.value.id] == if kind.Read? then [] else FreshWrites(u.nextWrite, Wrote(xs))))
  {
    hide ClassifyDriverError, RunQueries, Finished, LogOk, WritesOk;
    if MayBegin(s, database, fault) {
      var t, b := u.nextTx, Begin(u, kind);
      QueriesTell(b, t, xs);
      assert t !in u.kinds && t !in u.pending;
      assert b.pending - {t} == u.pending;
      assert [] + Added(b, t, Wrote(xs)) == Added(b, t, Wrote(xs));
    }
  }

  /** How it ends: the answer is a success iff that is what the closure decided and, if it decided to commit,
      the commit went through. */
  lemma OwnedFinishTells(u: Server, t: Transaction, d: Decision)
    ensures var (e, v) := OwnedFinishSection(u, t, d);
      match d
      case CommitIt(value, fault) =>
        if fault.None? && t.id in u.pending then e == Success(Value(value)) && Persisted(u, v, t.id)
        else
          && SaysWhy(e, if fault.Some? then fault.value else TransactionClosed)
          && Discarded(u, v, t.id, Committed(t.id, false))
      case RollBackIt(value) => e == Success(Value(value)) && Discarded(u, v, t.id, RolledBack(t.id))
      case Failed(error) => SaysWhy(e, error) && Discarded(u, v, t.id, RolledBack(t.id))
  {
    hide ClassifyDriverError;
  }

  // ---- the steps of a run that end a transaction ------------------------------------------------------

  /** A reaped slot is empty and its transaction released by kind; the handle of a vanished session is dropped. */
  lemma SlotEnds(g: Runs.World, a: Runs.Action)
    requires Runs.Enabled(g, a) && (a.Reap? || a.Vanish?)
    ensures var x, t := g.sessions[a.id], Runs.Apply(g, a);
      && t.sessions == (if a.Reap? then g.sessions[a.id := x.(tx := None)] else g.sessions - {a.id})
      && t.locals == g.locals && (x.tx.None? ==> t.server == g.server)
      && (x.tx.Some? ==>
            var id := x.tx.value.transaction;
            var op := if a.Vanish? then Dropped(id) else if x.tx.value.kind.Read? then ClosedTx(id) else RolledBack(id);
            Discarded(g.server, t.server, id, op))
  {
  }

  /** A closure's transaction is persisted iff the closure decides so and the commit goes through, and discarded
      otherwise, also when the call is cancelled; its holder is gone either way. */
  lemma LocalEnds(g: Runs.World, a: Runs.Action)
    requires Runs.Enabled(g, a) && (a.Finish? || a.Abandon?)
    ensures var id, t := g.locals[a.call].id, Runs.Apply(g, a);
      && t.sessions == g.sessions && t.locals == g.locals - {a.call}
      && (a.Abandon? ==> Discarded(g.server, t.server, id, Dropped(id)))
      && (a.Finish? ==>
            var d := a.decision;
            if d.CommitIt? && d.fault.None? && id in g.server.pending then Persisted(g.server, t.server, id)
            else Discarded(g.server, t.server, id, if d.CommitIt? then Committed(id, false) else RolledBack(id)))
  {
    hide ClassifyDriverError;
  }

  /** A transaction the server aborts keeps its holder and loses its writes. */
  lemma AbortEnds(g: Runs.World, id: TxId)
    ensures var u, t := g.server, Runs.Apply(g, Runs.Abort(id));
      t == g.(server := u.(pending := u.pending - {id}, discarded := u.discarded + Writes(u, id)))
  {
  }
}
