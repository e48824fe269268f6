/** The lock-held sections of the session tools. Every method here runs while its caller holds the lock of
    one session; what the server answers, and when, is a parameter. A session, a server and an envelope
    are related by one specification function per section. */
module Kernel {
  import opened Prelude
  import opened Stack
  import opened Classifier
  import opened Drain
  import opened Upstream

  type Time = nat

  /** The transaction in a session's slot. */
  datatype OpenTx = OpenTx(database: string, kind: TxKind, transaction: TxId, lastActivity: Time)

  datatype Session = Session(schemaSeen: set<string>, tx: Option<OpenTx>, expiresAt: Time)

  function Held(s: Session): Option<Transaction> {
    if s.tx.Some? then Some(Transaction(s.tx.value.transaction, s.tx.value.kind)) else None
  }

  type Json = string
  type Answer = QueryAnswer<Json, Json, DriverError>

  datatype Body =
    | OpenedTx | Answers(json: AnswerJson<Json>) | Checkpointed | Commits | RolledBackTx(did: bool) | Value(value: Json)

  datatype Envelope = Success(body: Body) | Failure(error: ErrorClass, retriableInSameTx: bool)

  function Fail(error: ErrorClass): Envelope {
    Failure(error, error.RetriableInSameTx())
  }

  function FailWith(e: DriverError): Envelope {
    Fail(ClassifyDriverError(e))
  }

  /** What the server does with one query before it answers. */
  datatype Execution = Execution(wrote: nat, torn: bool)

  datatype Outcome = Outcome(session: Session, server: Server, envelope: Envelope)

  // ---- specification of the sections -----------------------------------------------------------

  function OpenSection(s: Session, u: Server, database: string, kind: TxKind, reserved: bool, now: Time,
                       fault: Option<DriverError>): Outcome {
    if reserved then Outcome(s, u, Fail(Unclassified))
    else if s.tx.Some? then Outcome(s, u, Fail(TxAlreadyOpen))
    else if database !in s.schemaSeen then Outcome(s, u, Fail(SchemaNotRead))
    else if fault.Some? then Outcome(s, u, FailWith(fault.value))
    else Outcome(s.(tx := Some(OpenTx(database, kind, u.nextTx, now))), Begin(u, kind), Success(OpenedTx))
  }

  /** A dead transaction never answers. */
  function Heard<T>(u: Server, t: TxId, answer: Result<T, DriverError>): Result<T, DriverError> {
    if t !in u.pending && answer.Ok? then Err(TransactionClosed) else answer
  }

  function AnswerEnvelope(answer: Result<AnswerJson<Json>, DriverError>): Envelope {
    match answer
    case Ok(json) => if json.truncated then Fail(ResultLimitExceeded) else Success(Answers(json))
    case Err(e) => FailWith(e)
  }

  function Touched(tx: OpenTx, now: Time): OpenTx {
    tx.(lastActivity := now)
  }

  /** After an error the slot is kept only if the class says the transaction is still open. */
  function KeepOrDrop(s: Session, u: Server, tx: OpenTx, e: DriverError): (Session, Server) {
    if ClassifyDriverError(e).RetriableInSameTx() then (s.(tx := Some(tx)), u)
    else (s.(tx := None), Drop(u, tx.transaction))
  }

  function QuerySection(s: Session, u: Server, now: Time, x: Execution, answer: Result<AnswerJson<Json>, DriverError>)
    : Outcome
  {
    if s.tx.None? then Outcome(s, u, Fail(NoTxOpen))
    else
      var tx := Touched(s.tx.value, now);
      var v, heard := Query(u, tx.transaction, x.wrote, x.torn), Heard(u, tx.transaction, answer);
      var (s', u') := if heard.Ok? then (s.(tx := Some(tx)), v) else KeepOrDrop(s, v, tx, heard.error);
      Outcome(s', u', AnswerEnvelope(heard))
  }

  /** Whether a commit goes through. */
  function CommitFault(u: Server, t: TxId, fault: Option<DriverError>): Option<DriverError> {
    if fault.None? && t !in u.pending then Some(TransactionClosed) else fault
  }

  function CommitSection(s: Session, u: Server, fault: Option<DriverError>): Outcome {
    if s.tx.None? then Outcome(s, u, Fail(NoTxOpen))
    else if s.tx.value.kind.Read? then Outcome(s, u, Fail(TxIsRead))
    else
      var t := s.tx.value.transaction;
      var failed := CommitFault(u, t, fault);
      Outcome(s.(tx := None), Commit(u, t, failed.None?),
              if failed.None? then Success(Commits) else FailWith(failed.value))
  }

  function CheckpointSection(s: Session, u: Server, now: Time, fault: Option<DriverError>,
                             reopenFault: Option<DriverError>): Outcome {
    if s.tx.None? then Outcome(s, u, Fail(NoTxOpen))
    else if s.tx.value.kind.Read? then Outcome(s, u, Fail(TxIsRead))
    else
      var tx := s.tx.value;
      var failed := CommitFault(u, tx.transaction, fault);
      var v := Commit(u, tx.transaction, failed.None?);
      if failed.Some? then Outcome(s.(tx := None), v, FailWith(failed.value))
      else if reopenFault.Some? then Outcome(s.(tx := None), v, FailWith(reopenFault.value))
      else
        var reopened := OpenTx(tx.database, tx.kind, v.nextTx, now);
        Outcome(s.(tx := Some(reopened)), Begin(v, tx.kind), Success(Checkpointed))
  }

  function ReleaseTx(u: Server, t: Transaction): Server {
    if t.kind.Read? then Close(u, t.id) else Rollback(u, t.id)
  }

  function EmptySlot(s: Session, u: Server): (Session, Server) {
    if s.tx.None? then (s, u) else (s.(tx := None), ReleaseTx(u, Held(s).value))
  }

  function RollbackSection(s: Session, u: Server): Outcome {
    var (s', u') := EmptySlot(s, u);
    Outcome(s', u', Success(RolledBackTx(s.tx.Some?)))
  }

  /** The queries a tool's closure runs. */
  function RunQueries(u: Server, t: TxId, xs: seq<Execution>): Server {
    if xs == [] then u
    else
      var n := |xs| - 1;
      Query(RunQueries(u, t, xs[..n]), t, xs[n].wrote, xs[n].torn)
  }

  function OneShot(s: Session, database: string, fault: Option<DriverError>): Option<Envelope> {
    if s.tx.Some? then Some(Fail(TxAlreadyOpen))
    else if database !in s.schemaSeen then Some(Fail(SchemaNotRead))
    else if fault.Some? then Some(FailWith(fault.value))
    else None
  }

  /** A READ transaction that lives and ends within one section. */
  function ReadSection(s: Session, u: Server, database: string, fault: Option<DriverError>, xs: seq<Execution>,
                       result: Envelope): Outcome {
    var refused := OneShot(s, database, fault);
    if refused.Some? then Outcome(s, u, refused.value)
    else Outcome(s, Close(RunQueries(Begin(u, Read), u.nextTx, xs), u.nextTx), result)
  }

  function ClosureEnvelope(result: Result<Json, DriverError>): Envelope {
    match result
    case Ok(v) => Success(Value(v))
    case Err(e) => FailWith(e)
  }

  function CurrentSection(s: Session, u: Server, now: Time, xs: seq<Execution>, result: Result<Json, DriverError>)
    : Outcome
  {
    if s.tx.None? then Outcome(s, u, Fail(NoTxOpen))
    else
      var tx := Touched(s.tx.value, now);
      var v := RunQueries(u, tx.transaction, xs);
      var (s', u') := if result.Ok? then (s.(tx := Some(tx)), v) else KeepOrDrop(s, v, tx, result.error);
      Outcome(s', u', ClosureEnvelope(result))
  }

  /** The first half of a WRITE or SCHEMA closure: the transaction it leaves the lock with, if any. */
  function OwnedSection(s: Session, u: Server, database: string, kind: TxKind, fault: Option<DriverError>,
                        xs: seq<Execution>): (Result<Transaction, Envelope>, Server) {
    var refused := OneShot(s, database, fault);
    if refused.Some? then (Err(refused.value), u)
    else (Ok(Transaction(u.nextTx, kind)), RunQueries(Begin(u, kind), u.nextTx, xs))
  }

  /** What the closure decided, and how the commit went. */
  datatype Decision =
    | CommitIt(value: Json, fault: Option<DriverError>) | RollBackIt(value: Json) | Failed(error: DriverError)

  function OwnedFinishSection(u: Server, t: Transaction, d: Decision): (Envelope, Server) {
    match d
    case CommitIt(v, fault) =>
      var failed := CommitFault(u, t.id, fault);
      (if failed.None? then Success(Value(v)) else FailWith(failed.value), Commit(u, t.id, failed.None?))
    case RollBackIt(v) => (Success(Value(v)), Rollback(u, t.id))
    case Failed(e) => (FailWith(e), Rollback(u, t.id))
  }

  // ---- the tools ---------------------------------------------------------------------------------

  class Driver {
    var server: Server

    constructor ()
      ensures server == NO_TRANSACTIONS
    {
      server := NO_TRANSACTIONS;
    }

    method OpenTransaction(kind: TxKind, fault: Option<DriverError>) returns (r: Result<TxId, DriverError>)
      modifies this
      ensures fault.Some? ==> r == Err(fault.value) && server == old(server)
      ensures fault.None? ==> r == Ok(old(server).nextTx) && server == Begin(old(server), kind)
    {
      if fault.Some? {
        return Err(fault.value);
      }
      r := Ok(server.nextTx);
      server := Begin(server, kind);
    }

    method Query(t: TxId, x: Execution, answer: Result<Answer, DriverError>) returns (r: Result<Answer, DriverError>)
      modifies this
      ensures server == Upstream.Query(old(server), t, x.wrote, x.torn) && r == Heard(old(server), t, answer)
    {
      r := Heard(server, t, answer);
      server := Upstream.Query(server, t, x.wrote, x.torn);
    }

    method Commit(t: TxId, fault: Option<DriverError>) returns (r: Option<DriverError>)
      modifies this
      ensures r == CommitFault(old(server), t, fault) && server == Upstream.Commit(old(server), t, r.None?)
    {
      r := CommitFault(server, t, fault);
      server := Upstream.Commit(server, t, r.None?);
    }

    method Rollback(t: TxId)
      modifies this
      ensures server == Upstream.Rollback(old(server), t)
    {
      server := Upstream.Rollback(server, t);
    }

    method Close(t: TxId)
      modifies this
      ensures server == Upstream.Close(old(server), t)
    {
      server := Upstream.Close(server, t);
    }

    /** The handle goes away without a call. */
    method Forget(t: TxId)
      modifies this
      ensures server == Drop(old(server), t)
    {
      server := Drop(server, t);
    }

    /** `OpenTx::release`: close for READ, rollback otherwise; a fault of either is only logged. */
    method Release(tx: OpenTx)
      modifies this
      ensures server == ReleaseTx(old(server), Transaction(tx.transaction, tx.kind))
    {
      if tx.kind.Read? {
        Close(tx.transaction);
      } else {
        Rollback(tx.transaction);
      }
    }

    /** The queries of a closure, whatever it does with their answers. */
    method RunClosure(t: TxId, xs: seq<Execution>)
      modifies this
      ensures server == RunQueries(old(server), t, xs)
    {
      for i := 0 to |xs|
        invariant server == RunQueries(old(server), t, xs[..i])
      {
        assert xs[..i + 1][..i] == xs[..i];
        server := Upstream.Query(server, t, xs[i].wrote, xs[i].torn);
      }
      assert xs[..|xs|] == xs;
    }
  }

  class SessionState {
    var schemaSeen: set<string>
    var tx: Option<OpenTx>
    var expiresAt: Time

    function View(): Session
      reads this
    {
      Session(schemaSeen, tx, expiresAt)
    }

    constructor (expiresAt: Time)
      ensures View() == Session({}, None, expiresAt)
    {
      schemaSeen, tx, this.expiresAt := {}, None, expiresAt;
    }

    /** `stash_open_tx`: whatever is in the slot is overwritten, and its handle lost. */
    method StashOpenTx(driver: Driver, database: string, kind: TxKind, transaction: TxId, now: Time)
      modifies this`tx, driver
      ensures tx == Some(OpenTx(database, kind, transaction, now))
      ensures old(tx).None? ==> driver.server == old(driver.server)
      ensures old(tx).Some? ==> driver.server == Drop(old(driver.server), old(tx).value.transaction)
    {
      if tx.Some? {
        driver.Forget(tx.value.transaction);
      }
      tx := Some(OpenTx(database, kind, transaction, now));
    }

    method DoOpenAny(driver: Driver, database: string, kind: TxKind, reserved: bool, now: Time,
                     fault: Option<DriverError>)
      returns (e: Envelope)
      modifies this`tx, driver
      ensures Outcome(View(), driver.server, e) ==
              OpenSection(old(View()), old(driver.server), database, kind, reserved, now, fault)
    {
      if reserved {
        return Fail(Unclassified);
      }
      if tx.Some? {
        return Fail(TxAlreadyOpen);
      }
      if database !in schemaSeen {
        return Fail(SchemaNotRead);
      }
      var transaction := driver.OpenTransaction(kind, fault);
      if transaction.Err? {
        return FailWith(transaction.error);
      }
      StashOpenTx(driver, database, kind, transaction.value, now);
      return Success(OpenedTx);
    }

    method DoQuery(driver: Driver, now: Time, x: Execution, reply: Result<Answer, DriverError>, cap: nat,
                   rowToJson: Json -> Json, documentToJson: Json -> Json)
      returns (e: Envelope, ghost answer: Result<AnswerJson<Json>, DriverError>)
      modifies this`tx, driver
      ensures Outcome(View(), driver.server, e) == QuerySection(old(View()), old(driver.server), now, x, answer)
      ensures old(tx).Some? && old(tx).value.transaction in old(driver.server).pending ==>
                AnswerOf(reply, cap, rowToJson, documentToJson, answer)
    {
      if tx.None? {
        answer := Err(TransactionClosed);
        return Fail(NoTxOpen), answer;
      }
      tx := Some(Touched(tx.value, now));
      var t := tx.value.transaction;
      var heard := driver.Query(t, x, reply);
      if heard.Err? {
        answer := Err(heard.error);
        if !ClassifyDriverError(heard.error).RetriableInSameTx() {
          tx := None;
          driver.Forget(t);
        }
        return FailWith(heard.error), answer;
      }
      var json := QueryAnswerToJson(heard.value, cap, rowToJson, documentToJson);
      answer := json;
      match json {
        case Ok(a) =>
          if a.truncated {
            e := Fail(ResultLimitExceeded);
          } else {
            e := Success(Answers(a));
          }
        case Err(fault) =>
          if !ClassifyDriverError(fault).RetriableInSameTx() {
            tx := None;
            driver.Forget(t);
          }
          e := FailWith(fault);
      }
    }

    method DoCommit(driver: Driver, fault: Option<DriverError>) returns (e: Envelope)
      modifies this`tx, driver
      ensures Outcome(View(), driver.server, e) == CommitSection(old(View()), old(driver.server), fault)
    {
      if tx.None? {
        return Fail(NoTxOpen);
      }
      if tx.value.kind.Read? {
        return Fail(TxIsRead);
      }
      var owned := tx.value;
      tx := None;
      var failed := driver.Commit(owned.transaction, fault);
      e := if failed.None? then Success(Commits) else FailWith(failed.value);
    }

    method DoCheckpoint(driver: Driver, now: Time, fault: Option<DriverError>, reopenFault: Option<DriverError>)
      returns (e: Envelope)
      modifies this`tx, driver
      ensures Outcome(View(), driver.server, e) ==
              CheckpointSection(old(View()), old(driver.server), now, fault, reopenFault)
    {
      if tx.None? {
        return Fail(NoTxOpen);
      }
      if tx.value.kind.Read? {
        return Fail(TxIsRead);
      }
      var owned := tx.value;
      tx := None;
      var failed := driver.Commit(owned.transaction, fault);
      if failed.Some? {
        return FailWith(failed.value);
      }
      var reopened := driver.OpenTransaction(owned.kind, reopenFault);
      if reopened.Err? {
        return FailWith(reopened.error);
      }
      StashOpenTx(driver, owned.database, owned.kind, reopened.value, now);
      return Success(Checkpointed);
    }

    method DoRollback(driver: Driver) returns (e: Envelope)
      modifies this`tx, driver
      ensures Outcome(View(), driver.server, e) == RollbackSection(old(View()), old(driver.server))
    {
      if tx.None? {
        return Success(RolledBackTx(false));
      }
      var owned := tx.value;
      tx := None;
      driver.Release(owned);
      return Success(RolledBackTx(true));
    }

    /** The checks every one-shot transaction starts with, and its opening. */
    method OpenOneShot(driver: Driver, database: string, kind: TxKind, fault: Option<DriverError>)
      returns (r: Result<TxId, Envelope>)
      modifies driver
      ensures var refused := OneShot(View(), database, fault);
        if refused.Some? then r == Err(refused.value) && driver.server == old(driver.server)
        else r == Ok(old(driver.server).nextTx) && driver.server == Begin(old(driver.server), kind)
    {
      if tx.Some? {
        return Err(Fail(TxAlreadyOpen));
      }
      if database !in schemaSeen {
        return Err(Fail(SchemaNotRead));
      }
      var begun := driver.OpenTransaction(kind, fault);
      if begun.Err? {
        return Err(FailWith(begun.error));
      }
      return Ok(begun.value);
    }

    method DoReadOnce(driver: Driver, database: string, fault: Option<DriverError>, x: Execution,
                      reply: Result<Answer, DriverError>, cap: nat, rowToJson: Json -> Json,
                      documentToJson: Json -> Json)
      returns (e: Envelope, ghost answer: Result<AnswerJson<Json>, DriverError>)
      modifies driver
      ensures Outcome(View(), driver.server, e) ==
              ReadSection(View(), old(driver.server), database, fault, [x], AnswerEnvelope(answer))
      ensures OneShot(View(), database, fault).None? ==> AnswerOf(reply, cap, rowToJson, documentToJson, answer)
    {
      answer := Err(TransactionClosed);
      var begun := OpenOneShot(driver, database, Read, fault);
      if begun.Err? {
        return begun.error, answer;
      }
      var t := begun.value;
      var heard := driver.Query(t, x, reply);
      assert [x][..0] == [];
      assert driver.server == RunQueries(Begin(old(driver.server), Read), t, [x]);
      if heard.Err? {
        answer := Err(heard.error);
        e := FailWith(heard.error);
      } else {
        var json := QueryAnswerToJson(heard.value, cap, rowToJson, documentToJson);
        answer := json;
        match json {
          case Ok(a) => e := if a.truncated then Fail(ResultLimitExceeded) else Success(Answers(a));
          case Err(broken) => e := FailWith(broken);
        }
      }
      driver.Close(t);
    }

    /** `with_read_tx`. */
    method WithReadTx(driver: Driver, database: string, fault: Option<DriverError>, xs: seq<Execution>,
                      result: Result<Json, DriverError>)
      returns (e: Envelope)
      modifies driver
      ensures Outcome(View(), driver.server, e) ==
              ReadSection(View(), old(driver.server), database, fault, xs, ClosureEnvelope(result))
    {
      var begun := OpenOneShot(driver, database, Read, fault);
      if begun.Err? {
        return begun.error;
      }
      driver.RunClosure(begun.value, xs);
      driver.Close(begun.value);
      return ClosureEnvelope(result);
    }

    /** `with_current_tx`. */
    method WithCurrentTx(driver: Driver, now: Time, xs: seq<Execution>, result: Result<Json, DriverError>)
      returns (e: Envelope)
      modifies this`tx, driver
      ensures Outcome(View(), driver.server, e) == CurrentSection(old(View()), old(driver.server), now, xs, result)
    {
      if tx.None? {
        return Fail(NoTxOpen);
      }
      tx := Some(Touched(tx.value, now));
      var t := tx.value.transaction;
      driver.RunClosure(t, xs);
      if result.Err? && !ClassifyDriverError(result.error).RetriableInSameTx() {
        tx := None;
        driver.Forget(t);
      }
      return ClosureEnvelope(result);
    }

    /** `with_owned_tx` up to the point where it lets go of the session lock. */
    method WithOwnedTx(driver: Driver, database: string, kind: TxKind, fault: Option<DriverError>, xs: seq<Execution>)
      returns (r: Result<Transaction, Envelope>)
      modifies driver
      ensures (r, driver.server) == OwnedSection(View(), old(driver.server), database, kind, fault, xs)
    {
      var begun := OpenOneShot(driver, database, kind, fault);
      if begun.Err? {
        return Err(begun.error);
      }
      driver.RunClosure(begun.value, xs);
      return Ok(Transaction(begun.value, kind));
    }

    /** What is left to do when a session has been purged. */
    method EmptyTheSlot(driver: Driver)
      modifies this`tx, driver
      ensures (View(), driver.server) == EmptySlot(old(View()), old(driver.server))
    {
      if tx.Some? {
        var owned := tx.value;
        tx := None;
        driver.Release(owned);
      }
    }
  }

  /** `with_owned_tx` after the lock is gone. */
  method FinishOwned(driver: Driver, t: Transaction, d: Decision) returns (e: Envelope)
    modifies driver
    ensures (e, driver.server) == OwnedFinishSection(old(driver.server), t, d)
  {
    match d {
      case CommitIt(v, fault) =>
        var failed := driver.Commit(t.id, fault);
        e := if failed.None? then Success(Value(v)) else FailWith(failed.value);
      case RollBackIt(v) =>
        driver.Rollback(t.id);
        e := Success(Value(v));
      case Failed(error) =>
        driver.Rollback(t.id);
        e := FailWith(error);
    }
  }

  ghost predicate AnswerOf(reply: Result<Answer, DriverError>, cap: nat, rowToJson: Json -> Json,
                           documentToJson: Json -> Json, answer: Result<AnswerJson<Json>, DriverError>) {
    if reply.Ok? then Materialized(reply.value, cap, rowToJson, documentToJson, answer) else answer == Err(reply.error)
  }

  // ---- who holds what after a section ------------------------------------------------------------

  /** Whatever a section does, its session ends up with a transaction it may hold, and the books in order. */
  ghost predicate Proper(s: Session, u: Server, t: Session, v: Server) {
    Moves(Held(s), u, Held(t), v)
  }

  lemma OpenProper(s: Session, u: Server, database: string, kind: TxKind, reserved: bool, now: Time,
                   fault: Option<DriverError>)
    requires BooksOk(u) && Holds(u, Held(s))
    ensures var o := OpenSection(s, u, database, kind, reserved, now, fault);
      Proper(s, u, o.session, o.server) && o.server.ledger == u.ledger
  {
    NothingMoves(Held(s), u);
    BeginMoves(u, kind);
    hide Moves, BooksOk, Holds, Begin;
  }

  lemma KeepOrDropMoves(s: Session, u: Server, tx: OpenTx, e: DriverError)
    requires BooksOk(u) && s.tx.Some? && Holds(u, Held(s))
    requires tx.transaction == s.tx.value.transaction && tx.kind == s.tx.value.kind
    ensures var (t, v) := KeepOrDrop(s, u, tx, e); Moves(Held(s), u, Held(t), v) && v.ledger == u.ledger
  {
    NothingMoves(Held(s), u);
    EndMoves(u, Held(s).value, Dropped(tx.transaction));
    hide Moves, BooksOk, Holds, ClassifyDriverError, Said, Lose;
  }

  lemma QueryProper(s: Session, u: Server, now: Time, x: Execution, answer: Result<AnswerJson<Json>, DriverError>)
    requires BooksOk(u) && Holds(u, Held(s))
    ensures var o := QuerySection(s, u, now, x, answer);
      Proper(s, u, o.session, o.server) && o.server.ledger == u.ledger
  {
    hide BooksOk, Holds, ClassifyDriverError, Moves;
    NothingMoves(Held(s), u);
    if s.tx.Some? {
      var t, tx := Held(s).value, Touched(s.tx.value, now);
      var v, heard := Query(u, t.id, x.wrote, x.torn), Heard(u, t.id, answer);
      QueryMoves(u, t, x.wrote, x.torn);
      MovesHold(Some(t), u, Some(t), v);
      hide Query;
      if heard.Err? {
        KeepOrDropMoves(s, v, tx, heard.error);
        var (s', v') := KeepOrDrop(s, v, tx, heard.error);
        hide KeepOrDrop;
        MovesThen(Some(t), u, Some(t), v, Held(s'), v');
      }
    }
  }

  lemma MovesHold(a: Option<Transaction>, u: Server, b: Option<Transaction>, v: Server)
    requires Moves(a, u, b, v)
    ensures BooksOk(v) && Holds(v, b) && Grows(u, v)
  {
    hide BooksOk, Holds, Grows;
  }

  lemma CommitProper(s: Session, u: Server, fault: Option<DriverError>)
    requires BooksOk(u) && Holds(u, Held(s))
    ensures var o := CommitSection(s, u, fault); Proper(s, u, o.session, o.server)
  {
    hide BooksOk, Holds, ClassifyDriverError, Moves, Commit;
    NothingMoves(Held(s), u);
    if s.tx.Some? && !s.tx.value.kind.Read? {
      CommitMoves(u, Held(s).value, CommitFault(u, Held(s).value.id, fault).None?);
    }
  }

  lemma CheckpointProper(s: Session, u: Server, now: Time, fault: Option<DriverError>, reopenFault: Option<DriverError>)
    requires BooksOk(u) && Holds(u, Held(s))
    ensures var o := CheckpointSection(s, u, now, fault, reopenFault); Proper(s, u, o.session, o.server)
  {
    hide BooksOk, Holds, ClassifyDriverError, Moves, Commit, Begin;
    NothingMoves(Held(s), u);
    if s.tx.Some? && !s.tx.value.kind.Read? {
      var t := Held(s).value;
      var goes := CommitFault(u, t.id, fault).None?;
      var v := Commit(u, t.id, goes);
      CommitMoves(u, t, goes);
      MovesHold(Some(t), u, None, v);
      BeginMoves(v, t.kind);
      MovesThen(Some(t), u, None, v, Some(Transaction(v.nextTx, t.kind)), Begin(v, t.kind));
    }
  }

  lemma EmptySlotProper(s: Session, u: Server)
    requires BooksOk(u) && Holds(u, Held(s))
    ensures var (t, v) := EmptySlot(s, u); Proper(s, u, t, v) && t.tx.None? && v.ledger == u.ledger
  {
    hide BooksOk, Holds, Moves;
    NothingMoves(Held(s), u);
    if s.tx.Some? {
      var t := Held(s).value;
      EndMoves(u, t, if t.kind.Read? then ClosedTx(t.id) else RolledBack(t.id));
      hide Lose, Said;
    }
  }

  lemma {:induction false} QueriesMove(u: Server, t: Transaction, xs: seq<Execution>)
    requires BooksOk(u) && Holds(u, Some(t))
    ensures Moves(Some(t), u, Some(t), RunQueries(u, t.id, xs)) && RunQueries(u, t.id, xs).ledger == u.ledger
  {
    hide BooksOk, Holds, Moves, Query;
    if xs == [] {
      NothingMoves(Some(t), u);
    } else {
      var n := |xs| - 1;
      var v := RunQueries(u, t.id, xs[..n]);
      QueriesMove(u, t, xs[..n]);
      MovesHold(Some(t), u, Some(t), v);
      QueryMoves(v, t, xs[n].wrote, xs[n].torn);
      MovesThen(Some(t), u, Some(t), v, Some(t), Query(v, t.id, xs[n].wrote, xs[n].torn));
    }
  }

  /** Opening a transaction and running a closure in it. */
  lemma BeginAndRunMoves(u: Server, kind: TxKind, xs: seq<Execution>)
    requires BooksOk(u)
    ensures var t, v := Transaction(u.nextTx, kind), RunQueries(Begin(u, kind), u.nextTx, xs);
      Moves(None, u, Some(t), v) && v.ledger == u.ledger
  {
    hide BooksOk, Holds, Moves, Begin, RunQueries;
    var t, b := Transaction(u.nextTx, kind), Begin(u, kind);
    BeginMoves(u, kind);
    MovesHold(None, u, Some(t), b);
    QueriesMove(b, t, xs);
    NothingHeld(u);
    MovesThen(None, u, Some(t), b, Some(t), RunQueries(b, t.id, xs));
  }

  lemma NothingHeld(u: Server)
    ensures Holds(u, None)
  {
  }

  lemma ReadProper(s: Session, u: Server, database: string, fault: Option<DriverError>, xs: seq<Execution>,
                   result: Envelope)
    requires BooksOk(u) && Holds(u, Held(s))
    ensures var o := ReadSection(s, u, database, fault, xs, result);
      Proper(s, u, o.session, o.server) && o.session == s && o.server.ledger == u.ledger
  {
    hide BooksOk, Holds, Moves, RunQueries, Begin, ClassifyDriverError;
    NothingMoves(Held(s), u);
    if OneShot(s, database, fault).None? {
      var t, v := Transaction(u.nextTx, Read), RunQueries(Begin(u, Read), u.nextTx, xs);
      BeginAndRunMoves(u, Read, xs);
      MovesHold(None, u, Some(t), v);
      EndMoves(v, t, ClosedTx(t.id));
      MovesThen(None, u, Some(t), v, None, Close(v, t.id));
    }
  }

  lemma CurrentProper(s: Session, u: Server, now: Time, xs: seq<Execution>, result: Result<Json, DriverError>)
    requires BooksOk(u) && Holds(u, Held(s))
    ensures var o := CurrentSection(s, u, now, xs, result);
      Proper(s, u, o.session, o.server) && o.server.ledger == u.ledger
  {
    hide BooksOk, Holds, ClassifyDriverError, Moves, RunQueries;
    NothingMoves(Held(s), u);
    if s.tx.Some? {
      var t, tx := Held(s).value, Touched(s.tx.value, now);
      var v := RunQueries(u, t.id, xs);
      QueriesMove(u, t, xs);
      MovesHold(Some(t), u, Some(t), v);
      if result.Err? {
        KeepOrDropMoves(s, v, tx, result.error);
        var (s', v') := KeepOrDrop(s, v, tx, result.error);
        hide KeepOrDrop;
        MovesThen(Some(t), u, Some(t), v, Held(s'), v');
      }
    }
  }

  lemma OwnedProper(s: Session, u: Server, database: string, kind: TxKind, fault: Option<DriverError>,
                    xs: seq<Execution>)
    requires BooksOk(u)
    ensures var (r, v) := OwnedSection(s, u, database, kind, fault, xs);
      && Moves(None, u, if r.Ok? then Some(r.value) else None, v) && v.ledger == u.ledger
      && (r.Ok? ==> r.value.kind == kind)
  {
    NothingMoves(None, u);
    BeginAndRunMoves(u, kind, xs);
    hide BooksOk, Moves, RunQueries, Begin, ClassifyDriverError;
  }

  lemma OwnedFinishProper(u: Server, t: Transaction, d: Decision)
    requires BooksOk(u) && Holds(u, Some(t)) && !t.kind.Read?
    ensures Moves(Some(t), u, None, OwnedFinishSection(u, t, d).1)
  {
    hide BooksOk, Holds, Moves, Commit, ClassifyDriverError;
    match d {
      case CommitIt(v, fault) => CommitMoves(u, t, CommitFault(u, t.id, fault).None?);
      case _ => EndMoves(u, t, RolledBack(t.id));
    }
  }

  // ---- what a caller can rely on -------------------------------------------------------------------

  /** The flag of a failed query is true exactly when the session still has its transaction; and when the
      server sent a stack, that is when the stack has a recoverable marker and no fatal one. */
  lemma QueryFlag(s: Session, u: Server, now: Time, x: Execution, answer: Result<AnswerJson<Json>, DriverError>)
    ensures var o := QuerySection(s, u, now, x, answer);
      && (o.envelope.Failure? ==> (o.envelope.retriableInSameTx <==> o.session.tx.Some?))
      && (s.tx.Some? && Heard(u, s.tx.value.transaction, answer).Err? &&
          Heard(u, s.tx.value.transaction, answer).error.ServerStack? ==>
            var message := Heard(u, s.tx.value.transaction, answer).error.message;
            (o.envelope.Failure? && (o.session.tx.Some? <==> !FatalMarker(message) && RecoverableMarker(message))))
  {
    hide Query, ClassifyTypedbError, FatalMarker, RecoverableMarker;
    if s.tx.Some? {
      var heard := Heard(u, s.tx.value.transaction, answer);
      if heard.Err? && heard.error.ServerStack? {
        RetriableIff(heard.error.topCode, heard.error.message);
      }
    }
  }

  /** The same holds of `with_current_tx`. */
  lemma CurrentFlag(s: Session, u: Server, now: Time, xs: seq<Execution>, result: Result<Json, DriverError>)
    ensures var o := CurrentSection(s, u, now, xs, result);
      o.envelope.Failure? ==> (o.envelope.retriableInSameTx <==> o.session.tx.Some?)
  {
    hide RunQueries, ClassifyDriverError;
  }

  predicate FlagIsTrue(o: Outcome) {
    o.envelope.Failure? ==> (o.envelope.retriableInSameTx <==> o.session.tx.Some?)
  }

  /** The error text says that the transaction is still usable. */
  predicate SaysOpen(e: DriverError) {
    e.ServerStack? && RecoverableMarker(e.message) && !FatalMarker(e.message)
  }

  lemma SaysOpenIff(e: DriverError)
    ensures ClassifyDriverError(e).RetriableInSameTx() <==> SaysOpen(e)
  {
    if e.ServerStack? {
      RetriableIff(e.topCode, e.message);
    }
    hide RecoverableMarker, FatalMarker, ClassifyTypedbError;
  }

  /** Outside of queries the flag can be wrong: the slot is emptied, or was empty all along, whatever the
      server's error says. After a commit or a checkpoint the flag is right unless the server refused, with a
      stack that has a recoverable marker and no fatal one. */
  lemma CommitFlagIff(s: Session, u: Server, now: Time, fault: Option<DriverError>, reopenFault: Option<DriverError>)
    ensures var sent := s.tx.Some? && !s.tx.value.kind.Read?;
      var failed := if sent then CommitFault(u, s.tx.value.transaction, fault) else None;
      var reopens := sent && failed.None?;
      && (FlagIsTrue(CommitSection(s, u, fault)) <==> !(failed.Some? && SaysOpen(failed.value)))
      && (FlagIsTrue(CheckpointSection(s, u, now, fault, reopenFault)) <==>
          !(failed.Some? && SaysOpen(failed.value)) && !(reopens && reopenFault.Some? && SaysOpen(reopenFault.value)))
  {
    var sent := s.tx.Some? && !s.tx.value.kind.Read?;
    var failed := if sent then CommitFault(u, s.tx.value.transaction, fault) else None;
    if failed.Some? {
      SaysOpenIff(failed.value);
    }
    if reopenFault.Some? {
      SaysOpenIff(reopenFault.value);
    }
    hide ClassifyDriverError, Commit, Begin, SaysOpen;
  }

  /** Likewise for a one-shot read: right unless the open, or the query and its drain, failed with such a
      stack, or the answer was over the cap. */
  lemma ReadOnceFlagIff(s: Session, u: Server, database: string, fault: Option<DriverError>, x: Execution,
                        answer: Result<AnswerJson<Json>, DriverError>)
    ensures var guarded := s.tx.Some? || database !in s.schemaSeen;
      FlagIsTrue(ReadSection(s, u, database, fault, [x], AnswerEnvelope(answer))) <==>
        || guarded
        || (fault.Some? && !SaysOpen(fault.value))
        || (fault.None? && match answer
              case Ok(json) => !json.truncated
              case Err(e) => !SaysOpen(e))
  {
    if fault.Some? {
      SaysOpenIff(fault.value);
    }
    if answer.Err? {
      SaysOpenIff(answer.error);
    }
    hide ClassifyDriverError, RunQueries, Begin, Close, SaysOpen;
  }

  /** Every answer over the cap makes the flag of a one-shot read wrong: it says that a transaction is open,
      and there is none. */
  lemma ReadOnceFlagCanBeWrong(s: Session, u: Server, database: string, x: Execution, a: Answer, cap: nat,
                               rowToJson: Json -> Json, documentToJson: Json -> Json,
                               answer: Result<AnswerJson<Json>, DriverError>)
    requires s.tx.None? && database in s.schemaSeen && !a.OkAnswer? && Flows(ItemsOf(a), cap + 1)
    requires AnswerOf(Ok(a), cap, rowToJson, documentToJson, answer)
    ensures var o := ReadSection(s, u, database, None, [x], AnswerEnvelope(answer));
      o.envelope == Failure(ResultLimitExceeded, true) && o.session.tx.None? && !FlagIsTrue(o)
  {
    WholeAnswer(a, cap, rowToJson, documentToJson, answer);
    hide AnswerOf, AnswerEnvelope, Flows;
  }

  /** A write transaction whose commit is refused with a type error: the flag says it is still open. */
  lemma CommitFlagCanBeWrong()
    ensures var s := Session({"d"}, Some(OpenTx("d", Write, 0, 0)), 1);
      !FlagIsTrue(CommitSection(s, Begin(NO_TRANSACTIONS, Write), Some(ServerStack("INF2", "[INF2]"))))
  {
    var s := Session({"d"}, Some(OpenTx("d", Write, 0, 0)), 1);
    var e := ServerStack("INF2", "[INF2]");
    TypeErrorIsRetriable(e.message);
    SaysOpenIff(e);
    CommitFlagIff(s, Begin(NO_TRANSACTIONS, Write), 0, Some(e), None);
    hide SaysOpen, ClassifyTypedbError, FlagIsTrue, CommitSection, CheckpointSection;
  }

  lemma LongCodesFillIt(m: string, c: string)
    requires |m| == 6 && |c| >= 4
    ensures Has(m, c) ==> m[1] == c[0]
  {
    var pat := "[" + c + "]";
    forall i: nat | i <= |m| && OccursAt(m, pat, i)
      ensures m[1] == c[0]
    {
      OccurrenceChars(m, pat, i);
      assert m[i + 1] == pat[1];
    }
  }

  lemma TypeErrorIsRetriable(m: string)
    requires m == "[INF2]"
    ensures ClassifyTypedbError("INF2", m).RetriableInSameTx()
  {
    forall c: string | |c| >= 4
      ensures Has(m, c) ==> c[0] == 'I'
    {
      LongCodesFillIt(m, c);
    }
    assert HasFamily(m, "INF") by {
      assert m[0..4] == "[" + "INF";
      assert OccursAt(m, "[" + "INF", 0);
    }
    assert "INF" in RECOVERABLE_FAMILIES;
    hide Has, HasFamily;
    RetriableIff("INF2", m);
  }

  function ItemsOf(a: Answer): Stream<Json, DriverError>
    requires !a.OkAnswer?
  {
    if a.ConceptRows? then a.rows else a.documents
  }

  function ToJson(a: Answer, rowToJson: Json -> Json, documentToJson: Json -> Json): Json -> Json {
    if a.ConceptRows? then rowToJson else documentToJson
  }

  /** A success envelope carries the whole answer, item for item, and there is one exactly when the stream
      ends within the cap; an answer over the cap is never cut, it is refused. */
  lemma WholeAnswer(a: Answer, cap: nat, rowToJson: Json -> Json, documentToJson: Json -> Json,
                    answer: Result<AnswerJson<Json>, DriverError>)
    requires AnswerOf(Ok(a), cap, rowToJson, documentToJson, answer) && !a.OkAnswer?
    ensures AnswerEnvelope(answer).Success? <==> exists n: nat :: n <= cap && Delivers(ItemsOf(a), n)
    ensures AnswerEnvelope(answer) == Fail(ResultLimitExceeded) <==> Flows(ItemsOf(a), cap + 1)
    ensures AnswerEnvelope(answer).Success? ==>
      && AnswerEnvelope(answer).body.Answers? && AnswerEnvelope(answer).body.json.answers.Some?
      && var js := AnswerEnvelope(answer).body.json.answers.value;
        && Delivers(ItemsOf(a), |js|)
        && forall i: nat :: i < |js| ==>
             ItemsOf(a)(i).Item? && js[i] == ToJson(a, rowToJson, documentToJson)(ItemsOf(a)(i).value)
  {
    var items, toJson := ItemsOf(a), ToJson(a, rowToJson, documentToJson);
    DrainOutcome(items, cap, toJson, Unwrap(answer));
    if answer.Ok? {
      AllOrNothing(items, cap, toJson, answer.value.answers.value, answer.value.truncated);
    }
    hide DrainedTo, Delivers, Flows;
  }

  /** A checkpoint persists everything the transaction has written, or nothing; that does not depend on
      whether the fresh transaction could be opened, and only then is the slot filled again. */
  lemma CheckpointPersists(s: Session, u: Server, now: Time, fault: Option<DriverError>,
                           reopenFault: Option<DriverError>)
    requires BooksOk(u) && Holds(u, Held(s)) && s.tx.Some? && !s.tx.value.kind.Read?
    ensures var o, t := CheckpointSection(s, u, now, fault, reopenFault), s.tx.value.transaction;
      var goes := fault.None? && t in u.pending;
      && o.server.ledger == u.ledger + (if goes then u.pending[t] else [])
      && (!goes && t in u.pending ==> forall w :: w in u.pending[t] ==> w in o.server.discarded)
      && t !in Unfinished(o.server)
      && (o.envelope.Success? <==> goes && reopenFault.None?)
      && (o.session.tx.Some? <==> goes && reopenFault.None?)
      && (o.session.tx.Some? ==> o.session.tx.value.database == s.tx.value.database
                                 && o.session.tx.value.kind == s.tx.value.kind
                                 && o.session.tx.value.transaction !in u.kinds)
  {
    hide BooksOk, ClassifyDriverError, Finished;
    var t := Held(s).value;
    var goes := fault.None? && t.id in u.pending;
    var v := Commit(u, t.id, goes);
    HeldIsOpen(u, t);
    CommitMoves(u, t, goes);
    MovesHold(Some(t), u, None, v);
    BeginMoves(v, t.kind);
    assert t.id in v.kinds;
    assert !goes && t.id in u.pending ==> forall w :: w in u.pending[t.id] ==> w in v.discarded;
    hide Commit, Begin, Unfinished;
  }

  /** The writes behind a refused oversized answer are still there, in a transaction still open. */
  lemma LimitKeepsWrites(s: Session, u: Server, now: Time, wrote: nat, answer: Result<AnswerJson<Json>, DriverError>)
    requires BooksOk(u) && Holds(u, Held(s)) && s.tx.Some?
    requires QuerySection(s, u, now, Execution(wrote, false), answer).envelope == Fail(ResultLimitExceeded)
    ensures var o, t := QuerySection(s, u, now, Execution(wrote, false), answer), s.tx.value.transaction;
      && o.session.tx == Some(Touched(s.tx.value, now)) && o.envelope.retriableInSameTx
      && t in u.pending && t in o.server.pending
      && o.server.pending[t] == u.pending[t] + (if s.tx.value.kind.Read? then [] else FreshWrites(u.nextWrite, wrote))
      && o.server.ledger == u.ledger && o.server.discarded == u.discarded
  {
  }
}
