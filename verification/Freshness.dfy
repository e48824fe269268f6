/** The schema gate. With whole tool calls as steps and no client but this server, a database a session may
    open is one whose current schema that session has read, or wrote itself. */
module Freshness {
  import opened Prelude
  import opened Classifier
  import opened Coordinator
  import opened Upstream
  import opened Kernel
  import opened Store
  import Admin
  import Runs

  type Version = nat

  /** `versions` has the databases that exist, each with the version of its schema; `known` is the version
      a session last read or committed. */
  datatype State = State(
    sessions: map<SessionId, Session>, server: Server, versions: map<string, Version>,
    known: map<(SessionId, string), Version>, next: Version)

  const START := State(map[], NO_TRANSACTIONS, map[], map[], 0)

  /** How an import ends: a failed one may leave a partial database behind. */
  datatype ImportOutcome = ImportRefused | ImportBroken(left: bool) | Imported

  datatype Call =
    | StartSession(id: SessionId, expiresAt: Time)
    | Purged(id: SessionId)
    | GetSchema(id: SessionId, database: string, failed: bool)
    | Tool(id: SessionId, work: Runs.Work)
    | Owned(id: SessionId, database: string, kind: TxKind, fault: Option<DriverError>, xs: seq<Execution>,
            decision: Decision)
    | Reap(id: SessionId)
    | CreateDatabase(id: SessionId, database: string, reserved: bool, failed: bool)
    | DeleteDatabase(id: SessionId, database: string, confirm: string, reserved: bool, failed: bool)
    | ImportDatabase(id: SessionId, database: string, outcome: ImportOutcome)
    | Abort(t: TxId)

  predicate Enabled(s: State, a: Call) {
    match a
    case StartSession(id, _) => id !in s.sessions
    case Owned(id, _, kind, _, _, _) => id in s.sessions && !kind.Read?
    case ImportDatabase(id, database, outcome) =>
      id in s.sessions && s.sessions[id].tx.None? && (outcome.ImportRefused? || database !in s.versions)
    case Abort(_) => true
    case _ => a.id in s.sessions
  }

  function Put(s: State, id: SessionId, x: Session, u: Server): State {
    s.(sessions := s.sessions[id := x], server := u)
  }

  /** The schema of a database has a new version. */
  function NewVersion(s: State, database: string): State {
    s.(versions := s.versions[database := s.next], next := s.next + 1)
  }

  /** ... written by session `id`, which keeps its gate; every other session loses its own. */
  function SchemaWritten(s: State, id: SessionId, database: string): State {
    NewVersion(s, database).(known := s.known[(id, database) := s.next],
                             sessions := Invalidate(s.sessions, database, Some(id)))
  }

  predicate SchemaCommitted(x: Session, u: Server, work: Runs.Work) {
    && (work.CommitWork? || work.CheckpointWork?) && x.tx.Some? && x.tx.value.kind.Schema?
    && CommitFault(u, x.tx.value.transaction, work.fault).None?
  }

  function Apply(s: State, a: Call): State
    requires Enabled(s, a)
  {
    match a
    case StartSession(id, expiresAt) => Put(s, id, Session({}, None, expiresAt), s.server)
    case Purged(id) => s.(sessions := s.sessions - {id}, server := EmptySlot(s.sessions[id], s.server).1)
    case GetSchema(id, database, failed) =>
      if failed || database !in s.versions then s
      else
        Put(s, id, s.sessions[id].(schemaSeen := s.sessions[id].schemaSeen + {database}), s.server)
        .(known := s.known[(id, database) := s.versions[database]])
    case Tool(id, work) =>
      var x := s.sessions[id];
      var o := Runs.WorkOutcome(x, s.server, work);
      var t := Put(s, id, o.session, o.server);
      if SchemaCommitted(x, s.server, work) then SchemaWritten(t, id, x.tx.value.database) else t
    case Owned(id, database, kind, fault, xs, decision) =>
      var (r, u) := OwnedSection(s.sessions[id], s.server, database, kind, fault, xs);
      if r.Err? then s.(server := u)
      else
        var (e, v) := OwnedFinishSection(u, r.value, decision);
        var t := s.(server := v);
        if kind.Schema? && decision.CommitIt? && e.Success? then SchemaWritten(t, id, database) else t
    case Reap(id) => Put(s, id, EmptySlot(s.sessions[id], s.server).0, EmptySlot(s.sessions[id], s.server).1)
    case CreateDatabase(id, database, reserved, failed) =>
      var open, present := s.sessions[id].tx.Some?, database in s.versions;
      if Admin.Creates(database, open, reserved, present, failed) then NewVersion(s, database) else s
    case DeleteDatabase(id, database, confirm, reserved, failed) =>
      var open, openElsewhere, present := s.sessions[id].tx.Some?, OpenIn(s.sessions, database), database in s.versions;
      if Admin.Deletes(database, confirm, open, openElsewhere, reserved, present, failed)
      then s.(versions := s.versions - {database}, sessions := Invalidate(s.sessions, database, None))
      else s
    case ImportDatabase(id, database, outcome) =>
      match outcome {
        case ImportRefused => s
        case ImportBroken(left) => if left then NewVersion(s, database) else s
        case Imported => NewVersion(s, database).(sessions := Invalidate(s.sessions, database, Some(id)))
      }
    case Abort(t) => s.(server := Lose(s.server, t))
  }

  // ---- the invariant ------------------------------------------------------------------------------

  predicate Gated(s: State, id: SessionId, database: string) {
    id in s.sessions && database in s.sessions[id].schemaSeen
  }

  /** The database exists, and the version the session knows is the current one. */
  predicate Current(s: State, id: SessionId, database: string) {
    database in s.versions && (id, database) in s.known && s.known[(id, database)] == s.versions[database]
  }

  ghost predicate Inv(s: State) {
    && (forall id, d :: Gated(s, id, d) ==> Current(s, id, d))
    && (forall id :: id in s.sessions && s.sessions[id].tx.Some? ==> s.sessions[id].tx.value.database in s.versions)
  }

  /** What any section may do to a session: its gates stay, and a transaction it ends up with is on the
      database of the one it had, or on one of its gates. */
  predicate KeepsGates(x: Session, y: Session) {
    && y.schemaSeen == x.schemaSeen
    && (y.tx.Some? ==>
          y.tx.value.database in x.schemaSeen || (x.tx.Some? && y.tx.value.database == x.tx.value.database))
  }

  lemma WorkKeepsGates(x: Session, u: Server, work: Runs.Work)
    ensures KeepsGates(x, Runs.WorkOutcome(x, u, work).session)
  {
    hide Query, Commit, Begin, RunQueries, ReleaseTx, ClassifyDriverError, Drop;
    match work {
      case OpenAny(_, _, _, _, _) =>
      case RunQuery(_, _, _) =>
      case CommitWork(_) =>
      case CheckpointWork(_, _, _) =>
      case RollbackWork =>
      case ReadWork(_, _, _, _) =>
      case CurrentWork(_, _, _) =>
    }
  }

  lemma PutKeeps(s: State, id: SessionId, x: Session, u: Server)
    requires Inv(s) && id in s.sessions && KeepsGates(s.sessions[id], x)
    ensures Inv(Put(s, id, x, u))
  {
    var t := Put(s, id, x, u);
    assert forall i, d :: Gated(t, i, d) ==> Gated(s, i, d) && Current(s, i, d);
    assert forall d :: d in s.sessions[id].schemaSeen ==> Gated(s, id, d);
  }

  lemma WrittenKeeps(s: State, id: SessionId, database: string)
    requires Inv(s) && id in s.sessions && database in s.versions
    ensures Inv(SchemaWritten(s, id, database))
  {
    var t := SchemaWritten(s, id, database);
    forall i, d | Gated(t, i, d)
      ensures Current(t, i, d)
    {
      assert Gated(s, i, d);
    }
  }

  lemma ToolKeeps(s: State, id: SessionId, work: Runs.Work)
    requires Inv(s) && id in s.sessions
    ensures Inv(Apply(s, Tool(id, work)))
  {
    WorkKeepsGates(s.sessions[id], s.server, work);
    var o := Runs.WorkOutcome(s.sessions[id], s.server, work);
    PutKeeps(s, id, o.session, o.server);
    hide KeepsGates, Gated, Current, Invalidate, Runs.WorkOutcome, CommitFault;
    if SchemaCommitted(s.sessions[id], s.server, work) {
      WrittenKeeps(Put(s, id, o.session, o.server), id, s.sessions[id].tx.value.database);
    }
  }

  lemma OwnedKeeps(s: State, a: Call)
    requires Inv(s) && Enabled(s, a) && a.Owned?
    ensures Inv(Apply(s, a))
  {
    var (r, u) := OwnedSection(s.sessions[a.id], s.server, a.database, a.kind, a.fault, a.xs);
    assert r.Ok? ==> Gated(s, a.id, a.database);
    hide OwnedSection, OwnedFinishSection;
    if r.Ok? {
      var t := s.(server := OwnedFinishSection(u, r.value, a.decision).1);
      PutKeeps(s, a.id, s.sessions[a.id], t.server);
      assert t == Put(s, a.id, s.sessions[a.id], t.server);
      WrittenKeeps(t, a.id, a.database);
      hide Gated, Invalidate;
    } else {
      SameButServer(s, u);
    }
  }

  lemma SameButServer(s: State, u: Server)
    requires Inv(s)
    ensures Inv(s.(server := u))
  {
    assert forall i, d :: Gated(s.(server := u), i, d) ==> Gated(s, i, d) && Current(s, i, d);
  }

  lemma DatabaseKeeps(s: State, a: Call)
    requires Inv(s) && Enabled(s, a) && (a.CreateDatabase? || a.DeleteDatabase? || a.ImportDatabase?)
    ensures Inv(Apply(s, a))
  {
    var t := Apply(s, a);
    forall i, d | Gated(t, i, d)
      ensures Current(t, i, d)
    {
      assert Gated(s, i, d);
    }
  }

  lemma SessionKeeps(s: State, a: Call)
    requires Inv(s) && Enabled(s, a) && (a.StartSession? || a.Purged? || a.GetSchema? || a.Reap?)
    ensures Inv(Apply(s, a))
  {
    hide ReleaseTx;
    var t := Apply(s, a);
    forall i, d | Gated(t, i, d)
      ensures Current(t, i, d)
    {
      assert (a.GetSchema? && i == a.id && d == a.database) || Gated(s, i, d);
    }
  }

  lemma StepKeepsInv(s: State, a: Call)
    requires Inv(s) && Enabled(s, a)
    ensures Inv(Apply(s, a))
  {
    match a {
      case Tool(id, work) => ToolKeeps(s, id, work);
      case Owned(_, _, _, _, _, _) => OwnedKeeps(s, a);
      case CreateDatabase(_, _, _, _) => DatabaseKeeps(s, a);
      case DeleteDatabase(_, _, _, _, _) => DatabaseKeeps(s, a);
      case ImportDatabase(_, _, _) => DatabaseKeeps(s, a);
      case Abort(t) => SameButServer(s, Lose(s.server, t));
      case _ => SessionKeeps(s, a);
    }
  }

  // ---- over whole runs ------------------------------------------------------------------------------

  predicate Steps(s: State, a: Call, t: State) {
    Enabled(s, a) && t == Apply(s, a)
  }

  predicate IsRun(states: seq<State>, calls: seq<Call>) {
    && |states| == |calls| + 1 && states[0] == START
    && forall i :: 0 <= i < |calls| ==> Steps(states[i], calls[i], states[i + 1])
  }

  lemma {:induction false} InvAlong(states: seq<State>, calls: seq<Call>, i: nat)
    requires IsRun(states, calls) && i < |states|
    ensures Inv(states[i])
  {
    hide Apply, Enabled;
    if i > 0 {
      InvAlong(states, calls, i - 1);
      hide Inv;
      assert Steps(states[i - 1], calls[i - 1], states[i - 1 + 1]);
      StepKeepsInv(states[i - 1], calls[i - 1]);
    }
  }

  /** A gate is never stale: the database exists, and its schema is the one the session last read or
      committed. And no transaction is open on a database that does not exist. */
  lemma GatesAreFresh(states: seq<State>, calls: seq<Call>, i: nat, id: SessionId, database: string)
    requires IsRun(states, calls) && i < |states| && id in states[i].sessions
    ensures database in states[i].sessions[id].schemaSeen ==> Current(states[i], id, database)
    ensures states[i].sessions[id].tx.Some? ==> states[i].sessions[id].tx.value.database in states[i].versions
  {
    InvAlong(states, calls, i);
    assert database in states[i].sessions[id].schemaSeen ==> Gated(states[i], id, database);
    hide IsRun;
  }

  /** A transaction that a call opens is on a database whose current schema its session knows. */
  lemma OpensOnFreshSchema(states: seq<State>, calls: seq<Call>, i: nat)
    requires IsRun(states, calls) && i < |calls| && calls[i].Tool? && calls[i].work.OpenAny?
    requires calls[i].id in states[i].sessions
    requires Runs.WorkOutcome(states[i].sessions[calls[i].id], states[i].server, calls[i].work).envelope.Success?
    ensures Current(states[i], calls[i].id, calls[i].work.database)
  {
    GatesAreFresh(states, calls, i, calls[i].id, calls[i].work.database);
    hide IsRun, Current;
  }

  /** The database whose schema a call writes. */
  function WritesSchema(s: State, a: Call): Option<string>
    requires Enabled(s, a)
  {
    match a
    case Tool(id, work) =>
      if SchemaCommitted(s.sessions[id], s.server, work) then Some(s.sessions[id].tx.value.database) else None
    case Owned(id, database, kind, fault, xs, decision) =>
      var (r, u) := OwnedSection(s.sessions[id], s.server, database, kind, fault, xs);
      var written := kind.Schema? && r.Ok? && decision.CommitIt? && OwnedFinishSection(u, r.value, decision).0.Success?;
      if written then Some(database) else None
    case _ => None
  }

  /** The session whose call wrote a new schema keeps exactly the gates it had: it is not handed back one it
      had lost; every other session loses its gate for that database and no other. */
  lemma WriterKeepsItsGates(s: State, a: Call, other: SessionId)
    requires Enabled(s, a) && WritesSchema(s, a).Some? && other in s.sessions && other != a.id
    ensures var t, database := Apply(s, a), WritesSchema(s, a).value;
      && t.sessions.Keys == s.sessions.Keys
      && t.sessions[a.id].schemaSeen == s.sessions[a.id].schemaSeen
      && t.sessions[other].schemaSeen == s.sessions[other].schemaSeen - {database}
      && database in t.versions && t.versions[database] == s.next
  {
    hide Runs.WorkOutcome, OwnedSection, OwnedFinishSection;
    if a.Tool? {
      WorkKeepsGates(s.sessions[a.id], s.server, a.work);
    }
  }

  // ---- what each call does -------------------------------------------------------------------------

  /** No session has a transaction open on the database. */
  ghost predicate Quiet(s: State, database: string) {
    forall id :: id in s.sessions && s.sessions[id].tx.Some? ==> s.sessions[id].tx.value.database != database
  }

  /** Gates other than those for `database` are as before, and so are slots and deadlines. */
  ghost predicate OnlyGates(s: State, t: State, database: string) {
    && t.sessions.Keys == s.sessions.Keys
    && forall id :: id in s.sessions ==>
         && t.sessions[id].tx == s.sessions[id].tx && t.sessions[id].expiresAt == s.sessions[id].expiresAt
         && forall d :: d != database ==> (d in t.sessions[id].schemaSeen <==> d in s.sessions[id].schemaSeen)
  }

  /** A database is there after a create iff it was there, or nothing stood against its creation; it has then
      a version no session knows. */
  lemma CreateTells(s: State, id: SessionId, database: string, reserved: bool, failed: bool)
    requires Enabled(s, CreateDatabase(id, database, reserved, failed))
    ensures var t := Apply(s, CreateDatabase(id, database, reserved, failed));
      && t.sessions == s.sessions && t.server == s.server && t.known == s.known
      && t.versions - {database} == s.versions - {database}
      && (database in t.versions && database !in s.versions <==>
            && s.sessions[id].tx.None? && !reserved && !failed && database !in s.versions
            && 0 < |database| <= 128 && forall i :: 0 <= i < |database| ==> NameChar(database[i]))
      && (database in t.versions && database !in s.versions ==> t.versions[database] == s.next)
      && (database in s.versions ==> t == s)
  {
  }

  /** A delete takes a database away iff it is confirmed by name, the name is free and well formed, and no
      session has a transaction open on it, nor the caller on any; then every gate for it goes, too. */
  lemma DeleteTells(s: State, id: SessionId, database: string, confirm: string, reserved: bool, failed: bool)
    requires Enabled(s, DeleteDatabase(id, database, confirm, reserved, failed))
    ensures var t := Apply(s, DeleteDatabase(id, database, confirm, reserved, failed));
      && t.server == s.server && t.known == s.known && t.versions - {database} == s.versions - {database}
      && OnlyGates(s, t, database)
      && (database in s.versions && database !in t.versions <==>
            && confirm == database && s.sessions[id].tx.None? && Quiet(s, database) && !reserved && !failed
            && database in s.versions
            && 0 < |database| <= 128 && forall i :: 0 <= i < |database| ==> NameChar(database[i]))
      && (database in s.versions && database !in t.versions ==>
            forall other :: other in t.sessions ==> database !in t.sessions[other].schemaSeen)
      && (database in t.versions || database !in s.versions ==> t == s)
  {
  }

  /** A gate is granted only by reading the schema of a database that is there. */
  lemma GetSchemaTells(s: State, id: SessionId, database: string, failed: bool)
    requires Enabled(s, GetSchema(id, database, failed))
    ensures var t := Apply(s, GetSchema(id, database, failed));
      && t.versions == s.versions && t.server == s.server
      && (failed || database !in s.versions ==> t == s)
      && (!failed && database in s.versions ==>
            && OnlyGates(s, t, database) && Gated(t, id, database) && Current(t, id, database)
            && forall other :: other in s.sessions && other != id ==> t.sessions[other] == s.sessions[other])
  {
  }

  /** An import that may have written a database leaves it with a version no session knows, and takes the gate
      for it from every other session when it succeeds. */
  lemma ImportTells(s: State, id: SessionId, database: string, outcome: ImportOutcome)
    requires Enabled(s, ImportDatabase(id, database, outcome))
    ensures var t := Apply(s, ImportDatabase(id, database, outcome));
      && t.server == s.server && t.known == s.known && t.versions - {database} == s.versions - {database}
      && OnlyGates(s, t, database) && t.sessions[id] == s.sessions[id]
      && (outcome.Imported? || (outcome.ImportBroken? && outcome.left) ==>
            database in t.versions && t.versions[database] == s.next)
      && (outcome.ImportRefused? || (outcome.ImportBroken? && !outcome.left) ==> t == s)
      && (outcome.Imported? ==>
            forall other :: other in s.sessions && other != id ==> database !in t.sessions[other].schemaSeen)
  {
  }

  /** The schema of a database changes in a call on a session iff the call commits a SCHEMA transaction on it
      and the server takes the commit. */
  lemma SchemaChanges(s: State, id: SessionId, work: Runs.Work)
    requires id in s.sessions
    ensures var x, t := s.sessions[id], Apply(s, Tool(id, work));
      var goes := work.CommitWork? || work.CheckpointWork?;
      if && goes && x.tx.Some? && x.tx.value.kind.Schema?
         && work.fault.None? && x.tx.value.transaction in s.server.pending
      then
        && t.versions == s.versions[x.tx.value.database := s.next]
        && WritesSchema(s, Tool(id, work)) == Some(x.tx.value.database)
      else t.versions == s.versions && t.known == s.known && WritesSchema(s, Tool(id, work)).None?
  {
    hide OpenSection, QuerySection, RollbackSection, ReadSection, CurrentSection, Invalidate;
  }

  /** ... and in a closure iff it decides to commit and the commit goes through. */
  lemma ClosureChanges(s: State, a: Call)
    requires Enabled(s, a) && a.Owned?
    ensures var (r, u) := OwnedSection(s.sessions[a.id], s.server, a.database, a.kind, a.fault, a.xs);
      if && r.Ok? && a.kind.Schema? && a.decision.CommitIt? && a.decision.fault.None? && r.value.id in u.pending
      then Apply(s, a).versions == s.versions[a.database := s.next] && WritesSchema(s, a) == Some(a.database)
      else Apply(s, a).versions == s.versions && Apply(s, a).known == s.known && WritesSchema(s, a).None?
  {
    var (r, u) := OwnedSection(s.sessions[a.id], s.server, a.database, a.kind, a.fault, a.xs);
    hide OwnedSection, Invalidate, ClassifyDriverError;
    if r.Ok? && a.decision.CommitIt? {
      assert OwnedFinishSection(u, r.value, a.decision).0.Success? <==>
             a.decision.fault.None? && r.value.id in u.pending;
    }
  }
}
