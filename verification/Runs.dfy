/** Any number of sessions and calls, interleaved one lock-held section at a time, against a server that may
    lose a transaction at any moment: where each transaction is, and what becomes of each write. */
module Runs {
  import opened Prelude
  import opened Classifier
  import opened Drain
  import opened Upstream
  import opened Kernel

  type SessionId = string
  type CallId = nat

  /** `locals` are the transactions calls hold outside any lock. */
  datatype World = World(sessions: map<SessionId, Session>, locals: map<CallId, Transaction>, server: Server)

  const START := World(map[], map[], NO_TRANSACTIONS)

  /** The sections that work on the slot of one session. */
  datatype Work =
    | OpenAny(database: string, kind: TxKind, reserved: bool, now: Time, fault: Option<DriverError>)
    | RunQuery(now: Time, x: Execution, answer: Result<AnswerJson<Json>, DriverError>)
    | CommitWork(fault: Option<DriverError>)
    | CheckpointWork(now: Time, fault: Option<DriverError>, reopenFault: Option<DriverError>)
    | RollbackWork
    | ReadWork(database: string, fault: Option<DriverError>, xs: seq<Execution>, result: Envelope)
    | CurrentWork(now: Time, xs: seq<Execution>, value: Result<Json, DriverError>)

  /** `Reap` is the reaper emptying the slot of an idle or purged session, or a resolve that of a purged one;
      `Vanish` the last reference to a purged session going away; `Abandon` a cancelled closure call;
      `Abort` the server losing a transaction on its own. */
  datatype Action =
    | StartSession(id: SessionId, expiresAt: Time)
    | Touch(id: SessionId, expiresAt: Time)
    | SeeSchema(id: SessionId, database: string)
    | ForgetSchema(id: SessionId, database: string)
    | Do(id: SessionId, work: Work)
    | Reap(id: SessionId)
    | Vanish(id: SessionId)
    | Own(id: SessionId, call: CallId, database: string, kind: TxKind, fault: Option<DriverError>, xs: seq<Execution>)
    | Finish(call: CallId, decision: Decision)
    | Abandon(call: CallId)
    | Abort(t: TxId)

  predicate Enabled(g: World, a: Action) {
    match a
    case StartSession(id, _) => id !in g.sessions
    case Own(id, call, _, kind, _, _) => id in g.sessions && call !in g.locals && !kind.Read?
    case Finish(call, _) => call in g.locals
    case Abandon(call) => call in g.locals
    case Abort(_) => true
    case _ => a.id in g.sessions
  }

  function WorkOutcome(s: Session, u: Server, work: Work): Outcome {
    match work
    case OpenAny(database, kind, reserved, now, fault) => OpenSection(s, u, database, kind, reserved, now, fault)
    case RunQuery(now, x, answer) => QuerySection(s, u, now, x, answer)
    case CommitWork(fault) => CommitSection(s, u, fault)
    case CheckpointWork(now, fault, reopenFault) => CheckpointSection(s, u, now, fault, reopenFault)
    case RollbackWork => RollbackSection(s, u)
    case ReadWork(database, fault, xs, result) => ReadSection(s, u, database, fault, xs, result)
    case CurrentWork(now, xs, value) => CurrentSection(s, u, now, xs, value)
  }

  function Put(g: World, id: SessionId, s: Session, u: Server): World {
    g.(sessions := g.sessions[id := s], server := u)
  }

  function Apply(g: World, a: Action): World
    requires Enabled(g, a)
  {
    match a
    case StartSession(id, expiresAt) => Put(g, id, Session({}, None, expiresAt), g.server)
    case Touch(id, expiresAt) => Put(g, id, g.sessions[id].(expiresAt := expiresAt), g.server)
    case SeeSchema(id, d) => Put(g, id, g.sessions[id].(schemaSeen := g.sessions[id].schemaSeen + {d}), g.server)
    case ForgetSchema(id, d) => Put(g, id, g.sessions[id].(schemaSeen := g.sessions[id].schemaSeen - {d}), g.server)
    case Do(id, work) =>
      var o := WorkOutcome(g.sessions[id], g.server, work);
      Put(g, id, o.session, o.server)
    case Reap(id) =>
      var (s, u) := EmptySlot(g.sessions[id], g.server);
      Put(g, id, s, u)
    case Vanish(id) =>
      var tx := g.sessions[id].tx;
      g.(sessions := g.sessions - {id}, server := if tx.Some? then Drop(g.server, tx.value.transaction) else g.server)
    case Own(id, call, database, kind, fault, xs) =>
      var (r, u) := OwnedSection(g.sessions[id], g.server, database, kind, fault, xs);
      g.(locals := if r.Ok? then g.locals[call := r.value] else g.locals, server := u)
    case Finish(call, decision) =>
      g.(locals := g.locals - {call}, server := OwnedFinishSection(g.server, g.locals[call], decision).1)
    case Abandon(call) => g.(locals := g.locals - {call}, server := Drop(g.server, g.locals[call].id))
    case Abort(t) => g.(server := Lose(g.server, t))
  }

  // ---- the invariant ------------------------------------------------------------------------------

  /** Who can hold a transaction. */
  datatype Holder = Slot(id: SessionId) | Local(call: CallId)

  function HandleOf(g: World, h: Holder): Option<Transaction> {
    match h
    case Slot(id) => if id in g.sessions then Kernel.Held(g.sessions[id]) else None
    case Local(call) => if call in g.locals then Some(g.locals[call]) else None
  }

  predicate Has(g: World, h: Holder, t: TxId) {
    HandleOf(g, h).Some? && HandleOf(g, h).value.id == t
  }

  /** Every unfinished transaction is held, by one holder, under its own kind. */
  ghost predicate Linear(g: World) {
    && (forall h :: Holds(g.server, HandleOf(g, h)))
    && (forall h, k, t :: Has(g, h, t) && Has(g, k, t) ==> h == k)
    && (forall t :: t in Unfinished(g.server) ==> exists h :: Has(g, h, t))
  }

  ghost predicate LocalsOk(g: World) {
    forall c :: c in g.locals ==> !g.locals[c].kind.Read?
  }

  ghost predicate Inv(g: World) {
    BooksOk(g.server) && Linear(g) && LocalsOk(g)
  }

  /** Only holder `h` is touched. */
  ghost predicate OnlyHolder(g: World, g': World, h: Holder) {
    && (forall k :: k != h ==> HandleOf(g', k) == HandleOf(g, k))
    && Moves(HandleOf(g, h), g.server, HandleOf(g', h), g'.server)
  }

  lemma OthersStillHold(g: World, g': World, h: Holder, k: Holder)
    requires Linear(g) && OnlyHolder(g, g', h)
    ensures Holds(g'.server, HandleOf(g', k))
  {
    hide HandleOf, BooksOk, Finished;
    if k != h && HandleOf(g, k).Some? {
      var t := HandleOf(g, k).value;
      assert Holds(g.server, HandleOf(g, k));
      assert Has(g, k, t.id);
      assert !Has(g, h, t.id);
    }
  }

  lemma OthersHoldSomethingElse(g: World, g': World, h: Holder, k: Holder, t: TxId)
    requires Linear(g) && OnlyHolder(g, g', h) && k != h && Has(g', k, t)
    ensures !Has(g', h, t)
  {
    hide HandleOf, BooksOk, Finished;
    assert Has(g, k, t) && !Has(g, h, t);
    assert Holds(g.server, HandleOf(g, k));
  }

  lemma StillOneEach(g: World, g': World, h: Holder, k: Holder, l: Holder, t: TxId)
    requires Linear(g) && OnlyHolder(g, g', h) && Has(g', k, t) && Has(g', l, t)
    ensures k == l
  {
    hide HandleOf, BooksOk, Unfinished, Grows;
    if k != h && l == h {
      OthersHoldSomethingElse(g, g', h, k, t);
    } else if l != h && k == h {
      OthersHoldSomethingElse(g, g', h, l, t);
    } else if k != h && l != h {
      assert Has(g, k, t) && Has(g, l, t);
    }
  }

  lemma StillHeld(g: World, g': World, h: Holder, t: TxId)
    requires Linear(g) && OnlyHolder(g, g', h) && t in Unfinished(g'.server)
    ensures exists k :: Has(g', k, t)
  {
    hide HandleOf, BooksOk, Unfinished, Grows;
    if Has(g', h, t) {
    } else {
      assert t in Unfinished(g.server);
      var k :| Has(g, k, t);
      assert Has(g', k, t);
    }
  }

  lemma HolderMoves(g: World, g': World, h: Holder)
    requires Linear(g) && OnlyHolder(g, g', h)
    ensures BooksOk(g'.server) && Linear(g')
  {
    forall k
      ensures Holds(g'.server, HandleOf(g', k))
    {
      OthersStillHold(g, g', h, k);
    }
    forall k, l, t | Has(g', k, t) && Has(g', l, t)
      ensures k == l
    {
      StillOneEach(g, g', h, k, l, t);
    }
    forall t | t in Unfinished(g'.server)
      ensures exists k :: Has(g', k, t)
    {
      StillHeld(g, g', h, t);
    }
    hide HandleOf, BooksOk, Unfinished, Grows, Has, Holds;
  }

  // ---- every step keeps it ------------------------------------------------------------------------

  lemma WorkProper(s: Session, u: Server, work: Work)
    requires BooksOk(u) && Holds(u, Kernel.Held(s))
    ensures var o := WorkOutcome(s, u, work); Proper(s, u, o.session, o.server)
    ensures !work.CommitWork? && !work.CheckpointWork? ==> WorkOutcome(s, u, work).server.ledger == u.ledger
  {
    hide BooksOk, Holds, Proper, OpenSection, QuerySection, CommitSection, CheckpointSection, EmptySlot;
    hide ReadSection, CurrentSection;
    match work {
      case OpenAny(database, kind, reserved, now, fault) => OpenProper(s, u, database, kind, reserved, now, fault);
      case RunQuery(now, x, answer) => QueryProper(s, u, now, x, answer);
      case CommitWork(fault) => CommitProper(s, u, fault);
      case CheckpointWork(now, fault, reopenFault) => CheckpointProper(s, u, now, fault, reopenFault);
      case RollbackWork => EmptySlotProper(s, u);
      case ReadWork(database, fault, xs, result) => ReadProper(s, u, database, fault, xs, result);
      case CurrentWork(now, xs, value) => CurrentProper(s, u, now, xs, value);
    }
  }

  ghost predicate StepOf(g: World, a: Action, h: Holder)
    requires Enabled(g, a)
  {
    OnlyHolder(g, Apply(g, a), h) && LocalsOk(Apply(g, a))
  }

  lemma PutMoves(g: World, id: SessionId, s: Session, u: Server)
    requires LocalsOk(g) && Moves(HandleOf(g, Slot(id)), g.server, Kernel.Held(s), u)
    ensures OnlyHolder(g, Put(g, id, s, u), Slot(id)) && LocalsOk(Put(g, id, s, u))
  {
    hide Moves;
  }

  lemma LocalMoves(g: World, c: CallId, locals: map<CallId, Transaction>, u: Server)
    requires LocalsOk(g) && locals - {c} == g.locals - {c} && (c in locals ==> !locals[c].kind.Read?)
    requires Moves(HandleOf(g, Local(c)), g.server, if c in locals then Some(locals[c]) else None, u)
    ensures OnlyHolder(g, g.(locals := locals, server := u), Local(c)) && LocalsOk(g.(locals := locals, server := u))
  {
    hide Moves;
    assert forall d :: d != c ==> (d in locals <==> d in locals - {c}) && (d in g.locals <==> d in g.locals - {c});
    assert forall d :: d != c && d in locals ==> locals[d] == (locals - {c})[d];
    assert forall d :: d != c && d in g.locals ==> g.locals[d] == (g.locals - {c})[d];
  }

  lemma DoStep(g: World, id: SessionId, work: Work)
    requires Inv(g) && id in g.sessions
    ensures StepOf(g, Do(id, work), Slot(id))
  {
    hide BooksOk, Holds, Moves, WorkOutcome, OnlyHolder;
    assert Holds(g.server, HandleOf(g, Slot(id)));
    hide Linear;
    WorkProper(g.sessions[id], g.server, work);
    var o := WorkOutcome(g.sessions[id], g.server, work);
    PutMoves(g, id, o.session, o.server);
  }

  lemma ReapStep(g: World, id: SessionId)
    requires Inv(g) && id in g.sessions
    ensures StepOf(g, Reap(id), Slot(id)) && Apply(g, Reap(id)).server.ledger == g.server.ledger
  {
    hide BooksOk, Holds, Moves, EmptySlot, OnlyHolder;
    assert Holds(g.server, HandleOf(g, Slot(id)));
    hide Linear;
    EmptySlotProper(g.sessions[id], g.server);
    var (s, u) := EmptySlot(g.sessions[id], g.server);
    PutMoves(g, id, s, u);
  }

  lemma VanishStep(g: World, id: SessionId)
    requires Inv(g) && id in g.sessions
    ensures StepOf(g, Vanish(id), Slot(id)) && Apply(g, Vanish(id)).server.ledger == g.server.ledger
  {
    hide BooksOk, Holds, Moves, Lose, Said;
    var t := HandleOf(g, Slot(id));
    assert Holds(g.server, t);
    hide Linear;
    NothingMoves(t, g.server);
    if t.Some? {
      EndMoves(g.server, t.value, Dropped(t.value.id));
    }
  }

  predicate OnFields(a: Action) {
    a.StartSession? || a.Touch? || a.SeeSchema? || a.ForgetSchema?
  }

  lemma FieldStep(g: World, a: Action)
    requires Inv(g) && Enabled(g, a) && OnFields(a)
    ensures StepOf(g, a, Slot(a.id)) && Apply(g, a).server == g.server
  {
    hide BooksOk, Holds, Moves, OnlyHolder;
    var t := HandleOf(g, Slot(a.id));
    assert Holds(g.server, t);
    hide Linear;
    NothingMoves(t, g.server);
    var s := Apply(g, a).sessions[a.id];
    assert Apply(g, a) == Put(g, a.id, s, g.server) && Kernel.Held(s) == t;
    hide Apply, HandleOf;
    PutMoves(g, a.id, s, g.server);
  }

  lemma OwnStep(g: World, a: Action)
    requires Inv(g) && Enabled(g, a) && a.Own?
    ensures StepOf(g, a, Local(a.call)) && Apply(g, a).server.ledger == g.server.ledger
  {
    hide BooksOk, Holds, Moves, OwnedSection, OnlyHolder, Linear;
    OwnedProper(g.sessions[a.id], g.server, a.database, a.kind, a.fault, a.xs);
    LocalMoves(g, a.call, Apply(g, a).locals, Apply(g, a).server);
  }

  lemma FinishStep(g: World, call: CallId, d: Decision)
    requires Inv(g) && call in g.locals
    ensures StepOf(g, Finish(call, d), Local(call))
  {
    hide BooksOk, Holds, Moves, OwnedFinishSection, OnlyHolder;
    assert Holds(g.server, HandleOf(g, Local(call)));
    hide Linear;
    OwnedFinishProper(g.server, g.locals[call], d);
    LocalMoves(g, call, g.locals - {call}, OwnedFinishSection(g.server, g.locals[call], d).1);
  }

  lemma AbandonStep(g: World, call: CallId)
    requires Inv(g) && call in g.locals
    ensures StepOf(g, Abandon(call), Local(call)) && Apply(g, Abandon(call)).server.ledger == g.server.ledger
  {
    hide BooksOk, Holds, Moves, Lose, Said, OnlyHolder;
    var t := g.locals[call];
    assert Holds(g.server, HandleOf(g, Local(call)));
    hide Linear;
    EndMoves(g.server, t, Dropped(t.id));
    LocalMoves(g, call, g.locals - {call}, Drop(g.server, t.id));
  }

  lemma AbortStep(g: World, t: TxId)
    requires Inv(g)
    ensures var g' := Apply(g, Abort(t)); Inv(g') && g'.server.ledger == g.server.ledger && Grows(g.server, g'.server)
  {
    LoseKeeps(g.server, t);
    var g' := Apply(g, Abort(t));
    assert forall h :: HandleOf(g', h) == HandleOf(g, h);
    hide HandleOf, BooksOk, Unfinished, Lose, Grows;
    assert forall h, x :: Has(g', h, x) == Has(g, h, x);
    hide Has;
  }

  /** The one holder a step works on. */
  function Actor(a: Action): Holder
    requires !a.Abort?
  {
    if a.Own? || a.Finish? || a.Abandon? then Local(a.call) else Slot(a.id)
  }

  lemma StepActs(g: World, a: Action)
    requires Inv(g) && Enabled(g, a) && !a.Abort?
    ensures StepOf(g, a, Actor(a))
    ensures !a.Do? && !a.Finish? ==> Apply(g, a).server.ledger == g.server.ledger
  {
    hide Inv, Apply, StepOf;
    match a {
      case Do(id, work) => DoStep(g, id, work);
      case Reap(id) => ReapStep(g, id);
      case Vanish(id) => VanishStep(g, id);
      case Own(_, _, _, _, _, _) => OwnStep(g, a);
      case Finish(call, d) => FinishStep(g, call, d);
      case Abandon(call) => AbandonStep(g, call);
      case _ => FieldStep(g, a);
    }
  }

  lemma StepKeepsInv(g: World, a: Action)
    requires Inv(g) && Enabled(g, a)
    ensures Inv(Apply(g, a)) && Grows(g.server, Apply(g, a).server)
  {
    if a.Abort? {
      AbortStep(g, a.t);
    } else {
      StepActs(g, a);
      HolderMoves(g, Apply(g, a), Actor(a));
      MovesHold(HandleOf(g, Actor(a)), g.server, HandleOf(Apply(g, a), Actor(a)), Apply(g, a).server);
    }
    hide BooksOk, Linear, Apply, Moves, HandleOf, LocalsOk, Grows;
  }

  // ---- what becomes of a write -------------------------------------------------------------------

  /** The transaction a step asks the server to commit. */
  function Commits(g: World, a: Action): Option<TxId>
    requires Enabled(g, a)
  {
    var asked := (a.Do? && (a.work.CommitWork? || a.work.CheckpointWork?)) || (a.Finish? && a.decision.CommitIt?);
    var t := if asked then HandleOf(g, Actor(a)) else None;
    if t.Some? && !t.value.kind.Read? then Some(t.value.id) else None
  }

  /** Whether that commit goes through. */
  predicate CommitGoes(g: World, a: Action)
    requires Enabled(g, a)
  {
    && Commits(g, a).Some? && Commits(g, a).value in g.server.pending
    && var fault := if a.Finish? then a.decision.fault else a.work.fault; fault.None?
  }

  lemma WorkPersists(s: Session, u: Server, work: Work)
    requires BooksOk(u) && Holds(u, Kernel.Held(s)) && (work.CommitWork? || work.CheckpointWork?)
    ensures var asked := s.tx.Some? && !s.tx.value.kind.Read?;
      WorkOutcome(s, u, work).server.ledger ==
      u.ledger +
      if asked && s.tx.value.transaction in u.pending && work.fault.None? then u.pending[s.tx.value.transaction] else []
  {
    hide BooksOk, Holds, ClassifyDriverError;
    if s.tx.Some? && !s.tx.value.kind.Read? && work.CheckpointWork? {
      CheckpointPersists(s, u, work.now, work.fault, work.reopenFault);
    }
  }

  lemma FinishPersists(u: Server, t: Transaction, d: Decision)
    requires BooksOk(u) && Holds(u, Some(t)) && !t.kind.Read?
    ensures OwnedFinishSection(u, t, d).1.ledger ==
            u.ledger + if d.CommitIt? && d.fault.None? && t.id in u.pending then u.pending[t.id] else []
  {
    hide BooksOk, Holds, ClassifyDriverError;
  }

  /** The ledger grows only when a commit, a checkpoint or a closure's commit succeeds, and then by all the
      writes of the transaction committed, in order. */
  lemma StepPersists(g: World, a: Action)
    requires Inv(g) && Enabled(g, a)
    ensures Apply(g, a).server.ledger ==
            g.server.ledger + (if CommitGoes(g, a) then g.server.pending[Commits(g, a).value] else [])
  {
    hide BooksOk, Holds, WorkOutcome, OwnedFinishSection, EmptySlot, OwnedSection;
    assert a.Do? || a.Finish? ==> Holds(g.server, HandleOf(g, Actor(a)));
    match a {
      case Abort(t) => AbortStep(g, t);
      case Finish(call, d) => FinishPersists(g.server, g.locals[call], d);
      case Do(id, work) =>
        if work.CommitWork? || work.CheckpointWork? {
          WorkPersists(g.sessions[id], g.server, work);
        } else {
          WorkProper(g.sessions[id], g.server, work);
        }
      case _ => StepActs(g, a);
    }
  }

  // ---- over whole runs -----------------------------------------------------------------------------

  predicate Steps(g: World, a: Action, g': World) {
    Enabled(g, a) && g' == Apply(g, a)
  }

  predicate IsRun(states: seq<World>, actions: seq<Action>) {
    && |states| == |actions| + 1 && states[0] == START
    && forall i :: 0 <= i < |actions| ==> Steps(states[i], actions[i], states[i + 1])
  }

  lemma {:induction false} InvAlong(states: seq<World>, actions: seq<Action>, i: nat)
    requires IsRun(states, actions) && i < |states|
    ensures Inv(states[i])
  {
    hide Apply, Enabled;
    if i > 0 {
      InvAlong(states, actions, i - 1);
      hide Inv;
      assert Steps(states[i - 1], actions[i - 1], states[i - 1 + 1]);
      StepKeepsInv(states[i - 1], actions[i - 1]);
    }
  }

  lemma {:induction false} BooksGrow(states: seq<World>, actions: seq<Action>, i: nat, j: nat)
    requires IsRun(states, actions) && i <= j < |states|
    ensures Grows(states[i].server, states[j].server)
    decreases j
  {
    hide Inv, Apply, Enabled;
    if i < j {
      BooksGrow(states, actions, i, j - 1);
      InvAlong(states, actions, j - 1);
      assert Steps(states[j - 1], actions[j - 1], states[j - 1 + 1]);
      StepKeepsInv(states[j - 1], actions[j - 1]);
      GrowsFurther(states[i].server, states[j - 1].server, states[j].server);
    }
  }

  /** The write waits in a transaction that is still alive. */
  predicate Pending(s: Server, w: WriteId) {
    exists t :: t in s.pending && w in s.pending[t]
  }

  function Count(b: bool): nat {
    if b then 1 else 0
  }

  /** Every write ever executed is in exactly one place: pending, persisted or discarded. If it is pending
      then its own transaction is held, by exactly one session slot or running call. */
  lemma WriteConservation(states: seq<World>, actions: seq<Action>, i: nat, w: WriteId)
    requires IsRun(states, actions) && i < |states| && w in states[i].server.origin
    ensures var s := states[i].server; Count(Pending(s, w)) + Count(w in s.ledger) + Count(w in s.discarded) == 1
    ensures Pending(states[i].server, w) ==>
      exists h :: Has(states[i], h, states[i].server.origin[w]) &&
                  forall k :: Has(states[i], k, states[i].server.origin[w]) ==> k == h
  {
    InvAlong(states, actions, i);
    hide IsRun, HandleOf, Distinct, LogOk;
    var s := states[i].server;
    var t := s.origin[w];
    assert Pending(s, w) <==> t in s.pending;
    assert t in s.pending ==> t in Unfinished(s);
  }

  /** What has become of a write stays so. */
  lemma DecidedForGood(states: seq<World>, actions: seq<Action>, i: nat, j: nat, w: WriteId)
    requires IsRun(states, actions) && i <= j < |states| && w in states[i].server.origin
    ensures w in states[j].server.origin
    ensures w in states[i].server.ledger ==> w in states[j].server.ledger && w !in states[j].server.discarded
    ensures w in states[i].server.discarded ==> w in states[j].server.discarded && w !in states[j].server.ledger
    ensures Pending(states[j].server, w) ==> Pending(states[i].server, w)
  {
    BooksGrow(states, actions, i, j);
    WriteConservation(states, actions, i, w);
    WriteConservation(states, actions, j, w);
    hide IsRun, HandleOf, Pending;
  }

  /** A persisted write got there in one step, a commit that went through, asked for by the holder of the
      very transaction the write was made in; and the ledger names it once. */
  lemma {:induction false} PersistedByCommit(states: seq<World>, actions: seq<Action>, i: nat, w: WriteId)
    returns (j: nat)
    requires IsRun(states, actions) && i < |states| && w in states[i].server.ledger
    ensures j < i && w in states[i].server.origin && w !in states[j].server.ledger && Enabled(states[j], actions[j])
    ensures CommitGoes(states[j], actions[j]) && Has(states[j], Actor(actions[j]), states[i].server.origin[w])
    ensures var before, t := states[j].server, states[i].server.origin[w];
      && t in before.pending && w in before.pending[t]
      && states[j + 1].server.ledger == before.ledger + before.pending[t]
    ensures Distinct(states[i].server.ledger)
    decreases i
  {
    hide Apply, Enabled, CommitGoes, Commits, BooksOk, Linear;
    InvAlong(states, actions, i);
    LedgerKnown(states[i].server, w);
    assert i > 0;
    var p := i - 1;
    assert Steps(states[p], actions[p], states[p + 1]);
    InvAlong(states, actions, p);
    StepPersists(states[p], actions[p]);
    if w in states[p].server.ledger {
      j := PersistedByCommit(states, actions, p, w);
      BooksGrow(states, actions, p, i);
    } else {
      j := p;
      CommitterHolds(states[p], actions[p], w);
      BooksGrow(states, actions, p, i);
    }
  }

  lemma LedgerKnown(s: Server, w: WriteId)
    requires BooksOk(s) && w in s.ledger
    ensures w in s.origin && Distinct(s.ledger)
  {
    hide IdsOk, LogOk, PendingOk;
  }

  lemma CommitterHolds(g: World, a: Action, w: WriteId)
    requires BooksOk(g.server) && Enabled(g, a) && CommitGoes(g, a) && w in g.server.pending[Commits(g, a).value]
    ensures var t := Commits(g, a).value;
      t in g.server.pending && w in g.server.origin && g.server.origin[w] == t && Has(g, Actor(a), t)
  {
    hide IdsOk, LogOk, WritesOk, Finished;
  }

  /** Every transaction ever opened is held by exactly one session slot or running call, or it is finished;
      never both, and it is finished once. */
  lemma TransactionConservation(states: seq<World>, actions: seq<Action>, i: nat, t: TxId)
    requires IsRun(states, actions) && i < |states| && t in states[i].server.kinds
    ensures var g := states[i];
      && ((exists h :: Has(g, h, t)) <==> !Finished(g.server.log, t))
      && (forall h, k :: Has(g, h, t) && Has(g, k, t) ==> h == k)
      && (forall a, b :: 0 <= a < b < |g.server.log| && Ends(g.server.log[a], t) ==> !Ends(g.server.log[b], t))
  {
    InvAlong(states, actions, i);
    hide IsRun, HandleOf, Finished;
    assert !Finished(states[i].server.log, t) <==> t in Unfinished(states[i].server);
  }

  // ---- how a transaction is lost without being asked for -------------------------------------------------

  /** The transaction whose handle a step lets go of without a call: that of a session that vanishes, of a
      cancelled closure, or of a query or closure that failed with a class that is not retriable. */
  function Drops(g: World, a: Action): Option<TxId>
    requires Enabled(g, a)
  {
    var let := match a {
      case Vanish(_) => true
      case Abandon(_) => true
      case Do(id, work) =>
        var e := WorkOutcome(g.sessions[id], g.server, work).envelope;
        (work.RunQuery? || work.CurrentWork?) && e.Failure? && !e.retriableInSameTx
      case _ => false
    };
    var t := if let then HandleOf(g, Actor(a)) else None;
    if t.Some? then Some(t.value.id) else None
  }

  predicate DroppedIn(s: Server, t: TxId) {
    Dropped(t) in s.log
  }

  ghost predicate DropsJust(u: Server, v: Server, d: Option<TxId>) {
    forall t: TxId :: DroppedIn(v, t) <==> DroppedIn(u, t) || d == Some(t)
  }

  lemma {:induction false} QueriesDropNothing(u: Server, t: TxId, xs: seq<Execution>)
    ensures DropsJust(u, RunQueries(u, t, xs), None)
  {
    if xs != [] {
      QueriesDropNothing(u, t, xs[..|xs| - 1]);
    }
  }

  lemma KeepOrDropDrops(s: Session, u: Server, tx: OpenTx, e: DriverError)
    ensures var (t, v) := KeepOrDrop(s, u, tx, e);
      DropsJust(u, v, if ClassifyDriverError(e).RetriableInSameTx() then None else Some(tx.transaction))
  {
    hide ClassifyDriverError;
  }

  lemma FailureLetsGo(s: Session, u: Server, work: Work)
    requires (work.RunQuery? || work.CurrentWork?) && s.tx.Some?
    ensures var o := WorkOutcome(s, u, work);
      var failed := o.envelope.Failure? && !o.envelope.retriableInSameTx;
      DropsJust(u, o.server, if failed then Some(s.tx.value.transaction) else None)
  {
    hide ClassifyDriverError, KeepOrDrop;
    var t := s.tx.value.transaction;
    if work.RunQuery? {
      var tx, heard := Touched(s.tx.value, work.now), Heard(u, t, work.answer);
      var v := Query(u, t, work.x.wrote, work.x.torn);
      assert DropsJust(u, v, None);
      hide Query;
      if heard.Err? {
        KeepOrDropDrops(s, v, tx, heard.error);
      }
    } else {
      QueriesDropNothing(u, t, work.xs);
      hide RunQueries;
      if work.value.Err? {
        KeepOrDropDrops(s, RunQueries(u, t, work.xs), Touched(s.tx.value, work.now), work.value.error);
      }
    }
  }

  lemma CallsDropNothing(u: Server, t: Transaction, goes: bool)
    ensures DropsJust(u, Begin(u, t.kind), None)
    ensures DropsJust(u, Commit(u, t.id, goes), None)
    ensures DropsJust(u, ReleaseTx(u, t), None)
    ensures DropsJust(u, Close(u, t.id), None)
  {
  }

  lemma DropsThen(u: Server, v: Server, w: Server)
    requires DropsJust(u, v, None) && DropsJust(v, w, None)
    ensures DropsJust(u, w, None)
  {
  }

  lemma CheckpointDropsNothing(s: Session, u: Server, work: Work)
    requires work.CheckpointWork?
    ensures DropsJust(u, WorkOutcome(s, u, work).server, None)
  {
    hide ClassifyDriverError, Commit, Begin, DropsJust, ReleaseTx, Close;
    DropsNoneAtRest(u);
    if s.tx.Some? {
      var t := Kernel.Held(s).value;
      var goes := CommitFault(u, t.id, work.fault).None?;
      CallsDropNothing(u, t, goes);
      CallsDropNothing(Commit(u, t.id, goes), t, goes);
      DropsThen(u, Commit(u, t.id, goes), Begin(Commit(u, t.id, goes), t.kind));
    }
  }

  lemma DropsNoneAtRest(u: Server)
    ensures DropsJust(u, u, None)
  {
  }

  lemma OthersDropNothing(s: Session, u: Server, work: Work)
    requires !work.CheckpointWork? && (s.tx.None? || (!work.RunQuery? && !work.CurrentWork?))
    ensures DropsJust(u, WorkOutcome(s, u, work).server, None)
  {
    hide ClassifyDriverError, Commit, Begin, DropsJust, ReleaseTx, Close, RunQueries;
    DropsNoneAtRest(u);
    match work {
      case OpenAny(_, kind, _, _, _) => CallsDropNothing(u, Transaction(u.nextTx, kind), true);
      case CommitWork(fault) =>
        if s.tx.Some? {
          CallsDropNothing(u, Kernel.Held(s).value, CommitFault(u, Kernel.Held(s).value.id, fault).None?);
        }
      case RollbackWork =>
        if s.tx.Some? {
          CallsDropNothing(u, Kernel.Held(s).value, true);
        }
      case ReadWork(_, _, xs, _) =>
        var t, v := Transaction(u.nextTx, Read), RunQueries(Begin(u, Read), u.nextTx, xs);
        CallsDropNothing(u, t, true);
        QueriesDropNothing(Begin(u, Read), u.nextTx, xs);
        CallsDropNothing(v, t, true);
        DropsThen(u, Begin(u, Read), v);
        DropsThen(u, v, Close(v, t.id));
      case _ =>
    }
  }

  lemma WorkDrops(s: Session, u: Server, work: Work)
    ensures var o := WorkOutcome(s, u, work);
      var failed := o.envelope.Failure? && !o.envelope.retriableInSameTx;
      var gone := (work.RunQuery? || work.CurrentWork?) && s.tx.Some? && failed;
      DropsJust(u, o.server, if gone then Some(s.tx.value.transaction) else None)
  {
    hide WorkOutcome, DropsJust;
    if work.CheckpointWork? {
      CheckpointDropsNothing(s, u, work);
    } else if (work.RunQuery? || work.CurrentWork?) && s.tx.Some? {
      FailureLetsGo(s, u, work);
    } else {
      OthersDropNothing(s, u, work);
    }
  }

  lemma StepDrops(g: World, a: Action)
    requires Enabled(g, a)
    ensures DropsJust(g.server, Apply(g, a).server, Drops(g, a))
  {
    hide WorkOutcome, ClassifyDriverError;
    match a {
      case Do(id, work) => WorkDrops(g.sessions[id], g.server, work);
      case Own(_, _, _, kind, _, xs) => QueriesDropNothing(Begin(g.server, kind), g.server.nextTx, xs);
      case _ =>
    }
  }

  /** In any run a handle is dropped only in such a step, by the one that holds it. */
  lemma {:induction false} DroppedOnlyThen(states: seq<World>, actions: seq<Action>, i: nat, t: TxId) returns (j: nat)
    requires IsRun(states, actions) && i < |states| && DroppedIn(states[i].server, t)
    ensures j < i && Enabled(states[j], actions[j]) && Drops(states[j], actions[j]) == Some(t)
    ensures Has(states[j], Actor(actions[j]), t)
  {
    hide Apply, Enabled, HandleOf;
    assert i > 0;
    var p := i - 1;
    assert Steps(states[p], actions[p], states[p + 1]);
    StepDrops(states[p], actions[p]);
    if DroppedIn(states[p].server, t) {
      j := DroppedOnlyThen(states, actions, p, t);
    } else {
      j := p;
    }
  }

  /** Opening never touches an occupied slot, and a checkpoint gives up a transaction only to its commit:
      neither overwrites, and so loses, a live one. */
  lemma NoneOverwritten(g: World, id: SessionId, work: Work, t: TxId)
    requires id in g.sessions && Has(g, Slot(id), t) && (work.OpenAny? || work.CheckpointWork?)
    ensures var g' := Apply(g, Do(id, work));
      && (work.OpenAny? ==> g' == g)
      && (Has(g', Slot(id), t) || (exists ok :: Committed(t, ok) in g'.server.log[|g.server.log|..]))
      && (DroppedIn(g'.server, t) ==> DroppedIn(g.server, t))
  {
    hide ClassifyDriverError;
    StepDrops(g, Do(id, work));
    var g' := Apply(g, Do(id, work));
    if work.OpenAny? {
      assert g'.sessions == g.sessions;
    } else if g.sessions[id].tx.value.kind.Read? {
      assert g'.server == g.server;
    } else {
      var goes := CommitFault(g.server, t, work.fault).None?;
      assert g'.server.log[|g.server.log|] == Committed(t, goes);
      assert Committed(t, goes) == g'.server.log[|g.server.log|..][0];
    }
  }

  /** A slot or a call parts with a transaction only in a step of its own, and then the transaction has been
      ended in that step: none is passed on or left behind, and it was dropped only if that is what the step does. */
  lemma PartsOnlyWithFinished(states: seq<World>, actions: seq<Action>, i: nat, h: Holder, t: TxId)
    requires IsRun(states, actions) && i < |actions| && Has(states[i], h, t) && !Has(states[i + 1], h, t)
    ensures !actions[i].Abort? && Actor(actions[i]) == h && Enabled(states[i], actions[i])
    ensures !Finished(states[i].server.log, t) && Finished(states[i + 1].server.log, t)
    ensures DroppedIn(states[i + 1].server, t) <==> Drops(states[i], actions[i]) == Some(t)
  {
    InvAlong(states, actions, i);
    InvAlong(states, actions, i + 1);
    var g, g', a := states[i], states[i + 1], actions[i];
    assert Steps(g, a, g');
    assert forall k :: a.Abort? ==> HandleOf(g', k) == HandleOf(g, k);
    HolderHolds(g, h, t);
    NotDropped(g.server.log, t);
    StepDrops(g, a);
    hide HandleOf, BooksOk, Apply, Enabled, Finished, Moves, Drops, DroppedIn;
    if !a.Abort? {
      StepActs(g, a);
      StepKeepsInv(g, a);
      assert forall k :: k != Actor(a) ==> (Has(g', k, t) <==> Has(g, k, t));
    }
  }

  lemma HolderHolds(g: World, h: Holder, t: TxId)
    requires Linear(g) && Has(g, h, t)
    ensures t in g.server.kinds && !Finished(g.server.log, t)
  {
    hide HandleOf, Finished;
    assert Holds(g.server, HandleOf(g, h));
  }

  /** Neither commit nor rollback is ever sent for a READ transaction, and no write is made in one. */
  lemma ReadsStayReads(states: seq<World>, actions: seq<Action>, i: nat)
    requires IsRun(states, actions) && i < |states|
    ensures var s := states[i].server;
      && (forall k :: 0 <= k < |s.log| && (s.log[k].Committed? || s.log[k].RolledBack?) ==>
            s.log[k].t in s.kinds && !s.kinds[s.log[k].t].Read?)
      && (forall w :: w in s.origin ==> s.origin[w] in s.kinds && !s.kinds[s.origin[w]].Read?)
  {
    InvAlong(states, actions, i);
    hide IsRun, Linear, PendingOk, WritesOk;
  }
}
