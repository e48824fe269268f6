/** The migration supervisor as a protocol: callers submitting jobs, one worker thread, a shutdown, the
    other users of the session locks, and the other callers of the name coordinator, interleaved
    one atomic step at a time. */
module Supervisor {
  import opened Prelude
  import opened Coordinator

  type CallId = nat
  type SessionId = string

  // ---- state ------------------------------------------------------------------------------

  datatype Tokens = Tokens(permit: bool, name: bool, lock: bool)

  const NO_TOKENS := Tokens(false, false, false)

  datatype Answer = Refused | GotReply | GotClosed

  /** Where a caller stands. The first line is `do_migration` up to and inside `submit`; the last is a
      `create_database` or `delete_database` call. */
  datatype Pc =
    | WantLock | Locked | SelfBlocked | Admitted | Permitted | Named | Built | Unwinding(left: Tokens)
    | Waiting | Answered(answer: Answer) | Returned | Cancelled
    | AdminStart | AdminRunning | AdminOver

  /** Where the call's job stands. Dropping(k) has dropped its first k tokens, in field order: permit,
      reservation, session lock. */
  datatype Job = NoJob | InQueue | AtWorker | Dropping(stage: nat) | Dropped

  /** The sending half of the reply channel. */
  datatype Channel = NoChannel | Open | Sent | Closed

  datatype Call = Call(session: SessionId, database: string, pc: Pc, job: Job, channel: Channel)

  datatype After = Loop | Drain | Unwind

  datatype Worker =
    | Building | Checking | Receiving | Serving(c: CallId) | Replying(c: CallId)
    | Releasing(c: CallId, after: After) | Leaving | Closing | Discarding | Gone

  datatype Holder = ByCall(c: CallId) | ByOther

  datatype State = State(
    calls: map<CallId, Call>, permitFree: bool, reserved: set<string>, locks: map<SessionId, Holder>,
    queue: seq<CallId>, worker: Worker, backendUp: bool, accepting: bool, stop: bool, completed: bool)

  const INITIAL := State(map[], true, {}, map[], [], Building, false, true, false, false)

  // ---- who holds what ---------------------------------------------------------------------

  function Held(k: Call): Tokens {
    match k.job
    case NoJob => (
      match k.pc
      case Locked | SelfBlocked | Admitted => Tokens(false, false, true)
      case Permitted => Tokens(true, false, true)
      case Named | Built => Tokens(true, true, true)
      case Unwinding(left) => left
      case AdminRunning => Tokens(false, true, false)
      case _ => NO_TOKENS)
    case InQueue | AtWorker => Tokens(true, true, true)
    case Dropping(stage) => Tokens(stage < 1, stage < 2, stage < 3)
    case Dropped => NO_TOKENS
  }

  /** The job the worker has in hand. */
  function Current(w: Worker): Option<CallId> {
    match w
    case Serving(c) => Some(c)
    case Replying(c) => Some(c)
    case Releasing(c, _) => Some(c)
    case _ => None
  }

  /** Sending on the job channel still succeeds. */
  predicate ReceiverOpen(w: Worker) {
    !w.Discarding? && !w.Gone? && !(w.Releasing? && w.after == Drain)
  }

  /** A migration is running against the database server. */
  predicate BackendBusy(s: State) {
    s.worker.Serving? && s.backendUp
  }

  // ---- steps ------------------------------------------------------------------------------

  /** `ScanOwn` is a delete whose scan, holding the lock of the caller's own session, finds a transaction that
      another call has opened there, and asks for a snapshot of that session. */
  datatype CallStep =
    | Begin(session: SessionId, database: string) | TakeLock | FindOpenTx | LoadAccepting | TryAcquire | TryReserve
    | Normalize(pathOk: bool) | Send | UnwindPermit | UnwindName | UnwindLock | UnwindDone
    | ReceiveAnswer | Snapshot | Cancel
    | AdminBegin(session: SessionId, database: string) | ScanOwn | AdminReserve | AdminFinish

  datatype WorkStep =
    | Build(ok: bool) | CheckStop | Receive | ReceiveTimeout | Finish | Panic | Reply
    | DropPermit | DropName | DropLock | DropReply | Complete | Disconnect | Discard | Exhaust

  datatype OtherStep = OtherLock(session: SessionId) | OtherUnlock(session: SessionId) | StopAdmission | RaiseStop

  datatype Action = Caller(c: CallId, call: CallStep) | Work(work: WorkStep) | Other(other: OtherStep)

  predicate CallEnabled(s: State, c: CallId, step: CallStep) {
    if step.Begin? || step.AdminBegin? then c !in s.calls
    else
      && c in s.calls
      && var k := s.calls[c];
        match step
        case TakeLock => k.pc.WantLock? && k.session !in s.locks
        case FindOpenTx => k.pc.Locked?
        case LoadAccepting => k.pc.Locked?
        case TryAcquire => k.pc.Admitted?
        case TryReserve => k.pc.Permitted?
        case Normalize(_) => k.pc.Named?
        case Send => k.pc.Built?
        case UnwindPermit => k.pc.Unwinding? && k.pc.left.permit
        case UnwindName => k.pc.Unwinding? && k.pc.left.name
        case UnwindLock => k.pc.Unwinding? && k.pc.left.lock
        case UnwindDone => k.pc == Unwinding(NO_TOKENS)
        case ReceiveAnswer => k.pc.Waiting? && (k.channel.Sent? || k.channel.Closed?)
        case Snapshot => (k.pc.Answered? || k.pc.SelfBlocked?) && k.session !in s.locks
        case Cancel => k.pc.WantLock? || k.pc.SelfBlocked? || k.pc.Waiting?
        case ScanOwn => k.pc.AdminStart? && k.session !in s.locks
        case AdminReserve => k.pc.AdminStart?
        case AdminFinish => k.pc.AdminRunning?
        case _ => false
  }

  predicate ReleasingAt(s: State, stage: nat) {
    s.worker.Releasing? && s.worker.c in s.calls && s.calls[s.worker.c].job == Dropping(stage)
  }

  predicate WorkEnabled(s: State, step: WorkStep) {
    match step
    case Build(_) => s.worker.Building?
    case CheckStop => s.worker.Checking?
    case Receive => s.worker.Receiving? && s.queue != []
    case ReceiveTimeout => s.worker.Receiving? && s.queue == []
    case Finish => s.worker.Serving?
    case Panic => s.worker.Serving? && s.worker.c in s.calls
    case Reply => s.worker.Replying? && s.worker.c in s.calls
    case DropPermit => ReleasingAt(s, 0)
    case DropName => ReleasingAt(s, 1)
    case DropLock => ReleasingAt(s, 2)
    case DropReply => ReleasingAt(s, 3)
    case Complete => s.worker.Leaving?
    case Disconnect => s.worker.Closing?
    case Discard => s.worker.Discarding? && s.queue != []
    case Exhaust => s.worker.Discarding? && s.queue == []
  }

  predicate OtherEnabled(s: State, step: OtherStep) {
    match step
    case OtherLock(x) => x !in s.locks
    case OtherUnlock(x) => x in s.locks && s.locks[x] == ByOther
    case StopAdmission => true
    case RaiseStop => !s.accepting
  }

  predicate Enabled(s: State, a: Action) {
    match a
    case Caller(c, step) => CallEnabled(s, c, step)
    case Work(step) => WorkEnabled(s, step)
    case Other(step) => OtherEnabled(s, step)
  }

  function SetPc(s: State, c: CallId, pc: Pc): State
    requires c in s.calls
  {
    s.(calls := s.calls[c := s.calls[c].(pc := pc)])
  }

  function SetJob(s: State, c: CallId, job: Job, channel: Channel): State
    requires c in s.calls
  {
    s.(calls := s.calls[c := s.calls[c].(job := job, channel := channel)])
  }

  /** A refused submit starts dropping what it has. */
  function Refuse(s: State, c: CallId): State
    requires c in s.calls
  {
    SetPc(s, c, Unwinding(Held(s.calls[c])))
  }

  function Enter(s: State, c: CallId, session: SessionId, database: string, pc: Pc): State {
    s.(calls := s.calls[c := Call(session, database, pc, NoJob, NoChannel)])
  }

  function CallApply(s: State, c: CallId, step: CallStep): State
    requires CallEnabled(s, c, step)
  {
    match step
    case Begin(session, database) => Enter(s, c, session, database, WantLock)
    case TakeLock => SetPc(s.(locks := s.locks[s.calls[c].session := ByCall(c)]), c, Locked)
    case FindOpenTx => SetPc(s, c, SelfBlocked)
    case LoadAccepting => if s.accepting then SetPc(s, c, Admitted) else Refuse(s, c)
    case TryAcquire => if s.permitFree then SetPc(s.(permitFree := false), c, Permitted) else Refuse(s, c)
    case TryReserve =>
      var name := s.calls[c].database;
      if ValidName(name) && name !in s.reserved then SetPc(s.(reserved := s.reserved + {name}), c, Named)
      else Refuse(s, c)
    case Normalize(pathOk) => if pathOk then SetPc(s, c, Built) else Refuse(s, c)
    case Send =>
      if ReceiverOpen(s.worker) then SetJob(SetPc(s.(queue := s.queue + [c]), c, Waiting), c, InQueue, Open)
      else Refuse(s, c)
    case UnwindPermit => SetPc(s.(permitFree := true), c, Unwinding(s.calls[c].pc.left.(permit := false)))
    case UnwindName =>
      SetPc(s.(reserved := s.reserved - {s.calls[c].database}), c, Unwinding(s.calls[c].pc.left.(name := false)))
    case UnwindLock =>
      SetPc(s.(locks := s.locks - {s.calls[c].session}), c, Unwinding(s.calls[c].pc.left.(lock := false)))
    case UnwindDone => SetPc(s, c, Answered(Refused))
    case ReceiveAnswer => SetPc(s, c, Answered(if s.calls[c].channel.Sent? then GotReply else GotClosed))
    case Snapshot => SetPc(s, c, Returned)
    case Cancel =>
      SetPc(if s.calls[c].pc.SelfBlocked? then s.(locks := s.locks - {s.calls[c].session}) else s, c, Cancelled)
    case AdminBegin(session, database) => Enter(s, c, session, database, AdminStart)
    case ScanOwn => SetPc(s.(locks := s.locks[s.calls[c].session := ByCall(c)]), c, SelfBlocked)
    case AdminReserve =>
      var name := s.calls[c].database;
      if ValidName(name) && name !in s.reserved then SetPc(s.(reserved := s.reserved + {name}), c, AdminRunning)
      else SetPc(s, c, AdminOver)
    case AdminFinish => SetPc(s.(reserved := s.reserved - {s.calls[c].database}), c, AdminOver)
  }

  /** The worker takes the first job off the queue. */
  function Take(s: State, worker: Worker, job: Job): State
    requires s.queue != []
  {
    var c := s.queue[0];
    var t := s.(worker := worker, queue := s.queue[1..]);
    if c in s.calls then SetJob(t, c, job, s.calls[c].channel) else t
  }

  function WorkApply(s: State, step: WorkStep): State
    requires WorkEnabled(s, step)
  {
    match step
    case Build(ok) => s.(worker := Checking, backendUp := ok)
    case CheckStop => s.(worker := if s.stop then Leaving else Receiving)
    case Receive => Take(s, Serving(s.queue[0]), AtWorker)
    case ReceiveTimeout => s.(worker := Checking)
    case Finish => s.(worker := Replying(s.worker.c))
    case Panic => SetJob(s.(worker := Releasing(s.worker.c, Unwind)), s.worker.c, Dropping(0), Open)
    case Reply => SetJob(s.(worker := Releasing(s.worker.c, Loop)), s.worker.c, Dropping(0), Sent)
    case DropPermit => SetJob(s.(permitFree := true), s.worker.c, Dropping(1), s.calls[s.worker.c].channel)
    case DropName =>
      SetJob(s.(reserved := s.reserved - {s.calls[s.worker.c].database}), s.worker.c, Dropping(2),
             s.calls[s.worker.c].channel)
    case DropLock =>
      SetJob(s.(locks := s.locks - {s.calls[s.worker.c].session}), s.worker.c, Dropping(3), s.calls[s.worker.c].channel)
    case DropReply =>
      SetJob(s.(worker := if s.worker.after == Loop then Checking else Discarding), s.worker.c, Dropped,
             if s.calls[s.worker.c].channel.Open? then Closed else s.calls[s.worker.c].channel)
    case Complete => s.(worker := Closing, completed := true)
    case Disconnect => s.(worker := Discarding)
    case Discard => Take(s, Releasing(s.queue[0], Drain), Dropping(0))
    case Exhaust => s.(worker := Gone)
  }

  function OtherApply(s: State, step: OtherStep): State {
    match step
    case OtherLock(x) => s.(locks := s.locks[x := ByOther])
    case OtherUnlock(x) => s.(locks := s.locks - {x})
    case StopAdmission => s.(accepting := false)
    case RaiseStop => s.(stop := true)
  }

  function Apply(s: State, a: Action): State
    requires Enabled(s, a)
  {
    match a
    case Caller(c, step) => CallApply(s, c, step)
    case Work(step) => WorkApply(s, step)
    case Other(step) => OtherApply(s, step)
  }

  // ---- the invariant ------------------------------------------------------------------------

  /** What one call's record must look like, whatever the rest of the system does. */
  predicate CallOk(k: Call) {
    && (k.job.NoJob? <==> k.channel.NoChannel?)
    && (!k.job.NoJob? ==> k.pc in {Waiting, Answered(GotReply), Answered(GotClosed), Returned, Cancelled})
    && (k.pc in {Waiting, Answered(GotReply), Answered(GotClosed)} ==> !k.job.NoJob?)
    && (k.pc == Answered(GotReply) ==> k.channel.Sent?)
    && (k.pc == Answered(GotClosed) ==> k.channel.Closed?)
    && (k.channel.Sent? ==> k.job.Dropping? || k.job.Dropped?)
    && (k.channel.Closed? ==> k.job.Dropped?)
    && (k.job.Dropped? ==> k.channel.Sent? || k.channel.Closed?)
    && (k.job.Dropping? ==> k.job.stage <= 3)
    && (k.pc.Returned? ==> Held(k) == NO_TOKENS)
  }

  ghost predicate CallsOk(s: State) {
    forall c :: c in s.calls ==> CallOk(s.calls[c])
  }

  ghost predicate PermitOk(s: State) {
    && (s.permitFree ==> forall c :: c in s.calls ==> !Held(s.calls[c]).permit)
    && (!s.permitFree ==> exists c :: c in s.calls && Held(s.calls[c]).permit)
    && (forall c, d :: c in s.calls && d in s.calls && Held(s.calls[c]).permit && Held(s.calls[d]).permit ==> c == d)
  }

  /** Two calls that both hold a reservation, of the same name. */
  predicate SameName(k: Call, l: Call) {
    Held(k).name && Held(l).name && k.database == l.database
  }

  ghost predicate NamesOk(s: State) {
    && (forall c :: c in s.calls && Held(s.calls[c]).name ==> s.calls[c].database in s.reserved)
    && (forall n :: n in s.reserved ==> exists c :: c in s.calls && Held(s.calls[c]).name && s.calls[c].database == n)
    && (forall c, d :: c in s.calls && d in s.calls && SameName(s.calls[c], s.calls[d]) ==> c == d)
  }

  ghost predicate LocksOk(s: State) {
    && (forall c :: c in s.calls && Held(s.calls[c]).lock ==>
          s.calls[c].session in s.locks && s.locks[s.calls[c].session] == ByCall(c))
    && (forall x :: x in s.locks && s.locks[x].ByCall? ==>
          s.locks[x].c in s.calls && Held(s.calls[s.locks[x].c]).lock && s.calls[s.locks[x].c].session == x)
  }

  ghost predicate QueueOk(s: State) {
    && (forall i :: 0 <= i < |s.queue| ==> s.queue[i] in s.calls && s.calls[s.queue[i]].job.InQueue?)
    && (forall i, j :: 0 <= i < j < |s.queue| ==> s.queue[i] != s.queue[j])
    && (forall c :: c in s.calls && s.calls[c].job.InQueue? ==> c in s.queue)
  }

  ghost predicate WorkerOk(s: State) {
    && (Current(s.worker).Some? ==> s.worker.c in s.calls)
    && (forall c :: c in s.calls ==> (s.calls[c].job.AtWorker? <==> s.worker == Serving(c) || s.worker == Replying(c)))
    && (forall c :: c in s.calls ==> (s.calls[c].job.Dropping? <==> s.worker.Releasing? && s.worker.c == c))
    && (s.worker.Releasing? && s.worker.after == Loop ==> s.calls[s.worker.c].channel.Sent?)
    && (s.worker.Gone? ==> s.queue == [])
    && (s.completed ==> s.stop && !s.worker.Building? && !s.worker.Checking? && !s.worker.Receiving?
                        && !s.worker.Serving? && !s.worker.Replying? && !s.worker.Leaving?
                        && (s.worker.Releasing? ==> s.worker.after == Drain))
    && (s.worker.Leaving? || s.worker.Closing? ==> s.stop)
    && (s.stop ==> !s.accepting)
  }

  ghost predicate Inv(s: State) {
    CallsOk(s) && PermitOk(s) && NamesOk(s) && LocksOk(s) && QueueOk(s) && WorkerOk(s)
  }

  // ---- preservation ---------------------------------------------------------------------------

  function TokensOf(s: State, c: CallId): Tokens {
    if c in s.calls then Held(s.calls[c]) else NO_TOKENS
  }

  /** Only call `c` has changed, and neither its session nor its database unless it is new. */
  ghost predicate OnlyCall(s: State, t: State, c: CallId) {
    && c in t.calls && t.calls == s.calls[c := t.calls[c]]
    && (c in s.calls ==> t.calls[c].session == s.calls[c].session && t.calls[c].database == s.calls[c].database)
  }

  /** The shared resources change exactly as the tokens of call `c` do. */
  ghost predicate TokensMove(s: State, t: State, c: CallId)
    requires c in t.calls
  {
    var x, y := TokensOf(s, c), TokensOf(t, c);
    var k := t.calls[c];
    && (x.permit == y.permit ==> t.permitFree == s.permitFree)
    && (x.permit && !y.permit ==> t.permitFree)
    && (!x.permit && y.permit ==> s.permitFree && !t.permitFree)
    && (x.name == y.name ==> t.reserved == s.reserved)
    && (x.name && !y.name ==> t.reserved == s.reserved - {k.database})
    && (!x.name && y.name ==> k.database !in s.reserved && t.reserved == s.reserved + {k.database})
    && (x.lock == y.lock ==> t.locks == s.locks)
    && (x.lock && !y.lock ==> t.locks == s.locks - {k.session})
    && (!x.lock && y.lock ==> k.session !in s.locks && t.locks == s.locks[k.session := ByCall(c)])
  }

  lemma PermitMoves(s: State, t: State, c: CallId)
    requires PermitOk(s) && OnlyCall(s, t, c) && TokensMove(s, t, c)
    ensures PermitOk(t)
  {
    hide Held;
    if !t.permitFree && !s.permitFree {
      var d :| d in s.calls && Held(s.calls[d]).permit;
      assert d in t.calls;
    }
  }

  lemma NamesMove(s: State, t: State, c: CallId)
    requires NamesOk(s) && OnlyCall(s, t, c) && TokensMove(s, t, c)
    ensures NamesOk(t)
  {
    hide Held;
    forall n | n in t.reserved
      ensures exists d :: d in t.calls && Held(t.calls[d]).name && t.calls[d].database == n
    {
      if n in s.reserved {
        var d :| d in s.calls && Held(s.calls[d]).name && s.calls[d].database == n;
        assert d in t.calls;
      }
    }
    forall d | d in t.calls && Held(t.calls[d]).name
      ensures t.calls[d].database in t.reserved
    {
      assert d != c && c in s.calls && Held(s.calls[c]).name ==> !SameName(s.calls[c], s.calls[d]);
    }
  }

  lemma LocksMove(s: State, t: State, c: CallId)
    requires LocksOk(s) && OnlyCall(s, t, c) && TokensMove(s, t, c)
    ensures LocksOk(t)
  {
    hide Held;
  }

  lemma TokensMoved(s: State, t: State, c: CallId)
    requires Inv(s) && OnlyCall(s, t, c) && TokensMove(s, t, c) && CallOk(t.calls[c])
    ensures CallsOk(t) && PermitOk(t) && NamesOk(t) && LocksOk(t)
  {
    PermitMoves(s, t, c);
    NamesMove(s, t, c);
    LocksMove(s, t, c);
  }

  ghost predicate SameFlags(s: State, t: State) {
    t.completed == s.completed && t.stop == s.stop && t.accepting == s.accepting
  }

  /** The step is one caller's: its tokens move, its job does not, and once admission is closed nobody new
      gets under way. */
  ghost predicate CallerMoves(s: State, t: State, c: CallId) {
    && OnlyCall(s, t, c) && TokensMove(s, t, c) && CallOk(t.calls[c])
    && t.queue == s.queue && t.worker == s.worker && SameFlags(s, t)
    && (if c in s.calls then t.calls[c].job == s.calls[c].job && t.calls[c].channel == s.calls[c].channel
        else t.calls[c].job.NoJob?)
    && (!s.accepting && t.calls[c].pc in IN_FLIGHT ==> c in s.calls && s.calls[c].pc in IN_FLIGHT)
  }

  const IN_FLIGHT: set<Pc> := {Admitted, Permitted, Named, Built}

  lemma EntryMoves(s: State, c: CallId, step: CallStep)
    requires CallEnabled(s, c, step) && (step.Begin? || step.AdminBegin?)
    ensures CallerMoves(s, CallApply(s, c, step), c)
  {
  }

  lemma LockMoves(s: State, c: CallId, step: CallStep)
    requires CallEnabled(s, c, step)
    requires step.TakeLock? || step.FindOpenTx? || step.LoadAccepting? || step.ScanOwn?
    requires CallOk(s.calls[c])
    ensures CallerMoves(s, CallApply(s, c, step), c)
  {
  }

  /** A refusal takes nothing and keeps nothing back: what was held is what is left to drop. */
  lemma RefuseMoves(s: State, c: CallId)
    requires c in s.calls && CallOk(s.calls[c]) && s.calls[c].job.NoJob? && !s.calls[c].pc.Unwinding?
    ensures CallerMoves(s, Refuse(s, c), c)
  {
    var k := s.calls[c];
    assert Held(k.(pc := Unwinding(Held(k)))) == Held(k);
    hide Held;
  }

  lemma AcquireMoves(s: State, c: CallId)
    requires CallEnabled(s, c, TryAcquire) && CallOk(s.calls[c])
    ensures CallerMoves(s, CallApply(s, c, TryAcquire), c)
  {
    if !s.permitFree {
      RefuseMoves(s, c);
    }
  }

  lemma NormalizeMoves(s: State, c: CallId, pathOk: bool)
    requires CallEnabled(s, c, Normalize(pathOk)) && CallOk(s.calls[c])
    ensures CallerMoves(s, CallApply(s, c, Normalize(pathOk)), c)
  {
    if !pathOk {
      RefuseMoves(s, c);
    }
  }

  lemma ReserveMoves(s: State, c: CallId)
    requires CallEnabled(s, c, TryReserve) && CallOk(s.calls[c])
    ensures CallerMoves(s, CallApply(s, c, TryReserve), c)
  {
    hide ValidName;
    if !ValidName(s.calls[c].database) || s.calls[c].database in s.reserved {
      RefuseMoves(s, c);
    }
  }

  lemma AdminReserveMoves(s: State, c: CallId)
    requires CallEnabled(s, c, AdminReserve) && CallOk(s.calls[c])
    ensures CallerMoves(s, CallApply(s, c, AdminReserve), c)
  {
    hide ValidName;
    var name := s.calls[c].database;
    if ValidName(name) && name !in s.reserved {
      AdminTakes(s, c);
    } else {
      AdminGivesUp(s, c);
    }
  }

  lemma AdminTakes(s: State, c: CallId)
    requires c in s.calls && s.calls[c].pc.AdminStart? && CallOk(s.calls[c]) && s.calls[c].database !in s.reserved
    ensures CallerMoves(s, SetPc(s.(reserved := s.reserved + {s.calls[c].database}), c, AdminRunning), c)
  {
  }

  lemma AdminGivesUp(s: State, c: CallId)
    requires c in s.calls && s.calls[c].pc.AdminStart? && CallOk(s.calls[c])
    ensures CallerMoves(s, SetPc(s, c, AdminOver), c)
  {
  }

  lemma UnwindMoves(s: State, c: CallId, step: CallStep)
    requires CallEnabled(s, c, step) && (step.UnwindPermit? || step.UnwindName? || step.UnwindLock? || step.UnwindDone?)
    requires CallOk(s.calls[c])
    ensures CallerMoves(s, CallApply(s, c, step), c)
  {
    var k, t := s.calls[c], CallApply(s, c, step);
    assert Held(k) == k.pc.left;
    assert Held(t.calls[c]) == if step.UnwindDone? then NO_TOKENS else t.calls[c].pc.left;
    hide Held;
  }

  lemma ReturnMoves(s: State, c: CallId, step: CallStep)
    requires CallEnabled(s, c, step) && (step.ReceiveAnswer? || step.Snapshot?) && CallOk(s.calls[c])
    requires step.Snapshot? ==> !Held(s.calls[c]).lock
    ensures CallerMoves(s, CallApply(s, c, step), c)
  {
  }

  lemma CancelMoves(s: State, c: CallId)
    requires CallEnabled(s, c, Cancel) && CallOk(s.calls[c])
    ensures CallerMoves(s, CallApply(s, c, Cancel), c)
  {
  }

  lemma AdminFinishMoves(s: State, c: CallId)
    requires CallEnabled(s, c, AdminFinish) && CallOk(s.calls[c])
    ensures CallerMoves(s, CallApply(s, c, AdminFinish), c)
  {
  }

  lemma CallerKnown(s: State, c: CallId, step: CallStep)
    requires CallsOk(s) && LocksOk(s) && CallEnabled(s, c, step)
    ensures !step.Begin? && !step.AdminBegin? ==> c in s.calls && CallOk(s.calls[c])
    ensures step.Snapshot? ==> !Held(s.calls[c]).lock
  {
    hide Held, CallOk;
  }

  lemma MovesOfCaller(s: State, c: CallId, step: CallStep)
    requires Inv(s) && CallEnabled(s, c, step) && !step.Send?
    ensures CallerMoves(s, CallApply(s, c, step), c)
  {
    hide CallApply, CallEnabled, CallOk, CallerMoves, Held, CallsOk, LocksOk, WorkerOk, QueueOk, PermitOk, NamesOk;
    CallerKnown(s, c, step);
    match step {
      case Begin(_, _) | AdminBegin(_, _) => EntryMoves(s, c, step);
      case TakeLock | FindOpenTx | LoadAccepting | ScanOwn => LockMoves(s, c, step);
      case TryAcquire => AcquireMoves(s, c);
      case TryReserve => ReserveMoves(s, c);
      case Normalize(pathOk) => NormalizeMoves(s, c, pathOk);
      case AdminReserve => AdminReserveMoves(s, c);
      case UnwindPermit | UnwindName | UnwindLock | UnwindDone => UnwindMoves(s, c, step);
      case ReceiveAnswer | Snapshot => ReturnMoves(s, c, step);
      case Cancel => CancelMoves(s, c);
      case AdminFinish => AdminFinishMoves(s, c);
    }
  }

  lemma JobsUntouched(s: State, t: State, c: CallId)
    requires QueueOk(s) && WorkerOk(s) && CallerMoves(s, t, c)
    ensures QueueOk(t) && WorkerOk(t)
  {
    hide CallOk, TokensMove;
  }

  /** Handing over the job: all three tokens stay held, by the job from now on. */
  ghost predicate SendMoves(s: State, t: State, c: CallId) {
    && c in s.calls && OnlyCall(s, t, c) && TokensMove(s, t, c) && CallOk(t.calls[c])
    && t.queue == s.queue + [c] && t.worker == s.worker && ReceiverOpen(s.worker) && SameFlags(s, t)
    && s.calls[c].job.NoJob? && s.calls[c].channel.NoChannel? && t.calls[c].job.InQueue?
    && s.calls[c].pc.Built? && t.calls[c].pc.Waiting?
  }

  lemma MovesOfSend(s: State, c: CallId)
    requires CallEnabled(s, c, Send) && CallOk(s.calls[c])
    ensures var t := CallApply(s, c, Send); if ReceiverOpen(s.worker) then SendMoves(s, t, c) else CallerMoves(s, t, c)
  {
  }

  lemma Queued(s: State, t: State, c: CallId)
    requires QueueOk(s) && WorkerOk(s) && SendMoves(s, t, c)
    ensures QueueOk(t) && WorkerOk(t)
  {
    hide CallOk, TokensMove;
    assert c !in s.queue;
    assert t.queue[|s.queue|] == c;
    assert forall i :: 0 <= i < |s.queue| ==> t.queue[i] == s.queue[i];
  }

  predicate Settled(h: Channel) {
    h.Sent? || h.Closed?
  }

  /** The step is the worker's, on the job of call `c`: its tokens move, and it stays in the worker's
      hands until its last field is dropped. */
  ghost predicate JobMoves(s: State, t: State, c: CallId) {
    && c in s.calls && OnlyCall(s, t, c) && TokensMove(s, t, c) && CallOk(t.calls[c]) && Current(s.worker) == Some(c)
    && t.queue == s.queue && SameFlags(s, t) && t.calls[c].pc == s.calls[c].pc
    && (Settled(s.calls[c].channel) ==> t.calls[c].channel == s.calls[c].channel)
    && (if t.worker.Releasing?
        then t.worker.c == c && t.calls[c].job.Dropping? && (t.worker.after == Loop ==> t.calls[c].channel.Sent?)
             && (s.worker.Releasing? ==> t.worker == s.worker && StageLeft(t, c) < StageLeft(s, c))
        else t.calls[c].job.Dropped? && s.worker.Releasing?
             && t.worker == if s.worker.after == Loop then Checking else Discarding)
  }

  function StageLeft(s: State, c: CallId): nat {
    if c in s.calls && s.calls[c].job.Dropping? && s.calls[c].job.stage <= 3 then 4 - s.calls[c].job.stage else 0
  }

  predicate OnJob(step: WorkStep) {
    step.Panic? || step.Reply? || step.DropPermit? || step.DropName? || step.DropLock? || step.DropReply?
  }

  lemma AnswerMoves(s: State, c: CallId, step: WorkStep)
    requires WorkEnabled(s, step) && (step.Panic? || step.Reply?) && Current(s.worker) == Some(c) && c in s.calls
    requires CallOk(s.calls[c]) && s.calls[c].job.AtWorker?
    ensures JobMoves(s, WorkApply(s, step), c)
  {
  }

  lemma DropMoves(s: State, c: CallId, step: WorkStep)
    requires WorkEnabled(s, step) && (step.DropPermit? || step.DropName? || step.DropLock?)
    requires Current(s.worker) == Some(c) && c in s.calls && CallOk(s.calls[c])
    requires s.worker.after == Loop ==> s.calls[c].channel.Sent?
    ensures JobMoves(s, WorkApply(s, step), c)
  {
  }

  lemma DropReplyMoves(s: State, c: CallId)
    requires WorkEnabled(s, DropReply) && Current(s.worker) == Some(c) && c in s.calls && CallOk(s.calls[c])
    ensures JobMoves(s, WorkApply(s, DropReply), c)
  {
  }

  lemma JobKnown(s: State, step: WorkStep) returns (c: CallId)
    requires CallsOk(s) && WorkerOk(s) && WorkEnabled(s, step) && OnJob(step)
    ensures Current(s.worker) == Some(c) && c in s.calls && CallOk(s.calls[c])
    ensures step.Panic? || step.Reply? ==> s.calls[c].job.AtWorker?
    ensures s.worker.Releasing? && s.worker.after == Loop ==> s.calls[c].channel.Sent?
  {
    hide CallOk;
    c := s.worker.c;
  }

  lemma MovesOfJob(s: State, step: WorkStep) returns (c: CallId)
    requires CallsOk(s) && WorkerOk(s) && WorkEnabled(s, step) && OnJob(step)
    ensures JobMoves(s, WorkApply(s, step), c)
  {
    c := JobKnown(s, step);
    hide WorkApply, WorkEnabled, CallOk, CallsOk, WorkerOk, JobMoves;
    match step {
      case Panic | Reply => AnswerMoves(s, c, step);
      case DropReply => DropReplyMoves(s, c);
      case DropPermit | DropName | DropLock => DropMoves(s, c, step);
    }
  }

  lemma InHand(s: State, t: State, c: CallId)
    requires WorkerOk(s) && QueueOk(s) && JobMoves(s, t, c)
    ensures QueueOk(t) && WorkerOk(t)
  {
    hide CallOk, Held, TokensMove, StageLeft;
    assert !s.calls[c].job.InQueue? && !t.calls[c].job.InQueue?;
    assert forall d :: d in s.calls && d != c ==> !s.calls[d].job.AtWorker? && !s.calls[d].job.Dropping?;
  }

  /** The worker picks up, or throws away, the first job of the queue. */
  ghost predicate TakeMoves(s: State, t: State, c: CallId) {
    && s.queue != [] && c == s.queue[0] && c in s.calls && s.calls[c].job.InQueue?
    && OnlyCall(s, t, c) && TokensMove(s, t, c) && CallOk(t.calls[c])
    && t.queue == s.queue[1..] && SameFlags(s, t)
    && t.calls[c].pc == s.calls[c].pc && t.calls[c].channel == s.calls[c].channel
    && ( || (s.worker.Receiving? && t.worker == Serving(c) && t.calls[c].job.AtWorker?)
         || (s.worker.Discarding? && t.worker == Releasing(c, Drain) && t.calls[c].job == Dropping(0)))
  }

  lemma MovesOfTake(s: State, step: WorkStep) returns (c: CallId)
    requires QueueOk(s) && CallsOk(s) && WorkEnabled(s, step) && (step.Receive? || step.Discard?)
    ensures TakeMoves(s, WorkApply(s, step), c)
  {
    c := s.queue[0];
    assert c in s.calls && s.calls[c].job.InQueue? && CallOk(s.calls[c]);
    var t := WorkApply(s, step);
    assert Held(s.calls[c]) == Held(t.calls[c]) == Tokens(true, true, true);
    hide QueueOk, CallsOk, Held;
  }

  lemma TakenQueue(s: State, t: State, c: CallId)
    requires QueueOk(s) && TakeMoves(s, t, c)
    ensures QueueOk(t)
  {
    hide CallOk, Held, TokensMove, SameFlags;
    assert forall i :: 0 <= i < |t.queue| ==> t.queue[i] == s.queue[i + 1];
    assert s.queue == [c] + t.queue;
  }

  lemma TakenWorker(s: State, t: State, c: CallId)
    requires WorkerOk(s) && TakeMoves(s, t, c)
    ensures WorkerOk(t)
  {
    hide CallOk, Held, TokensMove;
    assert forall d :: d in s.calls ==> !s.calls[d].job.AtWorker? && !s.calls[d].job.Dropping?;
  }

  lemma Taken(s: State, t: State, c: CallId)
    requires QueueOk(s) && WorkerOk(s) && TakeMoves(s, t, c)
    ensures QueueOk(t) && WorkerOk(t)
  {
    TakenQueue(s, t, c);
    TakenWorker(s, t, c);
    hide QueueOk, WorkerOk, TakeMoves;
  }

  /** A step that changes no call, nor what calls hold. */
  ghost predicate CallsSame(s: State, t: State) {
    t.calls == s.calls && t.queue == s.queue && t.permitFree == s.permitFree && t.reserved == s.reserved
  }

  lemma CallsSameKeeps(s: State, t: State)
    requires CallsSame(s, t) && CallsOk(s) && QueueOk(s) && PermitOk(s) && NamesOk(s)
    ensures CallsOk(t) && QueueOk(t) && PermitOk(t) && NamesOk(t)
    ensures t.locks == s.locks && LocksOk(s) ==> LocksOk(t)
  {
    hide Held, CallOk;
  }

  predicate Idle(step: WorkStep) {
    !OnJob(step) && !step.Receive? && !step.Discard?
  }

  lemma IdleStep(s: State, step: WorkStep)
    requires WorkerOk(s) && WorkEnabled(s, step) && Idle(step)
    ensures var t := WorkApply(s, step); CallsSame(s, t) && t.locks == s.locks && WorkerOk(t)
    ensures FlagsForward(s, WorkApply(s, step))
  {
    hide Held, CallOk;
    match step {
      case Build(_) =>
      case CheckStop =>
      case ReceiveTimeout =>
      case Finish =>
      case Complete =>
      case Disconnect =>
      case Exhaust =>
    }
  }

  lemma OthersStep(s: State, step: OtherStep)
    requires LocksOk(s) && WorkerOk(s) && OtherEnabled(s, step)
    ensures var t := OtherApply(s, step); CallsSame(s, t) && LocksOk(t) && WorkerOk(t) && t.worker == s.worker
    ensures FlagsForward(s, OtherApply(s, step))
  {
    hide Held, CallOk;
  }

  /** The flags of the supervisor only ever go one way. */
  ghost predicate FlagsForward(s: State, t: State) {
    (s.completed ==> t.completed) && (s.stop ==> t.stop) && (!s.accepting ==> !t.accepting)
  }

  lemma CallKeepsInv(s: State, t: State, c: CallId)
    requires Inv(s) && (CallerMoves(s, t, c) || SendMoves(s, t, c) || JobMoves(s, t, c) || TakeMoves(s, t, c))
    ensures Inv(t) && FlagsForward(s, t)
  {
    hide CallOk, Held, TokensMove, OnlyCall, CallsOk, PermitOk, NamesOk, LocksOk, QueueOk, WorkerOk, Settled, StageLeft;
    TokensMoved(s, t, c);
    if CallerMoves(s, t, c) {
      JobsUntouched(s, t, c);
    } else if SendMoves(s, t, c) {
      Queued(s, t, c);
    } else if JobMoves(s, t, c) {
      InHand(s, t, c);
    } else {
      Taken(s, t, c);
    }
  }

  lemma SenderKnown(s: State, c: CallId)
    requires CallsOk(s) && CallEnabled(s, c, Send)
    ensures c in s.calls && CallOk(s.calls[c])
  {
    hide CallOk;
  }

  /** What any step does: it is one of five kinds. */
  datatype Kind = OfCaller(c: CallId) | OfSend(c: CallId) | OfJob(c: CallId) | OfTake(c: CallId) | OfNoCall

  ghost predicate HasKind(s: State, t: State, k: Kind) {
    match k
    case OfCaller(c) => CallerMoves(s, t, c)
    case OfSend(c) => SendMoves(s, t, c)
    case OfJob(c) => JobMoves(s, t, c)
    case OfTake(c) => TakeMoves(s, t, c)
    case OfNoCall => CallsSame(s, t) && LocksOk(t) && WorkerOk(t) && FlagsForward(s, t)
  }

  lemma KindOf(s: State, a: Action) returns (k: Kind)
    requires Inv(s) && Enabled(s, a)
    ensures HasKind(s, Apply(s, a), k)
    ensures k.OfCaller? || k.OfSend? ==> a.Caller? && k.c == a.c
    ensures k.OfNoCall? ==> !a.Caller?
    ensures k.OfJob? || k.OfTake? ==> a.Work?
    ensures a.Work? ==> if OnJob(a.work) then k.OfJob? else if Idle(a.work) then k.OfNoCall? else k.OfTake?
  {
    hide CallApply, WorkApply, OtherApply, CallEnabled, WorkEnabled, OtherEnabled;
    hide CallsOk, PermitOk, NamesOk, QueueOk, WorkerOk;
    hide CallerMoves, SendMoves, JobMoves, TakeMoves, CallsSame, FlagsForward;
    match a {
      case Caller(c, step) =>
        if step.Send? {
          SenderKnown(s, c);
          MovesOfSend(s, c);
          k := if ReceiverOpen(s.worker) then OfSend(c) else OfCaller(c);
        } else {
          MovesOfCaller(s, c, step);
          k := OfCaller(c);
        }
      case Work(step) =>
        if OnJob(step) {
          var c := MovesOfJob(s, step);
          k := OfJob(c);
        } else if Idle(step) {
          IdleStep(s, step);
          LocksSame(s, WorkApply(s, step));
          k := OfNoCall;
        } else {
          var c := MovesOfTake(s, step);
          k := OfTake(c);
        }
      case Other(step) =>
        OthersStep(s, step);
        k := OfNoCall;
    }
  }

  lemma LocksSame(s: State, t: State)
    requires LocksOk(s) && CallsSame(s, t) && t.locks == s.locks
    ensures LocksOk(t)
  {
    hide Held;
  }

  lemma StepKeepsInv(s: State, a: Action)
    requires Inv(s) && Enabled(s, a)
    ensures Inv(Apply(s, a)) && FlagsForward(s, Apply(s, a))
  {
    hide Apply, Enabled, CallerMoves, SendMoves, JobMoves, TakeMoves, CallsSame;
    hide CallsOk, PermitOk, NamesOk, QueueOk, WorkerOk, LocksOk;
    var k := KindOf(s, a);
    if k.OfNoCall? {
      CallsSameKeeps(s, Apply(s, a));
    } else {
      CallKeepsInv(s, Apply(s, a), k.c);
    }
  }

  // ---- runs -------------------------------------------------------------------------------------

  predicate Steps(s: State, a: Action, t: State) {
    Enabled(s, a) && t == Apply(s, a)
  }

  /** A run: the initial state, and any number of enabled steps in any order. */
  predicate IsRun(states: seq<State>, actions: seq<Action>) {
    && |states| == |actions| + 1 && states[0] == INITIAL
    && forall i :: 0 <= i < |actions| ==> Steps(states[i], actions[i], states[i + 1])
  }

  /** The invariant holds in every state of every run. */
  lemma {:induction false} InvAlong(states: seq<State>, actions: seq<Action>, i: nat)
    requires IsRun(states, actions) && i < |states|
    ensures Inv(states[i])
  {
    if i > 0 {
      InvAlong(states, actions, i - 1);
      assert Steps(states[i - 1], actions[i - 1], states[i - 1 + 1]);
      StepKeepsInv(states[i - 1], actions[i - 1]);
    }
  }

  /** The step from state i to state i + 1, and what kind of step it is. */
  lemma KindAt(states: seq<State>, actions: seq<Action>, i: nat) returns (k: Kind)
    requires IsRun(states, actions) && i < |actions|
    ensures Inv(states[i]) && Steps(states[i], actions[i], states[i + 1]) && HasKind(states[i], states[i + 1], k)
    ensures k.OfCaller? || k.OfSend? ==> actions[i].Caller? && actions[i].c == k.c
    ensures FlagsForward(states[i], states[i + 1])
  {
    hide Inv, Enabled, Apply, HasKind, FlagsForward;
    InvAlong(states, actions, i);
    assert Steps(states[i], actions[i], states[i + 1]);
    k := KindOf(states[i], actions[i]);
    StepKeepsInv(states[i], actions[i]);
  }

  predicate JobAlive(s: State, c: CallId) {
    c in s.calls && (s.calls[c].job.InQueue? || s.calls[c].job.AtWorker?)
  }

  /** At most one job is queued or running, and it has the permit, its name and its session lock,
      wherever its caller has got to, even if the caller is gone. */
  lemma SingleFlight(states: seq<State>, actions: seq<Action>, i: nat, c: CallId, d: CallId)
    requires IsRun(states, actions) && i < |states| && JobAlive(states[i], c)
    ensures JobAlive(states[i], d) ==> c == d
    ensures var s := states[i];
      && !s.permitFree && s.calls[c].database in s.reserved
      && s.calls[c].session in s.locks && s.locks[s.calls[c].session] == ByCall(c)
  {
    InvAlong(states, actions, i);
    assert Held(states[i].calls[c]) == Tokens(true, true, true);
    assert JobAlive(states[i], d) ==> Held(states[i].calls[d]).permit;
  }

  /** The reserved names are those of the live reservations, each held once. */
  lemma ReservationsAreNames(states: seq<State>, actions: seq<Action>, i: nat, c: CallId, d: CallId, name: string)
    requires IsRun(states, actions) && i < |states|
    ensures var s := states[i];
      && (name in s.reserved <==> exists e :: e in s.calls && Held(s.calls[e]).name && s.calls[e].database == name)
      && (c in s.calls && d in s.calls && SameName(s.calls[c], s.calls[d]) ==> c == d)
  {
    InvAlong(states, actions, i);
    hide Held;
  }

  /** Call `c` is in the middle of a create, delete, export or import on the server. */
  predicate UpstreamActive(s: State, c: CallId) {
    c in s.calls && (s.calls[c].pc.AdminRunning? || s.worker == Serving(c))
  }

  /** Two such calls never overlap on one database. */
  lemma UpstreamExclusion(states: seq<State>, actions: seq<Action>, i: nat, c: CallId, d: CallId)
    requires IsRun(states, actions) && i < |states|
    requires UpstreamActive(states[i], c) && UpstreamActive(states[i], d) && c != d
    ensures states[i].calls[c].database != states[i].calls[d].database
  {
    InvAlong(states, actions, i);
    var s := states[i];
    assert CallOk(s.calls[c]) && CallOk(s.calls[d]);
    assert Held(s.calls[c]).name && Held(s.calls[d]).name;
    assert !SameName(s.calls[c], s.calls[d]);
  }

  /** When `do_migration` returns after calling submit, that call holds nothing any more, whatever became
      of its job. */
  lemma ReleaseBeforeResponse(states: seq<State>, actions: seq<Action>, i: nat, c: CallId)
    requires IsRun(states, actions) && i < |states| && c in states[i].calls && states[i].calls[c].pc.Returned?
    ensures Held(states[i].calls[c]) == NO_TOKENS
    ensures forall x :: x in states[i].locks ==> states[i].locks[x] != ByCall(c)
  {
    InvAlong(states, actions, i);
    assert CallOk(states[i].calls[c]);
  }

  // ---- shutdown ---------------------------------------------------------------------------------

  lemma CompletedIsQuiet(s: State)
    requires Inv(s)
    ensures s.completed ==> !s.worker.Serving? && !BackendBusy(s)
    ensures s.stop ==> !s.accepting
  {
    hide CallOk, Held, CallsOk, PermitOk, NamesOk, LocksOk, QueueOk;
  }

  /** Once `shutdown` can return Completed no backend call is running, then or ever after. */
  lemma {:induction false} ShutdownSafety(states: seq<State>, actions: seq<Action>, i: nat, j: nat)
    requires IsRun(states, actions) && i <= j < |states| && states[i].completed
    ensures states[j].completed && !states[j].worker.Serving? && !BackendBusy(states[j])
    decreases j
  {
    hide Inv, Apply, Enabled, BackendBusy, HasKind;
    if i < j {
      ShutdownSafety(states, actions, i, j - 1);
      var k := KindAt(states, actions, j - 1);
    }
    InvAlong(states, actions, j);
    CompletedIsQuiet(states[j]);
  }

  /** When the worker is gone every accepted job is settled: it holds nothing, and its channel carries a
      reply or is closed. */
  lemma AllSettledWhenGone(states: seq<State>, actions: seq<Action>, i: nat, c: CallId)
    requires IsRun(states, actions) && i < |states| && states[i].worker.Gone? && c in states[i].calls
    requires !states[i].calls[c].job.NoJob?
    ensures var k := states[i].calls[c]; k.job.Dropped? && Held(k) == NO_TOKENS && Settled(k.channel)
  {
    InvAlong(states, actions, i);
    assert CallOk(states[i].calls[c]);
    assert !states[i].calls[c].job.InQueue?;
  }

  lemma SettledStays(s: State, t: State, k: Kind, c: CallId)
    requires HasKind(s, t, k) && c in s.calls
    ensures c in t.calls
    ensures Settled(s.calls[c].channel) ==> t.calls[c].channel == s.calls[c].channel
  {
    hide CallOk, TokensMove, StageLeft, LocksOk, WorkerOk, FlagsForward, SameFlags, Held;
  }

  /** A reply or a closed channel is final: no accepted job gets two answers, or one and then the other. */
  lemma {:induction false} OneAnswer(states: seq<State>, actions: seq<Action>, i: nat, j: nat, c: CallId)
    requires IsRun(states, actions) && i <= j < |states| && c in states[i].calls && Settled(states[i].calls[c].channel)
    ensures c in states[j].calls && states[j].calls[c].channel == states[i].calls[c].channel
    decreases j
  {
    hide Inv, Apply, Enabled, HasKind, FlagsForward, Settled;
    if i < j {
      OneAnswer(states, actions, i, j - 1, c);
      var k := KindAt(states, actions, j - 1);
      SettledStays(states[j - 1], states[j], k, c);
    }
  }

  lemma ReleasingCanMove(s: State, c: CallId) returns (step: WorkStep)
    requires s.worker.Releasing? && s.worker.c == c && c in s.calls && s.calls[c].job.Dropping? && CallOk(s.calls[c])
    ensures WorkEnabled(s, step)
  {
    match s.calls[c].job.stage {
      case 0 => step := DropPermit;
      case 1 => step := DropName;
      case 2 => step := DropLock;
      case 3 => step := DropReply;
    }
  }

  lemma IdleCanMove(s: State) returns (step: WorkStep)
    requires !s.worker.Gone? && !s.worker.Releasing? && (s.worker.Replying? ==> s.worker.c in s.calls)
    ensures WorkEnabled(s, step)
  {
    match s.worker {
      case Building => step := Build(true);
      case Checking => step := CheckStop;
      case Receiving => step := if s.queue == [] then ReceiveTimeout else Receive;
      case Serving(_) => step := Finish;
      case Replying(_) => step := Reply;
      case Leaving => step := Complete;
      case Closing => step := Disconnect;
      case Discarding => step := if s.queue == [] then Exhaust else Discard;
    }
  }

  lemma HandIsKnown(s: State)
    requires CallsOk(s) && WorkerOk(s) && Current(s.worker).Some?
    ensures var c := s.worker.c;
      c in s.calls && CallOk(s.calls[c]) && (s.worker.Releasing? ==> s.calls[c].job.Dropping?)
  {
    hide CallOk;
  }

  /** The worker is never stuck. */
  lemma WorkerCanMove(states: seq<State>, actions: seq<Action>, i: nat) returns (step: WorkStep)
    requires IsRun(states, actions) && i < |states| && !states[i].worker.Gone?
    ensures WorkEnabled(states[i], step)
  {
    InvAlong(states, actions, i);
    hide WorkEnabled, CallOk, Held, CallsOk, PermitOk, NamesOk, LocksOk, QueueOk, WorkerOk;
    var s := states[i];
    if Current(s.worker).Some? {
      HandIsKnown(s);
    }
    if s.worker.Releasing? {
      step := ReleasingCanMove(s, s.worker.c);
    } else {
      step := IdleCanMove(s);
    }
  }

  /** Callers that have been admitted but have not sent their job yet. */
  function InFlight(s: State): set<CallId> {
    set c | c in s.calls && s.calls[c].pc in IN_FLIGHT
  }

  function WorkerLeft(s: State): nat {
    match s.worker
    case Gone => 0
    case Discarding => 1
    case Closing => 2
    case Leaving => 3
    case Checking => 4
    case Building => 5
    case Releasing(c, after) => StageLeft(s, c) + if after == Loop then 5 else 2
    case Replying(_) => 10
    case Serving(_) => 11
    case Receiving => 12
  }

  /** Steps the worker has left once it has been told to stop. */
  function StepsLeft(s: State): nat {
    20 * (|s.queue| + |InFlight(s)|) + WorkerLeft(s)
  }

  lemma SmallerSet<T>(a: set<T>, b: set<T>)
    requires a <= b
    ensures |a| <= |b|
  {
    assert b == a + (b - a);
  }

  lemma CallerNoCloser(s: State, t: State, c: CallId)
    requires CallerMoves(s, t, c) && !s.accepting
    ensures StepsLeft(t) <= StepsLeft(s)
  {
    hide Held, CallOk, TokensMove;
    assert InFlight(t) <= InFlight(s);
    SmallerSet(InFlight(t), InFlight(s));
    assert WorkerLeft(t) == WorkerLeft(s);
  }

  lemma SendNoCloser(s: State, t: State, c: CallId)
    requires SendMoves(s, t, c)
    ensures StepsLeft(t) <= StepsLeft(s)
  {
    hide Held, CallOk, TokensMove;
    assert InFlight(t) == InFlight(s) - {c};
    assert c in InFlight(s);
    assert WorkerLeft(t) == WorkerLeft(s);
  }

  lemma JobCloser(s: State, t: State, c: CallId)
    requires JobMoves(s, t, c)
    ensures StepsLeft(t) < StepsLeft(s)
  {
    hide Held, CallOk, TokensMove, Settled;
    assert InFlight(t) == InFlight(s);
    assert WorkerLeft(t) < WorkerLeft(s);
  }

  lemma TakeCloser(s: State, t: State, c: CallId)
    requires TakeMoves(s, t, c)
    ensures StepsLeft(t) < StepsLeft(s)
  {
    hide Held, CallOk, TokensMove;
    assert InFlight(t) == InFlight(s);
    assert WorkerLeft(t) <= WorkerLeft(s) + 10;
  }

  lemma SameCallsLeft(s: State, t: State)
    requires t.calls == s.calls
    ensures InFlight(t) == InFlight(s)
    ensures t.worker == s.worker ==> WorkerLeft(t) == WorkerLeft(s)
  {
  }

  lemma IdleCloser(s: State, step: WorkStep)
    requires WorkEnabled(s, step) && Idle(step) && s.stop
    ensures StepsLeft(WorkApply(s, step)) < StepsLeft(s)
  {
    var t := WorkApply(s, step);
    SameCallsLeft(s, t);
    hide InFlight, StageLeft;
    match step {
      case Build(_) =>
      case CheckStop =>
      case ReceiveTimeout =>
      case Finish =>
      case Complete =>
      case Disconnect =>
      case Exhaust =>
    }
  }

  lemma OthersNoCloser(s: State, step: OtherStep)
    requires OtherEnabled(s, step)
    ensures StepsLeft(OtherApply(s, step)) == StepsLeft(s)
  {
    hide InFlight, WorkerLeft;
    SameCallsLeft(s, OtherApply(s, step));
  }

  /** Once told to stop: no step brings the end further away, and every worker step brings it nearer. */
  lemma StopDrains(s: State, a: Action)
    requires Inv(s) && Enabled(s, a) && s.stop
    ensures StepsLeft(Apply(s, a)) <= StepsLeft(s)
    ensures a.Work? ==> StepsLeft(Apply(s, a)) < StepsLeft(s)
  {
    hide Inv, CallApply, WorkApply, OtherApply, CallEnabled, WorkEnabled, OtherEnabled;
    hide StepsLeft, CallerMoves, SendMoves, JobMoves, TakeMoves, CallsSame, LocksOk, WorkerOk, FlagsForward;
    CompletedIsQuiet(s);
    var t := Apply(s, a);
    var k := KindOf(s, a);
    match k {
      case OfCaller(c) => CallerNoCloser(s, t, c);
      case OfSend(c) => SendNoCloser(s, t, c);
      case OfJob(c) => JobCloser(s, t, c);
      case OfTake(c) => TakeCloser(s, t, c);
      case OfNoCall =>
        match a {
          case Work(step) => IdleCloser(s, step);
          case Other(step) => OthersNoCloser(s, step);
        }
    }
  }

  function WorkerSteps(actions: seq<Action>): nat {
    if actions == [] then 0 else WorkerSteps(actions[..|actions| - 1]) + if actions[|actions| - 1].Work? then 1 else 0
  }

  /** After the stop flag is raised the worker takes a bounded number of further steps, whatever submits are
      still on their way; as it is never stuck, it winds down under any fair schedule. */
  lemma {:induction false} ShutdownDrains(states: seq<State>, actions: seq<Action>, i: nat, j: nat)
    requires IsRun(states, actions) && i <= j < |states| && states[i].stop
    ensures states[j].stop
    ensures WorkerSteps(actions[i..j]) + StepsLeft(states[j]) <= StepsLeft(states[i])
    decreases j
  {
    hide Inv, Apply, Enabled, StepsLeft, HasKind;
    if i < j {
      ShutdownDrains(states, actions, i, j - 1);
      var k := KindAt(states, actions, j - 1);
      StopDrains(states[j - 1], actions[j - 1]);
      assert actions[i..j][..j - i - 1] == actions[i..j - 1];
    }
  }

  // ---- the refusal that does not return --------------------------------------------------------------

  lemma BlockedStays(s: State, a: Action, k: Kind, c: CallId)
    requires LocksOk(s) && CallsOk(s)
    requires Enabled(s, a) && HasKind(s, Apply(s, a), k) && (k.OfCaller? || k.OfSend? ==> a.Caller? && a.c == k.c)
    requires c in s.calls && s.calls[c].pc.SelfBlocked? && a != Caller(c, Cancel)
    ensures var t := Apply(s, a); c in t.calls && t.calls[c].pc.SelfBlocked? && t.calls[c].session == s.calls[c].session
  {
    BlockedHolds(s, c);
    hide CallApply, WorkApply, OtherApply, WorkEnabled, OtherEnabled, Held, CallOk, TokensMove, StageLeft, Settled;
    hide LocksOk, WorkerOk, CallsOk;
  }

  lemma BlockedHolds(s: State, c: CallId)
    requires LocksOk(s) && CallsOk(s) && c in s.calls && s.calls[c].pc.SelfBlocked?
    ensures s.calls[c].session in s.locks && s.locks[s.calls[c].session] == ByCall(c)
  {
    assert CallOk(s.calls[c]);
    assert Held(s.calls[c]).lock;
    hide Held;
  }

  /** A caller that finds a transaction open in its session asks for a snapshot, which takes the session lock,
      while it holds that lock itself: until it is cancelled the snapshot is never possible, it does not get
      past that point, and nobody else gets the lock. */
  lemma {:induction false} OpenTransactionBlocks(states: seq<State>, actions: seq<Action>, i: nat, j: nat, c: CallId)
    requires IsRun(states, actions) && i <= j < |states|
    requires c in states[i].calls && states[i].calls[c].pc.SelfBlocked?
    requires forall n :: i <= n < j ==> actions[n] != Caller(c, Cancel)
    ensures var s := states[j];
      && c in s.calls && s.calls[c].pc.SelfBlocked? && s.calls[c].session == states[i].calls[c].session
      && s.calls[c].session in s.locks && s.locks[s.calls[c].session] == ByCall(c)
      && !Enabled(s, Caller(c, Snapshot))
    decreases j
  {
    if i < j {
      OpenTransactionBlocks(states, actions, i, j - 1, c);
      hide Inv, Apply, Enabled, HasKind, FlagsForward;
      var k := KindAt(states, actions, j - 1);
      BlockedStays(states[j - 1], actions[j - 1], k, c);
    }
    InvAlong(states, actions, j);
    BlockedHolds(states[j], c);
    NoSnapshotUnderLock(states[j], c);
  }

  /** So is a delete whose scan finds an open transaction in the caller's own session. */
  lemma DeleteScanBlocks(states: seq<State>, actions: seq<Action>, i: nat, j: nat, c: CallId)
    requires IsRun(states, actions) && i < j < |states| && actions[i] == Caller(c, ScanOwn)
    requires forall n :: i < n < j ==> actions[n] != Caller(c, Cancel)
    ensures var s := states[j];
      && c in s.calls && s.calls[c].pc.SelfBlocked?
      && s.calls[c].session in s.locks && s.locks[s.calls[c].session] == ByCall(c)
      && !Enabled(s, Caller(c, Snapshot))
  {
    assert Steps(states[i], actions[i], states[i + 1]);
    OpenTransactionBlocks(states, actions, i + 1, j, c);
  }

  lemma NoSnapshotUnderLock(s: State, c: CallId)
    requires c in s.calls && s.calls[c].session in s.locks
    ensures !Enabled(s, Caller(c, Snapshot))
  {
  }
}
