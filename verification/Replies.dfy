/** What becomes of a migration call: which answer a job gets and why, when a submit is accepted, and when
    the worker stops. */
module Replies {
  import opened Prelude
  import opened Coordinator
  import opened Supervisor

  // ---- why a job got the answer it got --------------------------------------------------------------

  /** The step lets down the job of call `c`: the worker panics while serving it, or, on its way out, throws it
      off the queue. */
  predicate LetsDown(s: State, a: Action, c: CallId) {
    || (a == Work(Panic) && s.worker == Serving(c))
    || (a == Work(Discard) && s.queue != [] && s.queue[0] == c)
  }

  ghost predicate LetDown(states: seq<State>, actions: seq<Action>, i: nat, c: CallId) {
    exists j :: 0 <= j < i && j < |states| && j < |actions| && LetsDown(states[j], actions[j], c)
  }

  /** The worker has run the job of call `c` to its end. */
  predicate Serves(s: State, a: Action, c: CallId) {
    a == Work(Finish) && s.worker == Serving(c)
  }

  ghost predicate Served(states: seq<State>, actions: seq<Action>, i: nat, c: CallId) {
    exists j :: 0 <= j < i && j < |states| && j < |actions| && Serves(states[j], actions[j], c)
  }

  ghost predicate Panicked(actions: seq<Action>, i: nat) {
    exists j :: 0 <= j < i && j < |actions| && actions[j] == Work(Panic)
  }

  /** The worker takes no more jobs. */
  predicate Winding(w: Worker) {
    w.Discarding? || w.Gone? || (w.Releasing? && w.after != Loop)
  }

  predicate ChannelIs(s: State, c: CallId, h: Channel) {
    c in s.calls && s.calls[c].channel == h
  }

  /** Every change of answer, and every change of the worker towards one, has its one cause. */
  ghost predicate Causes(s: State, a: Action, t: State) {
    && (forall c :: ChannelIs(t, c, Closed) && !ChannelIs(s, c, Closed) ==>
          s.worker.Releasing? && s.worker.c == c && s.worker.after != Loop)
    && (forall c :: ChannelIs(t, c, Sent) && !ChannelIs(s, c, Sent) ==> s.worker == Replying(c))
    && (t.worker.Releasing? && t.worker.after != Loop ==> t.worker == s.worker || LetsDown(s, a, t.worker.c))
    && (t.worker.Replying? ==> t.worker == s.worker || Serves(s, a, t.worker.c))
    && (Winding(t.worker) ==> Winding(s.worker) || s.worker.Closing? || a == Work(Panic))
    && (t.worker.Closing? ==> s.worker.Closing? || t.completed)
  }

  lemma CallerCauses(s: State, a: Action, t: State, k: Kind)
    requires HasKind(s, t, k) && (k.OfCaller? || k.OfSend?)
    ensures Causes(s, a, t)
  {
    hide TokensMove, Held, StageLeft, LetsDown, Serves;
  }

  lemma JobCauses(s: State, step: WorkStep)
    requires CallsOk(s) && WorkerOk(s) && WorkEnabled(s, step) && OnJob(step)
    ensures Causes(s, Work(step), WorkApply(s, step))
  {
    hide Held, CallOk;
    match step {
      case Panic =>
      case Reply =>
      case DropPermit =>
      case DropName =>
      case DropLock =>
      case DropReply =>
    }
  }

  lemma NoJobCauses(s: State, step: WorkStep)
    requires QueueOk(s) && WorkEnabled(s, step) && !OnJob(step)
    ensures Causes(s, Work(step), WorkApply(s, step))
  {
    hide Held, CallOk;
    match step {
      case Build(_) =>
      case CheckStop =>
      case Receive =>
      case ReceiveTimeout =>
      case Finish =>
      case Complete =>
      case Disconnect =>
      case Discard =>
      case Exhaust =>
    }
  }

  lemma OtherCauses(s: State, step: OtherStep)
    requires OtherEnabled(s, step)
    ensures Causes(s, Other(step), OtherApply(s, step))
  {
  }

  lemma StepCauses(s: State, a: Action)
    requires Inv(s) && Enabled(s, a)
    ensures Causes(s, a, Apply(s, a)) && FlagsForward(s, Apply(s, a))
  {
    hide CallApply, WorkApply, OtherApply, CallEnabled, WorkEnabled, OtherEnabled, Causes, FlagsForward;
    StepKeepsInv(s, a);
    match a {
      case Caller(_, _) =>
        var k := KindOf(s, a);
        CallerCauses(s, a, Apply(s, a), k);
      case Work(step) =>
        if OnJob(step) {
          JobCauses(s, step);
        } else {
          NoJobCauses(s, step);
        }
      case Other(step) => OtherCauses(s, step);
    }
  }

  /** What the past explains about the present. */
  ghost predicate Explained(states: seq<State>, actions: seq<Action>, i: nat)
    requires i < |states|
  {
    var s := states[i];
    && (forall c :: ChannelIs(s, c, Closed) ==> LetDown(states, actions, i, c))
    && (forall c :: ChannelIs(s, c, Sent) ==> Served(states, actions, i, c))
    && (s.worker.Releasing? && s.worker.after != Loop ==> LetDown(states, actions, i, s.worker.c))
    && (s.worker.Replying? ==> Served(states, actions, i, s.worker.c))
    && (Winding(s.worker) && !s.completed ==> Panicked(actions, i))
    && (s.worker.Closing? ==> s.completed)
  }

  lemma PastStaysPast(states: seq<State>, actions: seq<Action>, i: nat, c: CallId)
    ensures LetDown(states, actions, i, c) ==> LetDown(states, actions, i + 1, c)
    ensures Served(states, actions, i, c) ==> Served(states, actions, i + 1, c)
    ensures Panicked(actions, i) ==> Panicked(actions, i + 1)
  {
  }

  lemma ThisStepCounts(states: seq<State>, actions: seq<Action>, i: nat, c: CallId)
    requires i < |states| && i < |actions|
    ensures LetsDown(states[i], actions[i], c) ==> LetDown(states, actions, i + 1, c)
    ensures Serves(states[i], actions[i], c) ==> Served(states, actions, i + 1, c)
    ensures actions[i] == Work(Panic) ==> Panicked(actions, i + 1)
  {
  }

  lemma ExplainedNext(states: seq<State>, actions: seq<Action>, i: nat)
    requires i < |actions| && i + 1 < |states| && Explained(states, actions, i)
    requires Causes(states[i], actions[i], states[i + 1]) && FlagsForward(states[i], states[i + 1])
    ensures Explained(states, actions, i + 1)
  {
    hide LetDown, Served, Panicked, LetsDown, Serves;
    var t, n := states[i + 1], i + 1;
    forall c | ChannelIs(t, c, Closed)
      ensures LetDown(states, actions, n, c)
    {
      PastStaysPast(states, actions, i, c);
      ThisStepCounts(states, actions, i, c);
    }
    forall c | ChannelIs(t, c, Sent)
      ensures Served(states, actions, n, c)
    {
      PastStaysPast(states, actions, i, c);
    }
    var w := t.worker;
    var c := if w.Releasing? || w.Replying? then w.c else 0;
    PastStaysPast(states, actions, i, c);
    ThisStepCounts(states, actions, i, c);
  }

  lemma {:induction false} ExplainedAlong(states: seq<State>, actions: seq<Action>, i: nat)
    requires IsRun(states, actions) && i < |states|
    ensures Explained(states, actions, i)
  {
    hide Inv, Apply, Enabled, Causes, FlagsForward;
    if i > 0 {
      hide Explained;
      ExplainedAlong(states, actions, i - 1);
      InvAlong(states, actions, i - 1);
      assert Steps(states[i - 1], actions[i - 1], states[i - 1 + 1]);
      StepCauses(states[i - 1], actions[i - 1]);
      ExplainedNext(states, actions, i - 1);
    }
  }

  /** A channel is closed without a reply only if the worker panicked while serving that very job, or threw it
      off the queue after it had stopped taking jobs; and there is a reply only if the job was run to its end. */
  lemma WhyThisAnswer(states: seq<State>, actions: seq<Action>, i: nat, c: CallId)
    requires IsRun(states, actions) && i < |states| && c in states[i].calls
    ensures states[i].calls[c].channel.Closed? ==> LetDown(states, actions, i, c)
    ensures states[i].calls[c].channel.Sent? ==> Served(states, actions, i, c)
    ensures states[i].calls[c].pc == Answered(GotClosed) ==> LetDown(states, actions, i, c)
    ensures states[i].calls[c].pc == Answered(GotReply) ==> Served(states, actions, i, c)
  {
    ExplainedAlong(states, actions, i);
    InvAlong(states, actions, i);
    assert CallOk(states[i].calls[c]);
    assert ChannelIs(states[i], c, states[i].calls[c].channel);
    hide IsRun, LetDown, Served, Held;
  }

  /** The worker stops taking jobs without `completed` only after a panic; so without one, a worker that is
      gone has set it. */
  lemma WhyItStopped(states: seq<State>, actions: seq<Action>, i: nat)
    requires IsRun(states, actions) && i < |states|
    ensures Winding(states[i].worker) && !states[i].completed ==> Panicked(actions, i)
    ensures states[i].completed ==> states[i].stop
  {
    ExplainedAlong(states, actions, i);
    InvAlong(states, actions, i);
    hide IsRun, Panicked, CallOk, Held;
  }

  // ---- when a submit is refused ---------------------------------------------------------------------

  /** The step is one at which submit gives up: admission is closed, a migration is under way, the name is
      invalid or busy, the path is unfit, or the worker takes no more jobs. */
  predicate Refuses(s: State, a: Action, c: CallId) {
    && a.Caller? && a.c == c && c in s.calls
    && match a.call
       case LoadAccepting => !s.accepting
       case TryAcquire => !s.permitFree
       case TryReserve => !ValidName(s.calls[c].database) || s.calls[c].database in s.reserved
       case Normalize(pathOk) => !pathOk
       case Send => !ReceiverOpen(s.worker)
       case _ => false
  }

  predicate IsRefused(s: State, c: CallId) {
    c in s.calls && (s.calls[c].pc.Unwinding? || s.calls[c].pc == Answered(Refused))
  }

  lemma OtherCallsRefusal(s: State, t: State, k: Kind, c: CallId)
    requires HasKind(s, t, k) && (k.OfCaller? || k.OfSend? ==> k.c != c)
    ensures IsRefused(t, c) <==> IsRefused(s, c)
  {
    hide CallOk, TokensMove, StageLeft, LocksOk, WorkerOk, FlagsForward, SameFlags, Held, Settled;
  }

  lemma OwnRefusal(s: State, c: CallId, step: CallStep)
    requires CallEnabled(s, c, step)
    ensures IsRefused(CallApply(s, c, step), c) ==> IsRefused(s, c) || Refuses(s, Caller(c, step), c)
  {
    hide ValidName, Held;
  }

  /** And each of them does refuse it. */
  lemma RefusalRefuses(s: State, c: CallId, step: CallStep)
    requires CallEnabled(s, c, step) && Refuses(s, Caller(c, step), c)
    ensures IsRefused(CallApply(s, c, step), c)
  {
    hide ValidName, Held;
  }

  /** A call is refused for one of these reasons, and never otherwise. */
  lemma {:induction false} WhyRefused(states: seq<State>, actions: seq<Action>, i: nat, c: CallId) returns (j: nat)
    requires IsRun(states, actions) && i < |states| && IsRefused(states[i], c)
    ensures j < i && Refuses(states[j], actions[j], c)
    decreases i
  {
    hide Inv, Apply, Enabled, HasKind, FlagsForward, Refuses, IsRefused;
    NobodyRefusedAtFirst(c);
    var p := i - 1;
    var k := KindAt(states, actions, p);
    StepRefuses(states[p], actions[p], k, c);
    if IsRefused(states[p], c) {
      j := WhyRefused(states, actions, p, c);
    } else {
      j := p;
    }
  }

  lemma NobodyRefusedAtFirst(c: CallId)
    ensures !IsRefused(INITIAL, c)
  {
  }

  lemma StepRefuses(s: State, a: Action, k: Kind, c: CallId)
    requires Enabled(s, a) && HasKind(s, Apply(s, a), k) && (k.OfCaller? || k.OfSend? ==> a.Caller? && a.c == k.c)
    ensures IsRefused(Apply(s, a), c) ==> IsRefused(s, c) || Refuses(s, a, c)
  {
    hide CallApply, WorkApply, OtherApply, CallEnabled, WorkEnabled, OtherEnabled, HasKind, IsRefused, Refuses;
    if (k.OfCaller? || k.OfSend?) && k.c == c {
      OwnRefusal(s, c, a.call);
    } else {
      OtherCallsRefusal(s, Apply(s, a), k, c);
    }
  }

  /** With admission open, no migration under way, a valid free name and a fit path, submit queues the job. */
  lemma SubmitAccepted(s: State, c: CallId)
    requires c in s.calls && s.calls[c].pc.Locked? && s.accepting && s.permitFree && ReceiverOpen(s.worker)
    requires ValidName(s.calls[c].database) && s.calls[c].database !in s.reserved
    ensures CallEnabled(s, c, LoadAccepting)
    ensures var s1 := CallApply(s, c, LoadAccepting);
      CallEnabled(s1, c, TryAcquire) &&
      var s2 := CallApply(s1, c, TryAcquire);
      CallEnabled(s2, c, TryReserve) &&
      var s3 := CallApply(s2, c, TryReserve);
      CallEnabled(s3, c, Normalize(true)) &&
      var s4 := CallApply(s3, c, Normalize(true));
      CallEnabled(s4, c, Send) &&
      var t := CallApply(s4, c, Send);
      && t.queue == s.queue + [c] && !t.permitFree && t.reserved == s.reserved + {s.calls[c].database}
      && t.locks == s.locks && t.worker == s.worker
      && t.calls == s.calls[c := s.calls[c].(pc := Waiting, job := InQueue, channel := Open)]
  {
    hide ValidName;
  }

  // ---- a job that runs to its end -------------------------------------------------------------------

  function Settle(s: State, c: CallId, worker: Worker, job: Job, channel: Channel): State
    requires c in s.calls
  {
    s.(worker := worker, calls := s.calls[c := s.calls[c].(job := job, channel := channel)])
  }

  /** After the backend is done the reply is sent. */
  lemma JobReplies(s: State, c: CallId)
    requires CallsOk(s) && WorkerOk(s) && s.worker == Serving(c)
    ensures WorkEnabled(s, Finish)
    ensures var t := WorkApply(s, Finish);
      WorkEnabled(t, Reply) && WorkApply(t, Reply) == Settle(s, c, Releasing(c, Loop), Dropping(0), Sent)
  {
    hide CallOk, Held;
  }

  /** Then permit, name and session lock are given back, in this order, and the worker goes on. */
  lemma JobReleases(s: State, c: CallId)
    requires c in s.calls && s.worker == Releasing(c, Loop) && s.calls[c].job == Dropping(0) && s.calls[c].channel.Sent?
    ensures WorkEnabled(s, DropPermit)
    ensures var s1 := WorkApply(s, DropPermit);
      WorkEnabled(s1, DropName) &&
      var s2 := WorkApply(s1, DropName);
      WorkEnabled(s2, DropLock) &&
      var s3 := WorkApply(s2, DropLock);
      && s3 == Settle(s, c, s.worker, Dropping(3), Sent).(
                 permitFree := true, reserved := s.reserved - {s.calls[c].database},
                 locks := s.locks - {s.calls[c].session})
      && WorkEnabled(s3, DropReply) && WorkApply(s3, DropReply) == Settle(s3, c, Checking, Dropped, Sent)
  {
  }

  /** And the caller gets the reply, and can return once it can take the session lock. */
  lemma CallerReturns(s: State, c: CallId)
    requires c in s.calls && s.calls[c].pc.Waiting? && s.calls[c].channel.Sent? && s.calls[c].session !in s.locks
    ensures CallEnabled(s, c, ReceiveAnswer)
    ensures var t := CallApply(s, c, ReceiveAnswer);
      && t == s.(calls := s.calls[c := s.calls[c].(pc := Answered(GotReply))])
      && CallEnabled(t, c, Snapshot)
      && CallApply(t, c, Snapshot) == s.(calls := s.calls[c := s.calls[c].(pc := Returned)])
  {
  }

  // ---- the worker's loop and the other users of a name ------------------------------------------------

  /** The worker leaves exactly when it finds the stop flag, and then sets `completed`; otherwise it looks at
      the queue, and if that stays empty at the flag again. */
  lemma WorkerLoops(s: State)
    ensures s.worker.Checking? ==> (
      && WorkEnabled(s, CheckStop)
      && WorkApply(s, CheckStop) == s.(worker := if s.stop then Leaving else Receiving))
    ensures s.worker.Leaving? ==> WorkEnabled(s, Complete) && WorkApply(s, Complete).completed
    ensures s.worker.Receiving? && s.queue == [] ==> (
      && WorkEnabled(s, ReceiveTimeout)
      && WorkApply(s, ReceiveTimeout) == s.(worker := Checking))
  {
  }

  /** It serves the job that has waited longest. */
  lemma WorkerTakesJobs(s: State)
    requires s.worker.Receiving? && s.queue != []
    ensures WorkEnabled(s, Receive)
    ensures var t := WorkApply(s, Receive);
      t.worker == Serving(s.queue[0]) && s.queue == [s.queue[0]] + t.queue
  {
  }

  /** A create or delete gets its name iff the name is valid and nobody has it. */
  lemma AdminGetsName(s: State, c: CallId)
    requires c in s.calls && s.calls[c].pc.AdminStart?
    ensures CallEnabled(s, c, AdminReserve)
    ensures var t, name := CallApply(s, c, AdminReserve), s.calls[c].database;
      if ValidName(name) && name !in s.reserved
      then t.calls[c].pc == AdminRunning && t.reserved == s.reserved + {name}
      else t.calls[c].pc == AdminOver && t.reserved == s.reserved
  {
    hide ValidName;
  }

  /** ... and gives it back when the server has answered. */
  lemma AdminReturns(s: State, c: CallId)
    requires c in s.calls && s.calls[c].pc.AdminRunning?
    ensures CallEnabled(s, c, AdminFinish)
    ensures var t := CallApply(s, c, AdminFinish);
      && t.calls[c].pc == AdminOver && s.calls[c].database !in t.reserved
      && t == s.(calls := t.calls, reserved := s.reserved - {s.calls[c].database}) && t.calls - {c} == s.calls - {c}
  {
  }

  /** A shutdown can always close admission and then raise the stop flag, and does nothing else. */
  lemma ShutdownTells(s: State)
    ensures OtherEnabled(s, StopAdmission) && OtherApply(s, StopAdmission) == s.(accepting := false)
    ensures !s.accepting ==> OtherEnabled(s, RaiseStop) && OtherApply(s, RaiseStop) == s.(stop := true)
  {
  }

  /** A worker that could build its backend runs a call on it while it serves a job; one that could not serves
      all the same, without such a call. */
  lemma ServesOnItsBackend(s: State, ok: bool)
    requires s.worker.Building?
    ensures WorkEnabled(s, Build(ok))
    ensures var t := WorkApply(s, Build(ok));
      && t == s.(worker := Checking, backendUp := ok)
      && forall c :: BackendBusy(t.(worker := Serving(c))) <==> ok
  {
    assert forall c :: BackendBusy(s.(backendUp := ok, worker := Serving(c))) <==> ok;
  }
}
