/** Sessions and transactions against the clock: the answers a session id gets over a whole history, and
    when an idle transaction is reaped. Resolving an id is one step; the reaper reads the clock once per
    pass and then looks at sessions, and removes expired ones, in separate steps. */
module Lifetimes {
  import opened Prelude
  import opened Upstream
  import opened Kernel
  import opened Store
  import Runs

  datatype Config = Config(ttl: Time, timeouts: Timeouts)

  /** What is remembered of a history, for the statements below only. */
  datatype Event =
    | Started(id: SessionId, at: Time)
    | Resolved(id: SessionId, at: Time, error: Option<ResolveError>)
    | Removed(id: SessionId)
    | Released(id: SessionId, tx: OpenTx)

  /** `doomed` are the sessions the reaper has seen expired and not removed yet; `purged` those out of the
      store whose transaction their purger, a resolve or the reaper, has still to release. */
  datatype State = State(
    clock: Time, passTime: Time, store: map<SessionId, Session>, doomed: set<SessionId>,
    purged: map<SessionId, Session>, log: seq<Event>)

  datatype Action =
    | Wait(to: Time) | Start(id: SessionId) | Resolve(id: SessionId) | UseSlot(id: SessionId, tx: Option<OpenTx>)
    | BeginPass | Peek(id: SessionId) | Remove(id: SessionId) | Visit(id: SessionId) | Release(id: SessionId)

  /** What a tool may do to a slot: empty it, leave it, or leave in it a transaction used just now. */
  predicate Stamped(before: Option<OpenTx>, after: Option<OpenTx>, now: Time) {
    after.None? || after == before || after.value.lastActivity == now
  }

  function TimeOf(work: Runs.Work): Option<Time> {
    match work
    case OpenAny(_, _, _, now, _) => Some(now)
    case RunQuery(now, _, _) => Some(now)
    case CheckpointWork(now, _, _) => Some(now)
    case CurrentWork(now, _, _) => Some(now)
    case _ => None
  }

  /** Every section of every tool does one of these, and a query that keeps its transaction stamps it even
      when it fails. */
  lemma SectionsStamp(s: Session, u: Server, work: Runs.Work, now: Time)
    requires TimeOf(work) == None || TimeOf(work) == Some(now)
    ensures var after := Runs.WorkOutcome(s, u, work).session.tx;
      && Stamped(s.tx, after, now)
      && ((work.RunQuery? || work.CurrentWork?) && after.Some? ==> after.value.lastActivity == now)
  {
    hide Upstream.Query, Upstream.Commit, Upstream.Begin, RunQueries, ReleaseTx, Drop;
    match work {
      case OpenAny(_, _, _, _, _) =>
      case RunQuery(_, _, _) =>
      case CommitWork(_) =>
      case CheckpointWork(_, _, _) =>
      case RollbackWork =>
      case ReadWork(_, _, _, _) =>
      case CurrentWork(_, _, _) =>
    }
  }

  predicate Enabled(s: State, a: Action) {
    match a
    case Wait(to) => s.clock <= to
    case Start(id) => !StartedIn(s.log, id)
    case Resolve(_) => true
    case UseSlot(id, tx) =>
      if id in s.store then Stamped(s.store[id].tx, tx, s.clock)
      else id in s.purged && Stamped(s.purged[id].tx, tx, s.clock)
    case BeginPass => true
    case Peek(id) => id in s.store && s.store[id].expiresAt <= s.passTime
    case Remove(id) => id in s.doomed
    case Visit(id) => id in s.store && s.passTime < s.store[id].expiresAt
    case Release(id) => id in s.purged
  }

  function Answer(s: State, id: SessionId): Option<ResolveError> {
    if id !in s.store then Some(Unknown) else if s.store[id].expiresAt <= s.clock then Some(Expired) else None
  }

  function Note(s: State, e: Event): State {
    s.(log := s.log + [e])
  }

  /** The session leaves the store, with what it holds. */
  function PurgeFrom(s: State, id: SessionId): State
    requires id in s.store
  {
    s.(store := s.store - {id}, purged := s.purged[id := s.store[id]])
  }

  function Apply(c: Config, s: State, a: Action): State
    requires Enabled(s, a)
  {
    match a
    case Wait(to) => s.(clock := to)
    case Start(id) => Note(s.(store := s.store[id := Session({}, None, s.clock + c.ttl)]), Started(id, s.clock))
    case Resolve(id) =>
      var answer := Answer(s, id);
      var t :=
        if answer == Some(Expired) then PurgeFrom(s, id)
        else if answer == None then s.(store := s.store[id := s.store[id].(expiresAt := s.clock + c.ttl)])
        else s;
      Note(t, Resolved(id, s.clock, answer))
    case UseSlot(id, tx) =>
      if id in s.store then s.(store := s.store[id := s.store[id].(tx := tx)])
      else s.(purged := s.purged[id := s.purged[id].(tx := tx)])
    case BeginPass => s.(passTime := s.clock)
    case Peek(id) => s.(doomed := s.doomed + {id})
    case Remove(id) =>
      var t := s.(doomed := s.doomed - {id});
      if id in s.store then Note(PurgeFrom(t, id), Removed(id)) else t
    case Visit(id) =>
      if !Idle(s.store[id], s.passTime, c.timeouts) then s
      else Note(s.(store := s.store[id := s.store[id].(tx := None)]), Released(id, s.store[id].tx.value))
    case Release(id) =>
      var t := s.(purged := s.purged - {id});
      if s.purged[id].tx.Some? then Note(t, Released(id, s.purged[id].tx.value)) else t
  }

  // ---- what a history says about a session id -----------------------------------------------------

  predicate StartedIn(log: seq<Event>, id: SessionId) {
    exists i :: 0 <= i < |log| && log[i].Started? && log[i].id == id
  }

  predicate Purge(e: Event, id: SessionId) {
    e.id == id && (e.Removed? || (e.Resolved? && e.error == Some(Expired)))
  }

  predicate PurgedIn(log: seq<Event>, id: SessionId) {
    exists i :: 0 <= i < |log| && Purge(log[i], id)
  }

  predicate Touches(e: Event, id: SessionId) {
    e.id == id && (e.Started? || (e.Resolved? && e.error == None))
  }

  /** When the id was last started or successfully resolved. */
  function LastTouch(log: seq<Event>, id: SessionId): Option<Time> {
    if log == [] then None
    else
      var e := log[|log| - 1];
      if Touches(e, id) then Some(e.at) else LastTouch(log[..|log| - 1], id)
  }

  /** The id names a live session at time `now`. */
  predicate Alive(c: Config, log: seq<Event>, id: SessionId, now: Time) {
    StartedIn(log, id) && !PurgedIn(log, id) && LastTouch(log, id).Some? && now < LastTouch(log, id).value + c.ttl
  }

  ghost predicate StoreOk(c: Config, s: State) {
    && (forall id :: id in s.store <==> StartedIn(s.log, id) && !PurgedIn(s.log, id))
    && (forall id :: PurgedIn(s.log, id) ==> StartedIn(s.log, id))
    && (forall id :: id in s.store ==>
          LastTouch(s.log, id).Some? && s.store[id].expiresAt == LastTouch(s.log, id).value + c.ttl)
  }

  ghost predicate ReaperOk(s: State) {
    && s.passTime <= s.clock
    && (forall id :: id in s.doomed ==> StartedIn(s.log, id))
    && (forall id :: id in s.doomed && id in s.store ==> s.store[id].expiresAt <= s.passTime)
    && (forall id :: id in s.store && s.store[id].tx.Some? ==> s.store[id].tx.value.lastActivity <= s.clock)
  }

  ghost predicate Inv(c: Config, s: State) {
    StoreOk(c, s) && ReaperOk(s)
  }

  lemma Noted(log: seq<Event>, e: Event, id: SessionId)
    ensures StartedIn(log + [e], id) <==> StartedIn(log, id) || (e.Started? && e.id == id)
    ensures PurgedIn(log + [e], id) <==> PurgedIn(log, id) || Purge(e, id)
    ensures LastTouch(log + [e], id) == if Touches(e, id) then Some(e.at) else LastTouch(log, id)
  {
    var after := log + [e];
    assert after[..|log|] == log;
    assert forall i :: 0 <= i < |log| ==> after[i] == log[i];
    assert after[|log|] == e;
  }

  lemma NotedAll(log: seq<Event>, e: Event)
    ensures forall id :: StartedIn(log + [e], id) <==> StartedIn(log, id) || (e.Started? && e.id == id)
    ensures forall id :: PurgedIn(log + [e], id) <==> PurgedIn(log, id) || Purge(e, id)
    ensures forall id :: LastTouch(log + [e], id) == if Touches(e, id) then Some(e.at) else LastTouch(log, id)
  {
    forall id {
      Noted(log, e, id);
    }
  }

  lemma StartKeeps(c: Config, s: State, id: SessionId)
    requires Inv(c, s) && Enabled(s, Start(id))
    ensures Inv(c, Apply(c, s, Start(id)))
  {
    NotedAll(s.log, Started(id, s.clock));
    hide StartedIn, PurgedIn, LastTouch;
  }

  lemma ResolveKeeps(c: Config, s: State, id: SessionId)
    requires Inv(c, s)
    ensures Inv(c, Apply(c, s, Resolve(id)))
  {
    NotedAll(s.log, Resolved(id, s.clock, Answer(s, id)));
    hide StartedIn, PurgedIn, LastTouch;
  }

  lemma RemoveKeeps(c: Config, s: State, id: SessionId)
    requires Inv(c, s) && Enabled(s, Remove(id))
    ensures Inv(c, Apply(c, s, Remove(id)))
  {
    NotedAll(s.log, Removed(id));
    hide StartedIn, PurgedIn, LastTouch;
  }

  lemma VisitKeeps(c: Config, s: State, id: SessionId)
    requires Inv(c, s) && Enabled(s, Visit(id))
    ensures Inv(c, Apply(c, s, Visit(id)))
  {
    if s.store[id].tx.Some? {
      NotedAll(s.log, Released(id, s.store[id].tx.value));
    }
    hide StartedIn, PurgedIn, LastTouch;
  }

  lemma ReleaseKeeps(c: Config, s: State, id: SessionId)
    requires Inv(c, s) && Enabled(s, Release(id))
    ensures Inv(c, Apply(c, s, Release(id)))
  {
    if s.purged[id].tx.Some? {
      NotedAll(s.log, Released(id, s.purged[id].tx.value));
    }
    hide StartedIn, PurgedIn, LastTouch;
  }

  lemma QuietKeeps(c: Config, s: State, a: Action)
    requires Inv(c, s) && Enabled(s, a) && !a.Start? && !a.Resolve? && !a.Remove? && !a.Visit? && !a.Release?
    ensures Inv(c, Apply(c, s, a))
  {
    hide StartedIn, PurgedIn, LastTouch, Idle;
  }

  lemma ClockForward(c: Config, s: State, a: Action)
    requires Enabled(s, a)
    ensures s.log <= Apply(c, s, a).log && s.clock <= Apply(c, s, a).clock
  {
    hide StartedIn, Idle, Answer;
  }

  lemma StepKeepsInv(c: Config, s: State, a: Action)
    requires Inv(c, s) && Enabled(s, a)
    ensures Inv(c, Apply(c, s, a)) && s.log <= Apply(c, s, a).log && s.clock <= Apply(c, s, a).clock
  {
    hide Inv, Apply;
    ClockForward(c, s, a);
    match a {
      case Start(id) => StartKeeps(c, s, id);
      case Resolve(id) => ResolveKeeps(c, s, id);
      case Remove(id) => RemoveKeeps(c, s, id);
      case Visit(id) => VisitKeeps(c, s, id);
      case Release(id) => ReleaseKeeps(c, s, id);
      case _ => QuietKeeps(c, s, a);
    }
  }

  // ---- whole histories -------------------------------------------------------------------------------

  const START := State(0, 0, map[], {}, map[], [])

  predicate Steps(c: Config, s: State, a: Action, t: State) {
    Enabled(s, a) && t == Apply(c, s, a)
  }

  predicate IsHistory(c: Config, states: seq<State>, actions: seq<Action>) {
    && |states| == |actions| + 1 && states[0] == START
    && forall i :: 0 <= i < |actions| ==> Steps(c, states[i], actions[i], states[i + 1])
  }

  lemma {:induction false} InvAlong(c: Config, states: seq<State>, actions: seq<Action>, i: nat)
    requires IsHistory(c, states, actions) && i < |states|
    ensures Inv(c, states[i])
  {
    if i > 0 {
      InvAlong(c, states, actions, i - 1);
      hide Inv, Apply, Enabled;
      assert Steps(c, states[i - 1], actions[i - 1], states[i - 1 + 1]);
      StepKeepsInv(c, states[i - 1], actions[i - 1]);
    }
  }

  lemma {:induction false} LogGrows(c: Config, states: seq<State>, actions: seq<Action>, i: nat, j: nat)
    requires IsHistory(c, states, actions) && i <= j < |states|
    ensures states[i].log <= states[j].log
    decreases j
  {
    hide Inv, Apply, Enabled;
    if i < j {
      LogGrows(c, states, actions, i, j - 1);
      InvAlong(c, states, actions, j - 1);
      assert Steps(c, states[j - 1], actions[j - 1], states[j - 1 + 1]);
      StepKeepsInv(c, states[j - 1], actions[j - 1]);
    }
  }

  /** The answer to the resolve made in step i. */
  function AnswerAt(states: seq<State>, actions: seq<Action>, i: nat): Option<ResolveError>
    requires i < |actions| && i < |states| && actions[i].Resolve?
  {
    Answer(states[i], actions[i].id)
  }

  /** A resolve at time t succeeds exactly when the id was started, has not been purged, and t is before the
      last successful touch plus the time to live. It is Expired when only the last of these fails. */
  lemma ResolveDecides(c: Config, states: seq<State>, actions: seq<Action>, i: nat)
    requires IsHistory(c, states, actions) && i < |actions| && actions[i].Resolve?
    ensures var id, log, now, answer := actions[i].id, states[i].log, states[i].clock, AnswerAt(states, actions, i);
      && (answer == None <==> Alive(c, log, id, now))
      && (answer == Some(Expired) <==> StartedIn(log, id) && !PurgedIn(log, id) && !Alive(c, log, id, now))
      && (answer == Some(Unknown) <==> !StartedIn(log, id) || PurgedIn(log, id))
      && states[i + 1].log == log + [Resolved(id, now, answer)]
  {
    InvAlong(c, states, actions, i);
    assert Steps(c, states[i], actions[i], states[i + 1]);
    hide StartedIn, PurgedIn, LastTouch;
  }

  lemma PurgedForGood(log: seq<Event>, more: seq<Event>, id: SessionId)
    requires log <= more && PurgedIn(log, id)
    ensures PurgedIn(more, id)
  {
    var i :| 0 <= i < |log| && Purge(log[i], id);
    assert more[i] == log[i];
  }

  /** Expired is said once: every later resolve of the id says Unknown. */
  lemma ExpiredOnce(c: Config, states: seq<State>, actions: seq<Action>, i: nat, j: nat)
    requires IsHistory(c, states, actions) && i < j < |actions|
    requires actions[i].Resolve? && actions[j].Resolve? && actions[i].id == actions[j].id
    requires AnswerAt(states, actions, i) == Some(Expired)
    ensures AnswerAt(states, actions, j) == Some(Unknown)
  {
    var id, log, e := actions[i].id, states[i].log, Resolved(actions[i].id, states[i].clock, Some(Expired));
    ResolveDecides(c, states, actions, i);
    Noted(log, e, id);
    LogGrows(c, states, actions, i + 1, j);
    PurgedForGood(log + [e], states[j].log, id);
    ResolveDecides(c, states, actions, j);
  }

  /** A purged id never resolves again, whoever purged it. */
  lemma PurgedStaysUnknown(c: Config, states: seq<State>, actions: seq<Action>, i: nat, j: nat, id: SessionId)
    requires IsHistory(c, states, actions) && i <= j < |actions| && actions[j] == Resolve(id)
    requires PurgedIn(states[i].log, id)
    ensures AnswerAt(states, actions, j) == Some(Unknown)
  {
    LogGrows(c, states, actions, i, j);
    PurgedForGood(states[i].log, states[j].log, id);
    ResolveDecides(c, states, actions, j);
  }

  /** The reaper never removes a session that could still be resolved. */
  lemma OnlyExpiredRemoved(c: Config, states: seq<State>, actions: seq<Action>, i: nat, id: SessionId)
    requires IsHistory(c, states, actions) && i < |actions| && actions[i] == Remove(id)
    ensures !Alive(c, states[i].log, id, states[i].clock)
  {
    InvAlong(c, states, actions, i);
    assert Steps(c, states[i], actions[i], states[i + 1]);
    hide StartedIn, PurgedIn, LastTouch;
  }

  /** The reaper never empties a slot before the idle timeout of the transaction's own kind. */
  lemma NeverReapedEarly(c: Config, states: seq<State>, actions: seq<Action>, i: nat, id: SessionId)
    requires IsHistory(c, states, actions) && i < |actions| && actions[i] == Visit(id)
    requires id in states[i].store && states[i].store[id].tx.Some?
    requires id !in states[i + 1].store || states[i + 1].store[id].tx != states[i].store[id].tx
    ensures var tx := states[i].store[id].tx.value;
      && tx.lastActivity <= states[i].clock
      && states[i].clock - tx.lastActivity >= IdleTimeout(c.timeouts, tx.kind)
      && (tx.kind.Read? ==> states[i].clock - tx.lastActivity >= c.timeouts.read)
      && (tx.kind.Write? ==> states[i].clock - tx.lastActivity >= c.timeouts.write)
      && (tx.kind.Schema? ==> states[i].clock - tx.lastActivity >= c.timeouts.schema)
  {
    InvAlong(c, states, actions, i);
    assert Steps(c, states[i], actions[i], states[i + 1]);
    hide StartedIn, PurgedIn, LastTouch;
  }

  // ---- what a purged session held --------------------------------------------------------------------

  /** The transactions released for a session, in order. */
  function Releases(log: seq<Event>, id: SessionId): seq<OpenTx> {
    if log == [] then []
    else
      var e := log[|log| - 1];
      Releases(log[..|log| - 1], id) + if e.Released? && e.id == id then [e.tx] else []
  }

  lemma NotedReleases(log: seq<Event>, e: Event, id: SessionId)
    ensures Releases(log + [e], id) ==
            if e.Released? && e.id == id then Releases(log, id) + [e.tx] else Releases(log, id)
  {
    assert (log + [e])[..|log|] == log;
    assert Releases(log, id) + [] == Releases(log, id);
  }

  /** The purger still owes the release of `tx`, or it has released it: once, and nothing else. */
  ghost predicate OwedOrReleased(s: State, id: SessionId, tx: OpenTx, before: seq<OpenTx>) {
    if id in s.purged then s.purged[id].tx == Some(tx) && Releases(s.log, id) == before
    else Releases(s.log, id) == before + [tx]
  }

  lemma StepKeepsDebt(c: Config, s: State, a: Action, id: SessionId, tx: OpenTx, before: seq<OpenTx>)
    requires Inv(c, s) && Enabled(s, a) && PurgedIn(s.log, id) && OwedOrReleased(s, id, tx, before)
    requires a.UseSlot? ==> a.id != id
    ensures OwedOrReleased(Apply(c, s, a), id, tx, before)
    ensures id in s.purged && id !in Apply(c, s, a).purged ==> a == Release(id)
  {
    assert StartedIn(s.log, id) && id !in s.store;
    var t := Apply(c, s, a);
    if |t.log| > |s.log| {
      NotedReleases(s.log, t.log[|s.log|], id);
      assert t.log == s.log + [t.log[|s.log|]];
    }
    hide StartedIn, PurgedIn, LastTouch, StoreOk, ReaperOk, Releases, Idle;
  }

  /** A session that leaves the store with an open transaction, by an expired resolve or by the reaper: unless
      a call that still refers to it uses the slot first, its transaction is released once, by that purger,
      and until then the purger still holds it. */
  lemma {:induction false} PurgeReleasesOnce(c: Config, states: seq<State>, actions: seq<Action>, i: nat, j: nat,
                                             id: SessionId)
    requires IsHistory(c, states, actions) && i < j < |states|
    requires id in states[i].store && id !in states[i + 1].store && states[i].store[id].tx.Some?
    requires forall k :: i < k < j && actions[k].UseSlot? ==> actions[k].id != id
    ensures PurgedIn(states[j].log, id)
    ensures OwedOrReleased(states[j], id, states[i].store[id].tx.value, Releases(states[i].log, id))
    ensures id in states[j].purged ==> Enabled(states[j], Release(id))
    decreases j
  {
    hide Inv, Apply, Stamped, StartedIn, PurgedIn, LastTouch, Releases, OwedOrReleased;
    var tx, before, p := states[i].store[id].tx.value, Releases(states[i].log, id), j - 1;
    InvAlong(c, states, actions, p);
    assert Steps(c, states[p], actions[p], states[p + 1]);
    if p == i {
      PurgeStep(c, states[i], actions[i], id);
    } else {
      PurgeReleasesOnce(c, states, actions, i, p, id);
      StepKeepsDebt(c, states[p], actions[p], id, tx, before);
      StepKeepsInv(c, states[p], actions[p]);
      PurgedForGood(states[p].log, states[j].log, id);
    }
  }

  lemma PurgeStep(c: Config, s: State, a: Action, id: SessionId)
    requires Inv(c, s) && Enabled(s, a) && id in s.store && id !in Apply(c, s, a).store && s.store[id].tx.Some?
    ensures var t := Apply(c, s, a);
      PurgedIn(t.log, id) && OwedOrReleased(t, id, s.store[id].tx.value, Releases(s.log, id))
  {
    var t := Apply(c, s, a);
    assert (a.Resolve? || a.Remove?) && a.id == id;
    var e := t.log[|s.log|];
    assert t.log == s.log + [e];
    Noted(s.log, e, id);
    NotedReleases(s.log, e, id);
    hide StartedIn, PurgedIn, LastTouch, StoreOk, ReaperOk, Releases, Idle;
  }

  // ---- how late a transaction can be reaped ----------------------------------------------------------

  const SECOND: Time := 1_000_000_000
  const SHORTEST_TICK: Time := 5 * SECOND

  function MinIdle(t: Timeouts): Time {
    var least := if t.read <= t.write then t.read else t.write;
    if least <= t.schema then least else t.schema
  }

  /** How long the reaper sleeps between passes. */
  function Tick(t: Timeouts): Time {
    if MinIdle(t) / 4 >= SHORTEST_TICK then MinIdle(t) / 4 else SHORTEST_TICK
  }

  /** At least five seconds, and otherwise a quarter of the shortest timeout. */
  lemma TickTells(t: Timeouts)
    ensures Tick(t) >= 5_000_000_000
    ensures Tick(t) > 5_000_000_000 ==> 4 * Tick(t) <= t.read && 4 * Tick(t) <= t.write && 4 * Tick(t) <= t.schema
    ensures t.read < 4 * Tick(t) + 4 || t.write < 4 * Tick(t) + 4 || t.schema < 4 * Tick(t) + 4
  {
  }

  function Deadline(tx: OpenTx, t: Timeouts): Time {
    tx.lastActivity + IdleTimeout(t, tx.kind)
  }

  /** A pass that read the clock at `passTime` takes the transaction away. */
  predicate Due(tx: OpenTx, passTime: Time, t: Timeouts) {
    Since(passTime, tx.lastActivity) >= IdleTimeout(t, tx.kind)
  }

  predicate VisitAt(actions: seq<Action>, i: nat, j: nat, k: nat, id: SessionId) {
    i <= k < j <= |actions| && actions[k] == Visit(id)
  }

  /** No tool uses the session's slot in steps i to j. */
  ghost predicate Unused(actions: seq<Action>, i: nat, j: nat, id: SessionId) {
    forall k :: i <= k < j <= |actions| && actions[k].UseSlot? ==> actions[k].id != id
  }

  /** The reaper gets the session's lock in some pass at most a tick after the transaction's last use, and
      then, as long as the transaction is not due, again in a pass at most a tick after the one before. */
  ghost predicate Paced(states: seq<State>, actions: seq<Action>, i: nat, j: nat, id: SessionId, tx: OpenTx,
                        t: Timeouts)
    requires j <= |actions| < |states|
  {
    && (exists m: nat :: VisitAt(actions, i, j, m, id) && states[m].passTime <= tx.lastActivity + Tick(t))
    && (forall k: nat :: VisitAt(actions, i, j, k, id) && !Due(tx, states[k].passTime, t) ==>
          exists m: nat :: k < m && VisitAt(actions, i, j, m, id) && states[m].passTime <= states[k].passTime + Tick(t))
  }

  lemma {:induction false} PassTimeForward(c: Config, states: seq<State>, actions: seq<Action>, i: nat, j: nat)
    requires IsHistory(c, states, actions) && i <= j < |states|
    ensures states[i].passTime <= states[j].passTime
    decreases j
  {
    hide StoreOk;
    if i < j {
      PassTimeForward(c, states, actions, i, j - 1);
      InvAlong(c, states, actions, j - 1);
      assert Steps(c, states[j - 1], actions[j - 1], states[j - 1 + 1]);
      hide Idle, StartedIn, Answer;
    }
  }

  /** A session in the store now and later was there all along. */
  lemma StaysInStore(c: Config, states: seq<State>, actions: seq<Action>, i: nat, k: nat, j: nat, id: SessionId)
    requires IsHistory(c, states, actions) && i <= k <= j < |states| && id in states[i].store && id in states[j].store
    ensures id in states[k].store
  {
    InvAlong(c, states, actions, i);
    InvAlong(c, states, actions, k);
    InvAlong(c, states, actions, j);
    LogGrows(c, states, actions, i, k);
    LogGrows(c, states, actions, k, j);
    StartedForGood(states[i].log, states[k].log, id);
    if PurgedIn(states[k].log, id) {
      PurgedForGood(states[k].log, states[j].log, id);
    }
    hide StartedIn, PurgedIn, LastTouch, IsHistory;
  }

  lemma StartedForGood(log: seq<Event>, more: seq<Event>, id: SessionId)
    requires log <= more && StartedIn(log, id)
    ensures StartedIn(more, id)
  {
    var i :| 0 <= i < |log| && log[i].Started? && log[i].id == id;
    assert more[i] == log[i];
  }

  lemma StepKeepsSlot(c: Config, s: State, a: Action, id: SessionId, tx: OpenTx)
    requires Inv(c, s) && Enabled(s, a) && id in s.store && s.store[id].tx == Some(tx) && id in Apply(c, s, a).store
    requires a.UseSlot? ==> a.id != id
    requires a == Visit(id) ==> !Due(tx, s.passTime, c.timeouts)
    ensures Apply(c, s, a).store[id].tx == Some(tx)
  {
    hide StartedIn, PurgedIn, LastTouch;
  }

  /** Until a visit that finds it due, an unused transaction stays where it is. */
  lemma {:induction false} SlotKept(c: Config, states: seq<State>, actions: seq<Action>, i: nat, k: nat, j: nat,
                                    id: SessionId, tx: OpenTx)
    requires IsHistory(c, states, actions) && i <= k <= j <= |actions| && Unused(actions, i, j, id)
    requires id in states[i].store && states[i].store[id].tx == Some(tx) && id in states[j].store
    requires forall m: nat :: VisitAt(actions, i, k, m, id) ==> !Due(tx, states[m].passTime, c.timeouts)
    ensures id in states[k].store && states[k].store[id].tx == Some(tx)
    decreases k
  {
    hide Inv, Apply, Enabled, Due;
    StaysInStore(c, states, actions, i, k, j, id);
    if i < k {
      assert forall m: nat :: VisitAt(actions, i, k - 1, m, id) ==> VisitAt(actions, i, k, m, id);
      SlotKept(c, states, actions, i, k - 1, j, id, tx);
      InvAlong(c, states, actions, k - 1);
      assert Steps(c, states[k - 1], actions[k - 1], states[k - 1 + 1]);
      assert actions[k - 1] == Visit(id) ==> VisitAt(actions, i, k, k - 1, id);
      StepKeepsSlot(c, states[k - 1], actions[k - 1], id, tx);
    }
  }

  /** The first visit that finds the transaction due, given that none before step `from` does and that a
      visit from there on belongs to a pass no later than `bound`. */
  lemma {:induction false} FirstDue(c: Config, states: seq<State>, actions: seq<Action>, i: nat, from: nat, j: nat,
                                    id: SessionId, tx: OpenTx, next: nat, bound: Time)
    returns (k: nat)
    requires IsHistory(c, states, actions) && i <= from <= j <= |actions|
    requires Paced(states, actions, i, j, id, tx, c.timeouts)
    requires forall m: nat :: VisitAt(actions, i, from, m, id) ==> !Due(tx, states[m].passTime, c.timeouts)
    requires from <= next && VisitAt(actions, i, j, next, id) && states[next].passTime <= bound
    requires bound <= Deadline(tx, c.timeouts) + Tick(c.timeouts)
    requires IdleTimeout(c.timeouts, tx.kind) > 0 ==> bound < Deadline(tx, c.timeouts) + Tick(c.timeouts)
    ensures VisitAt(actions, i, j, k, id) && Due(tx, states[k].passTime, c.timeouts)
    ensures forall m: nat :: VisitAt(actions, i, k, m, id) ==> !Due(tx, states[m].passTime, c.timeouts)
    ensures states[k].passTime <= Deadline(tx, c.timeouts) + Tick(c.timeouts)
    ensures IdleTimeout(c.timeouts, tx.kind) > 0 ==> states[k].passTime < Deadline(tx, c.timeouts) + Tick(c.timeouts)
    decreases j - from
  {
    hide Tick;
    if actions[from] == Visit(id) && Due(tx, states[from].passTime, c.timeouts) {
      k := from;
      PassTimeForward(c, states, actions, from, next);
    } else {
      assert forall m: nat :: VisitAt(actions, i, from + 1, m, id) ==> VisitAt(actions, i, from, m, id) || m == from;
      var later, limit := next, bound;
      if actions[from] == Visit(id) {
        assert VisitAt(actions, i, j, from, id);
        var m: nat :| from < m && VisitAt(actions, i, j, m, id) &&
          states[m].passTime <= states[from].passTime + Tick(c.timeouts);
        later, limit := m, states[from].passTime + Tick(c.timeouts);
      }
      k := FirstDue(c, states, actions, i, from + 1, j, id, tx, later, limit);
    }
  }

  /** An idle transaction of a session that lives on is reaped: by the first visit of a pass at or after its
      deadline, less than a tick after the deadline; and when every timeout is at least 20 s, at an age of at
      most five quarters of its own timeout. */
  lemma ReapedInTime(c: Config, states: seq<State>, actions: seq<Action>, i: nat, j: nat, id: SessionId)
    returns (k: nat)
    requires IsHistory(c, states, actions) && i <= j <= |actions| && Unused(actions, i, j, id)
    requires id in states[i].store && states[i].store[id].tx.Some? && id in states[j].store
    requires Paced(states, actions, i, j, id, states[i].store[id].tx.value, c.timeouts)
    ensures VisitAt(actions, i, j, k, id)
    ensures id in states[k].store && states[k].store[id].tx == states[i].store[id].tx
    ensures id in states[k + 1].store && states[k + 1].store[id].tx == None
    ensures states[k + 1].log == states[k].log + [Released(id, states[i].store[id].tx.value)]
    ensures var tx, t, at := states[i].store[id].tx.value, c.timeouts, states[k].passTime;
      && (IdleTimeout(t, tx.kind) > 0 ==> Deadline(tx, t) <= at < Deadline(tx, t) + Tick(t))
      && (forall m: nat :: VisitAt(actions, i, k, m, id) ==> states[m].passTime < Deadline(tx, t))
      && (MinIdle(t) >= 20 * SECOND ==> 4 * (at - tx.lastActivity) <= 5 * IdleTimeout(t, tx.kind))
      && (tx.kind.Read? && t.read > 0 ==> tx.lastActivity + t.read <= at < tx.lastActivity + t.read + Tick(t))
      && (tx.kind.Write? && t.write > 0 ==> tx.lastActivity + t.write <= at < tx.lastActivity + t.write + Tick(t))
      && (tx.kind.Schema? && t.schema > 0 ==> tx.lastActivity + t.schema <= at < tx.lastActivity + t.schema + Tick(t))
  {
    var tx := states[i].store[id].tx.value;
    var m: nat :| VisitAt(actions, i, j, m, id) && states[m].passTime <= tx.lastActivity + Tick(c.timeouts);
    k := FirstDue(c, states, actions, i, i, j, id, tx, m, tx.lastActivity + Tick(c.timeouts));
    SlotKept(c, states, actions, i, k, j, id, tx);
    assert Steps(c, states[k], actions[k], states[k + 1]);
    hide IsHistory, Paced, Unused;
  }

  // ---- one uninterrupted pass ------------------------------------------------------------------------

  /** What the reaper does with one session: it removes it if it has expired, and visits it otherwise. */
  function PassOne(c: Config, s: State, id: SessionId): State {
    if id !in s.store then s
    else if s.store[id].expiresAt <= s.passTime then Apply(c, Apply(c, s, Peek(id)), Remove(id))
    else Apply(c, s, Visit(id))
  }

  function PassOver(c: Config, s: State, ids: seq<SessionId>): State
    decreases |ids|
  {
    if ids == [] then s else PassOver(c, PassOne(c, s, ids[0]), ids[1..])
  }

  lemma PassOneReaps(c: Config, s: State, id: SessionId)
    requires id in s.store
    ensures var t, left := PassOne(c, s, id), Reaped(s.store[id], s.passTime, c.timeouts);
      && t.passTime == s.passTime && t.store == if left.Some? then s.store[id := left.value] else s.store - {id}
  {
  }

  lemma {:induction false} PassOverReaps(c: Config, s: State, ids: seq<SessionId>)
    requires (forall i, j :: 0 <= i < j < |ids| ==> ids[i] != ids[j]) && forall id :: id in ids ==> id in s.store
    ensures var t := PassOver(c, s, ids);
      && t.store.Keys <= s.store.Keys
      && (forall id :: id in s.store && id !in ids ==> id in t.store && t.store[id] == s.store[id])
      && (forall id :: id in ids ==>
            var left := Reaped(s.store[id], s.passTime, c.timeouts);
            (id in t.store <==> left.Some?) && (id in t.store ==> t.store[id] == left.value))
    decreases |ids|
  {
    hide PassOne, Reaped;
    if ids != [] {
      PassOneReaps(c, s, ids[0]);
      assert forall id :: id in ids <==> id == ids[0] || id in ids[1..];
      PassOverReaps(c, PassOne(c, s, ids[0]), ids[1..]);
    }
  }

  /** The reaper's steps over the sessions it gets the lock of amount to one pass of the store. */
  lemma PassIsSteps(c: Config, s: State, ids: seq<SessionId>, contended: set<SessionId>)
    requires forall i, j :: 0 <= i < j < |ids| ==> ids[i] != ids[j]
    requires forall id :: id in ids <==> id in s.store && id !in contended
    ensures PassOver(c, s, ids).store == PassViews(s.store, s.passTime, c.timeouts, contended)
  {
    PassOverReaps(c, s, ids);
    hide PassOver, Reaped;
    PassViewsAre(s.store, PassOver(c, s, ids).store, s.passTime, c.timeouts, contended);
  }
}
