/** The store of live sessions, and one pass of the reaper over it. */
module Store {
  import opened Prelude
  import opened Upstream
  import opened Kernel

  type SessionId = string

  datatype ResolveError = Unknown | Expired

  /** Idle timeouts by transaction kind, in nanoseconds like every time here. */
  datatype Timeouts = Timeouts(read: Time, write: Time, schema: Time)

  function IdleTimeout(t: Timeouts, kind: TxKind): Time {
    match kind
    case Read => t.read
    case Write => t.write
    case Schema => t.schema
  }

  /** `Instant::duration_since`: never negative. */
  function Since(now: Time, earlier: Time): Time {
    if now >= earlier then now - earlier else 0
  }

  /** The reaper's test on a session that has not expired. */
  predicate Idle(s: Session, now: Time, t: Timeouts) {
    s.tx.Some? && Since(now, s.tx.value.lastActivity) >= IdleTimeout(t, s.tx.value.kind)
  }

  function Ungated(s: Session, database: string): Session {
    s.(schemaSeen := s.schemaSeen - {database})
  }

  /** Every session but one loses its gate for a database. */
  function Invalidate(views: map<SessionId, Session>, database: string, except: Option<SessionId>)
    : map<SessionId, Session>
  {
    map id | id in views :: if except == Some(id) then views[id] else Ungated(views[id], database)
  }

  /** The sessions are the same, the excepted one as it was, and the others without that gate and with
      everything else they had. */
  lemma InvalidateTells(views: map<SessionId, Session>, database: string, except: Option<SessionId>)
    ensures var after := Invalidate(views, database, except);
      && after.Keys == views.Keys
      && forall id :: id in views ==>
           && after[id].tx == views[id].tx && after[id].expiresAt == views[id].expiresAt
           && (forall d :: d != database ==> (d in after[id].schemaSeen <==> d in views[id].schemaSeen))
           && (database in after[id].schemaSeen <==> except == Some(id) && database in views[id].schemaSeen)
  {
  }

  /** Some session has a transaction open on the database. */
  predicate OpenIn(views: map<SessionId, Session>, database: string) {
    exists id :: id in views && views[id].tx.Some? && views[id].tx.value.database == database
  }

  function ReleaseAll(u: Server, ts: seq<Transaction>): Server {
    if ts == [] then u else ReleaseTx(ReleaseAll(u, ts[..|ts| - 1]), ts[|ts| - 1])
  }

  function ReleaseCall(t: Transaction): WireOp {
    if t.kind.Read? then ClosedTx(t.id) else RolledBack(t.id)
  }

  lemma ReleaseTxTells(u: Server, t: Transaction)
    ensures var v := ReleaseTx(u, t);
      && v.log == u.log + [ReleaseCall(t)] && v.pending == u.pending - {t.id}
      && v.ledger == u.ledger && v.kinds == u.kinds && v.origin == u.origin
  {
  }

  /** Each is released in turn by the call its kind takes: none of them is alive afterwards, every other one is
      as it was, and nothing is persisted. */
  lemma {:induction false} ReleaseAllTells(u: Server, ts: seq<Transaction>)
    ensures var v := ReleaseAll(u, ts);
      && |v.log| == |u.log| + |ts| && u.log <= v.log
      && (forall i :: 0 <= i < |ts| ==> v.log[|u.log| + i] == ReleaseCall(ts[i]))
      && v.ledger == u.ledger && v.kinds == u.kinds && v.origin == u.origin
      && v.pending == map t | t in u.pending && (forall i :: 0 <= i < |ts| ==> ts[i].id != t) :: u.pending[t]
  {
    if ts != [] {
      var n := |ts| - 1;
      ReleaseAllTells(u, ts[..n]);
      ReleaseTxTells(ReleaseAll(u, ts[..n]), ts[n]);
      hide ReleaseTx, ReleaseCall;
      assert forall i :: 0 <= i < n ==> ts[..n][i] == ts[i];
    }
  }

  /** What a pass at time `now` makes of one session whose lock it gets: nothing is left of an expired one. */
  function Reaped(s: Session, now: Time, t: Timeouts): Option<Session> {
    if s.expiresAt <= now then None
    else if Idle(s, now, t) then Some(s.(tx := None))
    else Some(s)
  }

  /** An unexpired session loses its transaction to a visit iff the transaction has been idle for the timeout
      of its own kind, and nothing else; an expired one leaves the store, whatever it holds. */
  lemma VisitTells(s: Session, now: Time, t: Timeouts)
    ensures s.expiresAt <= now <==> Reaped(s, now, t).None?
    ensures now < s.expiresAt && s.tx.Some? ==>
      var tx, left := s.tx.value, Reaped(s, now, t).value;
      && (tx.kind.Read? ==> (left.tx.None? <==> t.read == 0 || now >= tx.lastActivity + t.read))
      && (tx.kind.Write? ==> (left.tx.None? <==> t.write == 0 || now >= tx.lastActivity + t.write))
      && (tx.kind.Schema? ==> (left.tx.None? <==> t.schema == 0 || now >= tx.lastActivity + t.schema))
      && left == s.(tx := left.tx) && (left.tx.Some? ==> left == s)
    ensures now < s.expiresAt && s.tx.None? ==> Reaped(s, now, t) == Some(s)
  {
  }

  /** What is taken out of a session and what is left of it make up what it held. */
  lemma TakenOrLeft(s: Session, now: Time, t: Timeouts)
    ensures var left, taken := Reaped(s, now, t), TakenFrom(s, now, t);
      && (taken.Some? ==> s.tx.Some? && taken.value == Transaction(s.tx.value.transaction, s.tx.value.kind))
      && (s.tx.Some? ==> (taken.Some? <==> left.None? || left.value.tx.None?))
  {
  }

  /** What a pass leaves of the store, if it gets the locks of all sessions but the contended ones. */
  function PassViews(views: map<SessionId, Session>, now: Time, t: Timeouts, contended: set<SessionId>)
    : map<SessionId, Session>
  {
    map id | id in views && (id in contended || Reaped(views[id], now, t).Some?) ::
      if id in contended then views[id] else Reaped(views[id], now, t).value
  }

  /** What a visit takes out of a session. */
  function TakenFrom(s: Session, now: Time, t: Timeouts): Option<Transaction> {
    if s.expiresAt <= now || Idle(s, now, t) then Kernel.Held(s) else None
  }

  lemma PassViewsAre(views: map<SessionId, Session>, after: map<SessionId, Session>, now: Time, t: Timeouts,
                     contended: set<SessionId>)
    requires after.Keys <= views.Keys
    requires forall id :: id in views && id in contended ==> id in after && after[id] == views[id]
    requires forall id :: id in views && id !in contended ==>
      var left := Reaped(views[id], now, t); (id in after <==> left.Some?) && (id in after ==> after[id] == left.value)
    ensures after == PassViews(views, now, t, contended)
  {
  }

  /** Each of the sessions `ids`, once. */
  ghost predicate OrderOf(order: seq<SessionId>, ids: set<SessionId>) {
    Distinct(order) && forall id :: id in order <==> id in ids
  }

  /** What visits to some sessions, one after the other, take out of them. */
  function TakenAlong(views: map<SessionId, Session>, order: seq<SessionId>, now: Time, t: Timeouts): seq<Transaction>
    requires forall id :: id in order ==> id in views
  {
    if order == [] then []
    else
      var n := |order| - 1;
      var taken := TakenFrom(views[order[n]], now, t);
      TakenAlong(views, order[..n], now, t) + if taken.Some? then [taken.value] else []
  }

  /** `released` is what one visit to each of the sessions `ids` takes, in some order: each transaction as
      often as a session gives it up, and no other. */
  ghost predicate TakesExactly(released: seq<Transaction>, views: map<SessionId, Session>, ids: set<SessionId>,
                               now: Time, t: Timeouts)
    requires ids <= views.Keys
  {
    exists order :: OrderOf(order, ids) && released == TakenAlong(views, order, now, t)
  }

  lemma TakesOneMore(released: seq<Transaction>, views: map<SessionId, Session>, ids: set<SessionId>, now: Time,
                     t: Timeouts, id: SessionId)
    requires ids <= views.Keys && id in views && id !in ids && TakesExactly(released, views, ids, now, t)
    ensures var taken := TakenFrom(views[id], now, t);
      TakesExactly(if taken.Some? then released + [taken.value] else released, views, ids + {id}, now, t)
  {
    var order :| OrderOf(order, ids) && released == TakenAlong(views, order, now, t);
    hide TakenFrom;
    var more := order + [id];
    assert more[..|order|] == order && more[|order|] == id;
    assert forall i :: 0 <= i < |order| ==> more[i] == order[i] && order[i] in order;
    assert OrderOf(more, ids + {id});
    assert released + [] == released;
  }

  lemma TakesNothingYet(views: map<SessionId, Session>, now: Time, t: Timeouts)
    ensures TakesExactly([], views, {}, now, t)
  {
    assert OrderOf([], {}) && TakenAlong(views, [], now, t) == [];
  }

  class SessionStore {
    var inner: map<SessionId, SessionState>

    ghost predicate Valid()
      reads this
    {
      forall a, b :: a in inner && b in inner && inner[a] == inner[b] ==> a == b
    }

    ghost function Objects(): set<SessionState>
      reads this
    {
      set id | id in inner :: inner[id]
    }

    /** The sessions as values. */
    ghost function Views(): map<SessionId, Session>
      reads this, Objects()
    {
      map id | id in inner :: inner[id].View()
    }

    constructor ()
      ensures Valid() && inner == map[]
    {
      inner := map[];
    }

    method Start(id: SessionId, now: Time, ttl: Time)
      requires Valid() && id !in inner
      modifies this
      ensures Valid() && Views() == old(Views())[id := Session({}, None, now + ttl)]
      ensures forall x :: x in old(inner) ==> x in inner && inner[x] == old(inner[x])
    {
      var state := new SessionState(now + ttl);
      inner := inner[id := state];
    }

    /** Success refreshes the deadline. An expired session leaves the store, and whoever finds it expired
        releases what it held. */
    method ResolveAndTouch(id: SessionId, now: Time, ttl: Time, driver: Driver)
      returns (r: Result<SessionState, ResolveError>)
      requires Valid()
      modifies this, Objects(), driver
      ensures Valid()
      ensures var before, u := old(Views()), old(driver.server);
        if id !in before then r == Err(Unknown) && Views() == before && driver.server == u
        else if before[id].expiresAt <= now then
          r == Err(Expired) && Views() == before - {id} && driver.server == EmptySlot(before[id], u).1
        else
          && r == Ok(old(inner[id])) && r.value in Objects()
          && Views() == before[id := before[id].(expiresAt := now + ttl)] && driver.server == u
      ensures r == Err(Expired) ==> old(inner[id]).tx == None
    {
      if id !in inner {
        return Err(Unknown);
      }
      var state := inner[id];
      if state.expiresAt <= now {
        inner := inner - {id};
        state.EmptyTheSlot(driver);
        return Err(Expired);
      }
      state.expiresAt := now + ttl;
      return Ok(state);
    }

    method Remove(id: SessionId) returns (r: Option<SessionState>)
      requires Valid()
      modifies this
      ensures Valid() && inner == old(inner) - {id}
      ensures r == if id in old(inner) then Some(old(inner[id])) else None
    {
      r := if id in inner then Some(inner[id]) else None;
      inner := inner - {id};
    }

    /** `invalidate_schema_seen_except`, and with no exception what a delete does. */
    method InvalidateSchemaSeen(database: string, except: Option<SessionId>)
      requires Valid()
      modifies Objects()
      ensures Valid() && inner == old(inner) && Views() == Invalidate(old(Views()), database, except)
    {
      var left := inner.Keys;
      while left != {}
        invariant left <= inner.Keys && Valid()
        invariant forall id :: id in inner ==>
          inner[id].View() ==
          if id in left || except == Some(id) then old(inner[id].View()) else Ungated(old(inner[id].View()), database)
        decreases left
      {
        var id :| id in left;
        left := left - {id};
        if except != Some(id) {
          inner[id].schemaSeen := inner[id].schemaSeen - {database};
        }
      }
    }

    /** The scan a delete starts with. */
    method OpenOn(database: string) returns (found: bool)
      ensures found <==> OpenIn(Views(), database)
    {
      var left := inner.Keys;
      while left != {}
        invariant left <= inner.Keys
        invariant forall id :: id in inner.Keys - left && inner[id].tx.Some? ==> inner[id].tx.value.database != database
        decreases left
      {
        var id :| id in left;
        left := left - {id};
        if inner[id].tx.Some? && inner[id].tx.value.database == database {
          assert id in Views() && Views()[id].tx.value.database == database;
          return true;
        }
      }
      return false;
    }

    /** One visit of the reaper to a session whose lock is free. */
    method Visit(id: SessionId, now: Time, t: Timeouts, driver: Driver) returns (released: Option<Transaction>)
      requires Valid() && id in inner
      modifies this, Objects(), driver
      ensures Valid() && Objects() <= old(Objects())
      ensures forall x :: x in old(inner) && x != id ==>
        x in inner && inner[x] == old(inner[x]) && inner[x].View() == old(inner[x].View())
      ensures forall x :: x in inner ==> x in old(inner) && inner[x] == old(inner[x])
      ensures var after := Reaped(old(inner[id].View()), now, t);
        if after.None? then id !in inner && old(inner[id]).tx == None
        else id in inner && inner[id].View() == after.value
      ensures var s := old(inner[id].View());
        now < s.expiresAt && s.tx.Some? ==>
          && id in inner
          && (s.tx.value.kind.Read? ==>
                (inner[id].tx.None? <==> t.read == 0 || now >= s.tx.value.lastActivity + t.read))
          && (s.tx.value.kind.Write? ==>
                (inner[id].tx.None? <==> t.write == 0 || now >= s.tx.value.lastActivity + t.write))
          && (s.tx.value.kind.Schema? ==>
                (inner[id].tx.None? <==> t.schema == 0 || now >= s.tx.value.lastActivity + t.schema))
      ensures released == TakenFrom(old(inner[id].View()), now, t)
      ensures driver.server ==
              if released.Some? then ReleaseTx(old(driver.server), released.value) else old(driver.server)
    {
      VisitTells(inner[id].View(), now, t);
      var state := inner[id];
      released := None;
      if state.expiresAt <= now {
        var removed := Remove(id);
        released := Kernel.Held(state.View());
        state.EmptyTheSlot(driver);
      } else if state.tx.Some? && Since(now, state.tx.value.lastActivity) >= IdleTimeout(t, state.tx.value.kind) {
        released := Kernel.Held(state.View());
        state.EmptyTheSlot(driver);
      }
    }

    /** One pass of the reaper: it skips the sessions whose lock is taken, visits each of the others once, and
        releases what it takes out of them, once. */
    method Pass(now: Time, t: Timeouts, contended: set<SessionId>, driver: Driver) returns (released: seq<Transaction>)
      requires Valid()
      modifies this, Objects(), driver
      ensures Valid() && Views() == PassViews(old(Views()), now, t, contended)
      ensures driver.server == ReleaseAll(old(driver.server), released)
      ensures TakesExactly(released, old(Views()), old(Views()).Keys - contended, now, t)
    {
      ghost var views := Views();
      var left := inner.Keys - contended;
      ghost var visited: set<SessionId> := {};
      released := [];
      TakesNothingYet(views, now, t);
      hide TakesExactly, TakenFrom, Reaped, PassViews, ReleaseTx;
      while left != {}
        invariant Valid() && Objects() <= old(Objects())
        invariant left + visited == old(inner).Keys - contended && left !! visited && left <= inner.Keys
        invariant forall id :: id in inner ==> id in old(inner) && inner[id] == old(inner[id])
        invariant forall id :: id in old(inner) && id !in visited ==> id in inner && inner[id].View() == views[id]
        invariant forall id :: id in visited ==>
          var left := Reaped(views[id], now, t);
          (id in inner <==> left.Some?) && (id in inner ==> inner[id].View() == left.value)
        invariant driver.server == ReleaseAll(old(driver.server), released)
        invariant TakesExactly(released, views, visited, now, t)
        decreases left
      {
        var id :| id in left;
        left := left - {id};
        TakesOneMore(released, views, visited, now, t, id);
        visited := visited + {id};
        var taken := Visit(id, now, t, driver);
        if taken.Some? {
          assert (released + [taken.value])[..|released|] == released;
          released := released + [taken.value];
        }
      }
      assert visited == views.Keys - contended;
      PassViewsAre(views, Views(), now, t, contended);
    }
  }
}
