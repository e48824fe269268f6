/** The database server behind the driver, as far as transactions and their writes are concerned.

    Any call may fail. Two things are taken from the driver: a commit that returns an error has persisted
    nothing, and a transaction that ends without a successful commit has its writes discarded. */
module Upstream {
  import opened Prelude

  datatype TxKind = Read | Write | Schema

  type TxId = nat
  type WriteId = nat

  /** What has been asked of the server, in order. `Dropped` is a driver handle that goes away unasked. */
  datatype WireOp =
    | Opened(t: TxId) | Queried(t: TxId)
    | Committed(t: TxId, ok: bool) | RolledBack(t: TxId) | ClosedTx(t: TxId) | Dropped(t: TxId)

  /** `kinds` are the transactions ever opened, `pending` those still alive and what they have written so
      far, `origin` the writes ever executed. */
  datatype Server = Server(
    kinds: map<TxId, TxKind>, pending: map<TxId, seq<WriteId>>, origin: map<WriteId, TxId>,
    ledger: seq<WriteId>, discarded: set<WriteId>, log: seq<WireOp>, nextTx: TxId, nextWrite: WriteId)

  const NO_TRANSACTIONS := Server(map[], map[], map[], [], {}, [], 0, 0)

  function Said(s: Server, op: WireOp): Server {
    s.(log := s.log + [op])
  }

  /** Transaction `t`, if still alive, is gone, and so are its writes. */
  function Lose(s: Server, t: TxId): Server {
    if t !in s.pending then s
    else s.(pending := s.pending - {t}, discarded := s.discarded + (set w | w in s.pending[t]))
  }

  function FreshWrites(from: WriteId, n: nat): (ws: seq<WriteId>)
    ensures |ws| == n && forall i :: 0 <= i < n ==> ws[i] == from + i
  {
    seq(n, i requires 0 <= i < n => from + i)
  }

  function Added(s: Server, kind: TxKind): Server {
    s.(kinds := s.kinds[s.nextTx := kind], pending := s.pending[s.nextTx := []], nextTx := s.nextTx + 1)
  }

  function Begin(s: Server, kind: TxKind): Server {
    Said(Added(s, kind), Opened(s.nextTx))
  }

  /** A query executes some writes, none of them in a READ transaction or in a dead one. */
  function Execute(s: Server, t: TxId, wrote: nat): Server {
    if t !in s.pending || (t in s.kinds && s.kinds[t].Read?) then s
    else
      var ws := FreshWrites(s.nextWrite, wrote);
      s.(pending := s.pending[t := s.pending[t] + ws], nextWrite := s.nextWrite + wrote,
         origin := s.origin + (map w | w in ws :: t))
  }

  /** A query, after which the server may have torn the transaction down. */
  function Query(s: Server, t: TxId, wrote: nat, torn: bool): Server {
    var e := Said(Execute(s, t, wrote), Queried(t));
    if torn then Lose(e, t) else e
  }

  function Commit(s: Server, t: TxId, accepts: bool): Server {
    if accepts && t in s.pending then
      Said(s.(ledger := s.ledger + s.pending[t], pending := s.pending - {t}), Committed(t, true))
    else Said(Lose(s, t), Committed(t, false))
  }

  function Rollback(s: Server, t: TxId): Server {
    Said(Lose(s, t), RolledBack(t))
  }

  function Close(s: Server, t: TxId): Server {
    Said(Lose(s, t), ClosedTx(t))
  }

  function Drop(s: Server, t: TxId): Server {
    Said(Lose(s, t), Dropped(t))
  }

  // ---- what is true of the server's books ---------------------------------------------------

  predicate Ends(op: WireOp, t: TxId) {
    !op.Opened? && !op.Queried? && op.t == t
  }

  predicate Finished(log: seq<WireOp>, t: TxId) {
    exists i :: 0 <= i < |log| && Ends(log[i], t)
  }

  /** Transactions opened and not ended by the client. */
  function Unfinished(s: Server): set<TxId> {
    set t | t in s.kinds && !Finished(s.log, t)
  }

  ghost predicate Distinct<T>(q: seq<T>) {
    forall i, j :: 0 <= i < j < |q| ==> q[i] != q[j]
  }

  ghost predicate IdsOk(s: Server) {
    && (forall t :: t in s.kinds ==> t < s.nextTx)
    && (forall w :: w in s.origin ==> w < s.nextWrite && s.origin[w] in s.kinds && !s.kinds[s.origin[w]].Read?)
  }

  ghost predicate LogOk(s: Server) {
    && (forall i :: 0 <= i < |s.log| ==> s.log[i].t in s.kinds)
    && (forall i, j, t :: 0 <= i < j < |s.log| && Ends(s.log[i], t) ==> !Ends(s.log[j], t))
    && (forall i :: 0 <= i < |s.log| && (s.log[i].Committed? || s.log[i].RolledBack?) ==> !s.kinds[s.log[i].t].Read?)
  }

  ghost predicate PendingOk(s: Server) {
    && (forall t :: t in s.pending ==> t in s.kinds && !Finished(s.log, t) && Distinct(s.pending[t]))
    && (forall t, w :: t in s.pending && w in s.pending[t] ==> w in s.origin && s.origin[w] == t)
  }

  /** While a transaction is alive its writes are pending and nowhere else; afterwards each of them is in
      the ledger or discarded, not both, and in the ledger if the transaction was committed. */
  ghost predicate WritesOk(s: Server) {
    && (forall w :: w in s.origin && s.origin[w] in s.pending ==>
          w in s.pending[s.origin[w]] && w !in s.ledger && w !in s.discarded)
    && (forall w :: w in s.origin && s.origin[w] !in s.pending ==> (w in s.ledger <==> w !in s.discarded))
    && (forall w :: w in s.ledger || w in s.discarded ==> w in s.origin)
    && (forall w :: w in s.origin ==> (w in s.ledger <==> Committed(s.origin[w], true) in s.log))
    && Distinct(s.ledger)
  }

  ghost predicate BooksOk(s: Server) {
    IdsOk(s) && LogOk(s) && PendingOk(s) && WritesOk(s)
  }

  /** Nothing is ever taken back. */
  ghost predicate Grows(s: Server, u: Server) {
    && (forall t :: t in s.kinds ==> t in u.kinds && u.kinds[t] == s.kinds[t])
    && (forall w :: w in s.origin ==> w in u.origin && u.origin[w] == s.origin[w])
    && s.ledger <= u.ledger && s.discarded <= u.discarded && s.log <= u.log
  }

  lemma GrowsFurther(s: Server, u: Server, v: Server)
    requires Grows(s, u) && Grows(u, v)
    ensures Grows(s, v)
  {
  }

  lemma FinishedAfter(log: seq<WireOp>, op: WireOp, t: TxId)
    ensures Finished(log + [op], t) <==> Finished(log, t) || Ends(op, t)
  {
    var after := log + [op];
    assert after[|log|] == op && forall i :: 0 <= i < |log| ==> after[i] == log[i];
  }

  lemma SaidKeepsLog(s: Server, op: WireOp)
    requires LogOk(s) && op.t in s.kinds
    requires Ends(op, op.t) ==> !Finished(s.log, op.t)
    requires op.Committed? || op.RolledBack? ==> !s.kinds[op.t].Read?
    ensures LogOk(Said(s, op))
    ensures Unfinished(Said(s, op)) == Unfinished(s) - (if Ends(op, op.t) then {op.t} else {})
  {
    var log := Said(s, op).log;
    assert forall i :: 0 <= i < |s.log| ==> log[i] == s.log[i];
    forall t
      ensures Finished(log, t) <==> Finished(s.log, t) || Ends(op, t)
    {
      FinishedAfter(s.log, op, t);
    }
  }

  /** Saying anything but a successful commit changes nothing but the log. */
  lemma SaidKeeps(s: Server, op: WireOp)
    requires BooksOk(s) && op.t in s.kinds
    requires Ends(op, op.t) ==> !Finished(s.log, op.t) && op.t !in s.pending
    requires op.Committed? || op.RolledBack? ==> !s.kinds[op.t].Read?
    requires op.Committed? ==> !op.ok
    ensures BooksOk(Said(s, op)) && Grows(s, Said(s, op))
    ensures Unfinished(Said(s, op)) == Unfinished(s) - (if Ends(op, op.t) then {op.t} else {})
  {
    SaidKeepsLog(s, op);
    hide LogOk, Unfinished;
    var log := Said(s, op).log;
    forall t | t in s.pending
      ensures !Finished(log, t)
    {
      FinishedAfter(s.log, op, t);
    }
    hide Finished;
    assert forall w :: w in s.origin ==>
      (Committed(s.origin[w], true) in log <==> Committed(s.origin[w], true) in s.log);
  }

  lemma LoseKeeps(s: Server, t: TxId)
    requires BooksOk(s)
    ensures BooksOk(Lose(s, t)) && Grows(s, Lose(s, t))
    ensures Unfinished(Lose(s, t)) == Unfinished(s) && t !in Lose(s, t).pending
    ensures Lose(s, t).ledger == s.ledger && Lose(s, t).log == s.log && Lose(s, t).kinds == s.kinds
  {
    hide Finished;
    assert forall w :: w in s.origin && s.origin[w] in s.pending ==> Committed(s.origin[w], true) !in s.log;
  }

  lemma OpenKeeps(s: Server, kind: TxKind)
    requires BooksOk(s)
    ensures var u := Begin(s, kind);
      && BooksOk(u) && Grows(s, u) && s.nextTx !in s.kinds && u.kinds[s.nextTx] == kind
      && Unfinished(u) == Unfinished(s) + {s.nextTx} && u.ledger == s.ledger
      && s.nextTx in u.pending && u.pending[s.nextTx] == []
  {
    var t := s.nextTx;
    hide BooksOk, Unfinished, Finished, Grows;
    AddedUnfinished(s, kind);
    AddedKeeps(s, kind);
    AddedGrows(s, kind);
    SaidKeeps(Added(s, kind), Opened(t));
    GrowsFurther(s, Added(s, kind), Begin(s, kind));
  }

  lemma AddedUnfinished(s: Server, kind: TxKind)
    requires BooksOk(s)
    ensures Unfinished(Added(s, kind)) == Unfinished(s) + {s.nextTx}
    ensures !Finished(s.log, s.nextTx) && s.nextTx !in s.kinds
  {
    assert !Finished(s.log, s.nextTx);
  }

  lemma AddedKeeps(s: Server, kind: TxKind)
    requires BooksOk(s) && !Finished(s.log, s.nextTx) && s.nextTx !in s.kinds
    ensures BooksOk(Added(s, kind))
  {
    hide Finished;
    assert IdsOk(Added(s, kind)) && LogOk(Added(s, kind));
    hide LogOk;
  }

  lemma AddedGrows(s: Server, kind: TxKind)
    requires s.nextTx !in s.kinds
    ensures Grows(s, Added(s, kind))
  {
  }

  /** What executing fresh writes `ws` in a live transaction amounts to. */
  lemma ExecutedWrites(s: Server, t: TxId, wrote: nat)
    requires IdsOk(s) && PendingOk(s) && t in s.pending && !s.kinds[t].Read?
    ensures var u, ws := Execute(s, t, wrote), FreshWrites(s.nextWrite, wrote);
      && (forall w :: w in ws <==> s.nextWrite <= w < s.nextWrite + wrote)
      && Distinct(u.pending[t])
      && (forall w :: w in u.pending[t] <==> w in s.pending[t] || w in ws)
      && (forall w :: w in u.origin <==> w in s.origin || w in ws)
      && (forall w :: w in ws ==> w !in s.origin && u.origin[w] == t)
      && (forall w :: w in s.origin ==> u.origin[w] == s.origin[w])
  {
    hide Finished;
    var u, ws := Execute(s, t, wrote), FreshWrites(s.nextWrite, wrote);
    forall w: WriteId | s.nextWrite <= w < s.nextWrite + wrote
      ensures w in ws
    {
      assert ws[w - s.nextWrite] == w;
    }
    var q, all := s.pending[t], u.pending[t];
    forall w | w in s.pending[t]
      ensures w < s.nextWrite
    {
      assert w in s.origin;
    }
    assert forall i :: 0 <= i < |q| ==> all[i] == q[i] && q[i] in q;
    assert forall i :: |q| <= i < |all| ==> all[i] == s.nextWrite + (i - |q|);
  }

  lemma ExecuteGrows(s: Server, t: TxId, wrote: nat)
    requires BooksOk(s)
    ensures var u := Execute(s, t, wrote);
      Grows(s, u) && Unfinished(u) == Unfinished(s) && u.ledger == s.ledger && u.log == s.log && u.kinds == s.kinds
  {
    hide Finished, LogOk, WritesOk, Distinct;
    if t in s.pending && !s.kinds[t].Read? {
      ExecutedWrites(s, t, wrote);
    }
  }

  lemma ExecuteKeepsPending(s: Server, t: TxId, wrote: nat)
    requires BooksOk(s) && t in s.pending && !s.kinds[t].Read?
    ensures var u := Execute(s, t, wrote); IdsOk(u) && LogOk(u) && PendingOk(u)
  {
    hide Finished, WritesOk;
    ExecutedWrites(s, t, wrote);
    assert LogOk(Execute(s, t, wrote));
    hide FreshWrites, Distinct, LogOk;
  }

  lemma ExecuteKeepsWrites(s: Server, t: TxId, wrote: nat)
    requires BooksOk(s) && t in s.pending && !s.kinds[t].Read?
    ensures WritesOk(Execute(s, t, wrote))
  {
    hide Finished, LogOk;
    ExecutedWrites(s, t, wrote);
    hide FreshWrites, Distinct;
    NotCommitted(s.log, t);
  }

  lemma ExecuteKeeps(s: Server, t: TxId, wrote: nat)
    requires BooksOk(s)
    ensures BooksOk(Execute(s, t, wrote))
  {
    if t in s.pending && !s.kinds[t].Read? {
      ExecuteKeepsPending(s, t, wrote);
      ExecuteKeepsWrites(s, t, wrote);
      hide IdsOk, LogOk, PendingOk, WritesOk;
    }
  }

  lemma NotDropped(log: seq<WireOp>, t: TxId)
    requires !Finished(log, t)
    ensures Dropped(t) !in log
  {
  }

  lemma NotCommitted(log: seq<WireOp>, t: TxId)
    requires !Finished(log, t)
    ensures Committed(t, true) !in log
  {
  }

  lemma CommitKeepsPending(s: Server, t: TxId)
    requires BooksOk(s) && t in s.pending && !s.kinds[t].Read?
    ensures var u := Commit(s, t, true); IdsOk(u) && LogOk(u) && PendingOk(u) && Unfinished(u) == Unfinished(s) - {t}
  {
    var u, op := Commit(s, t, true), Committed(t, true);
    SaidKeepsLog(s, op);
    assert LogOk(u) && Unfinished(u) == Unfinished(s) - {t};
    hide LogOk, Unfinished, WritesOk, Distinct;
    forall x | x in u.pending
      ensures !Finished(u.log, x)
    {
      FinishedAfter(s.log, op, x);
    }
    hide Finished;
  }

  lemma CommitKeepsWrites(s: Server, t: TxId)
    requires BooksOk(s) && t in s.pending && !s.kinds[t].Read?
    ensures WritesOk(Commit(s, t, true))
  {
    hide Finished, LogOk, Grows;
    var u, op := Commit(s, t, true), Committed(t, true);
    assert forall w :: w in u.ledger <==> w in s.ledger || w in s.pending[t];
    assert forall o :: o in u.log <==> o in s.log || o == op;
    assert Distinct(u.ledger) by {
      assert forall i :: 0 <= i < |s.ledger| ==> s.ledger[i] in s.ledger;
      assert forall i :: 0 <= i < |s.pending[t]| ==> s.pending[t][i] in s.pending[t];
    }
    hide Distinct;
  }

  /** A successful commit: all the pending writes of the transaction, in order, and no others. */
  lemma CommitKeeps(s: Server, t: TxId)
    requires BooksOk(s) && t in s.pending && !s.kinds[t].Read?
    ensures var u := Commit(s, t, true);
      BooksOk(u) && Unfinished(u) == Unfinished(s) - {t} && u.ledger == s.ledger + s.pending[t] && u.kinds == s.kinds
  {
    CommitKeepsPending(s, t);
    CommitKeepsWrites(s, t);
    hide IdsOk, LogOk, PendingOk, WritesOk, Unfinished;
  }

  lemma CommitGrows(s: Server, t: TxId)
    ensures Grows(s, Commit(s, t, true))
  {
  }

  // ---- what happens to a transaction somebody holds -------------------------------------------

  /** A driver handle. */
  datatype Transaction = Transaction(id: TxId, kind: TxKind)

  function Ids(a: Option<Transaction>): set<TxId> {
    if a.Some? then {a.value.id} else {}
  }

  predicate Holds(s: Server, a: Option<Transaction>) {
    a.Some? ==> a.value.id in Unfinished(s) && s.kinds[a.value.id] == a.value.kind
  }

  /** A holder of handle `a` ends up with handle `b`: the books stay in order, what it no longer has is
      finished, and what it newly has was opened meanwhile. */
  ghost predicate Moves(a: Option<Transaction>, s: Server, b: Option<Transaction>, u: Server) {
    && BooksOk(u) && Grows(s, u) && Holds(u, b)
    && Unfinished(u) == (Unfinished(s) - Ids(a)) + Ids(b)
    && (b.Some? ==> Ids(a) == Ids(b) || b.value.id !in s.kinds)
  }

  lemma NothingMoves(a: Option<Transaction>, s: Server)
    requires BooksOk(s) && Holds(s, a)
    ensures Moves(a, s, a, s)
  {
    hide BooksOk;
  }

  lemma MovesThen(a: Option<Transaction>, s: Server, b: Option<Transaction>, u: Server, c: Option<Transaction>,
                  v: Server)
    requires BooksOk(s) && Holds(s, a) && Moves(a, s, b, u) && Moves(b, u, c, v)
    ensures Moves(a, s, c, v)
  {
    hide BooksOk, Finished;
    assert b.Some? && b.value.id !in s.kinds ==> b.value.id !in Unfinished(s);
    hide Unfinished;
  }

  lemma BeginMoves(s: Server, kind: TxKind)
    requires BooksOk(s)
    ensures Moves(None, s, Some(Transaction(s.nextTx, kind)), Begin(s, kind))
    ensures Begin(s, kind).ledger == s.ledger
  {
    OpenKeeps(s, kind);
    hide BooksOk, Grows, Unfinished;
  }

  lemma LoseMoves(a: Option<Transaction>, s: Server, t: TxId)
    requires BooksOk(s) && Holds(s, a)
    ensures Moves(a, s, a, Lose(s, t)) && Lose(s, t).ledger == s.ledger
  {
    LoseKeeps(s, t);
    hide BooksOk, Grows, Unfinished;
  }

  lemma ExecuteMoves(s: Server, t: Transaction, wrote: nat)
    requires BooksOk(s) && Holds(s, Some(t))
    ensures Moves(Some(t), s, Some(t), Execute(s, t.id, wrote)) && Execute(s, t.id, wrote).ledger == s.ledger
  {
    ExecuteGrows(s, t.id, wrote);
    ExecuteKeeps(s, t.id, wrote);
    hide BooksOk, Grows, Unfinished;
  }

  lemma HeldIsOpen(s: Server, t: Transaction)
    requires Holds(s, Some(t))
    ensures t.id in s.kinds && !Finished(s.log, t.id) && s.kinds[t.id] == t.kind
  {
    hide Finished;
  }

  lemma SaidMoves(s: Server, t: Transaction, op: WireOp)
    requires BooksOk(s) && Holds(s, Some(t)) && op.t == t.id
    requires Ends(op, t.id) ==> t.id !in s.pending
    requires op.Committed? || op.RolledBack? ==> !t.kind.Read?
    requires op.Committed? ==> !op.ok
    ensures Moves(Some(t), s, if Ends(op, t.id) then None else Some(t), Said(s, op))
  {
    HeldIsOpen(s, t);
    SaidKeeps(s, op);
    hide BooksOk, Grows, Unfinished, Finished;
  }

  lemma QueryMoves(s: Server, t: Transaction, wrote: nat, torn: bool)
    requires BooksOk(s) && Holds(s, Some(t))
    ensures Moves(Some(t), s, Some(t), Query(s, t.id, wrote, torn)) && Query(s, t.id, wrote, torn).ledger == s.ledger
  {
    var e := Execute(s, t.id, wrote);
    ExecuteMoves(s, t, wrote);
    SaidMoves(e, t, Queried(t.id));
    var q := Said(e, Queried(t.id));
    MovesThen(Some(t), s, Some(t), e, Some(t), q);
    if torn {
      LoseMoves(Some(t), q, t.id);
      MovesThen(Some(t), s, Some(t), q, Some(t), Lose(q, t.id));
    }
    hide BooksOk, Grows, Unfinished, Execute, Lose;
  }

  /** Ending a transaction without a successful commit. */
  lemma EndMoves(s: Server, t: Transaction, op: WireOp)
    requires BooksOk(s) && Holds(s, Some(t)) && Ends(op, t.id)
    requires op.Committed? || op.RolledBack? ==> !t.kind.Read?
    requires op.Committed? ==> !op.ok
    ensures Moves(Some(t), s, None, Said(Lose(s, t.id), op)) && Said(Lose(s, t.id), op).ledger == s.ledger
  {
    hide BooksOk, Grows, Unfinished, Finished;
    LoseMoves(Some(t), s, t.id);
    assert t.id !in Lose(s, t.id).pending;
    SaidMoves(Lose(s, t.id), t, op);
    MovesThen(Some(t), s, Some(t), Lose(s, t.id), None, Said(Lose(s, t.id), op));
  }

  lemma CommitMoves(s: Server, t: Transaction, accepts: bool)
    requires BooksOk(s) && Holds(s, Some(t)) && !t.kind.Read?
    ensures Moves(Some(t), s, None, Commit(s, t.id, accepts))
    ensures Commit(s, t.id, accepts).ledger == s.ledger + if accepts && t.id in s.pending then s.pending[t.id] else []
  {
    if accepts && t.id in s.pending {
      HeldIsOpen(s, t);
      CommitKeeps(s, t.id);
      CommitGrows(s, t.id);
      hide BooksOk, Grows, Unfinished;
    } else {
      EndMoves(s, t, Committed(t.id, false));
      assert s.ledger + [] == s.ledger;
      hide BooksOk, Grows, Unfinished;
    }
  }
}
