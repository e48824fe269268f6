/** The tools that read a schema and that create and delete databases: their guards in order, the name
    reservation around the server call, and what they do to the gates. */
module Admin {
  import opened Prelude
  import opened Classifier
  import opened Coordinator
  import opened Kernel
  import opened Store

  /** `validate_database_name`: unlike a reservation it sets no upper limit on the length. */
  predicate NameAccepted(name: string) {
    name != "" && forall i :: 0 <= i < |name| ==> NameChar(name[i])
  }

  /** How the server takes one call: it may fail, and `error` is what it says if it does. */
  datatype Reply = Reply(fails: bool, error: DriverError)

  /** The databases of the server. Creating and deleting take place under a reservation of the name. */
  class Databases {
    var names: set<string>

    constructor (names: set<string>)
      ensures this.names == names
    {
      this.names := names;
    }

    method Create(name: string, reply: Reply, coordinator: OperationCoordinator) returns (r: Option<DriverError>)
      requires name in coordinator.names
      modifies this
      ensures r == if reply.fails || name in old(names) then Some(reply.error) else None
      ensures names == if r.None? then old(names) + {name} else old(names)
    {
      if reply.fails || name in names {
        return Some(reply.error);
      }
      names := names + {name};
      return None;
    }

    method Delete(name: string, reply: Reply, coordinator: OperationCoordinator) returns (r: Option<DriverError>)
      requires name in coordinator.names
      modifies this
      ensures r == if reply.fails || name !in old(names) then Some(reply.error) else None
      ensures names == if r.None? then old(names) - {name} else old(names)
    {
      if reply.fails || name !in names {
        return Some(reply.error);
      }
      names := names - {name};
      return None;
    }
  }

  /** The gate opens only for a schema that was fetched. */
  method DoGetSchema(state: SessionState, databases: Databases, database: string, reply: Reply) returns (e: Envelope)
    modifies state`schemaSeen
    ensures e == if !reply.fails && database in databases.names then Success(Value("schema")) else FailWith(reply.error)
    ensures state.schemaSeen == if e.Success? then old(state.schemaSeen) + {database} else old(state.schemaSeen)
  {
    if reply.fails || database !in databases.names {
      return FailWith(reply.error);
    }
    state.schemaSeen := state.schemaSeen + {database};
    return Success(Value("schema"));
  }

  /** Why a create or delete does not get as far as the server, first reason first. */
  function Refusal(database: string, confirmed: bool, open: bool, openElsewhere: bool, reserved: bool)
    : Option<ErrorClass>
  {
    if !NameAccepted(database) then Some(Unclassified)
    else if !confirmed then Some(ConfirmationRequired)
    else if open || openElsewhere then Some(TxAlreadyOpen)
    else if reserved || !ValidName(database) then Some(Unclassified)
    else None
  }

  /** With nothing else against it, an accepted name is refused, as if the database were busy, exactly when
      it has more than 128 characters. */
  lemma LongNamesAreBusy(name: string)
    requires NameAccepted(name)
    ensures Refusal(name, true, false, false, false) == if |name| > 128 then Some(Unclassified) else None
  {
  }

  /** Such a name. */
  lemma LongNameIsBusy()
    ensures var name := seq(129, _ => 'a');
      NameAccepted(name) && Refusal(name, true, false, false, false) == Some(Unclassified)
  {
    var name := seq(129, _ => 'a');
    assert |name| == 129;
  }

  /** What a create needs to succeed. */
  predicate Creates(name: string, open: bool, reserved: bool, present: bool, fails: bool) {
    NameAccepted(name) && !open && !reserved && ValidName(name) && !fails && !present
  }

  /** ... and a delete. */
  predicate Deletes(name: string, confirm: string, open: bool, openElsewhere: bool, reserved: bool, present: bool,
                    fails: bool)
  {
    && NameAccepted(name) && confirm == name && !open && !openElsewhere && !reserved && ValidName(name) && !fails
    && present
  }

  method DoCreateDatabase(state: SessionState, databases: Databases, coordinator: OperationCoordinator,
                          database: string, reply: Reply)
    returns (e: Envelope)
    requires coordinator.Valid()
    modifies databases, coordinator
    ensures coordinator.Valid()
    ensures coordinator.names == old(coordinator.names) && coordinator.live == old(coordinator.live)
    ensures var refusal := Refusal(database, true, state.tx.Some?, false, database in old(coordinator.names));
      refusal.Some? ==> e == Fail(refusal.value)
    ensures var open, present := old(state.tx).Some?, database in old(databases.names);
      e.Success? <==> Creates(database, open, database in old(coordinator.names), present, reply.fails)
    ensures e.Success? <==>
      (&& NameAccepted(database) && old(state.tx).None? && database !in old(coordinator.names) && ValidName(database)
       && !reply.fails && database !in old(databases.names))
    ensures e ==
      if !NameAccepted(database) then Failure(Unclassified, false)
      else if old(state.tx).Some? then Failure(TxAlreadyOpen, true)
      else if database in old(coordinator.names) || !ValidName(database) then Failure(Unclassified, false)
      else if reply.fails || database in old(databases.names) then FailWith(reply.error)
      else Success(Value("created"))
    ensures databases.names == if e.Success? then old(databases.names) + {database} else old(databases.names)
  {
    if !NameAccepted(database) {
      return Fail(Unclassified);
    }
    if state.tx.Some? {
      return Fail(TxAlreadyOpen);
    }
    var reservation := coordinator.TryReserve(database);
    if reservation.Err? {
      return Fail(Unclassified);
    }
    var failed := databases.Create(database, reply, coordinator);
    coordinator.Release(reservation.value);
    e := if failed.None? then Success(Value("created")) else FailWith(failed.value);
  }

  /** A database goes away only if it was confirmed by name and no session has a transaction open on it;
      then every session loses its gate for it, and otherwise nothing changes. */
  method DoDeleteDatabase(store: SessionStore, state: SessionState, databases: Databases,
                          coordinator: OperationCoordinator, database: string, confirm: string, reply: Reply)
    returns (e: Envelope)
    requires store.Valid() && coordinator.Valid()
    modifies databases, coordinator, store.Objects()
    ensures store.Valid() && store.inner == old(store.inner) && coordinator.Valid()
    ensures coordinator.names == old(coordinator.names) && coordinator.live == old(coordinator.live)
    ensures var before := old(store.Views());
      var refusal := Refusal(database, confirm == database, old(state.tx).Some?, OpenIn(before, database),
                             database in old(coordinator.names));
      && (refusal.Some? ==> e == Fail(refusal.value))
      && store.Views() == if e.Success? then Invalidate(before, database, None) else before
    ensures var open, openElsewhere := old(state.tx).Some?, OpenIn(old(store.Views()), database);
      var reserved, present := database in old(coordinator.names), database in old(databases.names);
      e.Success? <==> Deletes(database, confirm, open, openElsewhere, reserved, present, reply.fails)
    ensures e.Success? <==>
      (&& NameAccepted(database) && confirm == database && old(state.tx).None? && !OpenIn(old(store.Views()), database)
       && database !in old(coordinator.names) && ValidName(database)
       && !reply.fails && database in old(databases.names))
    ensures e ==
      if !NameAccepted(database) then Failure(Unclassified, false)
      else if confirm != database then Failure(ConfirmationRequired, false)
      else if old(state.tx).Some? || OpenIn(old(store.Views()), database) then Failure(TxAlreadyOpen, true)
      else if database in old(coordinator.names) || !ValidName(database) then Failure(Unclassified, false)
      else if reply.fails || database !in old(databases.names) then FailWith(reply.error)
      else Success(Value("deleted"))
    ensures databases.names == if e.Success? then old(databases.names) - {database} else old(databases.names)
  {
    hide NameAccepted, ValidName, Invalidate, OpenIn, ClassifyDriverError;
    if !NameAccepted(database) {
      return Fail(Unclassified);
    }
    if confirm != database {
      return Fail(ConfirmationRequired);
    }
    if state.tx.Some? {
      return Fail(TxAlreadyOpen);
    }
    var openElsewhere := store.OpenOn(database);
    if openElsewhere {
      return Fail(TxAlreadyOpen);
    }
    var reservation := coordinator.TryReserve(database);
    if reservation.Err? {
      return Fail(Unclassified);
    }
    var failed := databases.Delete(database, reply, coordinator);
    coordinator.Release(reservation.value);
    if failed.Some? {
      return FailWith(failed.value);
    }
    store.InvalidateSchemaSeen(database, None);
    return Success(Value("deleted"));
  }
}
