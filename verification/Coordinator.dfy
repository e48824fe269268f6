/** Process-local reservations of database names for destructive operations. */
module Coordinator {
  import opened Prelude

  predicate NameChar(c: char) {
    'a' <= c <= 'z' || 'A' <= c <= 'Z' || '0' <= c <= '9' || c == '_' || c == '-'
  }

  predicate ValidName(name: string) {
    0 < |name| <= 128 && forall i :: 0 <= i < |name| ==> NameChar(name[i])
  }

  datatype ReservationError = Busy(name: string) | InvalidName

  class NameReservation {
    const name: string

    constructor (name: string)
      ensures this.name == name
    {
      this.name := name;
    }
  }

  class OperationCoordinator {
    var names: set<string>
    /** The reservations handed out and not yet dropped. */
    ghost var live: set<NameReservation>

    /** The names are those of the live reservations, one reservation each. */
    ghost predicate Valid()
      reads this
    {
      && (forall r :: r in live ==> r.name in names)
      && (forall n :: n in names ==> exists r :: r in live && r.name == n)
      && (forall r, q :: r in live && q in live && r.name == q.name ==> r == q)
    }

    constructor ()
      ensures Valid() && names == {} && live == {}
    {
      names, live := {}, {};
    }

    method TryReserve(name: string) returns (r: Result<NameReservation, ReservationError>)
      requires Valid()
      modifies this
      ensures Valid()
      ensures r.Ok? <==> ValidName(name) && name !in old(names)
      ensures r.Ok? ==> r.value.name == name && r.value !in old(live) && live == old(live) + {r.value}
      ensures r.Ok? ==> names == old(names) + {name}
      ensures r.Err? ==> names == old(names) && live == old(live)
      ensures r == Err(InvalidName) <==> !ValidName(name)
    {
      if !ValidName(name) {
        return Err(InvalidName);
      }
      if name in names {
        return Err(Busy(name));
      }
      var reservation := new NameReservation(name);
      names := names + {name};
      live := live + {reservation};
      return Ok(reservation);
    }

    /** `Drop` of a reservation: its name, and only its name, is free again. */
    method Release(r: NameReservation)
      requires Valid() && r in live
      modifies this
      ensures Valid() && live == old(live) - {r} && names == old(names) - {r.name}
    {
      names := names - {r.name};
      live := live - {r};
      assert forall n :: n in names ==> exists q :: q in old(live) && q.name == n && q != r;
    }

    method IsReserved(name: string) returns (b: bool)
      requires Valid()
      ensures b <==> exists r :: r in live && r.name == name
    {
      b := name in names;
    }
  }
}
