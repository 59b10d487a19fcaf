/**
  The parking-space entity: its name, its current status and its ordered,
  append-only history of transactions. Transactions are opaque to the space,
  so their type is a parameter.
*/
module Parking {
  import opened Wrappers
  import opened Lifecycle

  class ParkingSpace<T> {
    /** The label given at construction; it has no setter. */
    const name: string
    /** The current lifecycle state. */
    var status: State
    /** The history, oldest first. */
    var transactions: seq<T>

    /** A new space is vacant, carries the given name and has no history. */
    constructor (name: string)
      ensures this.name == name
      ensures status == Vacant
      ensures transactions == []
    {
      this.name := name;
      status := Vacant;
      transactions := [];
    }

    /** `occupy`: declared from `Vacant` to `Occupied`. */
    method Occupy()
      requires status == Source(Op.Occupy)
      modifies this`status
      ensures status == Occupied
      ensures Next(old(status), Op.Occupy) == Some(status)
      ensures transactions == old(transactions)
    {
      status := Occupied;
    }

    /** `vacate`: declared from `Occupied` to `Vacant`. */
    method Vacate()
      requires status == Source(Op.Vacate)
      modifies this`status
      ensures status == Vacant
      ensures Next(old(status), Op.Vacate) == Some(status)
      ensures transactions == old(transactions)
    {
      status := Vacant;
    }

    /** `removeFromService`: declared from `Vacant` to `OutOfService`. */
    method RemoveFromService()
      requires status == Source(Op.RemoveFromService)
      modifies this`status
      ensures status == OutOfService
      ensures Next(old(status), Op.RemoveFromService) == Some(status)
      ensures transactions == old(transactions)
    {
      status := OutOfService;
    }

    /** `putIntoService`: declared from `OutOfService` to `Vacant`. */
    method PutIntoService()
      requires status == Source(Op.PutIntoService)
      modifies this`status
      ensures status == Vacant
      ensures Next(old(status), Op.PutIntoService) == Some(status)
      ensures transactions == old(transactions)
    {
      status := Vacant;
    }

    /** The current history, as a value. */
    method GetTransactions() returns (ts: seq<T>)
      ensures ts == transactions
    {
      ts := transactions;
    }

    /** The current status. */
    method GetStatus() returns (s: State)
      ensures s == status
    {
      s := status;
    }

    /** The name. */
    method GetName() returns (n: string)
      ensures n == name
    {
      n := name;
    }

    /**
      The administrative override: sets the status to any value, from any
      state, with no guard, so it can also make moves the transition table
      rejects (for instance `Occupied` to `OutOfService`).
    */
    method SetStatus(s: State)
      modifies this`status
      ensures status == s
      ensures transactions == old(transactions)
    {
      status := s;
    }

    /**
      Appends one transaction at the end of the history: the earlier entries
      keep their places and order, and the status and name are unchanged.
    */
    method AddTransaction(t: T)
      modifies this`transactions
      ensures transactions == old(transactions) + [t]
      ensures old(transactions) <= transactions
      ensures status == old(status)
    {
      transactions := transactions + [t];
    }
  }
}
