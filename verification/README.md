# Parking space lifecycle

A model of `ParkingSpace`, the entity that tracks one physical parking space
in the Parking-IOT system. A space has a name, a current status (`VACANT`,
`OCCUPIED` or `OUT_OF_SERVICE`) and an ordered, append-only list of
transactions. Its status changes through four guarded transitions, each
declared by a `@StatesOnTransition(source, target)` annotation, and through an
unguarded `setStatus` override. Its history grows only at the end, through
`addTransaction`.

The project has three modules:

- `Wrappers` (`wrappers.dfy`): the `Option` datatype.
- `Lifecycle` (`lifecycle.dfy`): the status values (`State`), the four
  transitions (`Op`), the source and target each annotation declares
  (`Source`, `Target`), the transition table `Next` checked against them, runs of
  several transitions (`Run`), and the lemmas about the shape of the
  transition graph.
- `Parking` (`parking_space.dfy`): the class `ParkingSpace<T>`. Its
  `status` and `transactions` fields are updated in place by its methods;
  `name` is a constant set by the constructor, since the Java field has no
  setter.
  The transaction type is a parameter, because transactions are opaque to the
  space.

The Java transition methods are each a single assignment to `status`. They do
not check the current state themselves: the state-machine framework only
calls them from the annotated source state. The model therefore turns each
annotated source state into the method's `requires`. A request made in the
wrong state is modelled in the table, where `Next(s, op)` is `None`. The
transition methods may modify only `status`, and `AddTransaction` only
`transactions`, so their frames already guarantee that nothing else changes.

The Java transition methods raise no error for a request made in the wrong
state; the model represents such a request as `None` from `Next`, with no
diagnostic payload.

## Model

| member | source | states |
|---|---|---|
| `Lifecycle.Source` | src/main/java/com/dmd/parking_iot/ParkingSpace.java:58-82 | the declared source state of each transition; exactly `occupy` and `removeFromService` are declared from `VACANT` |
| `Lifecycle.Target` | src/main/java/com/dmd/parking_iot/ParkingSpace.java:58-82 | the declared target state of each transition; every transition changes the state, and exactly one of its source and target is `VACANT` |
| `Lifecycle.Next` | src/main/java/com/dmd/parking_iot/ParkingSpace.java:58-85 | the table accepts a transition exactly when the current state is the annotation's source (both directions), and then yields the annotation's target; otherwise the request is rejected |
| `Lifecycle.EveryEdgeTouchesVacant` | src/main/java/com/dmd/parking_iot/ParkingSpace.java:58-85 | every declared transition leaves or enters `VACANT`, and none keeps the state the same |
| `Lifecycle.NoDirectEdge` | src/main/java/com/dmd/parking_iot/ParkingSpace.java:58-85 | no transition goes from `OCCUPIED` to `OUT_OF_SERVICE` or back |
| `Lifecycle.Run` | src/main/java/com/dmd/parking_iot/ParkingSpace.java:58-85 | an empty sequence of transitions keeps the state; a successful non-empty sequence ends in the declared target of its last transition |
| `Lifecycle.RunAppend` | src/main/java/com/dmd/parking_iot/ParkingSpace.java:58-85 | performing two sequences of transitions one after the other is the same as performing their concatenation |
| `Lifecycle.RunSnoc` | src/main/java/com/dmd/parking_iot/ParkingSpace.java:58-85 | extending a sequence by one transition takes one step of the table from the state reached so far |
| `Lifecycle.NeighboursOnRun` | src/main/java/com/dmd/parking_iot/ParkingSpace.java:58-85 | on any run, two consecutive states differ and one of them is `VACANT` |
| `Lifecycle.PassesThroughVacant` | src/main/java/com/dmd/parking_iot/ParkingSpace.java:58-85 | every successful run from `OCCUPIED` to `OUT_OF_SERVICE`, or back, is in `VACANT` at some step strictly in between |
| `Lifecycle.PathTo` | src/main/java/com/dmd/parking_iot/ParkingSpace.java:58-85 | no state is terminal: from any state a run of at most two transitions reaches any state |
| `Parking.ParkingSpace.constructor` | src/main/java/com/dmd/parking_iot/ParkingSpace.java:28-53 | a new space has the given name, status `VACANT` and an empty history; the name is a constant, as the Java field has no setter |
| `Parking.ParkingSpace.Occupy` | src/main/java/com/dmd/parking_iot/ParkingSpace.java:58-61 | from `VACANT` only; afterwards the status is `OCCUPIED`, the table's step for `occupy`; history unchanged |
| `Parking.ParkingSpace.Vacate` | src/main/java/com/dmd/parking_iot/ParkingSpace.java:66-69 | from `OCCUPIED` only; afterwards the status is `VACANT`, the table's step for `vacate`; history unchanged |
| `Parking.ParkingSpace.RemoveFromService` | src/main/java/com/dmd/parking_iot/ParkingSpace.java:74-77 | from `VACANT` only; afterwards the status is `OUT_OF_SERVICE`, the table's step for `removeFromService`; history unchanged |
| `Parking.ParkingSpace.PutIntoService` | src/main/java/com/dmd/parking_iot/ParkingSpace.java:82-85 | from `OUT_OF_SERVICE` only; afterwards the status is `VACANT`, the table's step for `putIntoService`; history unchanged |
| `Parking.ParkingSpace.GetTransactions` | src/main/java/com/dmd/parking_iot/ParkingSpace.java:91-93 | returns the current history |
| `Parking.ParkingSpace.GetStatus` | src/main/java/com/dmd/parking_iot/ParkingSpace.java:99-101 | returns the current status |
| `Parking.ParkingSpace.GetName` | src/main/java/com/dmd/parking_iot/ParkingSpace.java:107-109 | returns the name |
| `Parking.ParkingSpace.SetStatus` | src/main/java/com/dmd/parking_iot/ParkingSpace.java:115-117 | no precondition: from any state the status becomes exactly the given value; history unchanged |
| `Parking.ParkingSpace.AddTransaction` | src/main/java/com/dmd/parking_iot/ParkingSpace.java:123-125 | the history becomes the old history followed by the new entry, so earlier entries keep their order; status unchanged |

## Left out

- The `id` field and its generation (lines 21-23) belong to the persistence framework; the model has no `id`.
- The `@Entity` and `@OneToMany` mappings (lines 14 and 33) are persistence concerns and are not modelled.
- The package-private no-argument constructor (line 44) exists only for the persistence framework and leaves the status null; only the public constructor is modelled.
- The `@WithStateMachine` runtime dispatch (line 15) is not modelled; only the source and target pairs it reads from the annotations are, as `requires` clauses and as the `Next` table.
- `ParkingSpaceTransaction` and `ParkingSpaceStates` are not part of this model: transactions are a type parameter, and the three states are those the class names.
- Parking.ParkingSpace.GetTransactions: returns the history as a value; the Java getter hands out the live list, through which a caller could change the history without `addTransaction`. That aliasing is not modelled.
- Concurrent callers are not modelled; the class does no locking and every operation is a single step.
- Parking.ParkingSpace.SetStatus: null arguments, which the Java accepts (a null status here, a null name in the constructor at line 50, a null entry in `addTransaction` at line 123), are excluded by the `State`, `string` and `T` types, so the model's status, name and entries are never null.
