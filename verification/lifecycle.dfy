/**
  The lifecycle of one parking space as a finite state machine: the three
  status values, the four guarded transitions declared by their
  `@StatesOnTransition(source, target)` annotations, and the transition table
  built from those annotations.
*/
module Lifecycle {
  import opened Wrappers

  /** The status of a parking space (the enum `ParkingSpaceStates`). */
  datatype State = Vacant | Occupied | OutOfService

  /** The four guarded transitions of `ParkingSpace`. */
  datatype Op = Occupy | Vacate | RemoveFromService | PutIntoService

  /**
    The `source` state each transition's annotation declares. Exactly two
    transitions are declared from `Vacant`.
  */
  function Source(op: Op): (r: State)
    ensures r == Vacant <==> (op == Occupy || op == RemoveFromService)
  {
    match op
    case Occupy => Vacant
    case Vacate => Occupied
    case RemoveFromService => Vacant
    case PutIntoService => OutOfService
  }

  /**
    The `target` state each transition's annotation declares. Every
    transition changes the state, and exactly one of its two ends is `Vacant`.
  */
  function Target(op: Op): (r: State)
    ensures r != Source(op)
    ensures r == Vacant <==> Source(op) != Vacant
  {
    match op
    case Occupy => Occupied
    case Vacate => Vacant
    case RemoveFromService => OutOfService
    case PutIntoService => Vacant
  }

  /**
    The transition table: the state that `op` leads to from `s`, or `None`
    when `op` is requested in a state other than its declared source (the
    request is rejected and the status stays as it is). It agrees with the
    annotations in both directions.
  */
  function Next(s: State, op: Op): (r: Option<State>)
    ensures r.Some? <==> s == Source(op)
    ensures r.Some? ==> r.value == Target(op)
  {
    match (s, op)
    case (Vacant, Occupy) => Some(Occupied)
    case (Occupied, Vacate) => Some(Vacant)
    case (Vacant, RemoveFromService) => Some(OutOfService)
    case (OutOfService, PutIntoService) => Some(Vacant)
    case _ => None
  }

  /**
    Every declared transition leaves or enters `Vacant`: the transition graph
    is a star around `Vacant`, so no edge joins `Occupied` and `OutOfService`
    in either direction, and no transition is a self-loop.
  */
  lemma EveryEdgeTouchesVacant(s: State, op: Op, t: State)
    requires Next(s, op) == Some(t)
    ensures s == Vacant || t == Vacant
    ensures s != t
  {
  }

  /** No single transition goes between `Occupied` and `OutOfService`. */
  lemma NoDirectEdge(op: Op)
    ensures Next(Occupied, op) != Some(OutOfService)
    ensures Next(OutOfService, op) != Some(Occupied)
  {
  }

  /**
    The state reached by performing the transitions `ops` in order from `s`,
    or `None` as soon as one of them is requested outside its source state.
    A non-empty sequence that succeeds ends in the target of its last
    transition.
  */
  function Run(s: State, ops: seq<Op>): (r: Option<State>)
    ensures ops == [] ==> r == Some(s)
    ensures r.Some? && ops != [] ==> r.value == Target(ops[|ops| - 1])
    decreases ops
  {
    if ops == [] then Some(s)
    else
      match Next(s, ops[0])
      case None => None
      case Some(t) => Run(t, ops[1..])
  }

  /** Performing `a` and then `b` is performing `a + b`. */
  lemma {:induction false} RunAppend(s: State, a: seq<Op>, b: seq<Op>)
    ensures Run(s, a + b) == match Run(s, a) { case None => None case Some(m) => Run(m, b) }
    decreases a
  {
    if a == [] {
      assert a + b == b;
    } else {
      assert (a + b)[0] == a[0];
      assert (a + b)[1..] == a[1..] + b;
      match Next(s, a[0])
      case None =>
      case Some(t) => RunAppend(t, a[1..], b);
    }
  }

  /**
    Extending a run by one transition takes one step of the table from the
    state the shorter run reached.
  */
  lemma RunSnoc(s: State, ops: seq<Op>, op: Op)
    ensures Run(s, ops + [op]) == match Run(s, ops) { case None => None case Some(m) => Next(m, op) }
  {
    RunAppend(s, ops, [op]);
    match Run(s, ops)
    case None =>
    case Some(m) => assert [op][1..] == [];
  }

  /**
    Along any run, two consecutive states are never `Occupied` and
    `OutOfService` (in either order): every run between them passes through
    `Vacant` at the step in between.
  */
  lemma {:induction false} NeighboursOnRun(s: State, ops: seq<Op>, i: nat, x: State, y: State)
    requires i < |ops|
    requires Run(s, ops[..i]) == Some(x) && Run(s, ops[..i + 1]) == Some(y)
    ensures x == Vacant || y == Vacant
    ensures x != y
  {
    assert ops[..i + 1] == ops[..i] + [ops[i]];
    RunSnoc(s, ops[..i], ops[i]);
    EveryEdgeTouchesVacant(x, ops[i], y);
  }

  /**
    Every run of declared transitions from `Occupied` to `OutOfService`, or
    from `OutOfService` to `Occupied`, visits `Vacant` strictly in between.
  */
  lemma {:induction false} PassesThroughVacant(s: State, ops: seq<Op>, t: State)
    requires s != Vacant && t != Vacant && s != t
    requires Run(s, ops) == Some(t)
    ensures exists k :: 0 < k < |ops| && Run(s, ops[..k]) == Some(Vacant)
  {
    assert ops != [];
    var first := Next(s, ops[0]);
    EveryEdgeTouchesVacant(s, ops[0], first.value);
    assert ops[..1] == [ops[0]];
    assert Run(s, ops[..1]) == Some(Vacant) by {
      assert ops[..1][1..] == [];
    }
  }

  /**
    There is no terminal state: from any state a short run of declared
    transitions reaches any other, so every state can be revisited.
  */
  function PathTo(s: State, t: State): (ops: seq<Op>)
    ensures Run(s, ops) == Some(t)
    ensures |ops| <= 2
  {
    match (s, t)
    case (Vacant, Vacant) => []
    case (Vacant, Occupied) => [Occupy]
    case (Vacant, OutOfService) => [RemoveFromService]
    case (Occupied, Vacant) => [Vacate]
    case (Occupied, Occupied) => []
    case (Occupied, OutOfService) => [Vacate, RemoveFromService]
    case (OutOfService, Vacant) => [PutIntoService]
    case (OutOfService, Occupied) => [PutIntoService, Occupy]
    case (OutOfService, OutOfService) => []
  }
}
